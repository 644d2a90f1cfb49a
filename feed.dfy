/** The parsed response of the prayer-times service as both renderers read it,
    the shape check they apply to it, and the filter that keeps the timings the
    user asked for. */
module Feed {
  import opened Clock

  datatype Option<T> = None | Some(value: T)

  /** One entry of `data.data.timings`: a prayer name and its local time of day. */
  datatype Timing = Timing(name: string, time: Minute)

  /** `data.data.date`; only its `readable` text is used. */
  datatype DateInfo = DateInfo(readable: string)

  /** `data.data`. `timings` is `None` when the field is absent or null, which
      `Object.entries` refuses. */
  datatype Day = Day(date: Option<DateInfo>, timings: Option<seq<Timing>>)

  /** The response body `data`; its `data` field may be absent. */
  datatype Response = Response(data: Option<Day>)

  /** Why a render produced no content: the shape check failed ("Invalid data
      received from API"), or `Object.entries` threw on missing timings. */
  datatype FetchError = InvalidData | TimingsNotAnObject

  datatype Result<T> = Success(value: T) | Failure(error: FetchError)

  /** The guard `data && data.data && data.data.date`; `None` is a null body. */
  predicate HasDate(body: Option<Response>)
  {
    body.Some? && body.value.data.Some? && body.value.data.value.date.Some?
  }

  /** `data.data.date.readable` of a body that passed the guard. */
  function ReadableDate(body: Option<Response>): string
    requires HasDate(body)
  {
    body.value.data.value.date.value.readable
  }

  /** `data.data.timings` of a body that passed the guard. */
  function TimingsOf(body: Option<Response>): Option<seq<Timing>>
    requires HasDate(body)
  {
    body.value.data.value.timings
  }

  /** `Object.entries(timings).filter(([key]) => prayersToInclude.includes(key))`,
      the entries whose name the user listed, in feed order. */
  function Selected(timings: seq<Timing>, wanted: seq<string>): (r: seq<Timing>)
    ensures |r| <= |timings|
    ensures forall i :: 0 <= i < |r| ==> r[i].name in wanted
  {
    if timings == [] then []
    else (if timings[0].name in wanted then [timings[0]] else []) + Selected(timings[1..], wanted)
  }

  /** An entry is kept exactly when it is in the feed and its name is listed. */
  lemma {:induction false} SelectedMembers(timings: seq<Timing>, wanted: seq<string>, t: Timing)
    ensures t in Selected(timings, wanted) <==> t in timings && t.name in wanted
  {
    if timings != [] {
      SelectedMembers(timings[1..], wanted, t);
      assert timings == [timings[0]] + timings[1..];
    }
  }

  /** Every kept entry comes from the feed. */
  lemma SelectedFromFeed(timings: seq<Timing>, wanted: seq<string>)
    ensures forall i :: 0 <= i < |Selected(timings, wanted)| ==> Selected(timings, wanted)[i] in timings
  {
    var kept := Selected(timings, wanted);
    forall i | 0 <= i < |kept| ensures kept[i] in timings {
      SelectedMembers(timings, wanted, kept[i]);
    }
  }

  /** The filter keeps feed order: it distributes over concatenation of the feed. */
  lemma {:induction false} SelectedConcat(a: seq<Timing>, b: seq<Timing>, wanted: seq<string>)
    ensures Selected(a + b, wanted) == Selected(a, wanted) + Selected(b, wanted)
  {
    if a == [] {
      assert a + b == b;
    } else {
      var head := if a[0].name in wanted then [a[0]] else [];
      assert (a + b)[0] == a[0];
      assert (a + b)[1..] == a[1..] + b;
      assert Selected(a + b, wanted) == head + Selected(a[1..] + b, wanted);
      SelectedConcat(a[1..], b, wanted);
      assert head + (Selected(a[1..], wanted) + Selected(b, wanted))
          == head + Selected(a[1..], wanted) + Selected(b, wanted);
    }
  }

  /** Only which names are listed matters, not their order nor repetitions. */
  lemma {:induction false} SelectedSameNames(timings: seq<Timing>, wanted1: seq<string>, wanted2: seq<string>)
    requires forall n :: n in wanted1 <==> n in wanted2
    ensures Selected(timings, wanted1) == Selected(timings, wanted2)
  {
    if timings != [] {
      SelectedSameNames(timings[1..], wanted1, wanted2);
    }
  }

  /** When every name is listed, the whole feed is kept. */
  lemma {:induction false} SelectedAll(timings: seq<Timing>, wanted: seq<string>)
    requires forall i :: 0 <= i < |timings| ==> timings[i].name in wanted
    ensures Selected(timings, wanted) == timings
  {
    if timings != [] {
      SelectedAll(timings[1..], wanted);
      assert [timings[0]] + timings[1..] == timings;
    }
  }

  /** When no name is listed, nothing is kept. */
  lemma {:induction false} SelectedNone(timings: seq<Timing>, wanted: seq<string>)
    requires forall i :: 0 <= i < |timings| ==> timings[i].name !in wanted
    ensures Selected(timings, wanted) == []
  {
    if timings != [] {
      SelectedNone(timings[1..], wanted);
    }
  }
}
