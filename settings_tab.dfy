/** The settings tab: the "Prayers to include" text area, which shows the list
    joined by ", " and stores the edited text split at commas and trimmed, and
    the `onChange` handlers, each of which updates one field of the plugin's
    settings object. */
module SettingsTab {
  import opened Text
  import opened Feed
  import opened PrayerTable

  /** `value.split(",").map((prayer) => prayer.trim())`: one name per
      comma-separated segment, in input order, without surrounding whitespace. */
  function ParsePrayers(value: string): (r: seq<string>)
    ensures |r| == Count(value, ',') + 1
    ensures forall i :: 0 <= i < |r| ==> IsTrimmed(r[i])
  {
    var parts := Split(value, ',');
    seq(|parts|, i requires 0 <= i < |parts| => Trim(parts[i]))
  }

  /** `prayersToInclude.join(", ")`, the text the text area shows: empty for
      no names, and otherwise opening with the first name and closing with the
      last. */
  function DisplayPrayers(names: seq<string>): (text: string)
    ensures names == [] ==> text == ""
    ensures |names| >= 1 ==> StartsWith(text, names[0]) && EndsWith(text, names[|names| - 1])
  {
    Join(names, ", ")
  }

  /** No parsed name holds a comma. */
  lemma ParsedHaveNoComma(value: string)
    ensures forall i :: 0 <= i < |ParsePrayers(value)| ==> ',' !in ParsePrayers(value)[i]
  {
    var parts := Split(value, ',');
    forall i | 0 <= i < |parts| ensures ',' !in ParsePrayers(value)[i] {
      TrimAbsent(parts[i], ',');
    }
  }

  /** Splitting a text that opens with a space: the space stays on the first piece. */
  lemma SplitSpaced(tail: string)
    ensures Split(" " + tail, ',') == [" " + Split(tail, ',')[0]] + Split(tail, ',')[1..]
  {
    assert (" " + tail)[1..] == tail;
  }

  lemma CommaSpace(first: string, tail: string)
    ensures first + ", " + tail == first + [','] + (" " + tail)
  {
    assert ", " == [','] + " ";
  }

  /** The pieces of the displayed text at its commas: the first name, then every
      other name behind the space of its separator. */
  lemma {:induction false} SplitDisplay(names: seq<string>)
    requires |names| >= 1
    requires forall i :: 0 <= i < |names| ==> ',' !in names[i]
    ensures var pieces := Split(DisplayPrayers(names), ',');
      && |pieces| == |names|
      && pieces[0] == names[0]
      && forall i :: 1 <= i < |names| ==> pieces[i] == " " + names[i]
  {
    if |names| == 1 {
      SplitAbsent(names[0], ',');
    } else {
      var rest := names[1..];
      SplitDisplay(rest);
      var tail := DisplayPrayers(rest);
      CommaSpace(names[0], tail);
      SplitFirst(names[0], " " + tail, ',');
      SplitSpaced(tail);
      var pieces := Split(tail, ',');
      assert Split(DisplayPrayers(names), ',') == [names[0]] + ([" " + pieces[0]] + pieces[1..]);
    }
  }

  /** The shown text of comma-free names has one comma fewer than there are
      names, so parsing it gives as many names back. */
  lemma DisplayCommas(names: seq<string>)
    requires |names| >= 1
    requires forall i :: 0 <= i < |names| ==> ',' !in names[i]
    ensures Count(DisplayPrayers(names), ',') == |names| - 1
  {
    SplitDisplay(names);
  }

  /** Parsing the displayed text of a non-empty list of names that hold no comma
      and no surrounding whitespace gives the list back. */
  lemma ParseDisplay(names: seq<string>)
    requires |names| >= 1
    requires forall i :: 0 <= i < |names| ==> ',' !in names[i] && IsTrimmed(names[i])
    ensures ParsePrayers(DisplayPrayers(names)) == names
  {
    SplitDisplay(names);
    var pieces := Split(DisplayPrayers(names), ',');
    forall i | 0 <= i < |names| ensures Trim(pieces[i]) == names[i] {
      if i == 0 {
        TrimTrimmed(names[i]);
      } else {
        TrimSpaced(names[i]);
      }
    }
  }

  /** What the text area shows, parsed back, is what was stored: showing and
      re-entering a parsed list changes nothing. */
  lemma DisplayParseStable(value: string)
    ensures ParsePrayers(DisplayPrayers(ParsePrayers(value))) == ParsePrayers(value)
  {
    ParsedHaveNoComma(value);
    ParseDisplay(ParsePrayers(value));
  }

  /** Blank text parses to a single empty name. */
  lemma ParseBlank(value: string)
    requires forall i :: 0 <= i < |value| ==> IsWhitespace(value[i])
    ensures ParsePrayers(value) == [""]
  {
    forall i | 0 <= i < |value| ensures value[i] != ',' {
      assert IsWhitespace(value[i]);
    }
    assert ',' !in value;
    SplitAbsent(value, ',');
    TrimBlank(value);
    assert ParsePrayers(value)[0] == Trim(value);
  }

  /** The single empty name of blank text matches no feed entry whose name is
      not empty: every row is dropped. */
  lemma BlankSelectsNothing(value: string, timings: seq<Timing>)
    requires forall i :: 0 <= i < |value| ==> IsWhitespace(value[i])
    requires forall i :: 0 <= i < |timings| ==> timings[i].name != ""
    ensures Selected(timings, ParsePrayers(value)) == []
  {
    ParseBlank(value);
    SelectedNone(timings, [""]);
  }

  /** Every field of the settings object, as one value. */
  datatype SettingsValues = SettingsValues(
    fetchOnLaunch: bool,
    fetchOnNoteOpen: bool,
    timeFormat24h: bool,
    prayersToInclude: seq<string>,
    city: string,
    includeDate: bool,
    includeLocation: bool,
    dateFormat: string,
    includeUtcTime: bool,
    utcOffset: int)

  /** `plugin.settings`, shared by the tab and the renderer, with the fields the
      tab's handlers write and the renderer reads. */
  class PluginSettings {
    var fetchOnLaunch: bool
    var fetchOnNoteOpen: bool
    var timeFormat24h: bool
    var prayersToInclude: seq<string>
    var city: string
    var includeDate: bool
    var includeLocation: bool
    var dateFormat: string
    var includeUtcTime: bool
    var utcOffset: int

    function Values(): SettingsValues
      reads this
    {
      SettingsValues(fetchOnLaunch, fetchOnNoteOpen, timeFormat24h, prayersToInclude, city,
                     includeDate, includeLocation, dateFormat, includeUtcTime, utcOffset)
    }

    /** The fields the renderer destructures from the settings. */
    function RenderConfig(): Config
      reads this
    {
      Config(city, prayersToInclude, includeDate, includeLocation, dateFormat, timeFormat24h,
             includeUtcTime, utcOffset)
    }

    /** The settings as loaded. */
    constructor (initial: SettingsValues)
      ensures Values() == initial
    {
      fetchOnLaunch := initial.fetchOnLaunch;
      fetchOnNoteOpen := initial.fetchOnNoteOpen;
      timeFormat24h := initial.timeFormat24h;
      prayersToInclude := initial.prayersToInclude;
      city := initial.city;
      includeDate := initial.includeDate;
      includeLocation := initial.includeLocation;
      dateFormat := initial.dateFormat;
      includeUtcTime := initial.includeUtcTime;
      utcOffset := initial.utcOffset;
    }

    /** The text the "Prayers to include" text area shows. */
    function PrayersText(): string
      reads this
    {
      DisplayPrayers(prayersToInclude)
    }

    /** A stored list of comma-free, trimmed names survives being shown in the
        text area and parsed back: re-entering the shown text changes nothing. */
    lemma PrayersTextRoundTrip()
      requires |prayersToInclude| >= 1
      requires forall i :: 0 <= i < |prayersToInclude| ==>
                 ',' !in prayersToInclude[i] && IsTrimmed(prayersToInclude[i])
      ensures ParsePrayers(PrayersText()) == prayersToInclude
    {
      ParseDisplay(prayersToInclude);
    }

    /** "Fetch on app launch" toggle. */
    method OnFetchOnLaunchChange(value: bool)
      modifies this
      ensures Values() == old(Values()).(fetchOnLaunch := value)
      ensures RenderConfig() == old(RenderConfig())
    {
      fetchOnLaunch := value;
    }

    /** "Fetch on note open" toggle. */
    method OnFetchOnNoteOpenChange(value: bool)
      modifies this
      ensures Values() == old(Values()).(fetchOnNoteOpen := value)
      ensures RenderConfig() == old(RenderConfig())
    {
      fetchOnNoteOpen := value;
    }

    /** "24-hour time format" toggle. */
    method OnTimeFormat24hChange(value: bool)
      modifies this
      ensures Values() == old(Values()).(timeFormat24h := value)
      ensures RenderConfig() == old(RenderConfig()).(timeFormat24h := value)
    {
      timeFormat24h := value;
    }

    /** "Prayers to include" text area: the text is stored as its parsed list. */
    method OnPrayersToIncludeChange(value: string)
      modifies this
      ensures Values() == old(Values()).(prayersToInclude := ParsePrayers(value))
      ensures |prayersToInclude| == Count(value, ',') + 1
      ensures forall i :: 0 <= i < |prayersToInclude| ==> IsTrimmed(prayersToInclude[i])
      ensures RenderConfig() == old(RenderConfig()).(prayersToInclude := ParsePrayers(value))
    {
      prayersToInclude := ParsePrayers(value);
    }

    /** "City" text field: the city is stored trimmed. */
    method OnCityChange(value: string)
      modifies this
      ensures Values() == old(Values()).(city := Trim(value))
      ensures IsTrimmed(city)
      ensures RenderConfig() == old(RenderConfig()).(city := Trim(value))
    {
      var trimmed := Trim(value);
      city := trimmed;
    }

    /** "Include date" toggle. */
    method OnIncludeDateChange(value: bool)
      modifies this
      ensures Values() == old(Values()).(includeDate := value)
      ensures RenderConfig() == old(RenderConfig()).(includeDate := value)
    {
      includeDate := value;
    }

    /** "Include location" toggle. */
    method OnIncludeLocationChange(value: bool)
      modifies this
      ensures Values() == old(Values()).(includeLocation := value)
      ensures RenderConfig() == old(RenderConfig()).(includeLocation := value)
    {
      includeLocation := value;
    }

    /** "Date format" dropdown. */
    method OnDateFormatChange(value: string)
      modifies this
      ensures Values() == old(Values()).(dateFormat := value)
      ensures RenderConfig() == old(RenderConfig()).(dateFormat := value)
    {
      dateFormat := value;
    }
  }
}
