/** The older renderer in `fetchAndSavePrayerTimes` of the first plugin version:
    the city is fixed to New York, the table always has three columns, and the
    third column shows the local time five hours later. */
module LegacyTable {
  import opened Text
  import opened Clock
  import opened Feed
  import opened PrayerTable

  const City: string := "New York"

  /** The settings fields the older renderer reads. */
  datatype LegacySettings = LegacySettings(
    prayersToInclude: seq<string>,
    includeDate: bool,
    includeLocation: bool,
    dateFormat: string,
    timeFormat24h: bool)

  /** The time of day five hours after `t`, wrapping past midnight. */
  function FiveHoursLater(t: Minute): (r: Minute)
    ensures t < MinutesPerDay - 5 * 60 ==> r == t + 5 * 60
    ensures t >= MinutesPerDay - 5 * 60 ==> r == t + 5 * 60 - MinutesPerDay
    ensures Shift(r, -5 * 60) == t
  {
    ShiftBack(t, 5 * 60);
    Shift(t, 5 * 60)
  }

  /** The three-cell row of one kept timing: the current renderer's row with a
      UTC column at offset minus five hours, since "five hours later" and "UTC
      at UTC-5" are the same time of day. */
  function LegacyRow(settings: LegacySettings, t: Timing, formatTime: TimeFormatter): (r: string)
    ensures r == Row(AsConfig(settings), t, formatTime)
  {
    var hour12 := !settings.timeFormat24h;
    var etFormattedTime := formatTime(t.time, hour12);
    var fiveHoursLaterFormatted := formatTime(FiveHoursLater(t.time), hour12);
    assert UtcTime(t.time, -5) == FiveHoursLater(t.time);
    "| " + PadEnd(t.name, 12) + " | " + PadEnd(etFormattedTime, 8) + " | " + PadEnd(fiveHoursLaterFormatted, 8) + " |"
  }

  /** One row per kept timing, in feed order: the current renderer's rows
      under `AsConfig`. */
  function LegacyRows(settings: LegacySettings, timings: seq<Timing>, formatTime: TimeFormatter): (rs: seq<string>)
    ensures rs == Rows(AsConfig(settings), timings, formatTime)
  {
    var kept := Selected(timings, settings.prayersToInclude);
    seq(|kept|, i requires 0 <= i < |kept| => LegacyRow(settings, kept[i], formatTime))
  }

  /** The settings under which the current renderer behaves as this one: the
      fixed city, the older settings' own fields, and a UTC column whose time is
      always five hours after local time. */
  function AsConfig(settings: LegacySettings): (cfg: Config)
    ensures cfg.city == City && cfg.includeUtcTime
    ensures cfg.prayersToInclude == settings.prayersToInclude && cfg.timeFormat24h == settings.timeFormat24h
    ensures forall t: Minute :: UtcTime(t, cfg.utcOffset) == FiveHoursLater(t)
  {
    Config(City, settings.prayersToInclude, settings.includeDate, settings.includeLocation,
           settings.dateFormat, settings.timeFormat24h, true, -5)
  }

  /** Every older row has three columns, whatever the settings, like the
      header and the divider, when no name or formatted time holds a bar. */
  lemma LegacyColumns(settings: LegacySettings, t: Timing, formatTime: TimeFormatter)
    requires '|' !in t.name
    requires forall m: Minute, hour12: bool :: '|' !in formatTime(m, hour12)
    ensures Count(LegacyRow(settings, t, formatTime), '|') == 4
    ensures Count(Header(true), '|') == Count(Divider(true), '|') == 4
  {
    RowColumns(AsConfig(settings), t, formatTime);
  }

  /** The older content, line by line: the Date line when `includeDate`, a
      Location line naming New York and an empty line when `includeLocation`,
      the three-column header and divider, the rows (a single empty line when
      there is none) and the empty remainder after the final newline. */
  lemma LegacyDocumentLines(settings: LegacySettings, formattedDate: string, timings: seq<Timing>,
                            formatTime: TimeFormatter)
    requires '\n' !in formattedDate
    requires forall i :: 0 <= i < |timings| ==> '\n' !in timings[i].name
    requires forall m: Minute, hour12: bool :: '\n' !in formatTime(m, hour12)
    ensures var rows := LegacyRows(settings, timings, formatTime);
      Split(Document(AsConfig(settings), formattedDate, rows), '\n')
        == (if settings.includeDate then ["**Date:** " + formattedDate] else [])
         + (if settings.includeLocation then ["**Location:** " + City, ""] else [])
         + [HeaderWithUtc, DividerWithUtc]
         + (if rows == [] then [""] else rows)
         + [""]
  {
    RowsSingleLines(AsConfig(settings), timings, formatTime);
    assert '\n' !in City;
    DocumentLines(AsConfig(settings), formattedDate, LegacyRows(settings, timings, formatTime));
  }

  /** `fetchAndSavePrayerTimes` once the response body is parsed: the shape
      check, the date formatting, the rows and the content it writes to the
      note. The result is what the current renderer gives for `AsConfig`. */
  method FetchAndSavePrayerTimes(body: Option<Response>, settings: LegacySettings,
                                 formatTime: TimeFormatter, formatDate: DateFormatter)
    returns (r: Result<string>)
    ensures !HasDate(body) ==> r == Failure(InvalidData)
    ensures HasDate(body) && TimingsOf(body).None? ==> r == Failure(TimingsNotAnObject)
    ensures HasDate(body) && TimingsOf(body).Some? ==>
      r == Success(Document(AsConfig(settings), formatDate(ReadableDate(body), settings.dateFormat),
                            Rows(AsConfig(settings), TimingsOf(body).value, formatTime)))
  {
    if body.None? || body.value.data.None? || body.value.data.value.date.None? {
      return Failure(InvalidData);
    }
    var day := body.value.data.value;
    var rawDate := day.date.value.readable;
    var formattedDate := formatDate(rawDate, settings.dateFormat);
    if day.timings.None? {
      return Failure(TimingsNotAnObject);
    }
    var rows := LegacyRows(settings, day.timings.value, formatTime);
    var formattedPrayerTimes := Join(rows, "\n");
    var content := LegacyContent(settings, formattedDate, formattedPrayerTimes);
    return Success(content);
  }

  /** The `let content` part of `fetchAndSavePrayerTimes`: the optional Date
      and Location lines, then the fixed three-column header and divider and
      the joined rows. */
  method LegacyContent(settings: LegacySettings, formattedDate: string, formattedPrayerTimes: string)
    returns (content: string)
    ensures content == DateLine(settings.includeDate, formattedDate)
                       + LocationLine(settings.includeLocation, City)
                       + Table(true, formattedPrayerTimes)
  {
    content := "";
    if settings.includeDate {
      content := content + "**Date:** " + formattedDate + "\n";
    }
    assert content == DateLine(settings.includeDate, formattedDate);
    ghost var front := content;
    if settings.includeLocation {
      content := content + "**Location:** " + City + "\n\n";
    }
    assert content == front + LocationLine(settings.includeLocation, City);
    front := content;
    content := content + HeaderWithUtc + "\n";
    content := content + DividerWithUtc + "\n";
    content := content + formattedPrayerTimes + "\n";
    TableAppended(front, HeaderWithUtc, DividerWithUtc, formattedPrayerTimes);
  }
}
