/** The renderer of `fetchPrayerTimes`: from a parsed response and the settings
    it destructures to the Markdown content of the prayer-times note, an
    optional Date line, an optional Location line, then a table with a UTC
    column when `includeUtcTime` holds. */
module PrayerTable {
  import opened Text
  import opened Clock
  import opened Feed

  /** The settings fields the renderer reads. */
  datatype Config = Config(
    city: string,
    prayersToInclude: seq<string>,
    includeDate: bool,
    includeLocation: bool,
    dateFormat: string,
    timeFormat24h: bool,
    includeUtcTime: bool,
    utcOffset: int)

  /** `toLocaleTimeString("en-US", {hour: "numeric", minute: "2-digit", hour12})`
      as the renderer sees it: a text for a time of day and the `hour12` flag. */
  type TimeFormatter = (Minute, bool) -> string

  /** `window.moment(raw, "DD MMM YYYY").format(dateFormat)`: a text for the
      feed's readable date and the chosen format. */
  type DateFormatter = (string, string) -> string

  /** The header and divider lines, written cell by cell:
      `| Prayer       | Time       |`, `| Prayer       | Time       | Time (UTC) |`,
      `|--------------|------------|` and `|--------------|------------|------------|`. */
  const HeaderPlain: string := "|" + " Prayer       " + "|" + " Time       " + "|"
  const HeaderWithUtc: string := "|" + " Prayer       " + "|" + " Time       " + "|" + " Time (UTC) " + "|"
  const DividerPlain: string := "|" + "--------------" + "|" + "------------" + "|"
  const DividerWithUtc: string := "|" + "--------------" + "|" + "------------" + "|" + "------------" + "|"

  /** The header line: three columns with a UTC column (four bars), two
      without (three bars); 42 or 29 characters wide. */
  function Header(withUtc: bool): (h: string)
    ensures Count(h, '|') == if withUtc then 4 else 3
    ensures '\n' !in h
    ensures |h| > 0 && h[0] == '|'
    ensures |h| == if withUtc then 42 else 29
  {
    HeaderPlainBars();
    HeaderWithUtcBars();
    if withUtc then HeaderWithUtc else HeaderPlain
  }

  /** The divider line, with as many columns as the header and as wide, made
      of bars and dashes only. */
  function Divider(withUtc: bool): (d: string)
    ensures Count(d, '|') == if withUtc then 4 else 3
    ensures forall i :: 0 <= i < |d| ==> d[i] == '|' || d[i] == '-'
    ensures |d| == if withUtc then 42 else 29
  {
    DividerPlainBars();
    DividerWithUtcBars();
    if withUtc then DividerWithUtc else DividerPlain
  }

  /** The time of day shown in the UTC column: `utcOffset` whole hours before the
      local time, so that adding the offset back gives the local time. */
  function UtcTime(t: Minute, utcOffset: int): (u: Minute)
    ensures Shift(u, 60 * utcOffset) == t
    ensures (u - (t - 60 * utcOffset)) % MinutesPerDay == 0
  {
    ShiftBack(t, -60 * utcOffset);
    Shift(t, -60 * utcOffset)
  }

  /** The table row of one kept timing. It opens with the prayer name; when the
      name fits in 12 characters and the formatted times in 8, padding makes
      every row the same width, 27 characters, or 38 with the UTC column. That
      is two characters per Time cell narrower than the header, which Markdown
      tables tolerate. */
  function Row(cfg: Config, t: Timing, formatTime: TimeFormatter): (r: string)
    ensures StartsWith(r, "| " + t.name)
    ensures |t.name| <= 12 && |formatTime(t.time, !cfg.timeFormat24h)| <= 8
            && |formatTime(UtcTime(t.time, cfg.utcOffset), !cfg.timeFormat24h)| <= 8
            ==> |r| == if cfg.includeUtcTime then 38 else 27
  {
    var hour12 := !cfg.timeFormat24h;
    var local := formatTime(t.time, hour12);
    var utc := if cfg.includeUtcTime then formatTime(UtcTime(t.time, cfg.utcOffset), hour12) else "";
    var opening := "| " + PadEnd(t.name, 12);
    assert opening[..|"| " + t.name|] == "| " + t.name;
    if cfg.includeUtcTime then
      opening + " | " + PadEnd(local, 8) + " | " + PadEnd(utc, 8) + " |"
    else
      opening + " | " + PadEnd(local, 8) + " |"
  }

  /** The filter-then-map pipeline: one row per kept timing, in feed order, and
      every row is the row of a feed entry whose name is listed. */
  function Rows(cfg: Config, timings: seq<Timing>, formatTime: TimeFormatter): (rs: seq<string>)
    ensures |rs| <= |timings|
    ensures forall i :: 0 <= i < |rs| ==> RowOfListed(cfg, timings, formatTime, rs[i])
  {
    var kept := Selected(timings, cfg.prayersToInclude);
    KeptRowsListed(cfg, timings, formatTime);
    seq(|kept|, i requires 0 <= i < |kept| => Row(cfg, kept[i], formatTime))
  }

  /** `r` is the row of some feed entry whose name is listed. */
  ghost predicate RowOfListed(cfg: Config, timings: seq<Timing>, formatTime: TimeFormatter, r: string)
  {
    exists t :: t in timings && t.name in cfg.prayersToInclude && r == Row(cfg, t, formatTime)
  }

  /** The row of each kept timing is the row of a listed feed entry. */
  lemma KeptRowsListed(cfg: Config, timings: seq<Timing>, formatTime: TimeFormatter)
    ensures forall t :: t in Selected(timings, cfg.prayersToInclude) ==>
      RowOfListed(cfg, timings, formatTime, Row(cfg, t, formatTime))
  {
    forall t | t in Selected(timings, cfg.prayersToInclude)
      ensures RowOfListed(cfg, timings, formatTime, Row(cfg, t, formatTime))
    {
      SelectedMembers(timings, cfg.prayersToInclude, t);
    }
  }

  /** The Date line: present exactly when `includeDate` holds, and then the
      bold label, the formatted date and a newline. */
  function DateLine(includeDate: bool, formattedDate: string): (l: string)
    ensures l == "" <==> !includeDate
    ensures includeDate ==> StartsWith(l, "**Date:** " + formattedDate) && EndsWith(l, "\n")
  {
    if includeDate then
      var line := "**Date:** " + formattedDate;
      assert (line + "\n")[..|line|] == line;
      line + "\n"
    else ""
  }

  /** The Location line: present exactly when `includeLocation` holds, and
      then the bold label, the city and a blank line. */
  function LocationLine(includeLocation: bool, city: string): (l: string)
    ensures l == "" <==> !includeLocation
    ensures includeLocation ==> StartsWith(l, "**Location:** " + city) && EndsWith(l, "\n\n")
  {
    if includeLocation then
      var line := "**Location:** " + city;
      assert (line + "\n\n")[..|line|] == line;
      line + "\n\n"
    else ""
  }

  /** Header, divider, the joined rows, and a final newline: it opens with the
      header's first bar and always ends with a newline. */
  function Table(withUtc: bool, joinedRows: string): (t: string)
    ensures |t| > 0 && t[0] == '|' && t[|t| - 1] == '\n'
    ensures StartsWith(t, Header(withUtc) + "\n" + Divider(withUtc) + "\n")
  {
    var top := Header(withUtc) + "\n" + Divider(withUtc) + "\n";
    assert (top + (joinedRows + "\n"))[..|top|] == top;
    assert (top + (joinedRows + "\n"))[0] == Header(withUtc)[0];
    top + joinedRows + "\n"
  }

  /** Appending the table's parts one by one appends the table. */
  lemma TableAppended(front: string, header: string, divider: string, joinedRows: string)
    ensures front + header + "\n" + divider + "\n" + joinedRows + "\n"
         == front + (header + "\n" + divider + "\n" + joinedRows + "\n")
  {
  }

  /** The content the renderer returns, for the formatted date and the rows;
      it always ends with a newline and ends with the last row's text. */
  function Document(cfg: Config, formattedDate: string, rows: seq<string>): (r: string)
    ensures |r| > 0 && r[|r| - 1] == '\n'
    ensures rows != [] ==> EndsWith(r, rows[|rows| - 1] + "\n")
  {
    var front := DateLine(cfg.includeDate, formattedDate) + LocationLine(cfg.includeLocation, cfg.city);
    var joined := Join(rows, "\n");
    var top := Header(cfg.includeUtcTime) + "\n" + Divider(cfg.includeUtcTime) + "\n";
    TableEnding(front, top, joined, if rows == [] then "" else rows[|rows| - 1]);
    front + Table(cfg.includeUtcTime, joined)
  }

  /** Whatever stands in front of a table, the result ends with a newline, and
      with the last row's text before it. */
  lemma TableEnding(front: string, top: string, joined: string, last: string)
    ensures var w := front + (top + joined + "\n"); |w| > 0 && w[|w| - 1] == '\n'
    ensures EndsWith(joined, last) ==> EndsWith(front + (top + joined + "\n"), last + "\n")
  {
    var w := front + (top + joined + "\n");
    assert w == (front + top) + (joined + "\n");
    if EndsWith(joined, last) {
      assert w[|w| - |last + "\n"|..] == joined[|joined| - |last|..] + "\n";
    }
  }

  /** The content is the Date line, then the Location line, then the table. */
  lemma DocumentParts(cfg: Config, formattedDate: string, rows: seq<string>)
    ensures Document(cfg, formattedDate, rows)
         == DateLine(cfg.includeDate, formattedDate)
            + (LocationLine(cfg.includeLocation, cfg.city) + Table(cfg.includeUtcTime, Join(rows, "\n")))
  {
    AppendAssoc(DateLine(cfg.includeDate, formattedDate), LocationLine(cfg.includeLocation, cfg.city),
                Table(cfg.includeUtcTime, Join(rows, "\n")));
  }

  /** A table without rows, behind anything, ends with the divider line and an
      empty line. */
  lemma EmptyTableTail(front: string, header: string, divider: string)
    ensures EndsWith(front + ((header + "\n" + divider + "\n") + "" + "\n"), divider + "\n\n")
  {
    var w := front + ((header + "\n" + divider + "\n") + "" + "\n");
    assert w == (front + header + "\n") + (divider + "\n\n");
  }

  /** Without rows, the content ends with the divider line and one empty line. */
  lemma DocumentEnd(cfg: Config, formattedDate: string)
    ensures EndsWith(Document(cfg, formattedDate, []), Divider(cfg.includeUtcTime) + "\n\n")
  {
    DocumentParts(cfg, formattedDate, []);
    AppendAssoc(DateLine(cfg.includeDate, formattedDate), LocationLine(cfg.includeLocation, cfg.city),
                Table(cfg.includeUtcTime, Join([], "\n")));
    assert Join([], "\n") == "";
    EmptyTableTail(DateLine(cfg.includeDate, formattedDate) + LocationLine(cfg.includeLocation, cfg.city),
                   Header(cfg.includeUtcTime), Divider(cfg.includeUtcTime));
  }

  /** A line made of a tag, a value and an ending, followed by anything,
      starts with the tag and with the whole line. */
  lemma LabelledLine(tag: string, value: string, ending: string, rest: string)
    ensures StartsWith(tag + value + ending + rest, tag)
    ensures StartsWith(tag + value + ending + rest, tag + value + ending)
  {
    var s := tag + value + ending + rest;
    assert s[..|tag|] == tag;
    assert s[..|tag + value + ending|] == tag + value + ending;
  }

  /** The optional Date line in front of text that opens with a bar or with
      the Location label: it opens with `**Date:** ` exactly when it is there. */
  lemma DateInFront(includeDate: bool, formattedDate: string, rest: string)
    requires (|rest| > 0 && rest[0] == '|') || StartsWith(rest, "**Location:** ")
    ensures StartsWith(DateLine(includeDate, formattedDate) + rest, "**Date:** ") <==> includeDate
    ensures includeDate ==> StartsWith(DateLine(includeDate, formattedDate) + rest, "**Date:** " + formattedDate + "\n")
  {
    if includeDate {
      LabelledLine("**Date:** ", formattedDate, "\n", rest);
    } else {
      assert DateLine(includeDate, formattedDate) + rest == rest;
      if StartsWith(rest, "**Location:** ") {
        OtherPrefix(rest, "**Location:** ", "**Date:** ", 2);
      } else {
        NotPrefixAt(rest, "**Date:** ", 0);
      }
    }
  }

  /** The content starts with `**Date:** ` exactly when `includeDate` holds,
      and then it starts with the whole Date line, whatever the date and city. */
  lemma DateLineFirst(cfg: Config, formattedDate: string, rows: seq<string>)
    ensures StartsWith(Document(cfg, formattedDate, rows), "**Date:** ") <==> cfg.includeDate
    ensures cfg.includeDate ==> StartsWith(Document(cfg, formattedDate, rows), "**Date:** " + formattedDate + "\n")
  {
    var table := Table(cfg.includeUtcTime, Join(rows, "\n"));
    var rest := LocationLine(cfg.includeLocation, cfg.city) + table;
    DocumentParts(cfg, formattedDate, rows);
    LocationInFront(cfg.includeLocation, cfg.city, table);
    if !cfg.includeLocation {
      assert rest == table;
    }
    DateInFront(cfg.includeDate, formattedDate, rest);
  }

  /** The optional Location line in front of a table: it opens with
      `**Location:** ` exactly when it is there. */
  lemma LocationInFront(includeLocation: bool, city: string, table: string)
    requires |table| > 0 && table[0] == '|'
    ensures var rest := LocationLine(includeLocation, city) + table;
      && (StartsWith(rest, "**Location:** ") <==> includeLocation)
      && (includeLocation ==> StartsWith(rest, "**Location:** " + city + "\n\n"))
  {
    if includeLocation {
      LabelledLine("**Location:** ", city, "\n\n", table);
    } else {
      NotPrefixAt(LocationLine(includeLocation, city) + table, "**Location:** ", 0);
    }
  }

  /** After the optional Date line, the content continues with `**Location:** `
      exactly when `includeLocation` holds, and then with the whole Location
      line and its blank line. */
  lemma LocationLineNext(cfg: Config, formattedDate: string, rows: seq<string>)
    ensures var rest := Document(cfg, formattedDate, rows)[|DateLine(cfg.includeDate, formattedDate)|..];
      && (StartsWith(rest, "**Location:** ") <==> cfg.includeLocation)
      && (cfg.includeLocation ==> StartsWith(rest, "**Location:** " + cfg.city + "\n\n"))
  {
    var table := Table(cfg.includeUtcTime, Join(rows, "\n"));
    DocumentParts(cfg, formattedDate, rows);
    DropFront(DateLine(cfg.includeDate, formattedDate), LocationLine(cfg.includeLocation, cfg.city) + table);
    LocationInFront(cfg.includeLocation, cfg.city, table);
  }

  /** `fetchPrayerTimes` once the response body is parsed: the shape check, the
      date formatting, the rows, and the content. */
  method FetchPrayerTimes(body: Option<Response>, settings: Config,
                          formatTime: TimeFormatter, formatDate: DateFormatter)
    returns (r: Result<string>)
    ensures !HasDate(body) ==> r == Failure(InvalidData)
    ensures HasDate(body) && TimingsOf(body).None? ==> r == Failure(TimingsNotAnObject)
    ensures HasDate(body) && TimingsOf(body).Some? ==>
      r == Success(Document(settings, formatDate(ReadableDate(body), settings.dateFormat),
                            Rows(settings, TimingsOf(body).value, formatTime)))
  {
    if body.None? || body.value.data.None? || body.value.data.value.date.None? {
      return Failure(InvalidData);
    }
    var day := body.value.data.value;
    var rawDate := day.date.value.readable;
    var formattedDate := formatDate(rawDate, settings.dateFormat);
    if day.timings.None? {
      return Failure(TimingsNotAnObject);
    }
    var formattedPrayerTimes := Join(Rows(settings, day.timings.value, formatTime), "\n");
    var content := AssembleContent(settings, formattedDate, formattedPrayerTimes);
    return Success(content);
  }

  /** The `let content` part of `fetchPrayerTimes`: the optional Date and
      Location lines, the header and divider for the column count, and the
      joined rows, appended one after the other. */
  method AssembleContent(settings: Config, formattedDate: string, formattedPrayerTimes: string)
    returns (content: string)
    ensures content == DateLine(settings.includeDate, formattedDate)
                       + LocationLine(settings.includeLocation, settings.city)
                       + Table(settings.includeUtcTime, formattedPrayerTimes)
  {
    content := "";
    if settings.includeDate {
      content := content + "**Date:** " + formattedDate + "\n";
    }
    assert content == DateLine(settings.includeDate, formattedDate);
    ghost var front := content;
    if settings.includeLocation {
      content := content + "**Location:** " + settings.city + "\n\n";
    }
    assert content == front + LocationLine(settings.includeLocation, settings.city);
    front := content;
    content := content + Header(settings.includeUtcTime) + "\n";
    content := content + Divider(settings.includeUtcTime) + "\n";
    content := content + formattedPrayerTimes + "\n";
    TableAppended(front, Header(settings.includeUtcTime), Divider(settings.includeUtcTime), formattedPrayerTimes);
  }

  /** Lines of a table whose header, divider and rows are single lines. */
  lemma {:induction false} TableLines(header: string, divider: string, rows: seq<string>)
    requires '\n' !in header && '\n' !in divider
    requires forall i :: 0 <= i < |rows| ==> '\n' !in rows[i]
    ensures Split(header + "\n" + divider + "\n" + Join(rows, "\n") + "\n", '\n')
         == [header, divider] + (if rows == [] then [""] else rows) + [""]
  {
    var joined := Join(rows, "\n");
    SplitTwoLines(header, divider, joined, '\n');
    if rows != [] {
      SplitJoin(rows, '\n');
    } else {
      assert Split(joined, '\n') == [""];
    }
  }

  lemma LinesRegrouped(a: seq<string>, b: seq<string>, c: seq<string>, d: seq<string>, e: seq<string>)
    ensures a + (b + (c + d + e)) == a + b + c + d + e
  {
  }

  /** Lines of the optional Location line, its blank line and what follows. */
  lemma LocationLines(includeLocation: bool, city: string, table: string)
    requires '\n' !in city
    ensures Split(LocationLine(includeLocation, city) + table, '\n')
         == (if includeLocation then ["**Location:** " + city, ""] else []) + Split(table, '\n')
  {
    if includeLocation {
      var loc := "**Location:** " + city;
      assert LocationLine(true, city) + table == loc + "\n" + ("" + "\n" + table);
      SplitFirst(loc, "" + "\n" + table, '\n');
      SplitFirst("", table, '\n');
    } else {
      assert LocationLine(false, city) + table == table;
    }
  }

  /** Lines of the optional Date line and what follows. */
  lemma DateLines(includeDate: bool, formattedDate: string, rest: string)
    requires '\n' !in formattedDate
    ensures Split(DateLine(includeDate, formattedDate) + rest, '\n')
         == (if includeDate then ["**Date:** " + formattedDate] else []) + Split(rest, '\n')
  {
    if includeDate {
      SplitFirst("**Date:** " + formattedDate, rest, '\n');
    } else {
      assert DateLine(false, formattedDate) + rest == rest;
    }
  }

  /** A row is a single line when its name and formatted times are. */
  lemma RowSingleLine(name: string, local: string, utc: string)
    requires '\n' !in name && '\n' !in local && '\n' !in utc
    ensures '\n' !in "| " + PadEnd(name, 12) + " | " + PadEnd(local, 8) + " |"
    ensures '\n' !in "| " + PadEnd(name, 12) + " | " + PadEnd(local, 8) + " | " + PadEnd(utc, 8) + " |"
  {
    PadEndKeeps(name, 12, '\n');
    PadEndKeeps(local, 8, '\n');
    PadEndKeeps(utc, 8, '\n');
  }

  /** No row spans two lines when no name or formatted time does. */
  lemma RowsSingleLines(cfg: Config, timings: seq<Timing>, formatTime: TimeFormatter)
    requires forall i :: 0 <= i < |timings| ==> '\n' !in timings[i].name
    requires forall m: Minute, hour12: bool :: '\n' !in formatTime(m, hour12)
    ensures forall i :: 0 <= i < |Rows(cfg, timings, formatTime)| ==> '\n' !in Rows(cfg, timings, formatTime)[i]
  {
    var kept := Selected(timings, cfg.prayersToInclude);
    forall i | 0 <= i < |kept| ensures '\n' !in Row(cfg, kept[i], formatTime) {
      var t := kept[i];
      var hour12 := !cfg.timeFormat24h;
      SelectedMembers(timings, cfg.prayersToInclude, t);
      RowSingleLine(t.name, formatTime(t.time, hour12), formatTime(UtcTime(t.time, cfg.utcOffset), hour12));
    }
  }

  /** The content, read line by line: the Date line when `includeDate`, the
      Location line and an empty line when `includeLocation`, the header, the
      divider, one line per row (a single empty line when there is none), and
      the empty remainder after the final newline. */
  lemma DocumentLines(cfg: Config, formattedDate: string, rows: seq<string>)
    requires '\n' !in formattedDate && '\n' !in cfg.city
    requires forall i :: 0 <= i < |rows| ==> '\n' !in rows[i]
    ensures Split(Document(cfg, formattedDate, rows), '\n')
         == (if cfg.includeDate then ["**Date:** " + formattedDate] else [])
          + (if cfg.includeLocation then ["**Location:** " + cfg.city, ""] else [])
          + [Header(cfg.includeUtcTime), Divider(cfg.includeUtcTime)]
          + (if rows == [] then [""] else rows)
          + [""]
  {
    var withUtc := cfg.includeUtcTime;
    var date := DateLine(cfg.includeDate, formattedDate);
    var location := LocationLine(cfg.includeLocation, cfg.city);
    var table := Table(withUtc, Join(rows, "\n"));
    var dateLines := if cfg.includeDate then ["**Date:** " + formattedDate] else [];
    var locationLines := if cfg.includeLocation then ["**Location:** " + cfg.city, ""] else [];
    var rowLines := if rows == [] then [""] else rows;
    TableLines(Header(withUtc), Divider(withUtc), rows);
    var tableLines := Split(table, '\n');
    LocationLines(cfg.includeLocation, cfg.city, table);
    assert Split(location + table, '\n') == locationLines + tableLines;
    DateLines(cfg.includeDate, formattedDate, location + table);
    AppendAssoc(date, location, table);
    assert Split(Document(cfg, formattedDate, rows), '\n') == dateLines + (locationLines + tableLines);
    LinesRegrouped(dateLines, locationLines, [Header(withUtc), Divider(withUtc)], rowLines, [""]);
  }

  /** A cell that opens with a bar and holds no other bar adds one bar. */
  lemma CellBars(before: string, cell: string)
    requires '|' !in cell
    ensures Count(before + "|" + cell, '|') == Count(before, '|') + 1
  {
    CountConcat(before + "|", cell, '|');
    CountConcat(before, "|", '|');
    CountAbsent(cell, '|');
  }

  /** Bars of a line of two cells. */
  lemma TwoCellBars(line: string, first: string, second: string)
    requires line == "|" + first + "|" + second + "|"
    requires '|' !in first && '|' !in second
    ensures Count(line, '|') == 3
  {
    CellBars("", first);
    assert "" + "|" + first == "|" + first;
    CellBars("|" + first, second);
    CellBars("|" + first + "|" + second, "");
    assert line == "|" + first + "|" + second + "|" + "";
    assert Count("", '|') == 0;
  }

  /** Bars of a line of three cells. */
  lemma ThreeCellBars(line: string, first: string, second: string, third: string)
    requires line == "|" + first + "|" + second + "|" + third + "|"
    requires '|' !in first && '|' !in second && '|' !in third
    ensures Count(line, '|') == 4
  {
    CellBars("", first);
    assert "" + "|" + first == "|" + first;
    CellBars("|" + first, second);
    CellBars("|" + first + "|" + second, third);
    CellBars("|" + first + "|" + second + "|" + third, "");
    assert line == "|" + first + "|" + second + "|" + third + "|" + "";
    assert Count("", '|') == 0;
  }

  lemma HeaderPlainBars()
    ensures Count(HeaderPlain, '|') == 3
  {
    TwoCellBars(HeaderPlain, " Prayer       ", " Time       ");
  }

  lemma HeaderWithUtcBars()
    ensures Count(HeaderWithUtc, '|') == 4
  {
    ThreeCellBars(HeaderWithUtc, " Prayer       ", " Time       ", " Time (UTC) ");
  }

  lemma DividerPlainBars()
    ensures Count(DividerPlain, '|') == 3
  {
    TwoCellBars(DividerPlain, "--------------", "------------");
  }

  lemma DividerWithUtcBars()
    ensures Count(DividerWithUtc, '|') == 4
  {
    ThreeCellBars(DividerWithUtc, "--------------", "------------", "------------");
  }

  /** The bars of a row with the given cell texts. */
  lemma RowBars(name: string, local: string, utc: string)
    requires '|' !in name && '|' !in local && '|' !in utc
    ensures Count("| " + PadEnd(name, 12) + " | " + PadEnd(local, 8) + " |", '|') == 3
    ensures Count("| " + PadEnd(name, 12) + " | " + PadEnd(local, 8) + " | " + PadEnd(utc, 8) + " |", '|') == 4
  {
    var n, l, u := PadEnd(name, 12), PadEnd(local, 8), PadEnd(utc, 8);
    PadEndKeeps(name, 12, '|');
    PadEndKeeps(local, 8, '|');
    PadEndKeeps(utc, 8, '|');
    var first, second, third := " " + n + " ", " " + l + " ", " " + u + " ";
    assert "| " + n + " | " + l + " |" == "|" + first + "|" + second + "|";
    TwoCellBars("| " + n + " | " + l + " |", first, second);
    assert "| " + n + " | " + l + " | " + u + " |" == "|" + first + "|" + second + "|" + third + "|";
    ThreeCellBars("| " + n + " | " + l + " | " + u + " |", first, second, third);
  }

  /** The cells of a line of two bar-free cells, read back at its bars. */
  lemma TwoCellSplit(first: string, second: string)
    requires '|' !in first && '|' !in second
    ensures Split("|" + first + "|" + second + "|", '|') == ["", first, second, ""]
  {
    var tail := second + ['|'] + "";
    assert "|" + first + "|" + second + "|" == "" + ['|'] + (first + ['|'] + tail);
    SplitFirst("", first + ['|'] + tail, '|');
    SplitFirst(first, tail, '|');
    SplitFirst(second, "", '|');
  }

  /** The cells of a line of three bar-free cells, read back at its bars. */
  lemma ThreeCellSplit(first: string, second: string, third: string)
    requires '|' !in first && '|' !in second && '|' !in third
    ensures Split("|" + first + "|" + second + "|" + third + "|", '|') == ["", first, second, third, ""]
  {
    var tail := third + ['|'] + "";
    var middle := second + ['|'] + tail;
    assert "|" + first + "|" + second + "|" + third + "|" == "" + ['|'] + (first + ['|'] + middle);
    SplitFirst("", first + ['|'] + middle, '|');
    SplitFirst(first, middle, '|');
    SplitFirst(second, tail, '|');
    SplitFirst(third, "", '|');
  }

  /** The cells of a row with the given bar-free cell texts. */
  lemma RowTextCells(name: string, local: string, utc: string)
    requires '|' !in name && '|' !in local && '|' !in utc
    ensures Split("| " + PadEnd(name, 12) + " | " + PadEnd(local, 8) + " |", '|')
         == ["", " " + PadEnd(name, 12) + " ", " " + PadEnd(local, 8) + " ", ""]
    ensures Split("| " + PadEnd(name, 12) + " | " + PadEnd(local, 8) + " | " + PadEnd(utc, 8) + " |", '|')
         == ["", " " + PadEnd(name, 12) + " ", " " + PadEnd(local, 8) + " ", " " + PadEnd(utc, 8) + " ", ""]
  {
    var n, l, u := PadEnd(name, 12), PadEnd(local, 8), PadEnd(utc, 8);
    PadEndKeeps(name, 12, '|');
    PadEndKeeps(local, 8, '|');
    PadEndKeeps(utc, 8, '|');
    var first, second, third := " " + n + " ", " " + l + " ", " " + u + " ";
    assert "| " + n + " | " + l + " |" == "|" + first + "|" + second + "|";
    TwoCellSplit(first, second);
    assert "| " + n + " | " + l + " | " + u + " |" == "|" + first + "|" + second + "|" + third + "|";
    ThreeCellSplit(first, second, third);
  }

  /** Read back at its bars, a row holds the prayer name padded to 12, the
      local time padded to 8 and, with `includeUtcTime`, the UTC time padded
      to 8, each cell between single spaces, when no name or formatted time
      holds a bar. */
  lemma RowCells(cfg: Config, t: Timing, formatTime: TimeFormatter)
    requires '|' !in t.name
    requires forall m: Minute, hour12: bool :: '|' !in formatTime(m, hour12)
    ensures var local := formatTime(t.time, !cfg.timeFormat24h);
      var utc := formatTime(UtcTime(t.time, cfg.utcOffset), !cfg.timeFormat24h);
      Split(Row(cfg, t, formatTime), '|')
        == ["", " " + PadEnd(t.name, 12) + " ", " " + PadEnd(local, 8) + " "]
         + (if cfg.includeUtcTime then [" " + PadEnd(utc, 8) + " "] else [])
         + [""]
  {
    var hour12 := !cfg.timeFormat24h;
    RowTextCells(t.name, formatTime(t.time, hour12), formatTime(UtcTime(t.time, cfg.utcOffset), hour12));
  }

  /** Every row has as many columns as the header and the divider: three with
      a UTC column, two without, when no name or formatted time holds a bar. */
  lemma RowColumns(cfg: Config, t: Timing, formatTime: TimeFormatter)
    requires '|' !in t.name
    requires forall m: Minute, hour12: bool :: '|' !in formatTime(m, hour12)
    ensures Count(Row(cfg, t, formatTime), '|') == Count(Header(cfg.includeUtcTime), '|')
    ensures Count(Row(cfg, t, formatTime), '|') == Count(Divider(cfg.includeUtcTime), '|')
  {
    var hour12 := !cfg.timeFormat24h;
    RowBars(t.name, formatTime(t.time, hour12), formatTime(UtcTime(t.time, cfg.utcOffset), hour12));
  }

  /** The same holds of every row of the table. */
  lemma TableColumns(cfg: Config, timings: seq<Timing>, formatTime: TimeFormatter)
    requires forall i :: 0 <= i < |timings| ==> '|' !in timings[i].name
    requires forall m: Minute, hour12: bool :: '|' !in formatTime(m, hour12)
    ensures forall r :: r in Rows(cfg, timings, formatTime) ==>
      Count(r, '|') == Count(Header(cfg.includeUtcTime), '|') == Count(Divider(cfg.includeUtcTime), '|')
  {
    var kept := Selected(timings, cfg.prayersToInclude);
    forall r | r in Rows(cfg, timings, formatTime)
      ensures Count(r, '|') == Count(Header(cfg.includeUtcTime), '|') == Count(Divider(cfg.includeUtcTime), '|')
    {
      var i :| 0 <= i < |kept| && r == Row(cfg, kept[i], formatTime);
      SelectedMembers(timings, cfg.prayersToInclude, kept[i]);
      RowColumns(cfg, kept[i], formatTime);
    }
  }

  /** With `includeUtcTime` the row is the two-column row with one more cell, the
      time `utcOffset` hours before local time. */
  lemma UtcCellAppended(cfg: Config, t: Timing, formatTime: TimeFormatter)
    ensures Row(cfg.(includeUtcTime := true), t, formatTime)
         == Row(cfg.(includeUtcTime := false), t, formatTime)
            + " " + PadEnd(formatTime(UtcTime(t.time, cfg.utcOffset), !cfg.timeFormat24h), 8) + " |"
  {
  }

  /** Without `includeUtcTime` the offset has no effect on the rows. */
  lemma OffsetUnusedWithoutUtc(cfg: Config, timings: seq<Timing>, formatTime: TimeFormatter, otherOffset: int)
    requires !cfg.includeUtcTime
    ensures Rows(cfg, timings, formatTime) == Rows(cfg.(utcOffset := otherOffset), timings, formatTime)
  {
  }

  /** Rows follow feed order: the rows of a concatenated feed are the rows of
      its parts, one after the other. */
  lemma RowsConcat(cfg: Config, a: seq<Timing>, b: seq<Timing>, formatTime: TimeFormatter)
    ensures Rows(cfg, a + b, formatTime) == Rows(cfg, a, formatTime) + Rows(cfg, b, formatTime)
  {
    SelectedConcat(a, b, cfg.prayersToInclude);
  }

  /** Only which prayers are listed matters: listing them in another order, or
      more than once, gives the same rows. */
  lemma RowsSameNames(cfg: Config, timings: seq<Timing>, names: seq<string>, formatTime: TimeFormatter)
    requires forall n :: n in names <==> n in cfg.prayersToInclude
    ensures Rows(cfg.(prayersToInclude := names), timings, formatTime) == Rows(cfg, timings, formatTime)
  {
    SelectedSameNames(timings, names, cfg.prayersToInclude);
  }

  /** A row is produced exactly for each feed entry whose name is listed. */
  lemma RowsOfListed(cfg: Config, timings: seq<Timing>, formatTime: TimeFormatter, t: Timing)
    requires t in timings && t.name in cfg.prayersToInclude
    ensures Row(cfg, t, formatTime) in Rows(cfg, timings, formatTime)
  {
    var kept := Selected(timings, cfg.prayersToInclude);
    SelectedMembers(timings, cfg.prayersToInclude, t);
    var i :| 0 <= i < |kept| && kept[i] == t;
    assert Rows(cfg, timings, formatTime)[i] == Row(cfg, t, formatTime);
  }
}
