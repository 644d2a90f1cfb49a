# Prayer-times note renderer, modelled in Dafny

This project models the core of an Obsidian plugin that writes the day's
prayer times into a note called "Prayer Times.md". The core is the renderer
that turns the prayer-times service's parsed response into the note's
Markdown content:

- it checks the response's shape;
- it keeps the `timings` entries the user listed, in feed order;
- it formats each kept time, and optionally a "UTC" time a whole number of
  hours earlier;
- it pads the cells with `padEnd`;
- it assembles an optional Date line, an optional Location line, a header, a
  divider and the rows.

The same renderer exists in two versions:

- `src/apiHandler.ts` (`fetchPrayerTimes`) is the current one. It has a
  configurable city and a UTC column only when `includeUtcTime` holds.
- `main.ts` (`fetchAndSavePrayerTimes`) is the older one. Its city is fixed to
  New York, and it always shows a third column with the local time plus five
  hours.

The model proves that the older version is exactly the current one with city
"New York", `includeUtcTime` on and `utcOffset` equal to -5.

The settings tab is modelled too:

- the "Prayers to include" text area splits its text at commas and trims each
  piece. It displays the list joined by `", "`;
- the City field is stored trimmed;
- each `onChange` handler updates exactly one field of the shared settings
  object.

Files and modules:

- `text.dfy` (`Text`): the JavaScript string operations the code relies on:
  `padEnd`, one-character `split`, `join` and `trim`, with their round trips.
- `clock.dfy` (`Clock`): times of day as minutes after midnight, and shifts
  that wrap round midnight.
- `feed.dfy` (`Feed`): the parsed response, the shape guard, the error
  results, and the filter of timings by the listed names.
- `prayer_table.dfy` (`PrayerTable`): the current renderer.
- `legacy_table.dfy` (`LegacyTable`): the older renderer.
- `settings_tab.dfy` (`SettingsTab`): the list parser and display, and the
  settings object with its handlers.

Two library calls are modelled as function parameters, because the renderers
use nothing about them except that their output depends only on their inputs:

- the time formatter `toLocaleTimeString` is a `TimeFormatter` taking a time of
  day and the `hour12` flag;
- the date formatter `window.moment(raw, "DD MMM YYYY").format(dateFormat)` is
  a `DateFormatter` taking the raw date text and the format.

The header, divider and Date/Location line properties hold for any
formatters. The column-count and line-structure lemmas also need the names and
the formatted texts to contain no `|` and no newline; each lemma states this
as a precondition.

## Model

| member | source | states |
|---|---|---|
| `PrayerTable.FetchPrayerTimes` | src/apiHandler.ts:19-71 | Returns `InvalidData` and no content when the body, `data.data` or `data.data.date` is missing. Returns the `Object.entries` error when the timings are missing. Otherwise returns the document built from the formatted feed date and the rows of the kept timings. |
| `PrayerTable.AssembleContent` | src/apiHandler.ts:56-69 | The content appended step by step is the optional Date line, then the optional Location line, then the table with the header and divider chosen by `includeUtcTime`. |
| `Feed.Selected` | src/apiHandler.ts:25-27 | The kept entries are never more than the feed, and each one has a listed name. |
| `Feed.SelectedMembers` | src/apiHandler.ts:25-27 | An entry is kept if and only if it is in the feed and its name is listed. |
| `Feed.SelectedFromFeed` | src/apiHandler.ts:25-27 | Every kept entry, at every position, is an entry of the feed. |
| `Feed.SelectedConcat` | src/apiHandler.ts:25-27 | The filter keeps feed order: filtering `a + b` gives the kept entries of `a` followed by those of `b`. |
| `Feed.SelectedSameNames` | src/apiHandler.ts:25-27 | Two name lists with the same members keep the same entries, whatever their order or repetitions. |
| `Feed.SelectedAll` | src/apiHandler.ts:25-27 | When every feed name is listed, the whole feed is kept in its order. |
| `Feed.SelectedNone` | src/apiHandler.ts:25-27 | When no feed name is listed, nothing is kept. |
| `PrayerTable.Rows` | src/apiHandler.ts:25-54 | There are never more rows than feed entries, and every row is the row of a feed entry whose name is listed. `RowsOfListed` gives the converse, `RowsConcat` the order. |
| `PrayerTable.RowsOfListed` | src/apiHandler.ts:25-53 | Every feed entry with a listed name gets its row in the table. |
| `PrayerTable.RowsConcat` | src/apiHandler.ts:25-54 | The rows follow feed order: the rows of `a + b` are the rows of `a` followed by those of `b`. |
| `PrayerTable.RowsSameNames` | src/apiHandler.ts:25-54 | Reordering the listed names, or repeating them, does not change the rows. |
| `Clock.Shift` | src/apiHandler.ts:42 | A shifted time is still a time of day, and it is congruent to the unwrapped sum modulo 24 hours. |
| `Clock.ShiftWithinDay` | src/apiHandler.ts:42 | A shift that stays within the day is plain addition. |
| `Clock.ShiftShift` | src/apiHandler.ts:42 | Two shifts make one shift by their sum. |
| `Clock.ShiftBack` | src/apiHandler.ts:42 | A shift is undone by the opposite shift. |
| `PrayerTable.UtcTime` | src/apiHandler.ts:41-47 | The UTC-column time is `utcOffset` hours before local time, modulo 24 hours. Adding the offset back gives the local time. |
| `PrayerTable.Row` | src/apiHandler.ts:30-52 | A row opens with `\| ` and the prayer name. When the name fits in 12 characters and both formatted times in 8, `padEnd` makes every row the same width: 27 characters, or 38 with the UTC column. The header and divider are 29 or 42 wide, so each Time cell of a row is two characters narrower than the header's; Markdown renders the table all the same. `RowCells` reads back what each cell holds. |
| `PrayerTable.RowCells` | src/apiHandler.ts:34-52 | Read back at its bars, a row is: an empty piece, the prayer name padded to 12, the local time formatted with `hour12 = !timeFormat24h` padded to 8, with `includeUtcTime` the time `utcOffset` hours earlier formatted and padded to 8, each between single spaces, then an empty piece. This holds when no name or formatted time holds a bar. |
| `PrayerTable.UtcCellAppended` | src/apiHandler.ts:41-52 | With `includeUtcTime`, a row is the two-column row plus one cell: a space, the UTC-time text padded to 8, and a closing bar. |
| `PrayerTable.OffsetUnusedWithoutUtc` | src/apiHandler.ts:41-52 | Without `includeUtcTime`, changing `utcOffset` does not change the rows. |
| `Text.PadEnd` | src/apiHandler.ts:51-52 | A padded text has length max(\|s\|, n). It starts with `s` and continues only with spaces. |
| `Text.PadEndKeeps` | src/apiHandler.ts:51-52 | Padding adds no character except spaces: any other character has the same count before and after padding. |
| `PrayerTable.Header` | src/apiHandler.ts:60-63 | The header has four bars (three columns) with `includeUtcTime` and three bars (two columns) without. It is a single line, opens with a bar, and is 42 or 29 characters wide. |
| `PrayerTable.Divider` | src/apiHandler.ts:65-67 | The divider has the same number of bars and the same width as the header for the same flag, and holds nothing but bars and dashes. |
| `PrayerTable.RowColumns` | src/apiHandler.ts:50-67 | Every row has as many bars as the header and the divider, provided the name and the formatted times contain no bar. |
| `PrayerTable.TableColumns` | src/apiHandler.ts:50-67 | All rows of the table have as many columns as the header and the divider. |
| `PrayerTable.DateLine` | src/apiHandler.ts:57 | The Date line is empty exactly when `includeDate` is off. Otherwise it is the bold label and the formatted date, ending in a newline. |
| `PrayerTable.LocationLine` | src/apiHandler.ts:58 | The Location line is empty exactly when `includeLocation` is off. Otherwise it is the bold label and the city, ending in a blank line. |
| `PrayerTable.Table` | src/apiHandler.ts:61-69 | The table opens with the header line and the divider line, so its first character is a bar. It always ends with a newline. |
| `PrayerTable.Document` | src/apiHandler.ts:56-71 | The content always ends with a newline. When there are rows, the last row comes right before that final newline. |
| `PrayerTable.DocumentEnd` | src/apiHandler.ts:54-69 | With no kept prayers, the content ends with the divider, a newline and an empty line. |
| `PrayerTable.TableLines` | src/apiHandler.ts:54-69 | Read as lines, the table is the header, the divider, one line per row (or one empty line if there are none), then the empty rest after the final newline. |
| `PrayerTable.RowsSingleLines` | src/apiHandler.ts:50-54 | No row spans two lines when no prayer name and no formatted time holds a newline. |
| `PrayerTable.DocumentLines` | src/apiHandler.ts:56-69 | Read as lines, the content is: the Date line if `includeDate`; the Location line and a blank line if `includeLocation`; the header; the divider; the rows (or one empty line); then the empty rest. |
| `PrayerTable.DateLineFirst` | src/apiHandler.ts:56-58 | For any formatted date, city and rows, the content starts with `**Date:** ` if and only if `includeDate` holds. It then starts with the whole Date line. |
| `PrayerTable.LocationLineNext` | src/apiHandler.ts:57-58 | For any formatted date, city and rows, the content after the optional Date line continues with `**Location:** ` if and only if `includeLocation` holds. It then continues with `**Location:** <city>` and a blank line. |
| `LegacyTable.FetchAndSavePrayerTimes` | main.ts:77-115 | Fails the same way as the current renderer on a body without a date or timings. Otherwise its content equals the current renderer's document for city New York, UTC column on and offset -5. |
| `LegacyTable.LegacyContent` | main.ts:110-115 | The content appended step by step is the optional Date line, the optional New York Location line and the fixed three-column table. |
| `LegacyTable.FiveHoursLater` | main.ts:99 | The third-column time is local time plus five hours, wrapping past midnight. It is 300 minutes later before 19:00, and 1140 minutes earlier from 19:00 on. Shifting it back five hours gives local time. |
| `LegacyTable.AsConfig` | main.ts:64-66 | The configuration that makes the current renderer behave as the older one: city New York, a UTC column, the older settings' list and time format, and a UTC-column time that is always five hours after local time. |
| `LegacyTable.LegacyRow` | main.ts:90-106 | Each older row equals the current renderer's row under `AsConfig`, so "five hours later" is the UTC column at offset -5. |
| `LegacyTable.LegacyRows` | main.ts:85-108 | The older rows are exactly the current renderer's rows under `AsConfig`, in feed order. |
| `LegacyTable.LegacyColumns` | main.ts:106-114 | Every older row has exactly three cells, whatever the settings. So do the header and the divider. |
| `LegacyTable.LegacyDocumentLines` | main.ts:66-115 | Read as lines, the older content is: the Date line if `includeDate`; `**Location:** New York` and a blank line if `includeLocation`; the three-column header and divider; the rows (or one empty line); then the empty rest. |
| `Text.Split` | src/settingsTab.ts:54 | Splitting gives one more piece than there are separators, and no piece contains the separator. |
| `Text.SplitAbsent` | src/settingsTab.ts:54 | Text without the separator splits into itself. |
| `Text.SplitAround` | src/settingsTab.ts:54 | The text before a separator and the text after it split independently. |
| `Text.Join` | src/settingsTab.ts:52 | Joining no parts gives the empty text. Otherwise the result opens with the first part and closes with the last. `JoinSplit` and `SplitJoin` tie it to `Split`. |
| `Text.JoinSplit` | src/settingsTab.ts:52-54 | Joining the pieces of a split with the separator gives back the text. |
| `Text.SplitJoin` | src/settingsTab.ts:52-54 | Splitting a join of separator-free parts gives back the parts. |
| `Text.Trim` | src/settingsTab.ts:54 | The trimmed text has no whitespace at either end and is no longer than the input. |
| `Text.TrimInfix` | src/settingsTab.ts:54 | The trimmed text is an infix of the input, and everything removed around it is whitespace. |
| `Text.LeadingBlanksSpec` | src/settingsTab.ts:54 | The leading run that trimming removes is all whitespace, and stops at a character that is not whitespace, if there is one. |
| `Text.TrailingBlanksSpec` | src/settingsTab.ts:54 | The trailing run that trimming removes is all whitespace, and stops at a character that is not whitespace, if there is one. |
| `Text.TrimTrimmed` | src/settingsTab.ts:54 | Trimming text that has no whitespace at either end leaves it unchanged. |
| `Text.TrimBlank` | src/settingsTab.ts:54 | Whitespace-only text trims to the empty string. |
| `SettingsTab.ParsePrayers` | src/settingsTab.ts:54 | Parsing gives one name per comma-separated segment (commas + 1 of them), each with no surrounding whitespace. |
| `SettingsTab.ParsedHaveNoComma` | src/settingsTab.ts:54 | No parsed name contains a comma. |
| `SettingsTab.DisplayPrayers` | src/settingsTab.ts:52 | The shown text is empty for an empty list. Otherwise it opens with the first name and closes with the last. `ParseDisplay` is its inverse. |
| `SettingsTab.DisplayCommas` | src/settingsTab.ts:52-54 | The shown text of comma-free names has one comma fewer than there are names, so parsing it yields as many names. |
| `SettingsTab.SplitDisplay` | src/settingsTab.ts:52-54 | Splitting the displayed text at its commas gives one piece per name: the first name as it is, and each later name behind the space of its separator. |
| `SettingsTab.ParseDisplay` | src/settingsTab.ts:52-54 | Parsing the displayed `", "`-joined text of a non-empty list of comma-free, trimmed names gives the list back. |
| `SettingsTab.DisplayParseStable` | src/settingsTab.ts:52-54 | Displaying a parsed list and parsing the text again changes nothing. |
| `SettingsTab.ParseBlank` | src/settingsTab.ts:54 | Blank text parses to a single empty name. |
| `SettingsTab.BlankSelectsNothing` | src/apiHandler.ts:25-27 | The single empty name from blank text matches no feed entry with a non-empty name, so the table has no rows. |
| `SettingsTab.PluginSettings.constructor` | src/prayerTimesPlugin.ts:58-60 | The settings object starts with exactly the given field values. |
| `SettingsTab.PluginSettings.PrayersTextRoundTrip` | src/settingsTab.ts:52-54 | When the stored list is non-empty and its names are comma-free and trimmed, parsing the text the text area shows gives the stored list back. |
| `SettingsTab.PluginSettings.OnFetchOnLaunchChange` | src/settingsTab.ts:20-22 | Sets `fetchOnLaunch` and leaves every other field unchanged. The renderer's configuration is unchanged: the note comes out the same. |
| `SettingsTab.PluginSettings.OnFetchOnNoteOpenChange` | src/settingsTab.ts:30-32 | Sets `fetchOnNoteOpen` and leaves every other field unchanged. The renderer's configuration is unchanged: the note comes out the same. |
| `SettingsTab.PluginSettings.OnTimeFormat24hChange` | src/settingsTab.ts:40-42 | Sets `timeFormat24h` and leaves every other field unchanged. In the renderer's configuration only `timeFormat24h` changes, to the same value. |
| `SettingsTab.PluginSettings.OnPrayersToIncludeChange` | src/settingsTab.ts:53-55 | Stores the parsed list (commas + 1 trimmed names) and leaves every other field unchanged. In the renderer's configuration only `prayersToInclude` changes, to the same value. |
| `SettingsTab.PluginSettings.OnCityChange` | src/settingsTab.ts:66-68 | Stores the trimmed city, which has no surrounding whitespace, and leaves every other field unchanged. In the renderer's configuration only `city` changes, to the same value. |
| `SettingsTab.PluginSettings.OnIncludeDateChange` | src/settingsTab.ts:76-78 | Sets `includeDate` and leaves every other field unchanged. In the renderer's configuration only `includeDate` changes, to the same value. |
| `SettingsTab.PluginSettings.OnIncludeLocationChange` | src/settingsTab.ts:86-88 | Sets `includeLocation` and leaves every other field unchanged. In the renderer's configuration only `includeLocation` changes, to the same value. |
| `SettingsTab.PluginSettings.OnDateFormatChange` | src/settingsTab.ts:103-105 | Sets `dateFormat` and leaves every other field unchanged. In the renderer's configuration only `dateFormat` changes, to the same value. |

The settings tab in `main.ts` (lines 147-239) has the same handlers as
`src/settingsTab.ts`, except for the City field. Its list parser
(main.ts:195-197) is the same expression. Both are covered by the members
above.

## Left out

- The HTTP request, the `response.ok` check and `response.json()`
  (src/apiHandler.ts:15-19, main.ts:69-77) are network I/O. The model starts
  from the parsed body.
- Writing the note is left out: the vault lookup, `modify` or `create`, the
  `Notice` and the console log (main.ts:117-131, src/prayerTimesPlugin.ts:38-55)
  are host-store I/O and user notification. A `Success` result is the text
  that would be written. A `Failure` means nothing is written.
- `toLocaleTimeString` and `new Date(...)` parsing are locale and time-zone
  library behaviour. Times are minutes after midnight and the formatter is a
  parameter. Parsing the feed's "HH:MM" strings, invalid times and
  daylight-saving effects on the shifted time are not modelled.
- `window.moment` date formatting comes from a library. It is a parameter of
  the raw date text and the format.
- `utcOffset` is declared as a JavaScript `number`. Only whole hours are
  modelled; fractional offsets would need floating point.
- The body is modelled as either null or an object. Other JSON values (a
  number, a string) are not modelled. Neither is a `date` object without a
  `readable` field: `readable` is always a string here.
- `Object.entries` lists integer-like keys first, in ascending order. The
  model takes the timings in the order the feed lists them; prayer names are
  not integer-like.
- `padEnd` counts UTF-16 code units, but a Dafny `char` is a Unicode scalar
  value. For names with characters outside the Basic Multilingual Plane, the
  padding the model computes differs from JavaScript's.
- The event wiring in `onload` (layout-ready, file-open, the command) and
  overlapping triggers are event plumbing (src/prayerTimesPlugin.ts:9-36,
  main.ts:26-61). Building the settings widgets, `saveSettings` and
  `loadSettings` with its defaults merge are UI and storage glue. Each
  handler's `await this.plugin.saveSettings()` is one of these.
- `src/settings.ts` declares a settings interface and defaults with other field
  names (`includePrayerNames`, `showDate`, `showLocation`, `use24HourFormat`).
  It also declares unused fields: a template, a preset, an output location, a
  calculation method and per-prayer offsets. No shown code reads any of these.
  The renderer and the tab use `prayersToInclude`, `includeDate`,
  `includeLocation`, `timeFormat24h` and `dateFormat`, which that interface
  does not declare. The model uses the names the renderer reads. Its settings
  object starts from given values, not from those defaults. So the model does
  not capture what the program does after a fresh install, before the user has
  edited these settings. `loadSettings` (src/prayerTimesPlugin.ts:59) merges
  the defaults (src/settings.ts:28-53), which leave `prayersToInclude`
  undefined. `prayersToInclude.includes(key)` (src/apiHandler.ts:26) then
  throws a TypeError for any non-empty timings, so every render fails. The
  tab's `display()` also throws at src/settingsTab.ts:52, before the list's
  `onChange` is attached. In the model `prayersToInclude` is always a list, so
  `FetchPrayerTimes` never fails this way.
- No settings-tab handler writes `includeUtcTime` or `utcOffset`. In the
  model they change only through the constructor.
