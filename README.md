# WorldBuilder save codec of civ4-studio, in Dafny

civ4-studio is an editor for Civilization IV WorldBuilder saves
(`.CivBeyondSwordWBSave`). This project models the codec at its core:

- **the reader**, `ParseWbMap`. It scans a save line by line. Each line is
  trimmed of spaces and tabs, and blank lines and `#` comments are skipped.
  Outside every section, a `Version=` line sets the version and a `BeginX`
  tag opens a section. Inside a section, a line is a comma-separated list of
  `key=value` fragments (a bare `key` stands for `key=1`). The fragments are
  applied to the entity being read by its `Unpack` method. An entity is
  stored only when its closing tag is read. Cities and units nest inside
  plots. A save without a Game section is refused.
- **the writer**: `SimpleGenerator` (a text buffer with an indent level and
  a stack of closing tags) and the `ToWbFormat` / `AddAsSubsection` methods of
  every entity (`WbMap`, `Game`, `Team`, `Player`, `MapProps`, `Plot`,
  `City`, `Unit`).
- **the helpers** in `utils_lib.go` (`ToInt`, `ToUint`, the slice helpers,
  `SortKeys`, `BoolToInt`).
- **the lookups** in `game_info.go`: the language-string fallback and the
  era, speed and calendar name lists.

`ParseWbMap` is modelled as the source has it. In particular, `City.Unpack`
uses the source's culture pattern, which cannot read the culture lines the
writer emits (see Findings). The parser takes that pattern as a parameter
(`WbParser.CulturePattern`): `AsWritten` is the source, and `Corrected` is
the same parser with the pattern fixed. There are two headline theorems:

- `WbAsWritten.RoundTrip` is about the program as it stands. Take a save
  whose fields survive the trip (`WbReadSave.SaveOk`) and whose cities hold
  no culture. Reading back the text that `WbMap.ToWbFormat` writes for it
  gives the same save: `Parse(AsWritten, Render(WbMapLines(m))) == Success(m)`.
- `WbAsWritten.CultureRefused` is the other half. The same text for a save
  with any culture entry is refused.

`WbAsWritten.ParseWrittenAccepted` ties the two parsers together. Whatever
the source's parser accepts, the corrected parser reads to the same save.
`WbRoundTrip.CorrectedRoundTrip` shows that the corrected parser reads back
every `SaveOk` save, culture included. That proof is built in layers:

1. **Strings.** Every row the writer emits is re-read by `parseLine` as its
   own pairs (`WbRows.RowRead`).
2. **Fields.** Every entity's field table is re-read by the entity's
   `Unpack` into that entity (`WbReadGame.GameRead` and its companions).
3. **Steps.** The corrected parser's step function obeys the opening,
   filling and closing laws of every section (`WbRoundTrip.StepSaveLaws`).
4. **Sequences of sections.** A scanner obeying those laws takes the
   written sections to the save (`WbReadSave.SaveSectionsScan`).
5. **Lines.** The written text splits back into the written lines
   (`WbPlain.SaveLinesPlain`, `Text.LinesRender`).

The as-written theorems reuse it. A step of the source's parser that
succeeds is a step of the corrected one. A corrected step that ends with no
culture is a step of the source's parser (`WbAsWritten.StepWrittenAccepted`,
`WbAsWritten.StepCorrectedFree`).

Layout:

| file | module | what it holds |
|---|---|---|
| `wrappers.dfy` | `Wrappers` | `Option` and `Result` |
| `strconv.dfy` | `Strconv` | Go's `strconv.Atoi` (with its range and syntax errors), `strconv.Itoa` and `strconv.Quote` on 64-bit `int`; `uint(i)` and `int(u)` |
| `text.dfy` | `Text` | trimming, `strings.Split`, joining, and the line splitting of `bufio.ScanLines` |
| `utils_lib.dfy` | `UtilsLib` | `utils_lib.go` |
| `game_info.dfy` | `GameInfo` | `game_info.go` |
| `wbmap_generator.dfy` | `WbGenerator` | the `SimpleGenerator` class and the rows it writes |
| `wbmap_structs.dfy` | `WbStructs` | the entities and every `Unpack` |
| `wbmap_parser.dfy` | `WbParser` | `parseKeyValue`, `parseLine`, `createParserError` and `ParseWbMap` |
| `wbmap_format.dfy` | `WbFormat` | every `ToWbFormat` and `AddAsSubsection` |
| `wbmap_rows.dfy`, `wbmap_entities.dfy` | `WbRows`, `WbEntities` | one written row or field read back |
| `wbmap_read_*.dfy` | `WbReadGame` … `WbReadSave` | each entity, and then the whole save, read back |
| `wbmap_scan.dfy` | `WbScan` | the scanner over sections, generic in its step function |
| `wbmap_plain.dfy` | `WbPlain` | no written line holds a line break |
| `wbmap_round_trip.dfy` | `WbRoundTrip` | the corrected parser's step obeys the section laws; the corrected round trip |
| `wbmap_as_written.dfy` | `WbAsWritten` | `ParseWbMap` as written against the corrected parser; its round trip and its refusal of culture |

How the model represents the program:

- **Entities.** They are datatypes. Go's `ParseWbMap` builds each one behind
  a fresh pointer, and stores it exactly once, when its closing tag is read.
  No pointer is shared between two entities, so a value has the same
  behaviour.
- **The parser's locals.** Go keeps a state code plus one variable per open
  entity. The model holds them as the one value `Open`, which says which
  section is open and what it has read so far.
- **The `parseLine` map.** It is a sequence of pairs with distinct keys, in
  the order the keys first appear. A repeated key keeps its place and takes
  the later value.
- **The generator.** `SimpleGenerator` is a class whose methods append to
  its `buffer`. Each entity's writer is proved equal to a pure description
  of the lines it writes (`GameLines`, `PlotLines`, …).

## Model

| member | source | states |
|---|---|---|
| Strconv.Atoi | editor/utils_lib.go:54-58 | `strconv.Atoi` succeeds exactly on an optional sign followed by decimal digits whose value fits in 64 bits, and then yields that value |
| Strconv.AtoiValue | editor/utils_lib.go:54-58 | the value `strconv.Atoi` returns beside its error: the number when it parses, 0 on a syntax error, and on a range error the 64-bit bound of the text's sign |
| Strconv.RangeErrorFails | editor/utils_lib.go:54-58 | a text with a range error is refused by `strconv.Atoi` |
| Strconv.DecimalRangeError | editor/utils_lib.go:54-58 | for a well-formed decimal, the error is a range error exactly when the value is outside 64 bits |
| Strconv.OverflowBeforeSyntax | editor/utils_lib.go:54-58 | digits worth 2^64 or more, followed by anything, are a range error with value MaxInt64: the scan meets the overflow before a bad character |
| Strconv.ShortTextNoRangeError | editor/utils_lib.go:54-58 | on `Atoi`'s fast path (under 19 characters) there is no range error, so a failure gives 0 |
| Strconv.Signed | editor/wbmap_generator.go:83-85 | Go's `int(u)` of a 64-bit unsigned value: kept up to 2^63-1, shifted down by 2^64 above, and `uint` of the result gives `u` back |
| Strconv.Quote | editor/wbmap_parser.go:122-125 | the Go library's `strconv.Quote`, which a number error uses for its text; `createParserError` puts that text in the message. The result is the escaped text between double quotes |
| Strconv.EscapeChar | editor/wbmap_parser.go:122-125 | in `strconv.Quote` (Go library): a printable character is kept as it is; any other character becomes a backslash escape of 2 to 4 characters |
| Strconv.UnescapeEscape | editor/wbmap_parser.go:122-125 | in `strconv.Quote` (Go library): reading the escaped text back gives the text, so quoting loses nothing |
| Strconv.EscapePlain | editor/wbmap_parser.go:122-125 | in `strconv.Quote` (Go library): a text of printable characters is quoted as itself |
| Strconv.EscapeNoControl | editor/wbmap_parser.go:122-125 | in `strconv.Quote` (Go library): the quoted text holds no control character, so an error message stays on one line |
| Strconv.Unsigned | editor/utils_lib.go:60-62 | Go's `uint(i)` on 64 bits: values in range are kept, negative ones wrap by 2^64, the result is below 2^64 |
| Strconv.AtoiItoa | editor/wbmap_generator.go:75-77 | the text `strconv.Itoa` writes for a 64-bit number is read back by `strconv.Atoi` to that number |
| Strconv.AtoiItoaOutOfRange | editor/wbmap_generator.go:75-77 | the text written for a number outside 64 bits is refused by `strconv.Atoi` |
| Strconv.DecimalItoa | editor/wbmap_generator.go:75-77 | the decimal syntax reads every written number back, whatever its size |
| Text.TrimLeft | editor/wbmap_parser.go:69 | the trimmed text is a suffix of the input, every character removed is in the cut set, and the result does not start with one |
| Text.TrimRight | editor/wbmap_parser.go:69 | the trimmed text is a prefix of the input, every character removed is in the cut set, and the result does not end with one |
| Text.Split | editor/wbmap_parser.go:283 | `strings.Split` yields at least one part and no part holds the separator |
| Text.SplitJoin | editor/wbmap_parser.go:283 | splitting the separator-joined parts gives the parts back when no part holds the separator |
| Text.LinesRender | editor/wbmap_parser.go:47-48 | `bufio.ScanLines` on the text of newline-terminated lines without line breaks gives those lines back |
| UtilsLib.ToInt | editor/utils_lib.go:54-58 | the value of a string that `strconv.Atoi` accepts; 0 for a syntax error; the 64-bit bound of the text's sign for a range error, including digits that pass 2^64-1 before a bad character |
| UtilsLib.ToUint | editor/utils_lib.go:60-62 | `ToInt` taken modulo 2^64 |
| UtilsLib.ToIntItoa | editor/utils_lib.go:54-58 | `ToInt` reads back every 64-bit number written in decimal |
| UtilsLib.BoolToInt | editor/utils_lib.go:117-123 | 1 exactly when the flag is set, else 0 |
| UtilsLib.IsInSlice | editor/utils_lib.go:65-73 | true exactly when some element equals the value |
| UtilsLib.AddToSlice | editor/utils_lib.go:85-93 | the value is present afterwards; the slice is unchanged when it already held it, and otherwise gains it at the end; no duplicates are created |
| UtilsLib.AddToSliceIdempotent | editor/utils_lib.go:85-93 | adding the same value twice is the same as adding it once |
| UtilsLib.RemoveFirstMultiset | editor/utils_lib.go:96-104 | removing a value takes exactly one occurrence out of the slice's multiset (none when absent) |
| UtilsLib.RemoveFirstAt | editor/utils_lib.go:96-104 | the element removed is the first occurrence, and the rest keep their order |
| UtilsLib.RemoveFromSlice | editor/utils_lib.go:96-104 | in place on the backing array: the slice returned is the input without its first occurrence of the value, the old last element stays behind in the freed slot, and nothing changes when the value is absent |
| UtilsLib.ShiftLeft | editor/utils_lib.go:99 | `append(slice[:i], slice[i+1:]...)` moves the tail one slot left in the same array and leaves the last slot alone |
| UtilsLib.SwitchInSlice | editor/utils_lib.go:76-82 | switching on leaves the value present; switching off a duplicate-free slice leaves it absent |
| UtilsLib.SwitchOnOff | editor/utils_lib.go:76-82 | switching a new value on and then off restores the slice |
| UtilsLib.InsertSorted | editor/utils_lib.go:107-114 | inserting a new key into a strictly sorted list keeps it strictly sorted and adds exactly that key |
| UtilsLib.SortKeys | editor/utils_lib.go:107-114 | the keys of the map, each exactly once, in strictly ascending byte order |
| UtilsLib.SortedDistinct | editor/utils_lib.go:107-114 | a strictly sorted key list holds no duplicates |
| GameInfo.GetLangString | editor/game_info.go:21-35 | empty key gives the empty string; otherwise the entry under the key, else under `TXT_KEY_` + key, else the key itself |
| GameInfo.LangStringAdded | editor/game_info.go:27-33 | a key missing from the table is found through its `TXT_KEY_` entry |
| GameInfo.TypeNames | editor/game_info.go:37-43 | one name per map entry, visiting every key exactly once, each name being that entry's Type |
| GameInfo.GetEraNames | editor/game_info.go:37-43 | one name per era, in an order that visits every era key exactly once, each name being that era's Type; so exactly the eras' types |
| GameInfo.GetSpeedNames | editor/game_info.go:45-51 | one name per speed, in an order that visits every speed key exactly once, each name being that speed's Type; so exactly the speeds' types |
| GameInfo.GetCalendarNames | editor/game_info.go:53-59 | one name per calendar, in an order that visits every calendar key exactly once, each name being that calendar's Type; so exactly the calendars' types |
| GameInfo.NamesCover | editor/game_info.go:37-43 | a list with one Type per key, in any order, holds exactly the set of types |
| WbGenerator.SimpleGenerator.constructor | editor/wbmap_generator.go:13-17 | a fresh generator has an empty buffer, indent 0 and no open section |
| WbGenerator.SimpleGenerator.WriteIndent | editor/wbmap_generator.go:28-30 | appends one tab per indent level |
| WbGenerator.SimpleGenerator.StartSection | editor/wbmap_generator.go:27-35 | writes the start tag at the current indent, pushes the end tag and indents one level deeper |
| WbGenerator.SimpleGenerator.EndSection | editor/wbmap_generator.go:38-50 | with no open section nothing changes; otherwise un-indents, writes the innermost end tag and pops it |
| WbGenerator.SimpleGenerator.AddLine | editor/wbmap_generator.go:53-59 | appends the line at the current indent, with a newline |
| WbGenerator.SimpleGenerator.AddComment | editor/wbmap_generator.go:62-64 | appends `#` and the comment, without indent or newline |
| WbGenerator.SimpleGenerator.AddKeyValue | editor/wbmap_generator.go:67-73 | an empty value writes nothing; any other value writes `key=value` at the current indent |
| WbGenerator.SimpleGenerator.AddKeyValueInt | editor/wbmap_generator.go:75-77 | writes `key=` and the decimal number, always (a number's text is never empty) |
| WbGenerator.SimpleGenerator.AddKeyValueInt64 | editor/wbmap_generator.go:79-81 | writes `key=` and the decimal number |
| WbGenerator.SimpleGenerator.AddKeyValueUint | editor/wbmap_generator.go:83-85 | writes `key=` and the decimal text of `int(value)`, so a value past 2^63-1 is written negative |
| WbGenerator.SimpleGenerator.AddKeyValueBool | editor/wbmap_generator.go:87-89 | writes `key=1` for true and `key=0` for false |
| WbGenerator.SimpleGenerator.AddKeyValueString | editor/wbmap_generator.go:91-93 | the string row: nothing for an empty value, else `key=value` |
| WbGenerator.SimpleGenerator.AddKeyValueArray | editor/wbmap_generator.go:95-99 | one `key=value` line per non-empty value, in order |
| WbGenerator.SimpleGenerator.AddKeyValueIntArray | editor/wbmap_generator.go:101-105 | one `key=n` line per number, in order |
| WbGenerator.SimpleGenerator.AddKeyValueUintArray | editor/wbmap_generator.go:107-111 | one `key=` line per number, in order, each holding `int(number)` |
| WbGenerator.SimpleGenerator.AddCommaSeparatedValues | editor/wbmap_generator.go:113-126 | one indented line holding the values joined by commas |
| WbGenerator.RowLines | editor/wbmap_generator.go:53-59 | one written line per row |
| WbGenerator.StrRow | editor/wbmap_generator.go:67-73 | a string field yields no row exactly when its value is empty |
| WbGenerator.IntRow | editor/wbmap_generator.go:75-77 | a number field is always one `key=n` row |
| WbGenerator.BoolRow | editor/wbmap_generator.go:87-89 | a flag is always one `key=1` or `key=0` row |
| WbGenerator.StrArrayRows | editor/wbmap_generator.go:95-99 | never more rows than values (empty values are dropped) |
| WbGenerator.IntArrayRows | editor/wbmap_generator.go:101-105 | one row per number |
| WbGenerator.UintRow | editor/wbmap_generator.go:83-85 | an unsigned field is one row holding `int(value)`, the same row as a signed field up to 2^63-1 |
| WbGenerator.UintArrayRows | editor/wbmap_generator.go:107-111 | one row per number |
| WbStructs.Number | editor/wbmap_structs.go:606-610 | a numeric field succeeds exactly when `strconv.Atoi` accepts the text, with its value; otherwise the strconv error for that text, a range error exactly when `Atoi` reports one |
| WbStructs.WbMapField | editor/wbmap_structs.go:50-64 | only `Version` is known, it must be a number, and it changes only the version |
| WbStructs.GameField | editor/wbmap_structs.go:153-218 | an unknown key is refused by name; a known key fails only when it is numeric and its value is not a number |
| WbStructs.TeamField | editor/wbmap_structs.go:271-322 | an unknown key is refused by name; a known key fails only when it is numeric and its value is not a number |
| WbStructs.PlayerField | editor/wbmap_structs.go:449-532 | an unknown key is refused by name; a known key fails only when it is numeric and its value is not a number |
| WbStructs.PlotField | editor/wbmap_structs.go:603-670 | an unknown key is refused by name; a known key fails only when it is numeric and its value is not a number; the plot's units and cities are never touched |
| WbStructs.MapField | editor/wbmap_structs.go:748-813 | an unknown key is refused by name; a known key fails only when it is numeric and its value is not a number |
| WbStructs.UnitField | editor/wbmap_structs.go:983-1028 | an unknown key is refused by name; a known key fails only when it is numeric and its value is not a number |
| WbStructs.DigitRun | editor/wbmap_structs.go:870 | the length of the longest run of leading digits, which is what `[0-9]+` matches |
| WbStructs.CultureMatch | editor/wbmap_structs.go:870 | a match finds a non-empty digit run inside the key, between the pattern's fixed parts |
| WbStructs.CityFieldAsWritten | editor/wbmap_structs.go:872-931 | with the pattern as written: a key without a backtick falls through to the fixed keys, so `PlayerNCulture` is an unknown key; a matching key with numbers writes into the nil map, which panics |
| WbStructs.CityField | editor/wbmap_structs.go:872-931 | with the pattern corrected: a non-culture key is read as a fixed field; a culture key succeeds exactly when the player and the amount are numbers, and sets that player's culture to `uint` of the amount |
| WbStructs.CultureKeyRefusedAsWritten | editor/wbmap_structs.go:870 | every `PlayerNCulture` key the writer emits is refused as unknown by the reader as written |
| WbStructs.CultureKeyRead | editor/wbmap_structs.go:874-891 | with the pattern corrected, `PlayerNCulture=amount` sets player N's culture to the amount |
| WbStructs.FixedCityKeys | editor/wbmap_structs.go:894-927 | no fixed city key is mistaken for a culture key |
| WbStructs.WrittenCityFieldAccepted | editor/wbmap_structs.go:872-931 | a pair the source's `City.Unpack` accepts is read the same way by the corrected one, and leaves the culture alone |
| WbStructs.CorrectedCityFieldFree | editor/wbmap_structs.go:872-931 | a pair the corrected `City.Unpack` reads into a city without culture is read the same way as written |
| WbStructs.Unpack | editor/wbmap_structs.go:50-64 | an empty map changes nothing |
| WbStructs.UnpackAppend | editor/wbmap_structs.go:50-64 | applying two lists of pairs is applying the first, then the second, stopping at the first error |
| WbStructs.UnpackRejects | editor/wbmap_structs.go:59-60 | a pair that every entity refuses makes the whole Unpack fail |
| WbStructs.UnpackLine | editor/wbmap_structs.go:50-64 | the Unpack loop over the parsed pairs computes the fold of the entity's field function |
| WbParser.UnpackText | editor/wbmap_structs.go:59-60 | an unknown key reads `unknown key: <key>`; a number error reads as strconv's message, with the text quoted by `strconv.Quote`, and ends in `value out of range` exactly for a range error |
| WbParser.Message | editor/wbmap_parser.go:272-278 | exactly the missing game reads `no game info specified`; every other error except a panic starts with `parse error: ` |
| WbParser.FieldError | editor/wbmap_parser.go:122-125 | an Unpack error becomes a parse error at that line, and a panic exactly when the cause is a write into a nil map |
| WbParser.ParseKeyValue | editor/wbmap_parser.go:300-312 | a fragment without `=` or space is a flag with value `1`; one with a space but no `=` is refused; otherwise it splits at the first `=` |
| WbParser.ParseKeyValueFragment | editor/wbmap_parser.go:300-312 | `key=value` with no `=` in the key splits back into that key and value |
| WbParser.Put | editor/wbmap_parser.go:294 | after `kv[key] = value` the key maps to the value, every other key is unchanged, and keys stay distinct |
| WbParser.AddParts | editor/wbmap_parser.go:283-295 | the parts' pairs are added, keeping keys distinct and every earlier key |
| WbParser.ParseLine | editor/wbmap_parser.go:280-298 | the result has distinct keys; its only failure is a bad fragment at that line |
| WbParser.ParseLineLoop | editor/wbmap_parser.go:280-298 | the loop over the comma-separated fragments computes `ParseLine` |
| WbParser.Body | editor/wbmap_parser.go:117-125 | a section line's error is at that line and is never the missing game; a well-formed line succeeds exactly when the entity's Unpack does |
| WbParser.ReadBody | editor/wbmap_parser.go:117-125 | `parseLine` then `Unpack` computes `Body` |
| WbParser.StepGlobal | editor/wbmap_parser.go:76-107 | outside every section only the version may change. A `Version=` line fails exactly when `Atoi` refuses its text, and otherwise sets the version to that number. One of the five Begin tags opens its section and stores nothing. Any other line fails as outside any section, at that line |
| WbParser.Step | editor/wbmap_parser.go:74-249 | with either culture pattern, a failure is at the line being read and is never the missing game |
| WbParser.ScanLine | editor/wbmap_parser.go:74-249 | the switch on the parser state, with the source's `City.Unpack`, computes `Step(AsWritten, …)` |
| WbParser.Run | editor/wbmap_parser.go:66-250 | with either culture pattern, a failure carries the number of a line that was read |
| WbParser.RunNext | editor/wbmap_parser.go:66-73 | a blank or `#` line is skipped; any other trimmed line goes through one step |
| WbParser.ParseLines | editor/wbmap_parser.go:265-268 | the loop's error is passed on. After a successful loop the parse fails, with `no game info specified`, exactly when no game was stored. A successful parse is the save the loop built, and always has a game |
| WbParser.StepStores | editor/wbmap_parser.go:74-249 | one step stores a Game, Team, Player, Map or Plot only at its End tag, and changes the version only at a `Version=` line |
| WbParser.RunStores | editor/wbmap_parser.go:66-250 | over lines without an entity's End tag, the loop leaves that part of the save as it was; over lines without a `Version=` line, it leaves the version |
| WbParser.NoEndGameRefused | editor/wbmap_parser.go:230-233 | a text with no `EndGame` line is refused, with `no game info specified` when the loop itself succeeds |
| WbParser.DefaultVersionKept | editor/wbmap_parser.go:59 | a parsed text with no `Version=` line has the default version, 11 |
| WbParser.ParseWbMap | editor/wbmap_parser.go:46-269 | the scanner loop with the source's culture pattern, then the game check, computes `Parse(AsWritten, input)` |
| WbParser.CountPlaceholders | editor/wbmap_parser.go:253-260 | never more placeholders than players |
| WbParser.TallyPlayers | editor/wbmap_parser.go:253-260 | counts the placeholder players, and real plus placeholder players is the number of players |
| WbFormat.CultureFields | editor/wbmap_structs.go:946-948 | one culture line per player |
| WbFormat.FeatureFields | editor/wbmap_structs.go:690-694 | one feature line per feature type |
| WbFormat.WriteField | editor/wbmap_generator.go:67-126 | the generator appends the lines of one field |
| WbFormat.WriteFields | editor/wbmap_generator.go:67-126 | the generator appends the lines of a field table in order |
| WbFormat.WriteSection | editor/wbmap_generator.go:27-50 | a section is its start tag, its fields one level deeper, and its end tag, and the generator's indent and tag stack are restored |
| WbFormat.GameToWbFormat | editor/wbmap_structs.go:220-241 | the text written for a game is its `GameLines` |
| WbFormat.TeamToWbFormat | editor/wbmap_structs.go:324-338 | the text written for a team is its `TeamLines` |
| WbFormat.PlayerToWbFormat | editor/wbmap_structs.go:415-447 | the text written for a player is its `PlayerLines` |
| WbFormat.MapPropsToWbFormat | editor/wbmap_structs.go:815-832 | the text written for the map properties is their `MapPropsLines` |
| WbFormat.UnitAddAsSubsection | editor/wbmap_structs.go:1030-1039 | appends the unit's section at the generator's indent and restores indent and tag stack |
| WbFormat.UnitToWbFormat | editor/wbmap_structs.go:1041-1045 | the text written for a unit is its section at indent 0 |
| WbFormat.CityAddAsSubsection | editor/wbmap_structs.go:933-950 | appends the city's section at the generator's indent and restores indent and tag stack |
| WbFormat.CityToWbFormat | editor/wbmap_structs.go:952-956 | the text written for a city is its section at indent 0 |
| WbFormat.AddUnits | editor/wbmap_structs.go:699-701 | appends the units' sections in order |
| WbFormat.AddCities | editor/wbmap_structs.go:702-704 | appends the cities' sections in order |
| WbFormat.WritePlotBody | editor/wbmap_structs.go:675-705 | appends the plot's fields, units, cities and revealed teams, one level deep |
| WbFormat.PlotToWbFormat | editor/wbmap_structs.go:672-708 | the text written for a plot is its `PlotLines` |
| WbFormat.TeamsToWbFormat | editor/wbmap_structs.go:71-73 | the teams' sections, in order |
| WbFormat.PlayersToWbFormat | editor/wbmap_structs.go:74-76 | the players' sections, in order |
| WbFormat.PlotsToWbFormat | editor/wbmap_structs.go:78-80 | the plots' sections, in order |
| WbFormat.WbMapToWbFormat | editor/wbmap_structs.go:67-86 | the version line, then the game, teams, players, map and plots: `WbMapLines` |
| WbRows.RowRead | editor/wbmap_parser.go:280-298 | a clean written row is its own trimmed text, is no tag and no comment, and `parseLine` reads it back as its pairs |
| WbRows.RunIsScan | editor/wbmap_parser.go:66-73 | the corrected parser's loop is the step scanner applied to the trimmed lines |
| WbReadGame.GameRead | editor/wbmap_structs.go:153-218 | Game.Unpack, applied to the rows Game.ToWbFormat writes, rebuilds the game |
| WbReadGame.TeamRead | editor/wbmap_structs.go:271-322 | Team.Unpack rebuilds the team from the rows Team.ToWbFormat writes |
| WbReadGame.MapPropsRead | editor/wbmap_structs.go:748-813 | MapProps.Unpack rebuilds the map properties from their written rows |
| WbReadPlayer.PlayerRead | editor/wbmap_structs.go:449-532 | Player.Unpack rebuilds the player from the rows Player.ToWbFormat writes |
| WbReadUnit.UnitRead | editor/wbmap_structs.go:983-1028 | Unit.Unpack rebuilds the unit from the rows its subsection writes |
| WbReadUnit.CityFixedRead | editor/wbmap_structs.go:894-927 | the corrected City.Unpack rebuilds every fixed city field from its written rows |
| WbReadCity.CultureReads | editor/wbmap_structs.go:874-891 | the corrected City.Unpack reads the written culture lines into exactly the written entries |
| WbReadCity.CityRead | editor/wbmap_structs.go:872-931 | the corrected City.Unpack rebuilds the city from the rows its subsection writes |
| WbReadPlot.PlotHeadRead | editor/wbmap_structs.go:606-621 | Plot.Unpack reads back the coordinates, landmark and script data |
| WbReadPlotFields.PlotFieldsRead | editor/wbmap_structs.go:603-670 | Plot.Unpack rebuilds every field of the plot other than its units, cities and revealed teams |
| WbReadSave.TeamsScan | editor/wbmap_parser.go:211-228 | the written team sections append exactly those teams |
| WbReadSave.PlayersScan | editor/wbmap_parser.go:193-210 | the written player sections append exactly those players |
| WbReadSave.UnitsScan | editor/wbmap_parser.go:173-192 | the written unit sections inside a plot append exactly those units to it |
| WbReadSave.CitiesScan | editor/wbmap_parser.go:153-172 | the written city sections inside a plot append exactly those cities to it |
| WbReadSave.PlotScan | editor/wbmap_parser.go:127-152 | a written plot section stores that plot, units and cities included |
| WbReadSave.PlotsScan | editor/wbmap_parser.go:127-152 | the written plot sections append exactly those plots |
| WbReadSave.SaveHeadScan | editor/wbmap_parser.go:76-107 | the version line, the game and the teams set the version, game and teams |
| WbReadSave.SaveTailScan | editor/wbmap_parser.go:110-228 | the players, map and plots sections complete the save |
| WbReadSave.SaveContents | editor/wbmap_structs.go:67-86 | the trimmed written lines are the sections' trimmed lines, in the order written |
| WbReadSave.SaveSectionsScan | editor/wbmap_parser.go:66-250 | a scanner obeying the section laws takes a written save's sections to that save |
| WbRoundTrip.StepVersionLaw | editor/wbmap_parser.go:78-83 | outside every section, a version line sets the version (the corrected step; both steps agree outside City sections) |
| WbRoundTrip.StepGameLaws | editor/wbmap_parser.go:229-246 | the corrected parser's step opens, fills and closes a game section as the writer lays it out |
| WbRoundTrip.StepTeamLaws | editor/wbmap_parser.go:211-228 | the corrected parser's step opens, fills and closes a team section |
| WbRoundTrip.StepPlayerLaws | editor/wbmap_parser.go:193-210 | the corrected parser's step opens, fills and closes a player section |
| WbRoundTrip.StepMapLaws | editor/wbmap_parser.go:110-126 | the corrected parser's step opens, fills and closes the map section |
| WbRoundTrip.StepUnitLaws | editor/wbmap_parser.go:173-192 | the corrected parser's step opens a unit inside a plot, fills it and stores it into that plot |
| WbRoundTrip.StepCityLaws | editor/wbmap_parser.go:153-172 | the corrected parser's step (the culture pattern fixed) opens a city inside a plot, fills it and stores it into that plot |
| WbRoundTrip.StepPlotLaws | editor/wbmap_parser.go:127-152 | the corrected parser's step opens, fills and closes a plot section, with its units and cities |
| WbRoundTrip.StepSaveLaws | editor/wbmap_parser.go:74-249 | the corrected parser's step obeys the laws of every section of a save |
| WbRoundTrip.SaveScan | editor/wbmap_parser.go:66-250 | the corrected parser's step takes the trimmed written lines of a save to that save |
| WbRoundTrip.CorrectedRoundTripLines | editor/wbmap_parser.go:46-269 | the corrected parser reads the lines WbMap.ToWbFormat writes back as the save, culture included |
| WbRoundTrip.CorrectedRoundTrip | editor/wbmap_structs.go:67-86 | the corrected parser reads the text WbMap.ToWbFormat writes back as the save, culture included |
| WbAsWritten.UnpackWrittenAccepted | editor/wbmap_structs.go:872-931 | a line the source's `City.Unpack` accepts is read the same way by the corrected one, and adds no culture |
| WbAsWritten.UnpackCorrectedFree | editor/wbmap_structs.go:872-931 | a line the corrected `City.Unpack` reads into a city without culture started from a city without culture and is read the same way as written |
| WbAsWritten.UnpackPlotCities | editor/wbmap_structs.go:603-670 | `Plot.Unpack` never changes the plot's cities |
| WbAsWritten.StepsAgree | editor/wbmap_parser.go:74-249 | outside a City subsection the two parsers' steps are the same |
| WbAsWritten.StepWrittenAccepted | editor/wbmap_parser.go:74-249 | a line the source's step accepts is taken by the corrected step to the same state, and brings in no culture |
| WbAsWritten.StepCorrectedFree | editor/wbmap_parser.go:74-249 | a corrected step that ends with no culture starts with none, and the source's step takes it the same way |
| WbAsWritten.RunWrittenAccepted | editor/wbmap_parser.go:66-250 | whatever the source's scanner loop reads, the corrected loop reads the same way, and adds no culture |
| WbAsWritten.RunCorrectedFree | editor/wbmap_parser.go:66-250 | lines the corrected loop takes to a state with no culture are read the same way by the source's loop |
| WbAsWritten.ParseWrittenAccepted | editor/wbmap_parser.go:46-269 | `ParseWbMap` succeeds only where the corrected parser does, with the same save, and that save has no culture |
| WbAsWritten.RoundTripLines | editor/wbmap_parser.go:46-269 | `ParseWbMap` reads the lines WbMap.ToWbFormat writes for a readable save without culture back as that save |
| WbAsWritten.RoundTrip | editor/wbmap_structs.go:67-86 | `ParseWbMap` reads the text WbMap.ToWbFormat writes for a readable save without culture back as that save |
| WbAsWritten.CultureRefused | editor/wbmap_structs.go:870 | `ParseWbMap` refuses the text WbMap.ToWbFormat writes for a readable save with any culture entry |
| WbPlain.SaveLinesPlain | editor/wbmap_structs.go:67-86 | no written line of a readable save holds a line break or ends in a carriage return |

## Left out

- Logging through `ConsoleWrite` is left out. Only the player tally it prints is modelled, as `TallyPlayers`.
- `bufio.Scanner` has a 64 KiB line limit. The model reads lines of any length.
- The `default` branch of the parser's state switch (wbmap_parser.go:248) is left out. The state is a closed datatype, so that branch cannot be reached.
- Go's map iteration order is random. The model fixes these orders:
  - `parseLine` and `Unpack` visit keys in the order they first appear.
  - `City.AddAsSubsection` writes culture lines in ascending player order.
  - `GetEraNames`, `GetSpeedNames` and `GetCalendarNames` visit the keys in an order the contract leaves open. The contract returns that order as a ghost result, and each name is the Type of its key.
- `fmt.Sprintf` is modelled only for the verbs the codec uses (`%d`, `%s`, `%v` on strings and numbers). The `%!(EXTRA …)` suffix Go adds in `createParserError(err.Error(), line, content)` is modelled as text. A `%` inside an error text used as the format is not interpreted as a verb.
- Unsigned fields are `int`s in the model. The unsigned ones written through `AddKeyValueUint` or `AddKeyValueUintArray` go through `int(value)`, so they round-trip for every 64-bit value (`InUint64`). Plot coordinates and culture player numbers are written with their own digits, which `Atoi` refuses above 2^63-1. The round trip covers them only up to that bound (`WbEntities.Count`).
- Strconv.Quote: characters outside ASCII are written as themselves. Go writes the ones that `unicode.IsPrint` rejects as `\u`/`\U` escapes, and invalid UTF-8 bytes as `\x` escapes. The model's strings are sequences of Unicode characters, so neither case is modelled.
- Go panics on a nil pointer in two places. `WbMap.ToWbFormat` panics on a nil `Game` or `Map`, and `Plot.ToWbFormat` panics when `FeatureVariety` is shorter than `FeatureType`. The writers require `Writable` / `FeaturesFit` instead of modelling the panic.
- `WbParser.CountPlaceholders`: its contract states only the bound. `TallyPlayers` states that it counts exactly the NONE/NONE players.
- `WbScan.Scan` is the parser's `Run` with the step function as a parameter. `WbRows.RunIsScan` proves the two agree for the parser's own step.
- The round trip holds only for saves that satisfy `SaveOk`. Outside it, information is lost:
  - An empty string field, or an empty string in a list, is not written, so it reads back as the default.
  - A river direction is written only when its river flag is set, so any other direction reads back as 0.
  - Feature varieties beyond the number of feature types are not written.
  - Text holding a comma or a line break, or ending in a blank, does not survive.
  - A number outside the 64-bit range does not survive.
  - City culture does not survive `ParseWbMap` as written. `WbAsWritten.CultureRefused` proves that the text is refused. Only the corrected parser reads it back (see Findings).
- WbRoundTrip.StepCityLaws: stated for the corrected step, whose city reader takes culture lines. The source's step refuses a culture line (`WbAsWritten.CultureRefused`). Every line it accepts, it reads as the corrected step does (`WbAsWritten.StepWrittenAccepted`).
- WbRoundTrip.StepPlotLaws: stated for the corrected step, because it includes the city laws.
- WbRoundTrip.StepSaveLaws: stated for the corrected step, because it includes the city laws.
- WbRoundTrip.SaveScan: stated for the corrected step. The source's loop reads back only saves without culture (`WbAsWritten.RoundTripLines`).
- WbRoundTrip.CorrectedRoundTripLines: about the corrected parser. `ParseWbMap` as written reads back only saves without culture (`WbAsWritten.RoundTripLines`).
- WbRoundTrip.CorrectedRoundTrip: about the corrected parser. `ParseWbMap` as written reads back only saves without culture (`WbAsWritten.RoundTrip`).
- XML loading (`ParseXMLFromFile`, `xmlTypeRegex`), the GUI, the web UI and settings are left out, and so are the global tables in `game_info.go` other than the ones the lookups take as parameters. None of them is part of the codec. The lookups take their tables as parameters instead of reading package globals.

## Findings

| source | as written | input that shows it | evidently intended | confidence | as-written member | corrected member |
|---|---|---|---|---|---|---|
| editor/wbmap_structs.go:870 | the culture pattern is `` `Player([0-9]+)Culture` ``, with literal backticks, while `City.AddAsSubsection` writes `Player3Culture=100` without them | the city line `Player3Culture=100`: the pattern does not match, the key falls to the `default` case, and `City.Unpack` fails with `unknown key: Player3Culture`. A key that does match (with backticks) writes into the city's nil `PlayerCulture` map, which panics | the pattern `Player([0-9]+)Culture` (no backticks) over an initialised map, so that written culture is read back | not executed | WbAsWritten.CultureRefused | WbRoundTrip.CorrectedRoundTrip |
