/**
 * Reading back the lines SimpleGenerator writes. A written row, once its
 * indentation is trimmed, is split into exactly the fragments that were
 * joined, and every fragment gives back its `key=value` pair, so the map
 * parseLine builds is the row's pairs in order. Inside an open section the
 * rows are then applied to the entity one after another.
 */
module WbRows {
  import opened Wrappers
  import opened Text
  import opened WbGenerator
  import opened WbStructs
  import opened WbParser
  import opened WbFormat

  const Tags: set<string> := {
    BeginGame, EndGame, BeginPlayer, EndPlayer, BeginTeam, EndTeam, BeginMap, EndMap,
    BeginPlot, EndPlot, BeginUnit, EndUnit, BeginCity, EndCity}

  /** Text that stays inside one fragment of one line: no comma and no line break. */
  predicate Unbroken(s: string) {
    ',' !in s && '\n' !in s && '\r' !in s
  }

  /** A key that survives the trip: no `=`, no tab, no space at either end, not a comment. */
  predicate CleanKey(key: string) {
    && key != [] && Unbroken(key) && '=' !in key && '\t' !in key
    && key[0] != ' ' && key[0] != '#' && key[|key| - 1] != ' '
  }

  /** A value that survives the trip: no trailing blank, which the trimming would drop. */
  predicate CleanValue(value: string) {
    Unbroken(value) && (value == [] || (value[|value| - 1] != ' ' && value[|value| - 1] != '\t'))
  }

  predicate CleanPairs(pairs: seq<(string, string)>) {
    && pairs != [] && DistinctKeys(pairs)
    && forall i :: 0 <= i < |pairs| ==> CleanKey(pairs[i].0) && CleanValue(pairs[i].1)
  }

  predicate CleanRow(row: Row) {
    match row
    case KeyValues(pairs) => CleanPairs(pairs)
    case Bare(token) => CleanKey(token) && ' ' !in token && token !in Tags
  }

  predicate AllClean(rows: seq<Row>) {
    rows == [] || (CleanRow(rows[0]) && AllClean(rows[1..]))
  }

  /** The pairs a row stands for: a bare token is the flag `token=1`. */
  function RowPairs(row: Row): seq<(string, string)> {
    match row
    case KeyValues(pairs) => pairs
    case Bare(token) => [(token, "1")]
  }

  // ------------------------------------------------------------ one row

  /** Writing a key the map does not hold yet appends it. */
  lemma {:induction false} PutNew(kvs: seq<(string, string)>, key: string, value: string)
    requires key !in Keys(kvs)
    ensures Put(kvs, key, value) == kvs + [(key, value)]
    decreases |kvs|
  {
    if kvs != [] {
      PutNew(kvs[1..], key, value);
      assert [kvs[0]] + (kvs[1..] + [(key, value)]) == kvs + [(key, value)];
    }
  }

  lemma {:induction false} KeysAppend(a: seq<(string, string)>, b: seq<(string, string)>)
    ensures Keys(a + b) == Keys(a) + Keys(b)
    decreases |a|
  {
    if a != [] {
      assert (a + b)[1..] == a[1..] + b;
      KeysAppend(a[1..], b);
    } else {
      assert a + b == b;
    }
  }

  /** One written fragment with a new key is trimmed to itself and added at the end. */
  lemma AddPartsFragment(kvs: seq<(string, string)>, key: string, value: string, parts: seq<string>)
    requires CleanKey(key) && CleanValue(value) && key !in Keys(kvs)
    ensures AddParts(kvs, [key + "=" + value] + parts) == AddParts(kvs + [(key, value)], parts)
  {
    var f := key + "=" + value;
    assert ([f] + parts)[0] == f && ([f] + parts)[1..] == parts;
    TrimClean(f, {' '});
    ParseKeyValueFragment(key, value);
    PutNew(kvs, key, value);
  }

  lemma AppendFirst(kvs: seq<(string, string)>, pairs: seq<(string, string)>)
    requires pairs != []
    ensures kvs + [(pairs[0].0, pairs[0].1)] + pairs[1..] == kvs + pairs
  {
    assert pairs == [pairs[0]] + pairs[1..];
  }

  /** parseLine's loop reads the written fragments back as the pairs, in order. */
  lemma {:induction false} AddPartsFragments(kvs: seq<(string, string)>, pairs: seq<(string, string)>)
    requires forall i :: 0 <= i < |pairs| ==> CleanKey(pairs[i].0) && CleanValue(pairs[i].1)
    requires DistinctKeys(pairs) && Keys(pairs) !! Keys(kvs)
    ensures AddParts(kvs, Fragments(pairs)) == Success(kvs + pairs)
    decreases |pairs|
  {
    if pairs == [] {
      assert kvs + pairs == kvs;
    } else {
      var key, value := pairs[0].0, pairs[0].1;
      assert Fragments(pairs) == [key + "=" + value] + Fragments(pairs[1..]);
      assert key in Keys(pairs);
      AddPartsFragment(kvs, key, value, Fragments(pairs[1..]));
      var next := kvs + [(key, value)];
      KeysAppend(kvs, [(key, value)]);
      AddPartsFragments(next, pairs[1..]);
      AppendFirst(kvs, pairs);
    }
  }

  /** The first and last characters of a join, and its first part as a prefix. */
  lemma {:induction false} JoinEnds(parts: seq<string>, sep: char)
    requires parts != []
    requires forall k :: 0 <= k < |parts| ==> parts[k] != []
    ensures var s := Join(parts, sep); var last := parts[|parts| - 1];
            && HasPrefix(s, parts[0])
            && s[|s| - 1] == last[|last| - 1]
    decreases |parts|
  {
    if |parts| > 1 {
      JoinEnds(parts[1..], sep);
      var s := Join(parts, sep);
      assert s == parts[0] + ([sep] + Join(parts[1..], sep));
      assert s[..|parts[0]|] == parts[0];
    }
  }

  /** A text that starts with anything but `#` is not skipped. */
  lemma NotSkipped(s: string)
    requires s != [] && s[0] != '#'
    ensures !Skipped(s)
  {
  }

  /** A line holding `=` is no section tag. */
  lemma NoTagHoldsEquals(s: string)
    requires '=' in s
    ensures s !in Tags
  {
  }

  /** Every written fragment of clean pairs is non-empty and comma-free. */
  lemma FragmentsUnbroken(pairs: seq<(string, string)>)
    requires CleanPairs(pairs)
    ensures forall k :: 0 <= k < |pairs| ==> Fragments(pairs)[k] != [] && ',' !in Fragments(pairs)[k]
  {
    var parts := Fragments(pairs);
    forall k | 0 <= k < |parts| ensures parts[k] != [] && ',' !in parts[k] {
      assert parts[k] == pairs[k].0 + "=" + pairs[k].1;
    }
  }

  /** The line of clean pairs starts with the first key, holds `=`, and ends outside the blanks. */
  lemma PairsText(pairs: seq<(string, string)>)
    requires CleanPairs(pairs)
    ensures var text := Join(Fragments(pairs), ',');
            && text != [] && text[0] !in Blank && text[0] != '#' && text[|text| - 1] !in Blank
            && '=' in text
  {
    var parts := Fragments(pairs);
    var text := Join(parts, ',');
    FragmentsUnbroken(pairs);
    JoinEnds(parts, ',');
    var last := pairs[|pairs| - 1];
    assert parts[|parts| - 1] == last.0 + "=" + last.1;
    assert text[..|parts[0]|] == pairs[0].0 + "=" + pairs[0].1;
    assert text[|pairs[0].0|] == '=';
  }

  /** parseLine splits the line of clean pairs back into the pairs. */
  lemma PairsParsed(pairs: seq<(string, string)>, line: nat)
    requires CleanPairs(pairs)
    ensures ParseLine(Join(Fragments(pairs), ','), line) == Success(pairs)
  {
    var parts := Fragments(pairs);
    FragmentsUnbroken(pairs);
    SplitJoin(parts, ',');
    AddPartsFragments([], pairs);
    assert [] + pairs == pairs;
  }

  /** A line of `key=value` fragments reads back as its pairs. */
  lemma PairsRead(pairs: seq<(string, string)>, line: nat)
    requires CleanPairs(pairs)
    ensures var text := Join(Fragments(pairs), ',');
            && text != [] && text[0] !in Blank && text[|text| - 1] !in Blank
            && !Skipped(text) && text !in Tags
            && ParseLine(text, line) == Success(pairs)
  {
    var text := Join(Fragments(pairs), ',');
    PairsText(pairs);
    NoTagHoldsEquals(text);
    NotSkipped(text);
    PairsParsed(pairs, line);
  }

  /** A bare token reads back as the flag `token=1`. */
  lemma TokenParsed(token: string, line: nat)
    requires CleanKey(token) && ' ' !in token
    ensures ParseLine(token, line) == Success([(token, "1")])
  {
    assert IndexOf(token, ',') == |token|;
    assert Split(token, ',') == [token];
    TrimClean(token, {' '});
    assert ParseKeyValue(token) == Success((token, "1"));
    assert Put([], token, "1") == [(token, "1")];
    assert AddParts([], [token]) == AddParts([(token, "1")], []);
  }

  /**
   * A clean row reads back: its text is neither blank, a comment nor a tag,
   * it neither starts nor ends with blank, and its map is the row's pairs.
   */
  lemma RowRead(row: Row, line: nat)
    requires CleanRow(row)
    ensures var text := RowText(row);
            && text != [] && text[0] !in Blank && text[|text| - 1] !in Blank
            && !Skipped(text) && text !in Tags
            && ParseLine(text, line) == Success(RowPairs(row))
  {
    match row
    case KeyValues(pairs) => PairsRead(pairs, line);
    case Bare(token) =>
      NotSkipped(token);
      TokenParsed(token, line);
  }

  // ------------------------------------------------------ trimmed lines

  /** What the scanner looks at in each line: the line with its blanks trimmed. */
  function Contents(lines: seq<string>): (cs: seq<string>)
    ensures |cs| == |lines|
    ensures forall i :: 0 <= i < |lines| ==> cs[i] == Trim(lines[i], Blank)
  {
    seq(|lines|, i requires 0 <= i < |lines| => Trim(lines[i], Blank))
  }

  lemma ContentsAppend(a: seq<string>, b: seq<string>)
    ensures Contents(a + b) == Contents(a) + Contents(b)
  {
    assert forall i :: 0 <= i < |a + b| ==> Contents(a + b)[i] == (Contents(a) + Contents(b))[i];
  }

  lemma ContentsCons(lines: seq<string>)
    requires lines != []
    ensures Contents(lines)[0] == Trim(lines[0], Blank)
    ensures Contents(lines)[1..] == Contents(lines[1..])
  {
  }

  /** An indented text that neither starts nor ends with blank trims to itself. */
  lemma IndentedContent(text: string, depth: nat)
    requires text != [] && text[0] !in Blank && text[|text| - 1] !in Blank
    ensures Contents([Tabs(depth) + text]) == [text]
  {
    TabsAreTabs(depth);
    TrimIndented(Tabs(depth), text, Blank);
  }

  /** The texts of the rows, one per row. */
  function RowTexts(rows: seq<Row>): (texts: seq<string>)
    ensures |texts| == |rows|
  {
    if rows == [] then [] else [RowText(rows[0])] + RowTexts(rows[1..])
  }

  /** Clean rows written at any depth trim back to their texts. */
  lemma {:induction false} RowsContents(depth: nat, rows: seq<Row>)
    requires AllClean(rows)
    ensures Contents(RowLines(depth, rows)) == RowTexts(rows)
    decreases |rows|
  {
    if rows != [] {
      RowRead(rows[0], 0);
      IndentedContent(RowText(rows[0]), depth);
      RowsContents(depth, rows[1..]);
      ContentsAppend([Tabs(depth) + RowText(rows[0])], RowLines(depth, rows[1..]));
    }
  }

  /** A section's lines trim to its tags around the trimmed body. */
  lemma SectionContents(depth: nat, open: string, body: seq<string>, close: string)
    requires open != [] && open[0] !in Blank && open[|open| - 1] !in Blank
    requires close != [] && close[0] !in Blank && close[|close| - 1] !in Blank
    ensures Contents(Section(depth, open, body, close)) == [open] + Contents(body) + [close]
  {
    IndentedContent(open, depth);
    IndentedContent(close, depth);
    ContentsAppend([Tabs(depth) + open], body);
    ContentsAppend([Tabs(depth) + open] + body, [Tabs(depth) + close]);
  }

  // ------------------------------------------------- rows in a section

  /** Applying the rows' pairs to an entity, one row after another. */
  function ApplyRows<E>(e: E, rows: seq<Row>, field: (E, string, string) -> Result<E, UnpackError>)
    : Result<E, UnpackError>
    decreases |rows|
  {
    if rows == [] then Success(e)
    else
      var e' :- Unpack(e, RowPairs(rows[0]), field);
      ApplyRows(e', rows[1..], field)
  }

  lemma {:induction false} ApplyRowsAppend<E>(e: E, a: seq<Row>, b: seq<Row>,
                                              field: (E, string, string) -> Result<E, UnpackError>)
    ensures ApplyRows(e, a + b, field) ==
            match ApplyRows(e, a, field)
            case Success(e') => ApplyRows(e', b, field)
            case Failure(err) => Failure(err)
    decreases |a|
  {
    if a != [] {
      assert (a + b)[0] == a[0] && (a + b)[1..] == a[1..] + b;
      match Unpack(e, RowPairs(a[0]), field)
      case Success(e') => ApplyRowsAppend(e', a[1..], b, field);
      case Failure(_) =>
    } else {
      assert a + b == b;
    }
  }

  // --------------------------------------- the scanner with any step

  /**
   * The scanner loop of Run with the step as a parameter, over the trimmed
   * lines: the reading of written lines is argued once here for any step
   * obeying a few laws, and RunIsScan ties it to the corrected Run and its step.
   */
  function Scan(step: (Progress, string, nat) -> Result<Progress, ParseError>, p: Progress,
                contents: seq<string>, done: nat): Result<Progress, ParseError>
    decreases |contents|
  {
    if contents == [] then Success(p)
    else if Skipped(contents[0]) then Scan(step, p, contents[1..], done + 1)
    else
      var next :- step(p, contents[0], done + 1);
      Scan(step, next, contents[1..], done + 1)
  }

  lemma {:induction false} RunIsScan(p: Progress, lines: seq<string>, done: nat)
    ensures Run(Corrected, p, lines, done) == Scan(CorrectedStep, p, Contents(lines), done)
    decreases |lines|
  {
    if lines != [] {
      RunNext(Corrected, p, lines, done);
      ContentsCons(lines);
      var cs := Contents(lines);
      if Skipped(cs[0]) {
        RunIsScan(p, lines[1..], done + 1);
      } else {
        match Step(Corrected, p, cs[0], done + 1)
        case Success(next) => RunIsScan(next, lines[1..], done + 1);
        case Failure(_) =>
      }
    }
  }

  /** A text that is not skipped goes to the step. */
  lemma ScanCons(step: (Progress, string, nat) -> Result<Progress, ParseError>, p: Progress,
                 content: string, rest: seq<string>, done: nat, q: Progress)
    requires !Skipped(content)
    requires step(p, content, done + 1) == Success(q)
    ensures Scan(step, p, [content] + rest, done) == Scan(step, q, rest, done + 1)
  {
    assert ([content] + rest)[1..] == rest;
  }

  /** The progress after one body line of the section `wrap` puts an entity into. */
  function Reading<E>(saved: WbMap, wrap: E -> Open, r: Result<E, ParseError>): Result<Progress, ParseError> {
    match r
    case Success(e) => Success(Progress(saved, wrap(e)))
    case Failure(err) => Failure(err)
  }

  /** In the section `wrap` stands for, a clean row is a body line of the entity `x`. */
  ghost predicate ReadsRow<E>(step: (Progress, string, nat) -> Result<Progress, ParseError>, saved: WbMap,
                              wrap: E -> Open, field: (E, string, string) -> Result<E, UnpackError>,
                              x: E, row: Row, line: nat) {
    CleanRow(row) ==>
      step(Progress(saved, wrap(x)), RowText(row), line) == Reading(saved, wrap, Body(x, RowText(row), line, field))
  }

  ghost predicate ReadsRows<E(!new)>(step: (Progress, string, nat) -> Result<Progress, ParseError>, saved: WbMap,
                                    wrap: E -> Open, field: (E, string, string) -> Result<E, UnpackError>) {
    forall x: E, row: Row, line: nat :: ReadsRow(step, saved, wrap, field, x, row, line)
  }

  /** One clean row is one body line of the open entity. */
  lemma RowStep<E(!new)>(step: (Progress, string, nat) -> Result<Progress, ParseError>, saved: WbMap,
                         wrap: E -> Open, field: (E, string, string) -> Result<E, UnpackError>,
                         e: E, row: Row, rest: seq<string>, done: nat)
    requires ReadsRows(step, saved, wrap, field) && CleanRow(row)
    requires Unpack(e, RowPairs(row), field).Success?
    ensures Scan(step, Progress(saved, wrap(e)), [RowText(row)] + rest, done) ==
            Scan(step, Progress(saved, wrap(Unpack(e, RowPairs(row), field).value)), rest, done + 1)
  {
    assert ReadsRow(step, saved, wrap, field, e, row, done + 1);
    RowRead(row, done + 1);
    var e' := Unpack(e, RowPairs(row), field).value;
    assert Body(e, RowText(row), done + 1, field) == Success(e');
    ScanCons(step, Progress(saved, wrap(e)), RowText(row), rest, done, Progress(saved, wrap(e')));
  }

  /** The scanner reads a run of clean rows into the open entity, one line each, up to line `last`. */
  lemma {:induction false} ScanRows<E(!new)>(step: (Progress, string, nat) -> Result<Progress, ParseError>,
                                             saved: WbMap, wrap: E -> Open,
                                             field: (E, string, string) -> Result<E, UnpackError>,
                                             e: E, rows: seq<Row>, final: E, rest: seq<string>, done: nat, last: nat)
    requires ReadsRows(step, saved, wrap, field)
    requires AllClean(rows)
    requires ApplyRows(e, rows, field) == Success(final)
    requires last == done + |rows|
    ensures Scan(step, Progress(saved, wrap(e)), RowTexts(rows) + rest, done) ==
            Scan(step, Progress(saved, wrap(final)), rest, last)
    decreases |rows|
  {
    if rows == [] {
      assert RowTexts(rows) + rest == rest;
    } else {
      var tail := RowTexts(rows[1..]) + rest;
      assert RowTexts(rows) + rest == [RowText(rows[0])] + tail;
      RowStep(step, saved, wrap, field, e, rows[0], tail, done);
      ScanRows(step, saved, wrap, field, Unpack(e, RowPairs(rows[0]), field).value, rows[1..], final, rest, done + 1, last);
    }
  }
}
