/**
 * The scanner over written sections, for any step obeying the laws of a
 * section: its opening tag puts the zero entity in the state, each clean
 * row is a body line of the open entity, and its closing tag stores the
 * entity read. Stated over Scan, so that nothing here depends on the
 * size of the parser's own step.
 */
module WbScan {
  import opened Wrappers
  import opened Text
  import opened WbGenerator
  import opened WbStructs
  import opened WbParser
  import opened WbFormat
  import opened WbRows
  import opened WbEntities

  /** A tag line the scanner sees as itself: not blank at either end, neither blank nor a comment. */
  predicate TagText(t: string) {
    t != [] && t[0] !in Blank && t[|t| - 1] !in Blank && !Skipped(t)
  }

  lemma TagsText()
    ensures TagText(BeginGame) && TagText(EndGame) && TagText(BeginTeam) && TagText(EndTeam)
    ensures TagText(BeginPlayer) && TagText(EndPlayer) && TagText(BeginMap) && TagText(EndMap)
    ensures TagText(BeginPlot) && TagText(EndPlot) && TagText(BeginUnit) && TagText(EndUnit)
    ensures TagText(BeginCity) && TagText(EndCity)
  {
  }

  /** A section of clean rows trims to its tags around the rows' texts. */
  lemma SectionRowsContents(depth: nat, open: string, rows: seq<Row>, close: string)
    requires TagText(open) && TagText(close) && AllClean(rows)
    ensures Contents(Section(depth, open, RowLines(depth + 1, rows), close)) == [open] + RowTexts(rows) + [close]
  {
    SectionContents(depth, open, RowLines(depth + 1, rows), close);
    RowsContents(depth + 1, rows);
  }

  lemma Regroup<T>(a: seq<T>, b: seq<T>, c: seq<T>, d: seq<T>)
    ensures a + b + c + d == a + (b + (c + d))
  {
  }

  lemma ChainScans(a: Result<Progress, ParseError>, b: Result<Progress, ParseError>,
                   c: Result<Progress, ParseError>, d: Result<Progress, ParseError>)
    requires a == b && b == c && c == d
    ensures a == d
  {
  }

  /** The rows of a section from the line after its opening tag, named `first`, to the line before `last`. */
  lemma RowsScan<E(!new)>(step: (Progress, string, nat) -> Result<Progress, ParseError>, saved: WbMap,
                          wrap: E -> Open, field: (E, string, string) -> Result<E, UnpackError>,
                          empty: E, x: E, rows: seq<Row>, rest: seq<string>, first: nat, last: nat)
    requires ReadsRows(step, saved, wrap, field)
    requires AllClean(rows) && ApplyRows(empty, rows, field) == Success(x)
    requires last == first + |rows|
    ensures Scan(step, Progress(saved, wrap(empty)), RowTexts(rows) + rest, first) ==
            Scan(step, Progress(saved, wrap(x)), rest, last)
  {
    ScanRows(step, saved, wrap, field, empty, rows, x, rest, first, last);
  }

  /** One line that is not skipped, taken from the line after `done`, named `next`. */
  lemma LineScan(step: (Progress, string, nat) -> Result<Progress, ParseError>, p: Progress,
                 content: string, rest: seq<string>, done: nat, next: nat, q: Progress)
    requires !Skipped(content) && next == done + 1
    requires step(p, content, next) == Success(q)
    ensures Scan(step, p, [content] + rest, done) == Scan(step, q, rest, next)
  {
    ScanCons(step, p, content, rest, done, q);
  }

  /**
   * A section of clean rows from the opening tag to the closing tag: the
   * step opens the zero entity, the rows fill it, the closing tag makes `q`.
   */
  lemma SectionScan<E(!new)>(step: (Progress, string, nat) -> Result<Progress, ParseError>, p: Progress,
                             open: string, close: string, wrap: E -> Open,
                             field: (E, string, string) -> Result<E, UnpackError>,
                             empty: E, x: E, rows: seq<Row>, q: Progress, rest: seq<string>,
                             done: nat, closing: nat)
    requires TagText(open) && TagText(close) && closing == done + |rows| + 2
    requires forall line: nat :: step(p, open, line) == Success(Progress(p.saved, wrap(empty)))
    requires ReadsRows(step, p.saved, wrap, field)
    requires AllClean(rows) && ApplyRows(empty, rows, field) == Success(x)
    requires forall line: nat :: step(Progress(p.saved, wrap(x)), close, line) == Success(q)
    ensures Scan(step, p, [open] + RowTexts(rows) + [close] + rest, done) == Scan(step, q, rest, closing)
  {
    var inside := Progress(p.saved, wrap(empty));
    var filled := Progress(p.saved, wrap(x));
    var first := done + 1;
    var last := closing - 1;
    Regroup([open], RowTexts(rows), [close], rest);
    LineScan(step, p, open, RowTexts(rows) + ([close] + rest), done, first, inside);
    RowsScan(step, p.saved, wrap, field, empty, x, rows, [close] + rest, first, last);
    LineScan(step, filled, close, rest, last, closing, q);
    ChainScans(Scan(step, p, [open] + (RowTexts(rows) + ([close] + rest)), done),
               Scan(step, inside, RowTexts(rows) + ([close] + rest), first),
               Scan(step, filled, [close] + rest, last), Scan(step, q, rest, closing));
  }

  /** Scans of equal texts agree. */
  lemma SameScan(step: (Progress, string, nat) -> Result<Progress, ParseError>, p: Progress,
                 a: seq<string>, b: seq<string>, done: nat, r: Result<Progress, ParseError>)
    requires a == b && Scan(step, p, b, done) == r
    ensures Scan(step, p, a, done) == r
  {
  }

  /** The written lines of a section whose table reads back, scanned as one section. */
  lemma SectionLinesScan<E(!new)>(step: (Progress, string, nat) -> Result<Progress, ParseError>, p: Progress,
                                  depth: nat, open: string, close: string, wrap: E -> Open,
                                  field: (E, string, string) -> Result<E, UnpackError>,
                                  empty: E, x: E, fields: seq<Field>, q: Progress, rest: seq<string>,
                                  done: nat, closing: nat)
    requires TagText(open) && TagText(close)
    requires ReadsTo(empty, fields, field, x)
    requires forall line: nat :: step(p, open, line) == Success(Progress(p.saved, wrap(empty)))
    requires ReadsRows(step, p.saved, wrap, field)
    requires forall line: nat :: step(Progress(p.saved, wrap(x)), close, line) == Success(q)
    requires closing == done + |Section(depth, open, RowLines(depth + 1, FieldsRows(fields)), close)|
    ensures Scan(step, p, Contents(Section(depth, open, RowLines(depth + 1, FieldsRows(fields)), close)) + rest, done) ==
            Scan(step, q, rest, closing)
  {
    var rows := FieldsRows(fields);
    var lines := Section(depth, open, RowLines(depth + 1, rows), close);
    assert |lines| == |rows| + 2;
    SectionRowsContents(depth, open, rows, close);
    SectionScan(step, p, open, close, wrap, field, empty, x, rows, q, rest, done, closing);
    SameScan(step, p, Contents(lines) + rest, [open] + RowTexts(rows) + [close] + rest, done, Scan(step, q, rest, closing));
  }

  // ------------------------------------------------- the laws of a section

  /** Outside every section, the tag `open` opens the section `wrap` on the zero entity. */
  ghost predicate OpensAt<E>(step: (Progress, string, nat) -> Result<Progress, ParseError>,
                             open: string, wrap: E -> Open, empty: E) {
    forall saved: WbMap, line: nat :: step(Progress(saved, Global), open, line) == Success(Progress(saved, wrap(empty)))
  }

  /** In the section `wrap`, every clean row is a body line of the open entity. */
  ghost predicate FillsAt<E(!new)>(step: (Progress, string, nat) -> Result<Progress, ParseError>,
                                   wrap: E -> Open, field: (E, string, string) -> Result<E, UnpackError>) {
    forall saved: WbMap :: ReadsRows(step, saved, wrap, field)
  }

  /** In the section `wrap`, the tag `close` stores the entity read and leaves every section. */
  ghost predicate ClosesAt<E(!new)>(step: (Progress, string, nat) -> Result<Progress, ParseError>,
                                    close: string, wrap: E -> Open, store: (WbMap, E) -> WbMap) {
    forall saved: WbMap, x: E, line: nat ::
      step(Progress(saved, wrap(x)), close, line) == Success(Progress(store(saved, x), Global))
  }

  /** A top-level section written from a table that reads back stores the entity it was written from. */
  lemma TopSectionScan<E(!new)>(step: (Progress, string, nat) -> Result<Progress, ParseError>, saved: WbMap,
                                open: string, close: string, wrap: E -> Open,
                                field: (E, string, string) -> Result<E, UnpackError>, empty: E,
                                store: (WbMap, E) -> WbMap, x: E, fields: seq<Field>,
                                rest: seq<string>, done: nat, closing: nat)
    requires TagText(open) && TagText(close)
    requires OpensAt(step, open, wrap, empty) && FillsAt(step, wrap, field) && ClosesAt(step, close, wrap, store)
    requires ReadsTo(empty, fields, field, x)
    requires closing == done + |Section(0, open, RowLines(1, FieldsRows(fields)), close)|
    ensures Scan(step, Progress(saved, Global), Contents(Section(0, open, RowLines(1, FieldsRows(fields)), close)) + rest, done) ==
            Scan(step, Progress(store(saved, x), Global), rest, closing)
  {
    var p := Progress(saved, Global);
    var q := Progress(store(saved, x), Global);
    assert ReadsRows(step, p.saved, wrap, field);
    SectionLinesScan(step, p, 0, open, close, wrap, field, empty, x, fields, q, rest, done, closing);
  }
}
