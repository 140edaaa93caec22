/**
 * SimpleGenerator: the text writer every serializer of the save format
 * uses. It keeps the output written so far, the nesting depth and a stack
 * of pending closing tags; each line is indented by one tab per depth.
 */
module WbGenerator {
  import opened Text
  import opened Strconv
  import opened UtilsLib

  /**
   * One line of a section body, before indentation: either `key=value`
   * fragments joined by commas (a single fragment for an ordinary field),
   * or a bare token such as a presence flag.
   */
  datatype Row = KeyValues(pairs: seq<(string, string)>) | Bare(token: string)

  function Fragment(kv: (string, string)): string {
    kv.0 + "=" + kv.1
  }

  function Fragments(pairs: seq<(string, string)>): (parts: seq<string>)
    ensures |parts| == |pairs|
    ensures forall i :: 0 <= i < |pairs| ==> parts[i] == Fragment(pairs[i])
  {
    if pairs == [] then [] else [Fragment(pairs[0])] + Fragments(pairs[1..])
  }

  function RowText(row: Row): string {
    match row
    case KeyValues(pairs) => Join(Fragments(pairs), ',')
    case Bare(token) => token
  }

  /** The lines the rows become at the given depth. */
  function RowLines(depth: nat, rows: seq<Row>): (lines: seq<string>)
    ensures |lines| == |rows|
  {
    if rows == [] then [] else [Tabs(depth) + RowText(rows[0])] + RowLines(depth, rows[1..])
  }

  lemma {:induction false} RowLinesAppend(depth: nat, a: seq<Row>, b: seq<Row>)
    ensures RowLines(depth, a + b) == RowLines(depth, a) + RowLines(depth, b)
  {
    if a != [] {
      assert (a + b)[1..] == a[1..] + b;
      RowLinesAppend(depth, a[1..], b);
    } else {
      assert a + b == b;
    }
  }

  /** AddKeyValue's rule: a field whose value is the empty string is left out. */
  function StrRow(key: string, value: string): (rows: seq<Row>)
    ensures value == "" <==> rows == []
  {
    if value == "" then [] else [KeyValues([(key, value)])]
  }

  /** An integer field is always written, zero included. */
  function IntRow(key: string, value: int): (rows: seq<Row>)
    ensures rows == [KeyValues([(key, Itoa(value))])]
  {
    ItoaPlain(value);
    StrRow(key, Itoa(value))
  }

  /** A boolean field is always written, as 1 or 0. */
  function BoolRow(key: string, value: bool): (rows: seq<Row>)
    ensures rows == [KeyValues([(key, if value then "1" else "0")])]
  {
    IntRow(key, BoolToInt(value))
  }

  /** A repeated key: one line per non-empty element, in order. */
  function StrArrayRows(key: string, values: seq<string>): (rows: seq<Row>)
    ensures |rows| <= |values|
  {
    if values == [] then [] else StrRow(key, values[0]) + StrArrayRows(key, values[1..])
  }

  /** A repeated integer key: one line per element, in order. */
  function IntArrayRows(key: string, values: seq<int>): (rows: seq<Row>)
    ensures |rows| == |values|
  {
    if values == [] then [] else IntRow(key, values[0]) + IntArrayRows(key, values[1..])
  }

  /** An unsigned field is written as `int(value)`: past MaxInt64 it comes out negative. */
  function UintRow(key: string, value: int): (rows: seq<Row>)
    ensures rows == [KeyValues([(key, Itoa(Signed(value)))])]
    ensures 0 <= value <= MaxInt64 ==> rows == IntRow(key, value)
  {
    IntRow(key, Signed(value))
  }

  /** A repeated unsigned key: one line per element, each written as `int(value)`. */
  function UintArrayRows(key: string, values: seq<int>): (rows: seq<Row>)
    ensures |rows| == |values|
  {
    if values == [] then [] else UintRow(key, values[0]) + UintArrayRows(key, values[1..])
  }

  class SimpleGenerator {
    var buffer: string
    var indent: nat
    var endTag: seq<string>

    /** The depth is the number of sections still open. */
    ghost predicate Valid()
      reads this
    {
      indent == |endTag|
    }

    constructor ()
      ensures Valid() && buffer == "" && endTag == []
    {
      buffer, indent, endTag := "", 0, [];
    }

    /** Bytes: everything written so far. */
    function Bytes(): string
      reads this
    {
      buffer
    }

    method WriteIndent()
      modifies this`buffer
      ensures buffer == old(buffer) + Tabs(indent)
    {
      var i := 0;
      while i < indent
        invariant 0 <= i <= indent
        invariant buffer == old(buffer) + Tabs(i)
      {
        buffer := buffer + "\t";
        i := i + 1;
      }
    }

    /** StartSection: the opening tag at the current depth, then one level deeper. */
    method StartSection(startTag: string, closeTag: string)
      requires Valid()
      modifies this
      ensures Valid()
      ensures buffer == old(buffer) + Render([Tabs(old(indent)) + startTag])
      ensures endTag == old(endTag) + [closeTag] && indent == old(indent) + 1
    {
      WriteIndent();
      buffer := buffer + startTag + "\n";
      endTag := endTag + [closeTag];
      indent := indent + 1;
    }

    /**
     * EndSection: one level up, then the most recently pushed closing tag
     * at that depth; with no open section it does nothing.
     */
    method EndSection()
      requires Valid()
      modifies this
      ensures Valid()
      ensures old(endTag) == [] ==> buffer == old(buffer) && endTag == []
      ensures old(endTag) != [] ==>
                && endTag == old(endTag)[..|old(endTag)| - 1]
                && buffer == old(buffer) + Render([Tabs(indent) + old(endTag)[|old(endTag)| - 1]])
    {
      if |endTag| < 1 {
        return;
      }
      indent := indent - 1;
      WriteIndent();
      buffer := buffer + endTag[|endTag| - 1] + "\n";
      endTag := endTag[..|endTag| - 1];
    }

    /** AddLine: the line at the current depth; earlier output is kept as it was. */
    method AddLine(line: string)
      modifies this`buffer
      ensures buffer == old(buffer) + Render([Tabs(indent) + line])
    {
      WriteIndent();
      buffer := buffer + line;
      buffer := buffer + "\n";
    }

    /** AddComment: `#` and the comment, with no indentation and no newline. */
    method AddComment(comment: string)
      modifies this`buffer
      ensures buffer == old(buffer) + "#" + comment
    {
      buffer := buffer + "#" + comment;
    }

    /** AddKeyValue: nothing for an empty value, otherwise one `key=value` line. */
    method AddKeyValue(key: string, value: string)
      modifies this`buffer
      ensures value == "" ==> buffer == old(buffer)
      ensures value != "" ==> buffer == old(buffer) + Tabs(indent) + key + "=" + value + "\n"
      ensures buffer == old(buffer) + Render(RowLines(indent, StrRow(key, value)))
    {
      if value == "" {
        return;
      }
      assert Join(Fragments([(key, value)]), ',') == key + "=" + value;
      AddLine(key + "=" + value);
    }

    method AddKeyValueInt(key: string, value: int)
      modifies this`buffer
      ensures buffer == old(buffer) + Tabs(indent) + key + "=" + Itoa(value) + "\n"
      ensures buffer == old(buffer) + Render(RowLines(indent, IntRow(key, value)))
    {
      AddKeyValue(key, Itoa(value));
    }

    method AddKeyValueInt64(key: string, value: int)
      modifies this`buffer
      ensures buffer == old(buffer) + Tabs(indent) + key + "=" + Itoa(value) + "\n"
      ensures buffer == old(buffer) + Render(RowLines(indent, IntRow(key, value)))
    {
      AddKeyValue(key, Itoa(value));
    }

    /** AddKeyValueUint writes `int(value)`, so a value past MaxInt64 is written negative. */
    method AddKeyValueUint(key: string, value: int)
      modifies this`buffer
      ensures buffer == old(buffer) + Tabs(indent) + key + "=" + Itoa(Signed(value)) + "\n"
      ensures buffer == old(buffer) + Render(RowLines(indent, UintRow(key, value)))
    {
      AddKeyValue(key, Itoa(Signed(value)));
    }

    method AddKeyValueBool(key: string, value: bool)
      modifies this`buffer
      ensures buffer == old(buffer) + Tabs(indent) + key + "=" + (if value then "1" else "0") + "\n"
      ensures buffer == old(buffer) + Render(RowLines(indent, BoolRow(key, value)))
    {
      AddKeyValue(key, Itoa(BoolToInt(value)));
    }

    method AddKeyValueString(key: string, value: string)
      modifies this`buffer
      ensures buffer == old(buffer) + Render(RowLines(indent, StrRow(key, value)))
    {
      AddKeyValue(key, value);
    }

    /** One `key=value` line per element, in order; empty elements are skipped. */
    method AddKeyValueArray(key: string, values: seq<string>)
      modifies this`buffer
      ensures buffer == old(buffer) + Render(RowLines(indent, StrArrayRows(key, values)))
    {
      var i := 0;
      while i < |values|
        invariant 0 <= i <= |values|
        invariant buffer == old(buffer) + Render(RowLines(indent, StrArrayRows(key, values[..i])))
      {
        ghost var before := buffer;
        AddKeyValue(key, values[i]);
        ArrayRowsSnoc(key, values, i);
        AppendRows(old(buffer), before, buffer, indent, StrArrayRows(key, values[..i]), StrRow(key, values[i]));
        i := i + 1;
      }
      assert values[..i] == values;
    }

    method AddKeyValueIntArray(key: string, values: seq<int>)
      modifies this`buffer
      ensures buffer == old(buffer) + Render(RowLines(indent, IntArrayRows(key, values)))
    {
      var i := 0;
      while i < |values|
        invariant 0 <= i <= |values|
        invariant buffer == old(buffer) + Render(RowLines(indent, IntArrayRows(key, values[..i])))
      {
        ghost var before := buffer;
        AddKeyValueInt(key, values[i]);
        IntArrayRowsSnoc(key, values, i);
        AppendRows(old(buffer), before, buffer, indent, IntArrayRows(key, values[..i]), IntRow(key, values[i]));
        i := i + 1;
      }
      assert values[..i] == values;
    }

    /** AddKeyValueUintArray: one line per element, each written as `int(value)`. */
    method AddKeyValueUintArray(key: string, values: seq<int>)
      modifies this`buffer
      ensures buffer == old(buffer) + Render(RowLines(indent, UintArrayRows(key, values)))
    {
      var i := 0;
      while i < |values|
        invariant 0 <= i <= |values|
        invariant buffer == old(buffer) + Render(RowLines(indent, UintArrayRows(key, values[..i])))
      {
        ghost var before := buffer;
        AddKeyValueUint(key, values[i]);
        UintArrayRowsSnoc(key, values, i);
        AppendRows(old(buffer), before, buffer, indent, UintArrayRows(key, values[..i]), UintRow(key, values[i]));
        i := i + 1;
      }
      assert values[..i] == values;
    }

    /** AddCommaSeparatedValues: one line at the current depth, the values joined by commas. */
    method AddCommaSeparatedValues(values: seq<string>)
      modifies this`buffer
      ensures buffer == old(buffer) + Render([Tabs(indent) + Join(values, ',')])
    {
      WriteIndent();
      var i := 0;
      while i < |values|
        invariant 0 <= i <= |values|
        invariant buffer == old(buffer) + Tabs(indent) + Join(values[..i], ',')
      {
        JoinSnoc(values, i);
        if i > 0 {
          buffer := buffer + ",";
        }
        buffer := buffer + values[i];
        i := i + 1;
      }
      assert values[..i] == values;
      buffer := buffer + "\n";
    }
  }

  /** Writing the rows of `next` after those of `done` writes the rows of both. */
  lemma AppendRows(b0: string, b1: string, b2: string, depth: nat, done: seq<Row>, next: seq<Row>)
    requires b1 == b0 + Render(RowLines(depth, done))
    requires b2 == b1 + Render(RowLines(depth, next))
    ensures b2 == b0 + Render(RowLines(depth, done + next))
  {
    RowLinesAppend(depth, done, next);
    RenderAppend(RowLines(depth, done), RowLines(depth, next));
  }

  lemma {:induction false} JoinSnoc(values: seq<string>, i: nat)
    requires i < |values|
    ensures Join(values[..i + 1], ',') == Join(values[..i], ',') + (if i > 0 then "," else "") + values[i]
    decreases i
  {
    if i > 0 {
      var a := values[1..];
      JoinSnoc(a, i - 1);
      assert values[..i + 1][1..] == a[..i];
      assert values[..i][1..] == a[..i - 1];
      if i > 1 {
        assert Join(values[..i], ',') == values[0] + [','] + Join(a[..i - 1], ',');
      } else {
        assert Join(values[..i], ',') == values[0];
        assert Join(a[..0], ',') == "";
      }
    }
  }

  lemma ArrayRowsSnoc(key: string, values: seq<string>, i: nat)
    requires i < |values|
    ensures StrArrayRows(key, values[..i + 1]) == StrArrayRows(key, values[..i]) + StrRow(key, values[i])
  {
    StrArrayRowsAppend(key, values[..i], [values[i]]);
    assert values[..i + 1] == values[..i] + [values[i]];
  }

  lemma {:induction false} StrArrayRowsAppend(key: string, a: seq<string>, b: seq<string>)
    ensures StrArrayRows(key, a + b) == StrArrayRows(key, a) + StrArrayRows(key, b)
    decreases |a|
  {
    if a != [] {
      assert (a + b)[1..] == a[1..] + b;
      StrArrayRowsAppend(key, a[1..], b);
    } else {
      assert a + b == b;
    }
  }

  lemma IntArrayRowsSnoc(key: string, values: seq<int>, i: nat)
    requires i < |values|
    ensures IntArrayRows(key, values[..i + 1]) == IntArrayRows(key, values[..i]) + IntRow(key, values[i])
  {
    IntArrayRowsAppend(key, values[..i], [values[i]]);
    assert values[..i + 1] == values[..i] + [values[i]];
  }

  lemma {:induction false} IntArrayRowsAppend(key: string, a: seq<int>, b: seq<int>)
    ensures IntArrayRows(key, a + b) == IntArrayRows(key, a) + IntArrayRows(key, b)
    decreases |a|
  {
    if a != [] {
      assert (a + b)[1..] == a[1..] + b;
      IntArrayRowsAppend(key, a[1..], b);
    } else {
      assert a + b == b;
    }
  }

  lemma UintArrayRowsSnoc(key: string, values: seq<int>, i: nat)
    requires i < |values|
    ensures UintArrayRows(key, values[..i + 1]) == UintArrayRows(key, values[..i]) + UintRow(key, values[i])
  {
    UintArrayRowsAppend(key, values[..i], [values[i]]);
    assert values[..i + 1] == values[..i] + [values[i]];
  }

  lemma {:induction false} UintArrayRowsAppend(key: string, a: seq<int>, b: seq<int>)
    ensures UintArrayRows(key, a + b) == UintArrayRows(key, a) + UintArrayRows(key, b)
    decreases |a|
  {
    if a != [] {
      assert (a + b)[1..] == a[1..] + b;
      UintArrayRowsAppend(key, a[1..], b);
    } else {
      assert a + b == b;
    }
  }
}
