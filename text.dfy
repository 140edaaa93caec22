/**
 * The string operations the codec relies on (Go's `strings.Trim`,
 * `strings.HasPrefix`, `strings.Split`, line scanning), written out on
 * `seq<char>`.
 */
module Text {

  /** `n` tab characters: one per nesting level of the generator. */
  function Tabs(n: nat): (s: string)
    ensures |s| == n
  {
    if n == 0 then "" else Tabs(n - 1) + "\t"
  }

  lemma {:induction false} TabsAreTabs(n: nat)
    ensures forall i :: 0 <= i < n ==> Tabs(n)[i] == '\t'
  {
    if n > 0 { TabsAreTabs(n - 1); }
  }

  predicate HasPrefix(s: string, prefix: string) {
    |prefix| <= |s| && s[..|prefix|] == prefix
  }

  predicate HasSuffix(s: string, suffix: string) {
    |suffix| <= |s| && s[|s| - |suffix|..] == suffix
  }

  /** strings.TrimLeft: drop leading characters that belong to the cut set. */
  function TrimLeft(s: string, cut: set<char>): (r: string)
    ensures |r| <= |s| && r == s[|s| - |r|..]
    ensures r == [] || r[0] !in cut
    ensures forall i :: 0 <= i < |s| - |r| ==> s[i] in cut
  {
    if |s| > 0 && s[0] in cut then TrimLeft(s[1..], cut) else s
  }

  /** strings.TrimRight: drop trailing characters that belong to the cut set. */
  function TrimRight(s: string, cut: set<char>): (r: string)
    ensures |r| <= |s| && r == s[..|r|]
    ensures r == [] || r[|r| - 1] !in cut
    ensures forall i :: |r| <= i < |s| ==> s[i] in cut
  {
    if |s| > 0 && s[|s| - 1] in cut then TrimRight(s[..|s| - 1], cut) else s
  }

  /** strings.Trim with the cut set given as a set of characters. */
  function Trim(s: string, cut: set<char>): string {
    TrimRight(TrimLeft(s, cut), cut)
  }

  /** Trimming leaves a string alone that starts and ends outside the cut set. */
  lemma TrimClean(s: string, cut: set<char>)
    requires s == [] || (s[0] !in cut && s[|s| - 1] !in cut)
    ensures Trim(s, cut) == s
  {
  }

  /** Trimming removes any leading run of cut characters (the generator's indentation). */
  lemma {:induction false} TrimIndented(pad: string, s: string, cut: set<char>)
    requires forall i :: 0 <= i < |pad| ==> pad[i] in cut
    requires s != [] && s[0] !in cut && s[|s| - 1] !in cut
    ensures Trim(pad + s, cut) == s
  {
    if pad != [] {
      assert (pad + s)[1..] == pad[1..] + s;
      TrimIndented(pad[1..], s, cut);
    } else {
      assert pad + s == s;
    }
  }

  /** Index of the first occurrence of `c`, or |s| when there is none. */
  function IndexOf(s: string, c: char): (i: nat)
    ensures i <= |s|
    ensures i < |s| ==> s[i] == c
    ensures forall j :: 0 <= j < i ==> s[j] != c
  {
    if s == [] then 0 else if s[0] == c then 0 else 1 + IndexOf(s[1..], c)
  }

  /** strings.Split with a one-character separator: n separators give n+1 parts. */
  function Split(s: string, sep: char): (parts: seq<string>)
    ensures |parts| > 0
    ensures forall k :: 0 <= k < |parts| ==> sep !in parts[k]
    decreases |s|
  {
    var i := IndexOf(s, sep);
    if i == |s| then [s] else [s[..i]] + Split(s[i + 1..], sep)
  }

  /** strings.Join with a one-character separator. */
  function Join(parts: seq<string>, sep: char): string {
    if parts == [] then ""
    else if |parts| == 1 then parts[0]
    else parts[0] + [sep] + Join(parts[1..], sep)
  }

  /** Splitting what Join wrote gives the parts back, when no part holds the separator. */
  lemma {:induction false} SplitJoin(parts: seq<string>, sep: char)
    requires parts != []
    requires forall k :: 0 <= k < |parts| ==> sep !in parts[k]
    ensures Split(Join(parts, sep), sep) == parts
    decreases |parts|
  {
    if |parts| > 1 {
      var head, tail := parts[0], parts[1..];
      JoinCons(parts, sep);
      SplitCons(head, Join(tail, sep), sep);
      forall k | 0 <= k < |tail|
        ensures sep !in tail[k]
      {
        assert tail[k] == parts[k + 1];
      }
      SplitJoin(tail, sep);
      assert parts == [head] + tail;
    } else {
      IndexOfPrefix(parts[0], [], sep);
      assert parts[0] + [] == parts[0];
    }
  }

  lemma JoinCons(parts: seq<string>, sep: char)
    requires |parts| > 1
    ensures Join(parts, sep) == parts[0] + ([sep] + Join(parts[1..], sep))
  {
  }

  /** The first separator ends the first part. */
  lemma SplitCons(head: string, rest: string, sep: char)
    requires sep !in head
    ensures Split(head + ([sep] + rest), sep) == [head] + Split(rest, sep)
  {
    var s := head + ([sep] + rest);
    assert ([sep] + rest)[0] == sep;
    IndexOfPrefix(head, [sep] + rest, sep);
    assert s[..|head|] == head;
    assert s[|head| + 1..] == rest;
  }

  lemma {:induction false} IndexOfPrefix(a: string, b: string, c: char)
    requires c !in a
    ensures IndexOf(a + b, c) == |a| + IndexOf(b, c)
    decreases |a|
  {
    if a != [] {
      assert (a + b)[1..] == a[1..] + b;
      IndexOfPrefix(a[1..], b, c);
    } else {
      assert a + b == b;
    }
  }

  /** The bytes of a sequence of lines, each terminated by a newline. */
  function Render(lines: seq<string>): string {
    if lines == [] then "" else lines[0] + "\n" + Render(lines[1..])
  }

  lemma RenderOne(line: string)
    ensures Render([line]) == line + "\n"
  {
    assert [line][1..] == [];
  }

  lemma {:induction false} RenderAppend(a: seq<string>, b: seq<string>)
    ensures Render(a + b) == Render(a) + Render(b)
    decreases |a|
  {
    if a != [] {
      assert (a + b)[1..] == a[1..] + b;
      RenderAppend(a[1..], b);
    } else {
      assert a + b == b;
    }
  }

  /** bufio.ScanLines drops one carriage return at the end of each line. */
  function DropCR(line: string): string {
    if |line| > 0 && line[|line| - 1] == '\r' then line[..|line| - 1] else line
  }

  /**
   * bufio.ScanLines: the text is cut at every newline; a final piece with
   * no newline after it is a line too, but a newline at the very end does
   * not start an empty line.
   */
  function Lines(s: string): (lines: seq<string>)
    decreases |s|
  {
    if s == [] then []
    else
      var i := IndexOf(s, '\n');
      if i == |s| then [DropCR(s)] else [DropCR(s[..i])] + Lines(s[i + 1..])
  }

  /** A physical line the scanner hands back unchanged. */
  predicate PlainLine(line: string) {
    '\n' !in line && (line == [] || line[|line| - 1] != '\r')
  }

  /** Scanning the rendered lines gives the same lines back. */
  lemma {:induction false} LinesRender(lines: seq<string>)
    requires forall k :: 0 <= k < |lines| ==> PlainLine(lines[k])
    ensures Lines(Render(lines)) == lines
    decreases |lines|
  {
    if lines != [] {
      var s := Render(lines);
      var rest := Render(lines[1..]);
      assert s == lines[0] + ("\n" + rest);
      IndexOfPrefix(lines[0], "\n" + rest, '\n');
      assert s[..|lines[0]|] == lines[0];
      assert s[|lines[0]| + 1..] == rest;
      assert IndexOf(s, '\n') == |lines[0]| < |s|;
      assert DropCR(lines[0]) == lines[0];
      assert Lines(s) == [lines[0]] + Lines(rest);
      LinesRender(lines[1..]);
    }
  }
}
