/**
 * The small slice and map helpers of the editor package: membership,
 * add-if-absent, remove-first (in place, as Go's append does), sorted map
 * keys, and the integer conversions used by the user interface.
 */
module UtilsLib {
  import opened Wrappers
  import opened Strconv

  /**
   * ToInt: the parsed integer with the error ignored, so 0 for text that is
   * not a decimal integer and the 64-bit bound of its sign for one out of
   * range (including digits that pass 2^64 - 1 before a bad character).
   */
  function ToInt(s: string): (n: int)
    ensures InInt64(n)
    ensures Atoi(s).Some? ==> n == Atoi(s).value
    ensures Atoi(s).None? && !RangeError(s) ==> n == 0
    ensures RangeError(s) && !Negative(s) ==> n == MaxInt64
    ensures RangeError(s) && Negative(s) ==> n == MinInt64
  {
    AtoiValue(s)
  }

  /** ToUint: `uint(ToInt(s))`; a negative value wraps around modulo 2^64. */
  function ToUint(s: string): (u: nat)
    ensures u < Uint64Range
    ensures 0 <= ToInt(s) ==> u == ToInt(s)
    ensures ToInt(s) < 0 ==> u == ToInt(s) + Uint64Range
  {
    Unsigned(ToInt(s))
  }

  /** Converting a number to text and back with ToInt gives the number. */
  lemma ToIntItoa(n: int)
    requires InInt64(n)
    ensures ToInt(Itoa(n)) == n
  {
    AtoiItoa(n);
  }

  /** BoolToInt: true is 1 and false is 0. */
  function BoolToInt(b: bool): (n: int)
    ensures 0 <= n <= 1
    ensures n == 1 <==> b
  {
    if b then 1 else 0
  }

  /** IsInSlice: a scan from the front that stops at the first equal element. */
  function IsInSlice(slice: seq<string>, value: string): (found: bool)
    ensures found <==> exists i :: 0 <= i < |slice| && slice[i] == value
  {
    if slice == [] then false
    else if slice[0] == value then true
    else
      var found := IsInSlice(slice[1..], value);
      assert found ==> exists i :: 1 <= i < |slice| && slice[i] == value by {
        if found { var j :| 0 <= j < |slice[1..]| && slice[1..][j] == value; assert slice[j + 1] == value; }
      }
      found
  }

  predicate NoDuplicates(s: seq<string>) {
    forall i, j :: 0 <= i < j < |s| ==> s[i] != s[j]
  }

  /** AddToSlice: the slice itself when the value is there already, else the value appended. */
  function AddToSlice(slice: seq<string>, value: string): (r: seq<string>)
    ensures value in r
    ensures |slice| <= |r| <= |slice| + 1 && r[..|slice|] == slice
    ensures value in slice ==> r == slice
    ensures NoDuplicates(slice) ==> NoDuplicates(r)
  {
    if IsInSlice(slice, value) then slice else slice + [value]
  }

  /** Adding a value twice is the same as adding it once. */
  lemma AddToSliceIdempotent(slice: seq<string>, value: string)
    ensures AddToSlice(AddToSlice(slice, value), value) == AddToSlice(slice, value)
  {
  }

  /** The slice value RemoveFromSlice returns: the first equal element taken out. */
  function RemoveFirst(slice: seq<string>, value: string): (r: seq<string>)
    ensures value !in slice ==> r == slice
    ensures value in slice ==> |r| == |slice| - 1
  {
    if slice == [] then []
    else
      assert slice == [slice[0]] + slice[1..];
      if slice[0] == value then slice[1..]
      else [slice[0]] + RemoveFirst(slice[1..], value)
  }

  /** Removing takes exactly one copy of the value out, when there is one. */
  lemma {:induction false} RemoveFirstMultiset(slice: seq<string>, value: string)
    ensures multiset(RemoveFirst(slice, value)) == multiset(slice) - multiset{value}
    decreases |slice|
  {
    if slice != [] {
      assert slice == [slice[0]] + slice[1..];
      RemoveFirstMultiset(slice[1..], value);
    }
  }

  /** Removing the first occurrence keeps everything before it and shifts the rest left by one. */
  lemma {:induction false} RemoveFirstAt(slice: seq<string>, value: string, i: nat)
    requires i < |slice| && slice[i] == value
    requires forall j :: 0 <= j < i ==> slice[j] != value
    ensures RemoveFirst(slice, value) == slice[..i] + slice[i + 1..]
    decreases i
  {
    var tail := slice[1..];
    assert slice == [slice[0]] + tail;
    if i > 0 {
      assert slice[0] != value;
      RemoveFirstAt(tail, value, i - 1);
      calc {
        RemoveFirst(slice, value);
        [slice[0]] + RemoveFirst(tail, value);
        [slice[0]] + (tail[..i - 1] + tail[i..]);
        { assert [slice[0]] + tail[..i - 1] == slice[..i]; assert tail[i..] == slice[i + 1..]; }
        slice[..i] + slice[i + 1..];
      }
    }
  }

  /**
   * RemoveFromSlice on a slice of length `n` over the backing array `a`:
   * the elements after the first match move one place to the left inside
   * `a` itself, so the caller's original slice of length `n` now ends with
   * its last element twice. Returns the length of the shortened slice.
   */
  method RemoveFromSlice(a: array<string>, n: nat, value: string) returns (m: nat)
    requires n <= a.Length
    modifies a
    ensures m == |RemoveFirst(old(a[..n]), value)|
    ensures a[..] == if value in old(a[..n])
                     then RemoveFirst(old(a[..n]), value) + [old(a[n - 1])] + old(a[n..])
                     else old(a[..])
  {
    var i := 0;
    while i < n && a[i] != value
      invariant 0 <= i <= n
      invariant forall j :: 0 <= j < i ==> a[j] != value
    {
      i := i + 1;
    }
    if i == n {
      assert value !in a[..n];
      return n;
    }
    ghost var before := a[..];
    assert before[..n][i] == value;
    RemoveFirstAt(before[..n], value, i);
    ShiftLeft(a, i, n);
    m := n - 1;
    assert a[..] == a[..n - 1] + [a[n - 1]] + a[n..];
    assert before[..n][..i] == before[..i] && before[..n][i + 1..] == before[i + 1..n];
    assert a[n..] == a[n - 1..][1..] && before[n..] == before[n - 1..][1..];
  }

  /** Go's `append(slice[:i], slice[i+1:]...)`: copy a[i+1..n] one place to the left. */
  method ShiftLeft(a: array<string>, i: nat, n: nat)
    requires i < n <= a.Length
    modifies a
    ensures a[..n - 1] == old(a[..i]) + old(a[i + 1..n])
    ensures a[n - 1..] == old(a[n - 1..])
  {
    var j := i;
    while j + 1 < n
      invariant i <= j <= n - 1
      invariant forall k :: 0 <= k < i ==> a[k] == old(a[k])
      invariant forall k :: i <= k < j ==> a[k] == old(a[k + 1])
      invariant forall k :: j <= k < a.Length ==> a[k] == old(a[k])
    {
      a[j] := a[j + 1];
      j := j + 1;
    }
  }

  /** SwitchInSlice: add the value when `add` holds, otherwise remove its first occurrence. */
  function SwitchInSlice(add: bool, slice: seq<string>, value: string): (r: seq<string>)
    ensures add ==> value in r
    ensures !add && NoDuplicates(slice) ==> value !in r
  {
    if add then AddToSlice(slice, value)
    else
      var r := RemoveFirst(slice, value);
      assert value in slice && NoDuplicates(slice) ==> value !in r by {
        if value in slice && NoDuplicates(slice) {
          var i :| 0 <= i < |slice| && slice[i] == value;
          assert forall j :: 0 <= j < i ==> slice[j] != value;
          RemoveFirstAt(slice, value, i);
          assert forall j :: 0 <= j < |slice| && j != i ==> slice[j] != value;
        }
      }
      r
  }

  /** Switching a value on and then off again restores a slice that did not hold it. */
  lemma SwitchOnOff(slice: seq<string>, value: string)
    requires value !in slice
    ensures SwitchInSlice(false, SwitchInSlice(true, slice, value), value) == slice
  {
    var added := slice + [value];
    RemoveFirstAt(added, value, |slice|);
    assert added[..|slice|] == slice;
  }

  /** Byte-wise lexicographic order, as Go's `sort.Strings` uses. */
  predicate Less(a: string, b: string)
    decreases |a|
  {
    if a == [] then b != []
    else if b == [] then false
    else if a[0] != b[0] then a[0] < b[0]
    else Less(a[1..], b[1..])
  }

  lemma {:induction false} LessIrreflexive(a: string)
    ensures !Less(a, a)
    decreases |a|
  {
    if a != [] { LessIrreflexive(a[1..]); }
  }

  lemma {:induction false} LessTransitive(a: string, b: string, c: string)
    requires Less(a, b) && Less(b, c)
    ensures Less(a, c)
    decreases |a|
  {
    if a != [] && b != [] && c != [] && a[0] == b[0] == c[0] {
      LessTransitive(a[1..], b[1..], c[1..]);
    }
  }

  lemma {:induction false} LessTotal(a: string, b: string)
    requires a != b
    ensures Less(a, b) || Less(b, a)
    decreases |a|
  {
    if a != [] && b != [] && a[0] == b[0] {
      assert a == [a[0]] + a[1..] && b == [b[0]] + b[1..];
      LessTotal(a[1..], b[1..]);
    }
  }

  predicate StrictlySorted(s: seq<string>) {
    forall i, j :: 0 <= i < j < |s| ==> Less(s[i], s[j])
  }

  /** Insert a new key into a strictly sorted sequence at its place. */
  function InsertSorted(s: seq<string>, k: string): (r: seq<string>)
    requires StrictlySorted(s) && k !in s
    ensures StrictlySorted(r)
    ensures forall x :: x in r <==> x in s || x == k
  {
    if s == [] then [k]
    else if Less(k, s[0]) then
      assert forall j :: 0 <= j < |s| ==> Less(k, s[j]) by {
        forall j | 0 <= j < |s| ensures Less(k, s[j]) {
          if j > 0 { LessTransitive(k, s[0], s[j]); }
        }
      }
      [k] + s
    else
      LessTotal(k, s[0]);
      var rest := InsertSorted(s[1..], k);
      assert forall j :: 0 <= j < |rest| ==> Less(s[0], rest[j]) by {
        forall j | 0 <= j < |rest| ensures Less(s[0], rest[j]) {
          assert rest[j] in s[1..] || rest[j] == k;
          if rest[j] != k {
            var m :| 0 <= m < |s[1..]| && s[1..][m] == rest[j];
            assert s[m + 1] == rest[j];
          }
        }
      }
      [s[0]] + rest
  }

  /**
   * SortKeys: every key of the map, each exactly once, in ascending order.
   * The keys are taken out of the map in an unspecified order (Go's map
   * order) and each one is put in its place.
   */
  method SortKeys<T>(dict: map<string, T>) returns (keys: seq<string>)
    ensures StrictlySorted(keys)
    ensures forall k :: k in keys <==> k in dict
  {
    keys := [];
    var rest := dict.Keys;
    while rest != {}
      invariant rest <= dict.Keys
      invariant StrictlySorted(keys)
      invariant forall k :: k in keys <==> k in dict && k !in rest
      decreases rest
    {
      var k :| k in rest;
      keys := InsertSorted(keys, k);
      rest := rest - {k};
    }
  }

  /** Strict order means no key appears twice. */
  lemma SortedDistinct(s: seq<string>)
    requires StrictlySorted(s)
    ensures NoDuplicates(s)
  {
    forall i, j | 0 <= i < j < |s| ensures s[i] != s[j] {
      if s[i] == s[j] { LessIrreflexive(s[i]); }
    }
  }
}
