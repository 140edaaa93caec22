/**
 * Reading back one entity: the rows each ToWbFormat (or AddAsSubsection)
 * writes for an entity, applied by Unpack to the entity's zero value, give
 * the entity back. A field reads back when its key is clean, its text
 * survives trimming, its number is one Atoi accepts (and, for an unsigned
 * field, not negative), and an empty string field is the zero value it is
 * left at, since it is not written at all.
 */
module WbEntities {
  import opened Wrappers
  import opened Strconv
  import opened WbGenerator
  import opened WbStructs
  import opened WbParser
  import opened WbFormat
  import opened WbRows

  // ------------------------------------------------ what reads back

  /**
   * An unsigned number printed with its own digits (`%v`) that Atoi reads
   * back and `uint` keeps.
   */
  predicate Count(n: int) { 0 <= n <= MaxInt64 }

  /** The values of an unsigned array field, each written as `int(value)`. */
  predicate Uint64s(ns: seq<int>) { forall i :: 0 <= i < |ns| ==> InUint64(ns[i]) }

  predicate Int64s(ns: seq<int>) { forall i :: 0 <= i < |ns| ==> InInt64(ns[i]) }

  /** The elements of a repeated string field: written one per line, so none may be empty. */
  predicate Texts(ts: seq<string>) { forall i :: 0 <= i < |ts| ==> ts[i] != "" && CleanValue(ts[i]) }

  lemma ItoaClean(n: int)
    ensures CleanValue(Itoa(n))
  {
    ItoaPlain(n);
  }

  /** A number written with Itoa is read back by the field functions' Atoi. */
  lemma NumberItoa(n: int)
    requires InInt64(n)
    ensures Number(Itoa(n)) == Success(n)
  {
    AtoiItoa(n);
  }

  /** An unsigned number written as `int(n)` is read back, and `uint` of what is read is `n`. */
  lemma UintItoa(n: int)
    requires InUint64(n)
    ensures Number(Itoa(Signed(n))) == Success(Signed(n))
    ensures Unsigned(Signed(n)) == n
  {
    AtoiItoa(Signed(n));
  }

  /** No character of `key` breaks a fragment or a key-value pair. */
  predicate KeyChars(key: string) {
    forall i :: 0 <= i < |key| ==> key[i] != ',' && key[i] != '\n' && key[i] != '\r' && key[i] != '=' && key[i] != '\t'
  }

  /** CleanKey checked one character at a time, which is how the keys of the tables are shown clean. */
  lemma CleanKeyByChars(key: string)
    requires key != [] && KeyChars(key) && key[0] != ' ' && key[0] != '#' && key[|key| - 1] != ' '
    ensures CleanKey(key)
  {
  }

  /** The rows of a prefix of a table are clean and take `e0` to `e`. */
  ghost predicate ReadsTo<E>(e0: E, fields: seq<Field>, field: (E, string, string) -> Result<E, UnpackError>, e: E) {
    AllClean(FieldsRows(fields)) && ApplyRows(e0, FieldsRows(fields), field) == Success(e)
  }

  /** The rows of one field are clean and take `e` to `e'`. */
  ghost predicate FieldReads<E>(e: E, f: Field, field: (E, string, string) -> Result<E, UnpackError>, e': E) {
    AllClean(FieldRows(f)) && ApplyRows(e, FieldRows(f), field) == Success(e')
  }

  lemma {:induction false} AllCleanAppend(a: seq<Row>, b: seq<Row>)
    requires AllClean(a) && AllClean(b)
    ensures AllClean(a + b)
    decreases |a|
  {
    if a == [] {
      assert a + b == b;
    } else {
      assert (a + b)[0] == a[0] && (a + b)[1..] == a[1..] + b;
      AllCleanAppend(a[1..], b);
    }
  }

  lemma ReadsNothing<E>(e0: E, fields: seq<Field>, field: (E, string, string) -> Result<E, UnpackError>)
    ensures ReadsTo(e0, fields[..0], field, e0)
  {
    assert fields[..0] == [];
  }

  /** A table read one field further. */
  lemma ReadsNext<E>(fields: seq<Field>, k: nat, e0: E, e: E, e': E,
                     field: (E, string, string) -> Result<E, UnpackError>)
    requires k < |fields|
    requires ReadsTo(e0, fields[..k], field, e)
    requires FieldReads(e, fields[k], field, e')
    ensures ReadsTo(e0, fields[..k + 1], field, e')
  {
    FieldsRowsSnoc(fields, k);
    AllCleanAppend(FieldsRows(fields[..k]), FieldRows(fields[k]));
    ApplyRowsAppend(e0, FieldsRows(fields[..k]), FieldRows(fields[k]), field);
  }

  /** A table read two, three or four fields further. */
  lemma ReadsTwo<E>(fields: seq<Field>, k: nat, e0: E, s0: E, s1: E, s2: E,
                    field: (E, string, string) -> Result<E, UnpackError>)
    requires k + 2 <= |fields|
    requires ReadsTo(e0, fields[..k], field, s0)
    requires FieldReads(s0, fields[k], field, s1) && FieldReads(s1, fields[k + 1], field, s2)
    ensures ReadsTo(e0, fields[..k + 2], field, s2)
  {
    ReadsNext(fields, k, e0, s0, s1, field);
    ReadsNext(fields, k + 1, e0, s1, s2, field);
  }

  lemma ReadsThree<E>(fields: seq<Field>, k: nat, e0: E, s0: E, s1: E, s2: E, s3: E,
                      field: (E, string, string) -> Result<E, UnpackError>)
    requires k + 3 <= |fields|
    requires ReadsTo(e0, fields[..k], field, s0)
    requires FieldReads(s0, fields[k], field, s1) && FieldReads(s1, fields[k + 1], field, s2)
    requires FieldReads(s2, fields[k + 2], field, s3)
    ensures ReadsTo(e0, fields[..k + 3], field, s3)
  {
    ReadsTwo(fields, k, e0, s0, s1, s2, field);
    ReadsNext(fields, k + 2, e0, s2, s3, field);
  }

  lemma ReadsFour<E>(fields: seq<Field>, k: nat, e0: E, s0: E, s1: E, s2: E, s3: E, s4: E,
                     field: (E, string, string) -> Result<E, UnpackError>)
    requires k + 4 <= |fields|
    requires ReadsTo(e0, fields[..k], field, s0)
    requires FieldReads(s0, fields[k], field, s1) && FieldReads(s1, fields[k + 1], field, s2)
    requires FieldReads(s2, fields[k + 2], field, s3) && FieldReads(s3, fields[k + 3], field, s4)
    ensures ReadsTo(e0, fields[..k + 4], field, s4)
  {
    ReadsThree(fields, k, e0, s0, s1, s2, s3, field);
    ReadsNext(fields, k + 3, e0, s3, s4, field);
  }

  /** The first four fields of a table, read from `s0`. */
  lemma ReadsFirstFour<E>(fields: seq<Field>, s0: E, s1: E, s2: E, s3: E, s4: E,
                          field: (E, string, string) -> Result<E, UnpackError>)
    requires 4 <= |fields|
    requires FieldReads(s0, fields[0], field, s1) && FieldReads(s1, fields[1], field, s2)
    requires FieldReads(s2, fields[2], field, s3) && FieldReads(s3, fields[3], field, s4)
    ensures ReadsTo(s0, fields[..4], field, s4)
  {
    ReadsNothing(s0, fields, field);
    ReadsFour(fields, 0, s0, s0, s1, s2, s3, s4, field);
  }

  /** Two tables read one after the other read as one. */
  lemma ReadsAppend<E>(e0: E, a: seq<Field>, e1: E, b: seq<Field>, e2: E,
                       field: (E, string, string) -> Result<E, UnpackError>)
    requires ReadsTo(e0, a, field, e1) && ReadsTo(e1, b, field, e2)
    ensures ReadsTo(e0, a + b, field, e2)
  {
    FieldsRowsAppend(a, b);
    AllCleanAppend(FieldsRows(a), FieldsRows(b));
    ApplyRowsAppend(e0, FieldsRows(a), FieldsRows(b), field);
  }

  /** No field at all leaves the entity as it is. */
  lemma ReadsEmpty<E>(e: E, field: (E, string, string) -> Result<E, UnpackError>)
    ensures ReadsTo(e, [], field, e)
  {
  }

  /** A table of two fields read from `s0`. */
  lemma ReadsAllTwo<E>(fields: seq<Field>, s0: E, s1: E, s2: E,
                       field: (E, string, string) -> Result<E, UnpackError>)
    requires |fields| == 2
    requires FieldReads(s0, fields[0], field, s1) && FieldReads(s1, fields[1], field, s2)
    ensures ReadsTo(s0, fields, field, s2)
  {
    ReadsNothing(s0, fields, field);
    ReadsTwo(fields, 0, s0, s0, s1, s2, field);
    ReadsAll(s0, fields, field, s2);
  }

  /** A table of three fields read from `s0`. */
  lemma ReadsAllThree<E>(fields: seq<Field>, s0: E, s1: E, s2: E, s3: E,
                         field: (E, string, string) -> Result<E, UnpackError>)
    requires |fields| == 3
    requires FieldReads(s0, fields[0], field, s1) && FieldReads(s1, fields[1], field, s2)
    requires FieldReads(s2, fields[2], field, s3)
    ensures ReadsTo(s0, fields, field, s3)
  {
    ReadsNothing(s0, fields, field);
    ReadsThree(fields, 0, s0, s0, s1, s2, s3, field);
    ReadsAll(s0, fields, field, s3);
  }

  lemma ReadsAll<E>(e0: E, fields: seq<Field>, field: (E, string, string) -> Result<E, UnpackError>, e: E)
    requires ReadsTo(e0, fields[..|fields|], field, e)
    ensures ReadsTo(e0, fields, field, e)
  {
    assert fields[..|fields|] == fields;
  }

  // ------------------------------------------------ one field of each kind

  /** One `key=value` row is applied as that one pair. */
  lemma OneRow<E>(e: E, key: string, text: string, field: (E, string, string) -> Result<E, UnpackError>, e': E)
    requires CleanKey(key) && CleanValue(text)
    requires field(e, key, text) == Success(e')
    ensures AllClean([KeyValues([(key, text)])])
    ensures ApplyRows(e, [KeyValues([(key, text)])], field) == Success(e')
  {
    var pairs := [(key, text)];
    assert pairs[1..] == [];
    assert DistinctKeys(pairs);
    assert CleanPairs(pairs);
    assert Unpack(e, pairs, field) == Success(e');
    assert [KeyValues(pairs)][1..] == [];
  }

  /** A string field: written and read when not empty, otherwise left at its zero value. */
  lemma StrReads<E>(e: E, key: string, text: string, field: (E, string, string) -> Result<E, UnpackError>, e': E)
    requires CleanKey(key) && CleanValue(text)
    requires text != "" ==> field(e, key, text) == Success(e')
    requires text == "" ==> e' == e
    ensures FieldReads(e, Str(key, text), field, e')
  {
    if text != "" {
      OneRow(e, key, text, field, e');
    }
  }

  /** A number field of any width, written with Itoa (an unsigned one as `int(number)`). */
  lemma NumberReads<E>(e: E, f: Field, field: (E, string, string) -> Result<E, UnpackError>, e': E)
    requires f.Int? || f.Int64? || f.Uint?
    requires CleanKey(f.key)
    requires field(e, f.key, Itoa(if f.Uint? then Signed(f.number) else f.number)) == Success(e')
    ensures FieldReads(e, f, field, e')
  {
    var written := if f.Uint? then Signed(f.number) else f.number;
    ItoaClean(written);
    OneRow(e, f.key, Itoa(written), field, e');
  }

  /** A boolean field, written as 1 or 0. */
  lemma FlagReads<E>(e: E, key: string, flag: bool, field: (E, string, string) -> Result<E, UnpackError>, e': E)
    requires CleanKey(key)
    requires field(e, key, if flag then "1" else "0") == Success(e')
    ensures FieldReads(e, Flag(key, flag), field, e')
  {
    OneRow(e, key, if flag then "1" else "0", field, e');
  }

  /** Several `key=value` fragments on one line, applied in order. */
  lemma JoinedReads<E>(e: E, pairs: seq<(string, string)>, field: (E, string, string) -> Result<E, UnpackError>, e': E)
    requires CleanPairs(pairs)
    requires Unpack(e, pairs, field) == Success(e')
    ensures FieldReads(e, Joined(pairs), field, e')
  {
    assert [KeyValues(pairs)][1..] == [];
  }

  /** Two `key=value` fragments on one line, the second applied to what the first made. */
  lemma PairReads<E>(e: E, k1: string, v1: string, k2: string, v2: string,
                     field: (E, string, string) -> Result<E, UnpackError>, e1: E, e2: E)
    requires CleanKey(k1) && CleanKey(k2) && k1 != k2 && CleanValue(v1) && CleanValue(v2)
    requires field(e, k1, v1) == Success(e1) && field(e1, k2, v2) == Success(e2)
    ensures FieldReads(e, Joined([(k1, v1), (k2, v2)]), field, e2)
  {
    var pairs := [(k1, v1), (k2, v2)];
    assert pairs[1..] == [(k2, v2)] && pairs[1..][1..] == [];
    assert DistinctKeys(pairs);
    assert Unpack(e1, pairs[1..], field) == Success(e2);
    JoinedReads(e, pairs, field, e2);
  }

  /** A bare token, read as the flag `token=1`. */
  lemma LineReads<E>(e: E, token: string, field: (E, string, string) -> Result<E, UnpackError>, e': E)
    requires CleanKey(token) && ' ' !in token && token !in Tags
    requires field(e, token, "1") == Success(e')
    ensures FieldReads(e, Line(token), field, e')
  {
    assert Unpack(e, [(token, "1")], field) == Success(e');
    assert [Bare(token)][1..] == [];
  }

  /** `get` and `put` read and replace one attribute of the entity, and nothing else. */
  ghost predicate Lens<E(!new), V(!new)>(get: E -> V, put: (E, V) -> E) {
    && (forall x: E, v: V :: get(put(x, v)) == v)
    && (forall x: E, v: V, w: V :: put(put(x, v), w) == put(x, w))
    && (forall x: E :: put(x, get(x)) == x)
  }

  /** Each of `texts` appends itself to the attribute `get` reads. */
  ghost predicate AppendsTexts<E(!new)>(field: (E, string, string) -> Result<E, UnpackError>, key: string,
                                        texts: seq<string>, get: E -> seq<string>, put: (E, seq<string>) -> E) {
    forall x: E, i :: 0 <= i < |texts| ==> field(x, key, texts[i]) == Success(put(x, get(x) + [texts[i]]))
  }

  /** Each of `numbers`, written with Itoa, appends itself to the attribute `get` reads. */
  ghost predicate AppendsNumbers<E(!new)>(field: (E, string, string) -> Result<E, UnpackError>, key: string,
                                          numbers: seq<int>, get: E -> seq<int>, put: (E, seq<int>) -> E) {
    forall x: E, i :: 0 <= i < |numbers| ==> field(x, key, Itoa(numbers[i])) == Success(put(x, get(x) + [numbers[i]]))
  }

  /** Each of `numbers`, written as `int(number)`, appends itself to the attribute `get` reads. */
  ghost predicate AppendsUnsigneds<E(!new)>(field: (E, string, string) -> Result<E, UnpackError>, key: string,
                                            numbers: seq<int>, get: E -> seq<int>, put: (E, seq<int>) -> E) {
    forall x: E, i :: 0 <= i < |numbers| ==> field(x, key, Itoa(Signed(numbers[i]))) == Success(put(x, get(x) + [numbers[i]]))
  }

  lemma AppendFirstOf<V>(a: seq<V>, b: seq<V>)
    requires b != []
    ensures a + [b[0]] + b[1..] == a + b
  {
    assert b == [b[0]] + b[1..];
  }

  /** A repeated string key reads back as the elements appended in order. */
  lemma {:induction false} StrsReads<E(!new)>(e: E, key: string, texts: seq<string>,
                                              field: (E, string, string) -> Result<E, UnpackError>,
                                              get: E -> seq<string>, put: (E, seq<string>) -> E)
    requires CleanKey(key) && Texts(texts)
    requires Lens(get, put) && AppendsTexts(field, key, texts, get, put)
    ensures FieldReads(e, Strs(key, texts), field, put(e, get(e) + texts))
    decreases |texts|
  {
    if texts == [] {
      assert get(e) + texts == get(e);
    } else {
      var e1 := put(e, get(e) + [texts[0]]);
      OneRow(e, key, texts[0], field, e1);
      assert AppendsTexts(field, key, texts[1..], get, put) by {
        forall x: E, i | 0 <= i < |texts[1..]|
          ensures field(x, key, texts[1..][i]) == Success(put(x, get(x) + [texts[1..][i]]))
        {
          assert texts[1..][i] == texts[i + 1];
        }
      }
      StrsReads(e1, key, texts[1..], field, get, put);
      AppendFirstOf(get(e), texts);
      AllCleanAppend(StrRow(key, texts[0]), StrArrayRows(key, texts[1..]));
      ApplyRowsAppend(e, StrRow(key, texts[0]), StrArrayRows(key, texts[1..]), field);
    }
  }

  /** A repeated integer key reads back as the numbers appended in order. */
  lemma {:induction false} NumbersReads<E(!new)>(e: E, f: Field,
                                                 field: (E, string, string) -> Result<E, UnpackError>,
                                                 get: E -> seq<int>, put: (E, seq<int>) -> E)
    requires f.Ints?
    requires CleanKey(f.key)
    requires Lens(get, put) && AppendsNumbers(field, f.key, f.numbers, get, put)
    ensures FieldReads(e, f, field, put(e, get(e) + f.numbers))
    decreases |f.numbers|
  {
    var numbers := f.numbers;
    if numbers == [] {
      assert get(e) + numbers == get(e);
    } else {
      var e1 := put(e, get(e) + [numbers[0]]);
      ItoaClean(numbers[0]);
      OneRow(e, f.key, Itoa(numbers[0]), field, e1);
      var g := Ints(f.key, numbers[1..]);
      assert AppendsNumbers(field, g.key, g.numbers, get, put) by {
        forall x: E, i | 0 <= i < |g.numbers|
          ensures field(x, g.key, Itoa(g.numbers[i])) == Success(put(x, get(x) + [g.numbers[i]]))
        {
          assert g.numbers[i] == numbers[i + 1];
        }
      }
      NumbersReads(e1, g, field, get, put);
      AppendFirstOf(get(e), numbers);
      AllCleanAppend(IntRow(f.key, numbers[0]), IntArrayRows(f.key, numbers[1..]));
      ApplyRowsAppend(e, IntRow(f.key, numbers[0]), IntArrayRows(f.key, numbers[1..]), field);
    }
  }

  /** A repeated unsigned key reads back as the numbers appended in order. */
  lemma {:induction false} UnsignedsReads<E(!new)>(e: E, f: Field,
                                                 field: (E, string, string) -> Result<E, UnpackError>,
                                                 get: E -> seq<int>, put: (E, seq<int>) -> E)
    requires f.Uints?
    requires CleanKey(f.key)
    requires Lens(get, put) && AppendsUnsigneds(field, f.key, f.numbers, get, put)
    ensures FieldReads(e, f, field, put(e, get(e) + f.numbers))
    decreases |f.numbers|
  {
    var numbers := f.numbers;
    if numbers == [] {
      assert get(e) + numbers == get(e);
    } else {
      var e1 := put(e, get(e) + [numbers[0]]);
      ItoaClean(Signed(numbers[0]));
      OneRow(e, f.key, Itoa(Signed(numbers[0])), field, e1);
      var g := Uints(f.key, numbers[1..]);
      assert AppendsUnsigneds(field, g.key, g.numbers, get, put) by {
        forall x: E, i | 0 <= i < |g.numbers|
          ensures field(x, g.key, Itoa(Signed(g.numbers[i]))) == Success(put(x, get(x) + [g.numbers[i]]))
        {
          assert g.numbers[i] == numbers[i + 1];
        }
      }
      UnsignedsReads(e1, g, field, get, put);
      AppendFirstOf(get(e), numbers);
      AllCleanAppend(UintRow(f.key, numbers[0]), UintArrayRows(f.key, numbers[1..]));
      ApplyRowsAppend(e, UintRow(f.key, numbers[0]), UintArrayRows(f.key, numbers[1..]), field);
    }
  }
}
