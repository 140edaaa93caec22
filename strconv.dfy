/**
 * Decimal conversion between integers and text, as the codec uses Go's
 * `strconv.Atoi` and `strconv.Itoa` on a 64-bit platform: `int` is a
 * signed 64-bit integer and `uint(i)` wraps around modulo 2^64.
 */
module Strconv {
  import opened Wrappers

  predicate IsDigit(c: char) { '0' <= c <= '9' }

  predicate AllDigits(s: string) { forall i :: 0 <= i < |s| ==> IsDigit(s[i]) }

  /** The value of a non-empty run of decimal digits. */
  function DigitsValue(s: string): (n: nat)
    requires AllDigits(s)
  {
    if s == [] then 0 else DigitsValue(s[..|s| - 1]) * 10 + (s[|s| - 1] - '0') as int
  }

  /** The shortest decimal digits of `n` (no leading zero except for 0 itself). */
  function Digits(n: nat): (s: string)
    ensures |s| > 0 && AllDigits(s)
    ensures |s| > 1 ==> s[0] != '0'
    decreases n
  {
    var last := [('0' as int + n % 10) as char];
    if n < 10 then last else Digits(n / 10) + last
  }

  /** strconv.Itoa: a minus sign for negative numbers, then the digits. */
  function Itoa(n: int): (s: string)
  {
    if n < 0 then "-" + Digits(-n) else Digits(n)
  }

  const MinInt64: int := -0x8000_0000_0000_0000
  const MaxInt64: int := 0x7FFF_FFFF_FFFF_FFFF
  const Uint64Range: int := 0x1_0000_0000_0000_0000

  predicate InInt64(n: int) { MinInt64 <= n <= MaxInt64 }

  /**
   * The syntax Atoi accepts: an optional `+` or `-` followed by one or more
   * decimal digits. Anything else (the empty string, a lone sign, spaces,
   * other characters) is None. The value is not range-checked here.
   */
  function Decimal(s: string): (r: Option<int>)
    ensures r.Some? ==> |s| > 0
    ensures AllDigits(s) && |s| > 0 ==> r == Some(DigitsValue(s))
  {
    if |s| > 0 && (s[0] == '+' || s[0] == '-') then
      var body := s[1..];
      if |body| > 0 && AllDigits(body) then
        Some(if s[0] == '-' then 0 - DigitsValue(body) as int else DigitsValue(body) as int)
      else None
    else if |s| > 0 && AllDigits(s) then Some(DigitsValue(s))
    else None
  }

  /** strconv.Atoi: the value when the syntax is right and it fits in 64 bits; otherwise an error (None). */
  function Atoi(s: string): (r: Option<int>)
    ensures r.Some? <==> Decimal(s).Some? && InInt64(Decimal(s).value)
    ensures r.Some? ==> r.value == Decimal(s).value
  {
    match Decimal(s)
    case Some(n) => if InInt64(n) then Some(n) else None
    case None => None
  }

  /** The part ParseUint reads: the text after one optional leading sign. */
  function Magnitude(s: string): (body: string)
    ensures |s| > 0 && (s[0] == '+' || s[0] == '-') ==> body == s[1..]
    ensures |s| == 0 || (s[0] != '+' && s[0] != '-') ==> body == s
  {
    if |s| > 0 && (s[0] == '+' || s[0] == '-') then s[1..] else s
  }

  predicate Negative(s: string) { |s| > 0 && s[0] == '-' }

  /**
   * ParseUint scans the digits from the front and stops at the first
   * character that is not a digit (a syntax error) or at the first digit that
   * takes the value past 2^64 - 1 (a range error), whichever comes first.
   * Overflows says it reaches such a digit: some all-digit prefix of the text
   * is already too large.
   */
  predicate Overflows(body: string)
  {
    exists k :: 0 < k <= |body| && AllDigits(body[..k]) && DigitsValue(body[..k]) >= Uint64Range
  }

  /**
   * Atoi's error is a range error ("value out of range") rather than a syntax
   * error: the digits run past 2^64 - 1 before any bad character, or the
   * whole text is a decimal outside the 64-bit range. Texts shorter than 19
   * characters, which Atoi reads on its fast path, can reach neither.
   */
  predicate RangeError(s: string)
  {
    Overflows(Magnitude(s)) || (Decimal(s).Some? && !InInt64(Decimal(s).value))
  }

  /**
   * The number Atoi returns beside its error: 0 after a syntax error, the
   * 64-bit bound of the text's sign after a range error.
   */
  function AtoiValue(s: string): (n: int)
    ensures InInt64(n)
    ensures Atoi(s).Some? ==> n == Atoi(s).value
    ensures Atoi(s).None? && !RangeError(s) ==> n == 0
    ensures RangeError(s) && !Negative(s) ==> n == MaxInt64
    ensures RangeError(s) && Negative(s) ==> n == MinInt64
  {
    RangeErrorFails(s);
    match Atoi(s)
    case Some(n) => n
    case None => if !RangeError(s) then 0 else if Negative(s) then MinInt64 else MaxInt64
  }

  /** A range error is an error: Atoi then has no value. */
  lemma RangeErrorFails(s: string)
    ensures RangeError(s) ==> Atoi(s).None?
  {
    if Overflows(Magnitude(s)) && Decimal(s).Some? {
      var body := Magnitude(s);
      var k :| 0 < k <= |body| && AllDigits(body[..k]) && DigitsValue(body[..k]) >= Uint64Range;
      assert AllDigits(body);
      DigitsValuePrefix(body, k);
    }
  }

  /** For a well-formed decimal the error is a range error exactly when the value is outside 64 bits. */
  lemma DecimalRangeError(s: string)
    requires Decimal(s).Some?
    ensures RangeError(s) <==> !InInt64(Decimal(s).value)
  {
    RangeErrorFails(s);
  }

  /**
   * Digits of a number of 2^64 or more followed by anything at all give a
   * range error and MaxInt64: the overflow is met before a bad character,
   * so `99999999999999999999x` is out of range, not invalid syntax.
   */
  lemma OverflowBeforeSyntax(n: nat, rest: string)
    requires n >= Uint64Range
    ensures RangeError(Digits(n) + rest)
    ensures Atoi(Digits(n) + rest).None?
    ensures AtoiValue(Digits(n) + rest) == MaxInt64
  {
    var s := Digits(n) + rest;
    var k := |Digits(n)|;
    assert s[..k] == Digits(n);
    DigitsValueOfDigits(n);
    assert Magnitude(s) == s;
    assert 0 < k <= |Magnitude(s)| && AllDigits(Magnitude(s)[..k]) && DigitsValue(Magnitude(s)[..k]) >= Uint64Range;
    RangeErrorFails(s);
  }

  /**
   * Atoi's fast path: a text shorter than 19 characters has at most 18
   * digits, which cannot leave the 64-bit range, so its only error is a
   * syntax error and its value beside it 0.
   */
  lemma ShortTextNoRangeError(s: string)
    requires |s| < 19
    ensures !RangeError(s)
    ensures Atoi(s).None? ==> AtoiValue(s) == 0
  {
    var body := Magnitude(s);
    assert Pow10(6) == 1_000_000;
    assert Pow10(12) == 1_000_000_000_000;
    assert Pow10(18) == 1_000_000_000_000_000_000;
    if Overflows(body) {
      var k :| 0 < k <= |body| && AllDigits(body[..k]) && DigitsValue(body[..k]) >= Uint64Range;
      DigitsValueBound(body[..k]);
      Pow10Grows(k, 18);
      assert false;
    }
    if Decimal(s).Some? {
      assert AllDigits(body);
      DigitsValueBound(body);
      Pow10Grows(|body|, 18);
    }
  }

  function Pow10(n: nat): (p: nat)
    ensures p >= 1
  {
    if n == 0 then 1 else 10 * Pow10(n - 1)
  }

  lemma {:induction false} Pow10Grows(m: nat, n: nat)
    requires m <= n
    ensures Pow10(m) <= Pow10(n)
    decreases n - m
  {
    if m < n {
      Pow10Grows(m, n - 1);
    }
  }

  /** `k` digits denote less than 10^k. */
  lemma {:induction false} DigitsValueBound(t: string)
    requires AllDigits(t)
    ensures DigitsValue(t) < Pow10(|t|)
  {
    if t != [] {
      DigitsValueBound(t[..|t| - 1]);
    }
  }

  /** A prefix of a run of digits has no larger value than the whole run. */
  lemma {:induction false} DigitsValuePrefix(body: string, k: nat)
    requires AllDigits(body) && k <= |body|
    ensures AllDigits(body[..k]) && DigitsValue(body[..k]) <= DigitsValue(body)
    decreases |body| - k
  {
    if k < |body| {
      var shorter := body[..|body| - 1];
      DigitsValuePrefix(shorter, k);
      assert shorter[..k] == body[..k];
    } else {
      assert body[..k] == body;
    }
  }

  /**
   * strconv.Quote: the text between double quotes, each character written
   * as Go's escaping writes it.
   */
  function Quote(s: string): (q: string)
    ensures |q| >= 2 && q[0] == '"' && q[|q| - 1] == '"'
    ensures q[1..|q| - 1] == Escape(s)
  {
    "\"" + Escape(s) + "\""
  }

  function Escape(s: string): (e: string)
    ensures |e| >= |s|
  {
    if s == [] then "" else EscapeChar(s[0]) + Escape(s[1..])
  }

  /**
   * One character inside the quotes: a backslash before `"` and `\`, the
   * named escapes for bell, backspace, form feed, line feed, carriage
   * return, tab and vertical tab, `\x` and two lower-case hex digits for
   * the other ASCII control characters and DEL, the character itself
   * otherwise.
   */
  function EscapeChar(c: char): (e: string)
    ensures 1 <= |e| <= 4
    ensures |e| == 1 <==> Printable(c)
    ensures |e| == 1 ==> e == [c]
    ensures |e| > 1 ==> e[0] == '\\'
  {
    if c == '"' || c == '\\' then ['\\', c]
    else if c as int == 7 then "\\a"
    else if c as int == 8 then "\\b"
    else if c as int == 12 then "\\f"
    else if c == '\n' then "\\n"
    else if c == '\r' then "\\r"
    else if c == '\t' then "\\t"
    else if c as int == 11 then "\\v"
    else if c < ' ' || c as int == 0x7F then ['\\', 'x', LowerHex[c as int / 16], LowerHex[c as int % 16]]
    else [c]
  }

  const LowerHex: string := "0123456789abcdef"

  /** A character Quote writes as itself. */
  predicate Printable(c: char)
  {
    ' ' <= c && c != '"' && c != '\\' && c as int != 0x7F
  }

  /** A text of printable characters is quoted verbatim: digits, signs and letters come out as they are. */
  lemma {:induction false} EscapePlain(s: string)
    requires forall i :: 0 <= i < |s| ==> Printable(s[i])
    ensures Escape(s) == s
  {
    if s != [] {
      EscapePlain(s[1..]);
    }
  }

  /** Quote writes no control character: the message it is part of stays on one line. */
  lemma {:induction false} EscapeNoControl(s: string)
    ensures forall i :: 0 <= i < |Escape(s)| ==> ' ' <= Escape(s)[i] && Escape(s)[i] as int != 0x7F
  {
    if s != [] {
      EscapeNoControl(s[1..]);
      var head := EscapeChar(s[0]);
      assert forall i :: 0 <= i < |head| ==> ' ' <= head[i] && head[i] as int != 0x7F;
    }
  }

  /** Reading an escaped text back, as a Go string literal is read: the inverse of Escape. */
  function Unescape(e: string): (s: string)
    ensures |s| <= |e|
  {
    if e == [] then ""
    else if e[0] == '\\' && |e| >= 4 && e[1] == 'x' then
      [(HexValue(e[2]) * 16 + HexValue(e[3])) as char] + Unescape(e[4..])
    else if e[0] == '\\' && |e| >= 2 then [Named(e[1])] + Unescape(e[2..])
    else [e[0]] + Unescape(e[1..])
  }

  /** The character a one-letter escape stands for; `"` and `\` stand for themselves. */
  function Named(c: char): char
  {
    if c == 'a' then 7 as char
    else if c == 'b' then 8 as char
    else if c == 'f' then 12 as char
    else if c == 'n' then '\n'
    else if c == 'r' then '\r'
    else if c == 't' then '\t'
    else if c == 'v' then 11 as char
    else c
  }

  function HexValue(c: char): (v: nat)
    ensures v < 16
  {
    if '0' <= c <= '9' then (c - '0') as nat
    else if 'a' <= c <= 'f' then (c - 'a') as nat + 10
    else 0
  }

  /** Escaping one character and reading it back gives the character, whatever follows. */
  lemma UnescapeEscapeChar(c: char, rest: string)
    ensures Unescape(EscapeChar(c) + rest) == [c] + Unescape(rest)
  {
    var e := EscapeChar(c);
    if |e| == 4 {
      UnescapeHex(c, rest);
    } else if |e| == 2 {
      assert (e + rest)[2..] == rest;
    } else {
      assert (e + rest)[1..] == rest;
    }
  }

  /** A control character written as `\x` and two hex digits reads back as itself. */
  lemma UnescapeHex(c: char, rest: string)
    requires |EscapeChar(c)| == 4
    ensures Unescape(EscapeChar(c) + rest) == [c] + Unescape(rest)
  {
    var hi, lo := c as int / 16, c as int % 16;
    assert EscapeChar(c) == ['\\', 'x', LowerHex[hi], LowerHex[lo]];
    assert HexValue(LowerHex[hi]) == hi && HexValue(LowerHex[lo]) == lo;
    assert (EscapeChar(c) + rest)[4..] == rest;
  }

  /** Unescape undoes Escape: Quote loses nothing of the text. */
  lemma {:induction false} UnescapeEscape(s: string)
    ensures Unescape(Escape(s)) == s
  {
    if s != [] {
      UnescapeEscapeChar(s[0], Escape(s[1..]));
      UnescapeEscape(s[1..]);
    }
  }

  predicate InUint64(n: int) { 0 <= n < Uint64Range }

  /**
   * Go's conversion `int(u)` of a 64-bit unsigned integer: values past
   * MaxInt64 wrap to negatives. Taken modulo 2^64, so it is total.
   */
  function Signed(u: int): (i: int)
    ensures InInt64(i)
    ensures 0 <= u <= MaxInt64 ==> i == u
    ensures MaxInt64 < u < Uint64Range ==> i == u - Uint64Range
    ensures InUint64(u) ==> Unsigned(i) == u  // `uint(int(u))` is `u`: the wrap-around loses nothing
  {
    var w := Unsigned(u);
    if w > MaxInt64 then w - Uint64Range else w
  }

  /** Go's conversion `uint(i)` (or `uint64(i)`) of a 64-bit signed integer. */
  function Unsigned(i: int): (u: nat)
    ensures u < Uint64Range
    ensures 0 <= i < Uint64Range ==> u == i
    ensures -Uint64Range <= i < 0 ==> u == i + Uint64Range
  {
    i % Uint64Range
  }

  lemma {:induction false} DigitsValueOfDigits(n: nat)
    ensures DigitsValue(Digits(n)) == n
    decreases n
  {
    var last := [('0' as int + n % 10) as char];
    if n >= 10 {
      DigitsValueOfDigits(n / 10);
      var s := Digits(n / 10) + last;
      assert s[..|s| - 1] == Digits(n / 10);
    }
  }

  /** Reading back what Itoa wrote gives the number: every integer field round-trips. */
  lemma AtoiItoa(n: int)
    requires InInt64(n)
    ensures Atoi(Itoa(n)) == Some(n)
  {
    DecimalItoa(n);
  }

  /** Outside the 64-bit range, what Itoa writes is refused by Atoi. */
  lemma AtoiItoaOutOfRange(n: int)
    requires !InInt64(n)
    ensures Atoi(Itoa(n)) == None
  {
    DecimalItoa(n);
  }

  /** Itoa writes text of Atoi's syntax denoting exactly `n`. */
  lemma DecimalItoa(n: int)
    ensures Decimal(Itoa(n)) == Some(n)
  {
    if n < 0 {
      DigitsValueOfDigits(-n);
      assert Itoa(n)[1..] == Digits(-n);
    } else {
      DigitsValueOfDigits(n);
    }
  }

  /** Itoa never writes the empty string, a comma, a space, a tab or a line break. */
  lemma ItoaPlain(n: int)
    ensures |Itoa(n)| > 0
    ensures forall i :: 0 <= i < |Itoa(n)| ==> IsDigit(Itoa(n)[i]) || Itoa(n)[i] == '-'
  {
  }
}
