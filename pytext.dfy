/** The few pieces of Python's `str` that the resource parsers rely on:
    whitespace as `str.strip()` and `str.split()` see it, and `int()` applied
    to a token. */
module PyText {
  import opened Wrappers

  /** The characters Python's `str.isspace()` accepts (and so the ones
      `strip()` removes and `split()` splits on). */
  predicate IsSpace(c: char) {
    ('\t' <= c <= '\r') || ('\U{1C}' <= c <= ' ') || c == '\U{85}' || c == '\U{A0}'
    || c == '\U{1680}' || ('\U{2000}' <= c <= '\U{200A}') || c == '\U{2028}'
    || c == '\U{2029}' || c == '\U{202F}' || c == '\U{205F}' || c == '\U{3000}'
  }

  /** `s.lstrip()`: the suffix of `s` after its longest whitespace prefix. */
  function TrimStart(s: string): (r: string)
    ensures |r| <= |s| && r == s[|s| - |r|..]
    ensures forall i :: 0 <= i < |s| - |r| ==> IsSpace(s[i])
    ensures r != [] ==> !IsSpace(r[0])
    decreases |s|
  {
    if s != [] && IsSpace(s[0]) then TrimStart(s[1..]) else s
  }

  /** `s.rstrip()`: the prefix of `s` before its longest whitespace suffix. */
  function TrimEnd(s: string): (r: string)
    ensures |r| <= |s| && r == s[..|r|]
    ensures forall i :: |r| <= i < |s| ==> IsSpace(s[i])
    ensures r != [] ==> !IsSpace(r[|r| - 1])
    decreases |s|
  {
    if s != [] && IsSpace(s[|s| - 1]) then TrimEnd(s[..|s| - 1]) else s
  }

  predicate AllSpace(s: string) {
    forall i :: 0 <= i < |s| ==> IsSpace(s[i])
  }

  /** `s.strip()`: a middle slice of `s` that keeps every character from
      the first to the last non-whitespace one; only whitespace goes. */
  function Strip(s: string): (r: string)
    ensures r != [] ==> !IsSpace(r[0]) && !IsSpace(r[|r| - 1])
    ensures exists a, b :: 0 <= a <= b <= |s| && r == s[a..b] && AllSpace(s[..a]) && AllSpace(s[b..])
  {
    var t := TrimStart(s);
    var r := TrimEnd(t);
    var a := |s| - |t|;
    assert r == s[a..a + |r|];
    assert AllSpace(s[..a]);
    assert s[a + |r|..] == t[|r|..];
    r
  }

  lemma {:induction false} TrimStartSpace(pre: string, t: string)
    requires AllSpace(pre) && (t == [] || !IsSpace(t[0]))
    ensures TrimStart(pre + t) == t
    decreases |pre|
  {
    if pre != [] {
      assert (pre + t)[1..] == pre[1..] + t;
      TrimStartSpace(pre[1..], t);
    } else {
      assert pre + t == t;
    }
  }

  lemma {:induction false} TrimEndSpace(t: string, suf: string)
    requires AllSpace(suf) && (t == [] || !IsSpace(t[|t| - 1]))
    ensures TrimEnd(t + suf) == t
    decreases |suf|
  {
    if suf != [] {
      assert (t + suf)[..|t + suf| - 1] == t + suf[..|suf| - 1];
      TrimEndSpace(t, suf[..|suf| - 1]);
    } else {
      assert t + suf == t;
    }
  }

  /** Whitespace around a token whose ends are not whitespace is exactly
      what `strip()` removes. */
  lemma StripExact(pre: string, t: string, suf: string)
    requires AllSpace(pre) && AllSpace(suf)
    requires t != [] && !IsSpace(t[0]) && !IsSpace(t[|t| - 1])
    ensures Strip(pre + t + suf) == t
  {
    assert pre + t + suf == pre + (t + suf);
    TrimStartSpace(pre, t + suf);
    TrimEndSpace(t, suf);
  }

  /** `strip()` of an all-whitespace line is empty. */
  lemma StripAllSpace(s: string)
    requires AllSpace(s)
    ensures Strip(s) == []
  {
    assert s + [] == s;
    TrimStartSpace(s, []);
  }

  /** After leading whitespace, the first other character starts the
      stripped text. */
  lemma StripFirst(pre: string, t: string)
    requires AllSpace(pre) && t != [] && !IsSpace(t[0])
    ensures Strip(pre + t) != [] && Strip(pre + t)[0] == t[0]
  {
    TrimStartSpace(pre, t);
  }

  /** The longest prefix of `s` free of whitespace. */
  function Word(s: string): (w: string)
    ensures |w| <= |s| && w == s[..|w|]
    ensures forall i :: 0 <= i < |w| ==> !IsSpace(w[i])
    ensures |w| < |s| ==> IsSpace(s[|w|])
    decreases |s|
  {
    if s == [] || IsSpace(s[0]) then [] else [s[0]] + Word(s[1..])
  }

  /** `s.split()` with no separator: the maximal runs of non-whitespace. */
  function Fields(s: string): (r: seq<string>)
    ensures forall k :: 0 <= k < |r| ==> r[k] != [] && forall i :: 0 <= i < |r[k]| ==> !IsSpace(r[k][i])
    decreases |s|
  {
    if s == [] then []
    else if IsSpace(s[0]) then Fields(s[1..])
    else var w := Word(s); [w] + Fields(s[|w|..])
  }

  /** A whitespace-free word is its own first word. */
  lemma {:induction false} WordWhole(w: string)
    requires forall i :: 0 <= i < |w| ==> !IsSpace(w[i])
    ensures Word(w) == w
    decreases |w|
  {
    if w != [] {
      WordWhole(w[1..]);
    }
  }

  /** A word ends at the first whitespace character. */
  lemma {:induction false} WordStops(x: string, c: char, y: string)
    requires IsSpace(c)
    ensures Word(x + [c] + y) == Word(x)
    decreases |x|
  {
    if x != [] {
      assert (x + [c] + y)[1..] == x[1..] + [c] + y;
      WordStops(x[1..], c, y);
    }
  }

  /** `split()` of a single whitespace-free word. */
  lemma FieldsOne(w: string)
    requires w != [] && forall i :: 0 <= i < |w| ==> !IsSpace(w[i])
    ensures Fields(w) == [w]
  {
    WordWhole(w);
  }

  /** `split()` cuts at every whitespace character and keeps the fields in
      order. */
  lemma {:induction false} FieldsSplit(x: string, c: char, y: string)
    requires IsSpace(c)
    ensures Fields(x + [c] + y) == Fields(x) + Fields(y)
    decreases |x|
  {
    var s := x + [c] + y;
    if x == [] {
      assert s[1..] == y;
    } else if IsSpace(x[0]) {
      assert s[1..] == x[1..] + [c] + y;
      FieldsSplit(x[1..], c, y);
    } else {
      WordStops(x, c, y);
      var w := Word(x);
      assert s[|w|..] == x[|w|..] + [c] + y;
      FieldsSplit(x[|w|..], c, y);
    }
  }

  predicate IsDigit(c: char) { '0' <= c <= '9' }

  predicate AllDigits(s: string) { forall i :: 0 <= i < |s| ==> IsDigit(s[i]) }

  /** The value of a string of decimal digits, most significant first. */
  function DigitsValue(s: string): (n: nat)
    requires AllDigits(s)
    decreases |s|
  {
    if s == [] then 0 else 10 * DigitsValue(s[..|s| - 1]) + (s[|s| - 1] as int - '0' as int)
  }

  /** `int(t)` on a token that carries no surrounding whitespace: an optional
      sign followed by at least one decimal digit; anything else is the
      `ValueError` branch. */
  function ParseInt(t: string): (r: Option<int>)
    ensures r.Some? <==>
      t != [] && (AllDigits(t) || (|t| >= 2 && (t[0] == '+' || t[0] == '-') && AllDigits(t[1..])))
    ensures r.Some? ==> t != [] && !IsSpace(t[0]) && forall i :: 1 <= i < |t| ==> IsDigit(t[i])
    ensures r.Some? && r.value < 0 ==> t[0] == '-'
  {
    if t != [] && (t[0] == '+' || t[0] == '-') then
      if t[1..] != [] && AllDigits(t[1..]) then
        var v: int := DigitsValue(t[1..]);
        Some(if t[0] == '-' then -v else v)
      else None
    else if t != [] && AllDigits(t) then Some(DigitsValue(t))
    else None
  }

  /** Leading zeros do not change the value of a digit string. */
  lemma {:induction false} LeadingZeros(z: string, d: string)
    requires forall i :: 0 <= i < |z| ==> z[i] == '0'
    requires AllDigits(d)
    ensures AllDigits(z + d) && DigitsValue(z + d) == DigitsValue(d)
    decreases |d|
  {
    var s := z + d;
    if d == [] {
      LeadingZerosOnly(z);
      assert s == z;
    } else {
      assert s[..|s| - 1] == z + d[..|d| - 1];
      LeadingZeros(z, d[..|d| - 1]);
    }
  }

  lemma {:induction false} LeadingZerosOnly(z: string)
    requires forall i :: 0 <= i < |z| ==> z[i] == '0'
    ensures AllDigits(z) && DigitsValue(z) == 0
    decreases |z|
  {
    if z != [] {
      LeadingZerosOnly(z[..|z| - 1]);
    }
  }

  /** `int()` of a digit string is its decimal value, leading zeros
      included (`int("007") == 7`). */
  lemma ParseIntDigits(z: string, d: string)
    requires forall i :: 0 <= i < |z| ==> z[i] == '0'
    requires d != [] && AllDigits(d)
    ensures ParseInt(z + d) == Some(DigitsValue(d))
  {
    LeadingZeros(z, d);
  }

  /** `int()` of a digit string after a `+` or `-` sign is its value with
      that sign (`int("+5") == 5`, `int("-0") == 0`). */
  lemma ParseIntSigned(s: string)
    requires s != [] && AllDigits(s)
    ensures ParseInt(['+'] + s) == Some(DigitsValue(s))
    ensures ParseInt(['-'] + s) == Some(-(DigitsValue(s) as int))
  {
    assert (['+'] + s)[1..] == s;
    assert (['-'] + s)[1..] == s;
  }

  /** `str(n)` for a natural number: its decimal digits. */
  function Decimal(n: nat): (s: string)
    ensures s != [] && AllDigits(s)
  {
    if n < 10 then [('0' as int + n) as char]
    else Decimal(n / 10) + [('0' as int + n % 10) as char]
  }

  lemma {:induction false} DecimalValue(n: nat)
    ensures DigitsValue(Decimal(n)) == n
  {
    if n >= 10 {
      var s := Decimal(n);
      assert s[..|s| - 1] == Decimal(n / 10);
      DecimalValue(n / 10);
    }
  }

  /** `str(n)`: the decimal text of an integer, with `-` when negative. */
  function IntText(n: int): (s: string)
    ensures s != [] && !IsSpace(s[0]) && !IsSpace(s[|s| - 1])
    ensures forall i :: 0 <= i < |s| ==> !IsSpace(s[i])
    ensures s[0] == '-' || IsDigit(s[0])
  {
    if n < 0 then "-" + Decimal(-n) else Decimal(n)
  }

  /** `int(str(n)) == n` for every integer `n`. */
  lemma ParseIntDecimal(n: int)
    ensures ParseInt(IntText(n)) == Some(n)
  {
    if n < 0 {
      var t := "-" + Decimal(-n);
      assert t[1..] == Decimal(-n);
      DecimalValue(-n);
    } else {
      DecimalValue(n);
    }
  }
}
