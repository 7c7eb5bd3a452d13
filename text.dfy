/**
 * The few Python string built-ins the monitor relies on, written out over
 * `seq<char>`: `str.isspace`, `str.lstrip`, `str.rstrip`, `str.strip`,
 * `str.split(sep)`, `str.startswith`, `int(str)` and `str(int)`.
 */
module Text {
  import opened Wrappers

  /** Python's whitespace: the characters for which `str.isspace()` holds
      (the same set the regular-expression class `\s` matches on `str`). */
  predicate IsSpace(c: char) {
    c == ' ' || ('\t' <= c <= '\r') || ('\U{1c}' <= c <= '\U{1f}') ||
    c == '\U{85}' || c == '\U{a0}' || c == '\U{1680}' ||
    ('\U{2000}' <= c <= '\U{200a}') || c == '\U{2028}' || c == '\U{2029}' ||
    c == '\U{202f}' || c == '\U{205f}' || c == '\U{3000}'
  }

  /** `s.lstrip()`: drops the leading whitespace and nothing else. */
  function LStrip(s: string): (r: string)
    ensures |r| <= |s| && r == s[|s| - |r|..]
    ensures forall i :: 0 <= i < |s| - |r| ==> IsSpace(s[i])
    ensures r == [] || !IsSpace(r[0])
  {
    if |s| > 0 && IsSpace(s[0]) then
      var r := LStrip(s[1..]);
      assert forall i :: 1 <= i < |s| ==> s[i] == s[1..][i - 1];
      r
    else s
  }

  /** `s.rstrip()`: drops the trailing whitespace and nothing else. */
  function RStrip(s: string): (r: string)
    ensures |r| <= |s| && r == s[..|r|]
    ensures forall i :: |r| <= i < |s| ==> IsSpace(s[i])
    ensures r == [] || !IsSpace(r[|r| - 1])
  {
    if |s| > 0 && IsSpace(s[|s| - 1]) then
      var r := RStrip(s[..|s| - 1]);
      assert forall i :: 0 <= i < |s| - 1 ==> s[i] == s[..|s| - 1][i];
      r
    else s
  }

  /** A string with no whitespace at either end, which `strip` leaves as it is. */
  predicate Trimmed(s: string) {
    s == [] || (!IsSpace(s[0]) && !IsSpace(s[|s| - 1]))
  }

  /** `r` is `s` from position `i` on with only whitespace before and after it. */
  predicate InfixAt(s: string, r: string, i: int) {
    0 <= i <= |s| - |r| && r == s[i..][..|r|] &&
    (forall k :: 0 <= k < i ==> IsSpace(s[k])) &&
    (forall k :: i + |r| <= k < |s| ==> IsSpace(s[k]))
  }

  /** `s.strip()`: `s` with its leading and trailing whitespace removed, and
      nothing else. */
  function Strip(s: string): (r: string)
    ensures Trimmed(r)
    ensures |r| <= |s|
    ensures exists i :: InfixAt(s, r, i)
    ensures Trimmed(s) ==> r == s
  {
    var l := LStrip(s);
    var r := RStrip(l);
    StripInfix(s);
    assert r != [] ==> r[0] == l[0];
    assert Trimmed(s) && s != [] ==> l == s && r == l;
    r
  }

  /** Stripping both ends leaves the infix after the leading whitespace. */
  lemma StripInfix(s: string)
    ensures InfixAt(s, RStrip(LStrip(s)), |s| - |LStrip(s)|)
  {
    StripTrailing(s);
  }

  lemma StripTrailing(s: string)
    ensures forall k :: |s| - |LStrip(s)| + |RStrip(LStrip(s))| <= k < |s| ==> IsSpace(s[k])
  {
    var l := LStrip(s);
    var r := RStrip(l);
    var i := |s| - |l|;
    assert l == s[i..];
    forall k | i + |r| <= k < |s|
      ensures IsSpace(s[k])
    {
      assert s[k] == l[k - i];
    }
  }

  /** `s.startswith(p)`. */
  predicate StartsWith(s: string, p: string) {
    |p| <= |s| && s[..|p|] == p
  }

  /** `s.split(sep)` for a one-character separator: one part more than there are
      separators, the empty string giving `[""]`. */
  function Split(s: string, sep: char): (parts: seq<string>)
    ensures |parts| >= 1
    ensures forall k :: 0 <= k < |parts| ==> sep !in parts[k]
    ensures Join(parts, sep) == s
  {
    if |s| == 0 then [""]
    else if s[0] == sep then [""] + Split(s[1..], sep)
    else
      var rest := Split(s[1..], sep);
      assert Join(rest, sep) == s[1..];
      JoinConsHead(s[0], rest, sep);
      [[s[0]] + rest[0]] + rest[1..]
  }

  /** `sep.join(parts)`, the inverse of `Split`. */
  function Join(parts: seq<string>, sep: char): string
    requires |parts| >= 1
  {
    if |parts| == 1 then parts[0] else parts[0] + [sep] + Join(parts[1..], sep)
  }

  lemma JoinConsHead(c: char, parts: seq<string>, sep: char)
    requires |parts| >= 1
    ensures Join([[c] + parts[0]] + parts[1..], sep) == [c] + Join(parts, sep)
  {
    var q := [[c] + parts[0]] + parts[1..];
    assert q[1..] == parts[1..];
  }

  /** Splitting text that begins with a separator-free field yields that field first. */
  lemma {:induction false} SplitField(a: string, sep: char, b: string)
    requires sep !in a
    ensures Split(a + [sep] + b, sep) == [a] + Split(b, sep)
  {
    if a == [] {
      assert a + [sep] + b == [sep] + b;
      assert ([sep] + b)[1..] == b;
    } else {
      assert (a + [sep] + b)[0] == a[0];
      assert (a + [sep] + b)[1..] == a[1..] + [sep] + b;
      SplitField(a[1..], sep, b);
      assert [a[0]] + a[1..] == a;
    }
  }

  /** A separator-free string is a single field. */
  lemma {:induction false} SplitSingle(a: string, sep: char)
    requires sep !in a
    ensures Split(a, sep) == [a]
  {
    if a != [] {
      SplitSingle(a[1..], sep);
      assert [a[0]] + a[1..] == a;
    }
  }

  predicate IsDigit(c: char) {
    '0' <= c <= '9'
  }

  /** A non-empty run of ASCII decimal digits. */
  predicate IsDigits(s: string) {
    |s| > 0 && forall i :: 0 <= i < |s| ==> IsDigit(s[i])
  }

  /** The value of a run of decimal digits, most significant first. */
  function DigitsValue(s: string): (n: nat)
    requires forall i :: 0 <= i < |s| ==> IsDigit(s[i])
  {
    if |s| == 0 then 0
    else
      var last := s[|s| - 1];
      assert IsDigit(last);
      DigitsValue(s[..|s| - 1]) * 10 + (last as int - '0' as int)
  }

  /** Python's `int(s)` on an already stripped string: an optional sign followed by
      decimal digits; `None` stands for the `ValueError` Python raises otherwise. */
  function ParseInt(s: string): (r: Option<int>)
    ensures r.Some? <==> IsDigits(s) || (|s| > 0 && (s[0] == '+' || s[0] == '-') && IsDigits(s[1..]))
    ensures r.Some? && IsDigits(s) ==> r.value >= 0
  {
    if IsDigits(s) then Some(DigitsValue(s))
    else if |s| > 0 && s[0] == '+' && IsDigits(s[1..]) then Some(DigitsValue(s[1..]))
    else if |s| > 0 && s[0] == '-' && IsDigits(s[1..]) then Some(0 - DigitsValue(s[1..]) as int)
    else None
  }

  /** `int` reads a single digit as its value. */
  lemma ParseIntOneDigit(c: char)
    requires IsDigit(c)
    ensures ParseInt([c]) == Some(c as int - '0' as int)
  {
    assert IsDigits([c]);
    assert [c][..0] == [] && [c][0] == c;
    assert DigitsValue([c]) == DigitsValue([]) * 10 + (c as int - '0' as int);
  }

  /** `int` reads one more digit as ten times the value before it, plus the digit:
      together with `ParseIntOneDigit` this fixes the value of every digit string. */
  lemma ParseIntAppendDigit(d: string, c: char)
    requires IsDigits(d) && IsDigit(c)
    ensures ParseInt(d + [c]) == Some(10 * ParseInt(d).value + (c as int - '0' as int))
  {
    assert (d + [c])[..|d|] == d;
  }

  /** `int("+" + d) == int(d)` and `int("-" + d) == -int(d)` for digits `d`. */
  lemma ParseIntSign(d: string)
    requires IsDigits(d)
    ensures ParseInt("+" + d) == ParseInt(d)
    ensures ParseInt("-" + d) == Some(-ParseInt(d).value)
  {
    assert ("+" + d)[1..] == d && !IsDigit(("+" + d)[0]);
    assert ("-" + d)[1..] == d && !IsDigit(("-" + d)[0]);
  }

  /** A leading zero does not change the value `int` reads: `int("0" + d) == int(d)`. */
  lemma {:induction false} ParseIntLeadingZero(d: string)
    requires IsDigits(d)
    ensures ParseInt("0" + d) == ParseInt(d)
  {
    LeadingZeroValue(d);
  }

  lemma {:induction false} LeadingZeroValue(d: string)
    requires forall i :: 0 <= i < |d| ==> IsDigit(d[i])
    ensures DigitsValue("0" + d) == DigitsValue(d)
  {
    if d != [] {
      var z := "0" + d;
      assert z[..|z| - 1] == "0" + d[..|d| - 1];
      LeadingZeroValue(d[..|d| - 1]);
    } else {
      assert ("0" + d)[..0] == [];
    }
  }

  function DigitChar(d: nat): (c: char)
    requires d < 10
    ensures IsDigit(c) && c as int - '0' as int == d
  {
    ('0' as int + d) as char
  }

  /** The decimal digits of `n`, without leading zeros. */
  function NatDecimal(n: nat): (s: string)
    ensures IsDigits(s)
    ensures |s| > 1 ==> s[0] != '0'
    decreases n
  {
    if n < 10 then [DigitChar(n)] else NatDecimal(n / 10) + [DigitChar(n % 10)]
  }

  /** Python's `str(n)` for an integer. */
  function Decimal(n: int): (s: string)
    ensures |s| > 0
  {
    if n < 0 then "-" + NatDecimal(-n) else NatDecimal(n)
  }

  lemma {:induction false} DigitsValueOfDecimal(n: nat)
    ensures DigitsValue(NatDecimal(n)) == n
    decreases n
  {
    if n >= 10 {
      DigitsValueOfDecimal(n / 10);
      var s := NatDecimal(n);
      assert s[..|s| - 1] == NatDecimal(n / 10);
    }
  }

  /** `int(str(n)) == n`: the decimal rendering reads back as the same integer. */
  lemma ParseDecimal(n: int)
    ensures ParseInt(Decimal(n)) == Some(n)
  {
    if n < 0 {
      DigitsValueOfDecimal(-n);
      var s := Decimal(n);
      assert s[1..] == NatDecimal(-n);
      assert !IsDigits(s) by { assert !IsDigit(s[0]); }
    } else {
      DigitsValueOfDecimal(n);
    }
  }

  /** `s.split(sep)` undoes `sep.join(parts)` when no part holds the separator. */
  lemma {:induction false} SplitJoin(parts: seq<string>, sep: char)
    requires |parts| >= 1
    requires forall k :: 0 <= k < |parts| ==> sep !in parts[k]
    ensures Split(Join(parts, sep), sep) == parts
  {
    if |parts| == 1 {
      SplitSingle(parts[0], sep);
    } else {
      SplitJoin(parts[1..], sep);
      SplitField(parts[0], sep, Join(parts[1..], sep));
      assert [parts[0]] + parts[1..] == parts;
    }
  }

  /** The decimal rendering of an integer is digits after an optional minus sign:
      no whitespace at its ends and none of the given non-digit characters. */
  lemma DecimalShape(n: int, c: char)
    requires !IsDigit(c) && c != '-'
    ensures Trimmed(Decimal(n))
    ensures c !in Decimal(n)
  {
    var d := NatDecimal(if n < 0 then -n else n);
    assert IsDigit(d[|d| - 1]);
    if n < 0 {
      assert Decimal(n) == "-" + d;
    }
  }
}
