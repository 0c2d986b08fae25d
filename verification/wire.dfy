/** Java text conventions that the game's wire formats rely on:
    Integer.toString / Integer.parseInt, String.split on a one-character
    separator, String.join, and 32-bit negation. */
module Wire {

  datatype Option<T> = None | Some(value: T)

  const MinInt32: int := -0x8000_0000
  const MaxInt32: int := 0x7FFF_FFFF

  predicate IsInt32(n: int) { MinInt32 <= n <= MaxInt32 }

  /** Java's unary minus on an int: -(MIN_VALUE) wraps back to MIN_VALUE. */
  function Neg32(n: int): (r: int)
    requires IsInt32(n)
    ensures IsInt32(r)
    ensures n != MinInt32 ==> r + n == 0
    ensures n == MinInt32 ==> r == n
  {
    if n == MinInt32 then n else -n
  }

  predicate IsDigit(ch: char) { '0' <= ch <= '9' }

  function DigitChar(d: nat): (ch: char)
    requires d < 10
    ensures IsDigit(ch)
  {
    ('0' as int + d) as char
  }

  function DigitValue(ch: char): (d: nat)
    requires IsDigit(ch)
    ensures d < 10 && DigitChar(d) == ch
  {
    ch as int - '0' as int
  }

  /** Decimal digits of a natural number, most significant first, no leading zeros. */
  function NatToString(n: nat): (s: string)
    ensures |s| >= 1
    ensures forall i :: 0 <= i < |s| ==> IsDigit(s[i])
  {
    if n < 10 then [DigitChar(n)] else NatToString(n / 10) + [DigitChar(n % 10)]
  }

  /** Integer.toString(n) (also what StringBuilder.append(int) and string concatenation produce). */
  function IntToString(n: int): (s: string)
    ensures |s| >= 1
    ensures n >= 0 ==> forall i :: 0 <= i < |s| ==> IsDigit(s[i])
    ensures n < 0 ==> s[0] == '-'
  {
    if n < 0 then "-" + NatToString(-n) else NatToString(n)
  }

  predicate AllDigits(s: string) { forall i :: 0 <= i < |s| ==> IsDigit(s[i]) }

  /** The value of a run of decimal digits. */
  function DigitsValue(s: string): nat
    requires AllDigits(s)
  {
    if |s| == 0 then 0 else 10 * DigitsValue(s[..|s| - 1]) + DigitValue(s[|s| - 1])
  }

  /** Integer.parseInt(s): an optional sign, at least one digit, nothing else,
      and a value in the 32-bit range; None stands for NumberFormatException. */
  function ParseInt(s: string): (r: Option<int>)
    ensures r.Some? ==> IsInt32(r.value)
  {
    if |s| == 0 then None
    else
      var negative := s[0] == '-';
      var body := if s[0] == '-' || s[0] == '+' then s[1..] else s;
      if |body| == 0 || !AllDigits(body) then None
      else
        var v := if negative then -(DigitsValue(body) as int) else DigitsValue(body);
        if IsInt32(v) then Some(v) else None
  }

  lemma {:induction false} DigitsOfNat(n: nat)
    ensures AllDigits(NatToString(n)) && DigitsValue(NatToString(n)) == n
  {
    var s := NatToString(n);
    if n >= 10 {
      DigitsOfNat(n / 10);
      assert s[..|s| - 1] == NatToString(n / 10);
    }
  }

  /** parseInt inverts toString on every 32-bit value. */
  lemma IntRoundTrip(n: int)
    requires IsInt32(n)
    ensures ParseInt(IntToString(n)) == Some(n)
  {
    var s := IntToString(n);
    if n < 0 {
      DigitsOfNat(-n);
      assert s[1..] == NatToString(-n);
      assert s[0] == '-';
    } else {
      DigitsOfNat(n);
      assert s == NatToString(n);
      assert s[0] != '-' && s[0] != '+';
    }
  }

  /** Distinct naturals print differently. */
  lemma NatToStringInjective(x: nat, y: nat)
    requires NatToString(x) == NatToString(y)
    ensures x == y
  {
    DigitsOfNat(x);
    DigitsOfNat(y);
  }

  /** Distinct integers print differently (no range restriction). */
  lemma IntToStringInjective(a: int, b: int)
    requires IntToString(a) == IntToString(b)
    ensures a == b
  {
    var s := IntToString(a);
    if a < 0 && b < 0 {
      assert s[1..] == NatToString(-a);
      assert s[1..] == NatToString(-b);
      NatToStringInjective(-a, -b);
    } else if a >= 0 && b >= 0 {
      NatToStringInjective(a, b);
    }
  }

  lemma PrefixedInjective(prefix: string, a: int, b: int)
    requires prefix + IntToString(a) == prefix + IntToString(b)
    ensures a == b
  {
    var x, y := prefix + IntToString(a), prefix + IntToString(b);
    assert IntToString(a) == x[|prefix|..];
    assert IntToString(b) == y[|prefix|..];
    IntToStringInjective(a, b);
  }

  // ---------------------------------------------------------------------
  // String.join and String.split

  /** String.join(sep, parts). */
  function Join(parts: seq<string>, sep: char): (s: string)
    ensures |parts| == 0 ==> s == ""
    ensures |parts| == 1 ==> s == parts[0]
    ensures |parts| >= 2 ==> |s| > |parts[0]| && s[..|parts[0]|] == parts[0] && s[|parts[0]|] == sep
  {
    if |parts| == 0 then ""
    else if |parts| == 1 then parts[0]
    else parts[0] + [sep] + Join(parts[1..], sep)
  }

  /** Every field between separators, before Java drops trailing empties. */
  function Fields(s: string, sep: char): (r: seq<string>)
    ensures |r| >= 1
  {
    if |s| == 0 then [""]
    else
      var rest := Fields(s[1..], sep);
      if s[0] == sep then [""] + rest
      else [[s[0]] + rest[0]] + rest[1..]
  }

  function DropTrailingEmpty(f: seq<string>): (r: seq<string>)
    ensures |r| <= |f| && r == f[..|r|]
    ensures |r| > 0 ==> r[|r| - 1] != ""
    ensures forall i :: |r| <= i < |f| ==> f[i] == ""
  {
    if |f| > 0 && f[|f| - 1] == "" then DropTrailingEmpty(f[..|f| - 1]) else f
  }

  /** String.split(sep) for a one-character, non-special separator:
      a string without the separator comes back whole (even when empty),
      otherwise the fields come back with trailing empty fields removed. */
  function Split(s: string, sep: char): (r: seq<string>)
    ensures Free(s, sep) ==> r == [s]
    ensures |r| > 1 ==> r[|r| - 1] != ""
    ensures |r| <= |Fields(s, sep)| && r == Fields(s, sep)[..|r|]
  {
    FieldsOfFreeString(s, sep);
    var f := Fields(s, sep);
    if |f| == 1 then f else DropTrailingEmpty(f)
  }

  predicate Free(s: string, sep: char) { forall i :: 0 <= i < |s| ==> s[i] != sep }

  lemma {:induction false} FieldsOfFree(p: string, t: string, sep: char)
    requires Free(p, sep)
    ensures Fields(p + t, sep) == [p + Fields(t, sep)[0]] + Fields(t, sep)[1..]
  {
    if |p| > 0 {
      FieldsOfFree(p[1..], t, sep);
      assert (p + t)[1..] == p[1..] + t;
      assert [p[0]] + (p[1..] + Fields(t, sep)[0]) == p + Fields(t, sep)[0];
    } else {
      assert p + t == t;
      var f := Fields(t, sep);
      assert f == [f[0]] + f[1..];
      assert p + f[0] == f[0];
    }
  }

  /** A string without the separator is one field. */
  lemma FieldsOfFreeString(s: string, sep: char)
    ensures Free(s, sep) ==> Fields(s, sep) == [s]
  {
    if Free(s, sep) {
      FieldsOfFree(s, "", sep);
      assert s + "" == s;
    }
  }

  lemma {:induction false} FieldsOfJoin(parts: seq<string>, sep: char)
    requires |parts| >= 1
    requires forall i :: 0 <= i < |parts| ==> Free(parts[i], sep)
    ensures Fields(Join(parts, sep), sep) == parts
  {
    if |parts| == 1 {
      FieldsOfFree(parts[0], "", sep);
      assert parts[0] + "" == parts[0];
    } else {
      var rest := Join(parts[1..], sep);
      FieldsOfJoin(parts[1..], sep);
      var t := [sep] + rest;
      assert Join(parts, sep) == parts[0] + t;
      FieldsOfFree(parts[0], t, sep);
      assert t[1..] == rest;
      assert Fields(t, sep) == [""] + parts[1..];
      assert parts[0] + "" == parts[0];
    }
  }

  /** Splitting a join gives the parts back when no part holds the separator
      and the last part is not empty (Java drops trailing empty fields). */
  lemma SplitJoin(parts: seq<string>, sep: char)
    requires |parts| >= 1
    requires forall i :: 0 <= i < |parts| ==> Free(parts[i], sep)
    requires |parts| == 1 || parts[|parts| - 1] != ""
    ensures Split(Join(parts, sep), sep) == parts
  {
    FieldsOfJoin(parts, sep);
  }
}
