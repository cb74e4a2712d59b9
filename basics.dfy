/**
 * Small shared vocabulary: optional values (a C NULL or a C# null), 3-vectors
 * over the reals (Unity's Vector3, with float rounding left out), and the
 * decimal and hexadecimal text conversions that the C and C# code get from
 * printf, ToString and Parse.
 */
module Basics {

  datatype Option<T> = None | Some(value: T)

  // ---------------------------------------------------------------- vectors

  datatype Vector3 = Vector3(x: real, y: real, z: real)

  function Add(a: Vector3, b: Vector3): Vector3 { Vector3(a.x + b.x, a.y + b.y, a.z + b.z) }
  function Sub(a: Vector3, b: Vector3): Vector3 { Vector3(a.x - b.x, a.y - b.y, a.z - b.z) }
  function Scale(a: Vector3, k: real): Vector3 { Vector3(a.x * k, a.y * k, a.z * k) }

  // ------------------------------------------------------------ characters

  predicate IsDigit(c: char) { '0' <= c <= '9' }

  predicate AllDigits(s: string) { forall i :: 0 <= i < |s| ==> IsDigit(s[i]) }

  function DigitChar(d: nat): (c: char)
    requires d < 10
    ensures IsDigit(c) && (c as int) - ('0' as int) == d
  {
    (('0' as int) + d) as char
  }

  function DigitValue(c: char): nat
    requires IsDigit(c)
  {
    (c as int) - ('0' as int)
  }

  /** Lower-case hexadecimal digit, as printed by the C format "%x". */
  function HexDigit(d: nat): (c: char)
    requires d < 16
    ensures d < 10 ==> c == DigitChar(d)
    ensures d >= 10 ==> c as int == 'a' as int + (d - 10)
  {
    "0123456789abcdef"[d]
  }

  predicate IsLowerHex(c: char) { IsDigit(c) || 'a' <= c <= 'f' }

  function HexValue(c: char): nat
    requires IsLowerHex(c)
  {
    if IsDigit(c) then DigitValue(c) else (c as int) - ('a' as int) + 10
  }

  lemma HexDigitValue(d: nat)
    requires d < 16
    ensures IsLowerHex(HexDigit(d)) && HexValue(HexDigit(d)) == d
  {
  }

  // ------------------------------------------------------- decimal numbers

  /** The decimal digits of n with no leading zeros ("%d" for n >= 0). */
  function NatToString(n: nat): (s: string)
    ensures |s| >= 1 && AllDigits(s)
    ensures n >= 10 ==> s[0] != '0'
    decreases n
  {
    if n < 10 then [DigitChar(n)] else NatToString(n / 10) + [DigitChar(n % 10)]
  }

  /** "%d" / Int32.ToString for any integer. */
  function IntToString(i: int): (s: string)
    ensures |s| >= 1
    ensures (s[0] == '-') <==> i < 0
  {
    if i < 0 then "-" + NatToString(-i) else NatToString(i)
  }

  /** The value of a non-empty run of decimal digits. */
  function DigitsValue(s: string): nat
    requires AllDigits(s)
    decreases |s|
  {
    if s == [] then 0 else 10 * DigitsValue(s[..|s| - 1]) + DigitValue(s[|s| - 1])
  }

  lemma {:induction false} DigitsValueOfNatToString(n: nat)
    ensures DigitsValue(NatToString(n)) == n
    decreases n
  {
    var s := NatToString(n);
    if n >= 10 {
      assert s[..|s| - 1] == NatToString(n / 10);
      DigitsValueOfNatToString(n / 10);
    }
  }

  /** A decimal string padded on the left with '0' to at least `width` characters ("%0*d"). */
  function ZeroPad(s: string, width: nat): (r: string)
    ensures |r| == if |s| >= width then |s| else width
    ensures r[|r| - |s|..] == s
    ensures forall i :: 0 <= i < |r| - |s| ==> r[i] == '0'
    decreases width - |s|
  {
    if |s| >= width then s else ZeroPad(['0'] + s, width)
  }

  lemma {:induction false} DigitsValueLeadingZeros(z: string, s: string)
    requires AllDigits(s)
    requires forall i :: 0 <= i < |z| ==> z[i] == '0'
    ensures AllDigits(z + s) && DigitsValue(z + s) == DigitsValue(s)
    decreases |s|
  {
    assert AllDigits(z + s) by {
      forall i | 0 <= i < |z + s| ensures IsDigit((z + s)[i]) {
        if i < |z| { assert (z + s)[i] == z[i]; } else { assert (z + s)[i] == s[i - |z|]; }
      }
    }
    AllZerosValue(z);
    if s == [] {
      assert z + s == z;
    } else {
      var t := s[..|s| - 1];
      assert (z + s)[..|z + s| - 1] == z + t;
      DigitsValueLeadingZeros(z, t);
    }
  }

  lemma {:induction false} AllZerosValue(z: string)
    requires forall i :: 0 <= i < |z| ==> z[i] == '0'
    ensures AllDigits(z) && DigitsValue(z) == 0
    decreases |z|
  {
    if z != [] { AllZerosValue(z[..|z| - 1]); }
  }

  function Pow10(k: nat): (p: nat)
    ensures p >= 1
  {
    if k == 0 then 1 else 10 * Pow10(k - 1)
  }

  lemma {:induction false} NatToStringLength(n: nat, k: nat)
    requires n < Pow10(k)
    ensures |NatToString(n)| <= if k == 0 then 1 else k
    decreases n
  {
    if n >= 10 {
      assert Pow10(0) == 1 && Pow10(1) == 10;
      assert k >= 2;
      assert n / 10 < Pow10(k - 1);
      NatToStringLength(n / 10, k - 1);
    }
  }

  /**
   * Parse of a signed decimal integer the way C#'s int.Parse reads the
   * canonical form: an optional '-' or '+' followed by one or more digits,
   * rejected when outside the 32-bit signed range (OverflowException).
   */
  function ParseInt32(s: string): (r: Option<int>)
    ensures r.Some? ==> -0x8000_0000 <= r.value < 0x8000_0000
  {
    var neg := |s| > 0 && s[0] == '-';
    var body := if |s| > 0 && (s[0] == '-' || s[0] == '+') then s[1..] else s;
    if |body| == 0 || !AllDigits(body) then None
    else
      var mag: int := DigitsValue(body);
      var v := if neg then 0 - mag else mag;
      if -0x8000_0000 <= v < 0x8000_0000 then Some(v) else None
  }

  lemma ParseInt32OfIntToString(i: int)
    requires -0x8000_0000 <= i < 0x8000_0000
    ensures ParseInt32(IntToString(i)) == Some(i)
  {
    var s := IntToString(i);
    if i < 0 {
      var body := NatToString(-i);
      assert s[0] == '-' && s[1..] == body;
      DigitsValueOfNatToString(-i);
      assert DigitsValue(body) == -i;
    } else {
      var body := NatToString(i);
      assert s == body && IsDigit(body[0]);
      DigitsValueOfNatToString(i);
      assert DigitsValue(body) == i;
    }
  }

  /** C#'s integer division, which truncates toward zero (Dafny's `/` is Euclidean). */
  function DivTrunc(a: int, b: int): (q: int)
    requires b > 0
    ensures a >= 0 ==> q == a / b
    ensures a < 0 ==> q == -((-a) / b)
    ensures q * b <= a < q * b + b || (a < 0 && q * b - b < a <= q * b)
  {
    if a >= 0 then a / b else -((-a) / b)
  }

  // --------------------------------------------------------------- strings

  /** Does `pat` occur in `s` starting at index k? */
  predicate OccursAt(s: string, pat: string, k: nat)
  {
    k + |pat| <= |s| && s[k..k + |pat|] == pat
  }

  /** C#'s String.Contains / C's strstr != NULL. */
  predicate Contains(s: string, pat: string)
  {
    exists k :: 0 <= k <= |s| && OccursAt(s, pat, k)
  }

  /** First index of c in s, or None (strchr / IndexOf). */
  function IndexOf(s: string, c: char): (r: Option<nat>)
    ensures r.None? <==> c !in s
    ensures r.Some? ==> r.value < |s| && s[r.value] == c && c !in s[..r.value]
  {
    if |s| == 0 then None
    else if s[0] == c then Some(0)
    else match IndexOf(s[1..], c)
      case None => None
      case Some(k) => (assert s[..k + 1] == [s[0]] + s[1..][..k]; Some(k + 1))
  }

  /** Last index of c in s, or None (LastIndexOf / strrchr). */
  function LastIndexOf(s: string, c: char): (r: Option<nat>)
    ensures r.None? <==> c !in s
    ensures r.Some? ==> r.value < |s| && s[r.value] == c && c !in s[r.value + 1..]
    decreases |s|
  {
    if |s| == 0 then None
    else if s[|s| - 1] == c then Some(|s| - 1)
    else
      match LastIndexOf(s[..|s| - 1], c)
      case None => (assert s == s[..|s| - 1] + [s[|s| - 1]]; None)
      case Some(k) => (assert s[k + 1..] == s[..|s| - 1][k + 1..] + [s[|s| - 1]]; Some(k))
  }

  /**
   * The text after the last c of s, all of s when c does not occur
   * (Substring(LastIndexOf(c) + 1), and the last element of Split(c)).
   */
  function AfterLast(s: string, c: char): (t: string)
    ensures c !in t
    ensures |t| <= |s| && s[|s| - |t|..] == t
    ensures |t| < |s| ==> s[|s| - |t| - 1] == c
  {
    match LastIndexOf(s, c)
    case None => s
    case Some(k) => s[k + 1..]
  }

  /**
   * .NET's Path.Combine with '/' as the directory separator: a rooted second
   * part replaces the first, an empty part is dropped, and otherwise one
   * separator is placed between them unless the first already ends in one.
   */
  function PathCombine(a: string, b: string): (r: string)
    ensures |b| > 0 && b[0] == '/' ==> r == b
    ensures |a| == 0 ==> r == b
    ensures |b| == 0 ==> r == a
    ensures |a| > 0 && |b| > 0 && b[0] != '/' ==> |r| >= |a| + |b| && r[..|a|] == a && r[|r| - |b|..] == b
  {
    if |b| == 0 then a
    else if b[0] == '/' then b
    else if |a| == 0 then b
    else if a[|a| - 1] == '/' then a + b
    else a + "/" + b
  }

  /** The text before the first occurrence of `sep`, or all of `s` when there is none. */
  function FieldBefore(s: string, sep: char): (r: string)
    ensures sep !in r
  {
    match IndexOf(s, sep)
    case None => s
    case Some(k) => s[..k]
  }

  /** The text after the first occurrence of `sep`, or "" when there is none. */
  function FieldAfter(s: string, sep: char): string
  {
    match IndexOf(s, sep)
    case None => ""
    case Some(k) => s[k + 1..]
  }

  /** Splitting p + [sep] + rest at the first sep, when p has none, gives p and rest back. */
  lemma {:induction false} SplitAtFirst(p: string, sep: char, rest: string)
    requires sep !in p
    ensures IndexOf(p + [sep] + rest, sep) == Some(|p|)
    ensures FieldBefore(p + [sep] + rest, sep) == p
    ensures FieldAfter(p + [sep] + rest, sep) == rest
  {
    var s := p + [sep] + rest;
    if |p| > 0 {
      assert s[1..] == p[1..] + [sep] + rest;
      SplitAtFirst(p[1..], sep, rest);
    }
  }
}
