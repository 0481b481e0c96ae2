/** The parts of java.lang.String that the model relies on: `indexOf`,
    `lastIndexOf`, `contains`, and the decimal text that string
    concatenation produces for an `int` or a `long`. */
module Strings {
  import opened Wrappers

  /** `t` occurs in `s` starting at index `i`. */
  ghost predicate OccursAt(s: string, t: string, i: int) {
    0 <= i && i + |t| <= |s| && s[i..i + |t|] == t
  }

  /** `s.indexOf(t, from)`: the first occurrence at or after `from`, or -1. */
  function IndexOfFrom(s: string, t: string, from: nat): (r: int)
    ensures r == -1 || (from <= r && OccursAt(s, t, r))
    ensures r == -1 ==> forall j :: from <= j ==> !OccursAt(s, t, j)
    ensures r != -1 ==> forall j :: from <= j < r ==> !OccursAt(s, t, j)
    decreases |s| - from
  {
    if from + |t| > |s| then -1
    else if s[from..from + |t|] == t then from
    else IndexOfFrom(s, t, from + 1)
  }

  /** `s.indexOf(t)`. */
  function IndexOf(s: string, t: string): (r: int)
    ensures r == -1 <==> forall j :: !OccursAt(s, t, j)
    ensures r != -1 ==> OccursAt(s, t, r) && forall j :: j < r ==> !OccursAt(s, t, j)
  {
    IndexOfFrom(s, t, 0)
  }

  /** The last occurrence of `t` in `s` that starts below `k`, or -1. */
  function LastIndexOfBelow(s: string, t: string, k: nat): (r: int)
    ensures r == -1 || (r < k && OccursAt(s, t, r))
    ensures r == -1 ==> forall j :: j < k ==> !OccursAt(s, t, j)
    ensures r != -1 ==> forall j :: r < j < k ==> !OccursAt(s, t, j)
  {
    if k == 0 then -1
    else if k - 1 + |t| <= |s| && s[k - 1..k - 1 + |t|] == t then k - 1
    else LastIndexOfBelow(s, t, k - 1)
  }

  /** `s.lastIndexOf(t)`. */
  function LastIndexOf(s: string, t: string): (r: int)
    ensures r == -1 <==> forall j :: !OccursAt(s, t, j)
    ensures r != -1 ==> OccursAt(s, t, r) && forall j :: r < j ==> !OccursAt(s, t, j)
  {
    LastIndexOfBelow(s, t, |s| + 1)
  }

  /** `s.contains(t)`. */
  function Contains(s: string, t: string): (r: bool)
    ensures r <==> exists j :: OccursAt(s, t, j)
  {
    IndexOf(s, t) != -1
  }

  /** A one-character string occurs exactly where that character is. */
  lemma OccursAtChar(s: string, c: char, i: int)
    ensures OccursAt(s, [c], i) <==> 0 <= i < |s| && s[i] == c
  {
    if 0 <= i < |s| {
      assert s[i..i + 1] == [s[i]];
    }
  }

  /** An occurrence starts with the first character of what occurs. */
  lemma OccursAtHead(s: string, t: string, i: int)
    requires OccursAt(s, t, i) && |t| > 0
    ensures i < |s| && s[i] == t[0]
  {
    assert s[i..i + |t|][0] == s[i];
  }

  /** An occurrence with none before it is the one `indexOf` finds. */
  lemma IndexOfIs(s: string, t: string, k: int)
    requires OccursAt(s, t, k) && forall j :: 0 <= j < k ==> !OccursAt(s, t, j)
    ensures IndexOf(s, t) == k
  {
  }

  /** An occurrence with none after it is the one `lastIndexOf` finds. */
  lemma LastIndexOfIs(s: string, t: string, k: int)
    requires OccursAt(s, t, k) && forall j :: k < j ==> !OccursAt(s, t, j)
    ensures LastIndexOf(s, t) == k
  {
  }

  /** The first space of `a + " " + b` is the one after `a` when `a` has none. */
  lemma FirstSpace(a: string, b: string)
    requires ' ' !in a
    ensures IndexOf(a + " " + b, " ") == |a|
  {
    var s := a + " " + b;
    OccursAtChar(s, ' ', |a|);
    var r := IndexOf(s, " ");
    if r != -1 && r < |a| {
      OccursAtChar(s, ' ', r);
    }
  }

  /** A string without spaces has no first space. */
  lemma NoSpace(a: string)
    requires ' ' !in a
    ensures IndexOf(a, " ") == -1
  {
    var r := IndexOf(a, " ");
    if r != -1 {
      OccursAtChar(a, ' ', r);
    }
  }

  predicate IsDigit(c: char) {
    '0' <= c <= '9'
  }

  function DigitChar(d: int): (c: char)
    requires 0 <= d < 10
    ensures IsDigit(c) && c as int - '0' as int == d
  {
    ('0' as int + d) as char
  }

  /** The decimal digits of `n`, most significant first, without leading zeros. */
  function Digits(n: nat): (r: string)
    ensures |r| > 0
    ensures forall i :: 0 <= i < |r| ==> IsDigit(r[i])
    ensures r[0] == '0' ==> n == 0
    decreases n
  {
    if n < 10 then [DigitChar(n)] else Digits(n / 10) + [DigitChar(n % 10)]
  }

  /** The text `"" + n` for a Java `int` or `long` `n` (`Long.toString`). */
  function Decimal(n: int): (r: string)
    ensures |r| > 0
    ensures forall i :: 0 <= i < |r| ==> IsDigit(r[i]) || (i == 0 && r[i] == '-' && n < 0)
    ensures r[0] == '-' <==> n < 0
    ensures var d := if n < 0 then r[1..] else r; |d| > 0 && (d[0] == '0' ==> |d| == 1)
  {
    if n < 0 then
      assert ("-" + Digits(-n))[1..] == Digits(-n);
      "-" + Digits(-n)
    else Digits(n)
  }

  /** The value of a non-empty string of decimal digits. */
  function DigitsValue(s: string): Option<nat>
    decreases |s|
  {
    if |s| == 0 || !IsDigit(s[|s| - 1]) then None
    else
      var d := s[|s| - 1] as int - '0' as int;
      if |s| == 1 then Some(d)
      else match DigitsValue(s[..|s| - 1])
        case None => None
        case Some(v) => Some(10 * v + d)
  }

  /** Reading back the text of an integer (`Long.parseLong` on decimal text). */
  function ParseDecimal(s: string): (r: Option<int>) {
    if |s| > 0 && s[0] == '-' then
      match DigitsValue(s[1..])
      case None => None
      case Some(v) => Some(0 - v as int)
    else
      match DigitsValue(s)
      case None => None
      case Some(v) => Some(v)
  }

  lemma {:induction false} DigitsRoundTrip(n: nat)
    ensures DigitsValue(Digits(n)) == Some(n)
    decreases n
  {
    if n >= 10 {
      var s := Digits(n);
      assert s[..|s| - 1] == Digits(n / 10);
      DigitsRoundTrip(n / 10);
    }
  }

  /** Every integer's decimal text reads back as that integer. */
  lemma DecimalRoundTrip(n: int)
    ensures ParseDecimal(Decimal(n)) == Some(n)
  {
    if n < 0 {
      assert Decimal(n)[1..] == Digits(-n);
      DigitsRoundTrip(-n);
    } else {
      DigitsRoundTrip(n);
    }
  }
}
