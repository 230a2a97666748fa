/**
 * The small part of Python's string behaviour that the FT-847 monitor relies
 * on: `c * k` repetition, `str(n)` and `"%0wd"` for non-negative integers,
 * and `int(s)` on the strings the monitor actually holds.
 */
module Text {

  datatype Option<+T> = None | Some(value: T)

  /** Python's `c * k`: k copies of c, empty when k is zero or negative. */
  function Repeat(c: char, k: int): (r: string)
    ensures |r| == if k > 0 then k else 0
  {
    seq(if k > 0 then k else 0, _ => c)
  }

  /** Repeat(c, k) holds c exactly max(k, 0) times and nothing else. */
  lemma {:induction false} RepeatMultiset(c: char, k: int)
    ensures multiset(Repeat(c, k)) == multiset{}[c := if k > 0 then k else 0]
  {
    if k > 0 {
      RepeatMultiset(c, k - 1);
      assert Repeat(c, k) == Repeat(c, k - 1) + [c];
    }
  }

  predicate IsDigit(c: char) {
    '0' <= c <= '9'
  }

  predicate IsDigits(s: string) {
    forall i :: 0 <= i < |s| ==> IsDigit(s[i])
  }

  function DigitValue(c: char): nat
    requires IsDigit(c)
  {
    (c as int) - ('0' as int)
  }

  function DigitChar(d: nat): (c: char)
    requires d < 10
    ensures IsDigit(c) && DigitValue(c) == d
  {
    (('0' as int) + d) as char
  }

  /** The value of a string of decimal digits, most significant digit first. */
  function DecVal(s: string): nat
    requires IsDigits(s)
  {
    if s == [] then 0 else DecVal(s[..|s| - 1]) * 10 + DigitValue(s[|s| - 1])
  }

  function Pow10(k: nat): (p: nat)
    ensures p >= 1
  {
    if k == 0 then 1 else 10 * Pow10(k - 1)
  }

  /** Python's `str(n)` for a non-negative n: no leading zero, and it denotes n. */
  function DecimalString(n: nat): (s: string)
    ensures 1 <= |s| && IsDigits(s) && DecVal(s) == n
    ensures |s| > 1 ==> s[0] != '0'
    ensures n < 10 <==> |s| == 1
  {
    if n < 10 then [DigitChar(n)]
    else
      var prefix := DecimalString(n / 10);
      var s := prefix + [DigitChar(n % 10)];
      assert s[..|s| - 1] == prefix;
      s
  }

  /** Python's `"%0*d" % (w, n)` once n has been rendered as s: zeros on the left up to width w. */
  function ZeroPad(s: string, w: int): (r: string)
    ensures |r| == if |s| < w then w else |s|
  {
    Repeat('0', w - |s|) + s
  }

  /** Python's `s.lstrip(' ')`. */
  function LStrip(s: string): (r: string)
    ensures |r| <= |s|
    ensures r == s[|s| - |r|..]
    ensures r != [] ==> r[0] != ' '
    ensures forall i :: 0 <= i < |s| - |r| ==> s[i] == ' '
  {
    if s != [] && s[0] == ' ' then LStrip(s[1..]) else s
  }

  /** Python's `s.rstrip(' ')`. */
  function RStrip(s: string): (r: string)
    ensures |r| <= |s|
    ensures r == s[..|r|]
    ensures r != [] ==> r[|r| - 1] != ' '
    ensures forall i :: |r| <= i < |s| ==> s[i] == ' '
  {
    if s != [] && s[|s| - 1] == ' ' then RStrip(s[..|s| - 1]) else s
  }

  /**
   * Python's `int(s)` on a string: surrounding spaces are ignored and what
   * remains must be a non-empty run of decimal digits; anything else raises,
   * which is None here. A plain run of digits reads as its value; a blank
   * string, and any string holding a character other than a space or a
   * digit, raises.
   */
  function ParseInt(s: string): (v: Option<nat>)
    ensures s != [] && IsDigits(s) ==> v == Some(DecVal(s))
    ensures (forall i :: 0 <= i < |s| ==> s[i] == ' ') ==> v.None?
    ensures (exists i :: 0 <= i < |s| && s[i] != ' ' && !IsDigit(s[i])) ==> v.None?
  {
    var l := LStrip(s);
    var t := RStrip(l);
    assert t == s[|s| - |l|..|s| - |l| + |t|];
    assert forall i :: 0 <= i < |s| && s[i] != ' ' ==> |s| - |l| <= i < |s| - |l| + |t| && s[i] == t[i - (|s| - |l|)];
    if |t| > 0 && IsDigits(t) then Some(DecVal(t)) else None
  }

  /** Appending a '0' digit multiplies the value by ten. */
  lemma DecValAppendZero(s: string)
    requires IsDigits(s)
    ensures IsDigits(s + "0") && DecVal(s + "0") == 10 * DecVal(s)
  {
    assert (s + "0")[..|s|] == s;
  }

  /** Leading zeros do not change the value of a digit string. */
  lemma {:induction false} DecValLeadingZeros(k: int, s: string)
    requires IsDigits(s)
    ensures IsDigits(Repeat('0', k) + s)
    ensures DecVal(Repeat('0', k) + s) == DecVal(s)
  {
    var z := Repeat('0', k);
    if s == [] {
      assert z + s == z;
      AllZerosValue(z);
    } else {
      var init := s[..|s| - 1];
      DecValLeadingZeros(k, init);
      assert (z + s)[..|z + s| - 1] == z + init;
    }
  }

  /** A string of '0' characters has value zero, and nothing else does. */
  lemma {:induction false} AllZerosValue(s: string)
    requires IsDigits(s)
    ensures DecVal(s) == 0 <==> forall i :: 0 <= i < |s| ==> s[i] == '0'
  {
    if s != [] {
      var init := s[..|s| - 1];
      AllZerosValue(init);
      assert forall i :: 0 <= i < |init| ==> init[i] == s[i];
    }
  }

  /** A digit string of length k has value below 10^k. */
  lemma {:induction false} DecValBound(s: string)
    requires IsDigits(s)
    ensures DecVal(s) < Pow10(|s|)
  {
    if s != [] {
      DecValBound(s[..|s| - 1]);
    }
  }

  /** `str(n)` has at most k digits when n < 10^k. */
  lemma {:induction false} DecimalStringLength(n: nat, k: nat)
    requires 1 <= k && n < Pow10(k)
    ensures |DecimalString(n)| <= k
  {
    if n >= 10 {
      DecimalStringLength(n / 10, k - 1);
    }
  }

  lemma DigitCharOfValue(c: char)
    requires IsDigit(c)
    ensures DigitChar(DigitValue(c)) == c
  {
  }

  /** Rendering 10m + d appends the digit d to the rendering of m. */
  lemma DecimalStringSnoc(m: nat, c: char)
    requires m >= 1 && IsDigit(c)
    ensures DecimalString(10 * m + DigitValue(c)) == DecimalString(m) + [c]
  {
    var n := 10 * m + DigitValue(c);
    assert n / 10 == m && n % 10 == DigitValue(c);
    DigitCharOfValue(c);
  }

  lemma ZeroPadSnoc(s: string, c: char, w: int)
    requires |s| < w
    ensures ZeroPad(s + [c], w) == ZeroPad(s, w - 1) + [c]
  {
    assert Repeat('0', w - |s + [c]|) == Repeat('0', w - 1 - |s|);
  }

  /** A single significant digit after w - 1 zeros re-renders to itself. */
  lemma ReformatLeadingZeros(init: string, c: char)
    requires IsDigits(init) && IsDigit(c) && DecVal(init) == 0
    ensures ZeroPad(DecimalString(DigitValue(c)), |init| + 1) == init + [c]
  {
    AllZerosValue(init);
    DigitCharOfValue(c);
    assert init == Repeat('0', |init|);
  }

  /**
   * Re-rendering a digit string of width w with `"%0wd" % int(x)` gives
   * back x itself, leading zeros included.
   */
  lemma {:induction false} ReformatDigits(x: string)
    requires IsDigits(x) && |x| >= 1
    ensures ZeroPad(DecimalString(DecVal(x)), |x|) == x
  {
    var w := |x|;
    var init := x[..w - 1];
    var c := x[w - 1];
    assert x == init + [c];
    var m := DecVal(init);
    assert DecVal(x) == 10 * m + DigitValue(c);
    if m == 0 {
      ReformatLeadingZeros(init, c);
    } else {
      ReformatDigits(init);
      var ds := DecimalString(m);
      assert |ZeroPad(ds, w - 1)| == w - 1;
      DecimalStringSnoc(m, c);
      ZeroPadSnoc(ds, c, w);
    }
  }
}
