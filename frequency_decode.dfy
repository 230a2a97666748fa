/**
 * Decoding the first four bytes of a frequency response (ft847.py:86-100).
 *
 * The four bytes are printed as eight lower-case hex digits; a walk over
 * those digits blanks the leading '0's with spaces, copies every later digit,
 * and folds each copied digit into `h = h * 10 + int(digit, 16)`. A trailing
 * '0' is then appended for display. The radio sends packed BCD, so in
 * practice every digit is 0-9, but a digit a-f is folded as 10-15 all the same.
 */
module FrequencyDecode {
  import opened Text
  import opened CatProtocol

  predicate IsHexDigit(c: char) {
    '0' <= c <= '9' || 'a' <= c <= 'f'
  }

  predicate IsHexString(s: string) {
    forall i :: 0 <= i < |s| ==> IsHexDigit(s[i])
  }

  /** Python's `int(c, 16)` on one lower-case hex digit. */
  function HexValue(c: char): (v: nat)
    requires IsHexDigit(c)
    ensures v < 16
    ensures v == 0 <==> c == '0'
    ensures IsDigit(c) <==> v < 10
    ensures IsDigit(c) ==> v == DigitValue(c)
  {
    if c <= '9' then (c as int) - ('0' as int) else (c as int) - ('a' as int) + 10
  }

  /** One digit of `"%x"`. */
  function HexChar(n: nat): (c: char)
    requires n < 16
    ensures IsHexDigit(c) && HexValue(c) == n
  {
    if n < 10 then (('0' as int) + n) as char else (('a' as int) + n - 10) as char
  }

  /** `"%02x%02x..." % bs`: two lower-case hex digits per byte, high nibble first. */
  function HexString(bs: seq<byte>): (f: string)
    ensures |f| == 2 * |bs| && IsHexString(f)
  {
    if bs == [] then [] else [HexChar(bs[0] / 16), HexChar(bs[0] % 16)] + HexString(bs[1..])
  }

  /** Four bytes print as eight digits, two per byte, high nibble first. */
  lemma HexStringFour(bs: seq<byte>)
    requires |bs| == 4
    ensures HexString(bs) == [HexChar(bs[0] / 16), HexChar(bs[0] % 16), HexChar(bs[1] / 16), HexChar(bs[1] % 16),
                              HexChar(bs[2] / 16), HexChar(bs[2] % 16), HexChar(bs[3] / 16), HexChar(bs[3] % 16)]
  {
    assert HexString(bs[3..]) == [HexChar(bs[3] / 16), HexChar(bs[3] % 16)] + HexString(bs[3..][1..]);
    assert bs[3..][1..] == [];
    assert HexString(bs[2..]) == [HexChar(bs[2] / 16), HexChar(bs[2] % 16)] + HexString(bs[2..][1..]);
    assert bs[2..][1..] == bs[3..];
    assert HexString(bs[1..]) == [HexChar(bs[1] / 16), HexChar(bs[1] % 16)] + HexString(bs[1..][1..]);
    assert bs[1..][1..] == bs[2..];
  }

  /** The number of '0' characters f starts with. */
  function LeadingZeros(f: string): (z: nat)
    ensures z <= |f|
    ensures forall j :: 0 <= j < z ==> f[j] == '0'
    ensures z < |f| ==> f[z] != '0'
  {
    if f != [] && f[0] == '0' then 1 + LeadingZeros(f[1..]) else 0
  }

  /**
   * `h = h * 10 + int(c, 16)` for each digit c of s, left to right, from
   * h = 0. It is positive once s starts with a non-zero digit, and on decimal
   * digits it is their ordinary decimal value.
   */
  function HexFold(s: string): (v: nat)
    requires IsHexString(s)
    ensures s != [] && s[0] != '0' ==> v > 0
    ensures IsDigits(s) ==> v == DecVal(s)
  {
    if s == [] then 0 else HexFold(s[..|s| - 1]) * 10 + HexValue(s[|s| - 1])
  }

  /** The digits of f with its leading '0's replaced by spaces (the string g). */
  function Blanked(f: string): string {
    Repeat(' ', LeadingZeros(f)) + f[LeadingZeros(f)..]
  }

  /**
   * The display frequency `_frequency` (ft847.py:99): nine characters ending
   * in '0', whose leading spaces are exactly the leading '0's of f, and whose
   * other characters are those of f, interior zeros included.
   */
  function FrequencyDisplay(f: string): (d: string)
    requires |f| == 8 && IsHexString(f)
    ensures |d| == 9 && d[8] == '0'
    ensures forall j :: 0 <= j < 8 ==> (d[j] == ' ' <==> j < LeadingZeros(f))
    ensures forall j :: LeadingZeros(f) <= j < 8 ==> d[j] == f[j]
  {
    Blanked(f) + "0"
  }

  /**
   * The accumulator `_frequencyint` (ft847.py:100): the fold over the digits
   * after the leading zeros. It is 0 exactly when every digit is '0', and on
   * decimal digits it is their value, leading zeros included.
   */
  function Accumulator(f: string): (h: nat)
    requires IsHexString(f)
    ensures h == 0 <==> forall j :: 0 <= j < |f| ==> f[j] == '0'
    ensures IsDigits(f) ==> h == DecVal(f)
  {
    var z := LeadingZeros(f);
    assert IsDigits(f) ==> DecVal(f) == DecVal(f[z..]) by {
      if IsDigits(f) {
        assert f == Repeat('0', z) + f[z..];
        DecValLeadingZeros(z, f[z..]);
      }
    }
    HexFold(f[z..])
  }

  /**
   * The digit walk of ft847.py:88-98, run on the hex string f of the first
   * four response bytes. It returns g (without the trailing '0') and h.
   */
  method WalkDigits(f: string) returns (g: string, h: nat)
    requires |f| == 8 && IsHexString(f)
    ensures g == Blanked(f)
    ensures h == Accumulator(f)
  {
    var carry := true;
    g, h := "", 0;
    ghost var z := LeadingZeros(f);
    for i := 0 to 8
      invariant carry <==> i <= z
      invariant carry ==> g == Repeat(' ', i) && h == 0
      invariant !carry ==> g == Repeat(' ', z) + f[z..i]
      invariant !carry ==> h == HexFold(f[z..i])
    {
      if f[i] == '0' && carry {
        assert Repeat(' ', i) + [' '] == Repeat(' ', i + 1);
        g := g + [' '];
      } else {
        CopyStep(f, z, i);
        g := g + [f[i]];
        h := h * 10 + HexValue(f[i]);
        carry := false;
      }
    }
    assert f[z..8] == f[z..];
  }

  /** Copying digit i extends both the copied digits and their fold by that digit. */
  lemma CopyStep(f: string, z: nat, i: nat)
    requires IsHexString(f) && z <= i < |f|
    ensures Repeat(' ', z) + f[z..i + 1] == (Repeat(' ', z) + f[z..i]) + [f[i]]
    ensures HexFold(f[z..i + 1]) == HexFold(f[z..i]) * 10 + HexValue(f[i])
  {
    assert f[z..i + 1][..i - z] == f[z..i];
  }

  /**
   * All-zero bytes give accumulator 0 and display "        0"; any non-zero
   * digit gives a positive accumulator.
   */
  lemma AccumulatorZero(f: string)
    requires |f| == 8 && IsHexString(f)
    ensures Accumulator(f) == 0 <==> forall j :: 0 <= j < 8 ==> f[j] == '0'
    ensures (forall j :: 0 <= j < 8 ==> f[j] == '0') ==> FrequencyDisplay(f) == "        0"
  {
    if LeadingZeros(f) == 8 {
      assert Repeat(' ', 8) == "        ";
    }
  }

  /** Stripping the display string leaves the copied digits and the trailing '0'. */
  lemma StripDisplay(f: string)
    requires |f| == 8 && IsHexString(f)
    ensures RStrip(LStrip(FrequencyDisplay(f))) == f[LeadingZeros(f)..] + "0"
  {
    var d := FrequencyDisplay(f);
    var z := LeadingZeros(f);
    var l := LStrip(d);
    var k := |d| - |l|;
    assert d[z] != ' ';
    assert k == z;
    assert l == d[z..] == f[z..] + "0";
  }

  /** The stripped display is all digits exactly when f is. */
  lemma TailDigits(f: string)
    requires |f| == 8 && IsHexString(f)
    ensures IsDigits(f[LeadingZeros(f)..] + "0") <==> IsDigits(f)
  {
    var z := LeadingZeros(f);
    var t := f[z..] + "0";
    if !IsDigits(f) {
      var j :| 0 <= j < 8 && !IsDigit(f[j]);
      assert t[j - z] == f[j];
    }
  }

  /**
   * The display string parses as an integer exactly when every digit of f is
   * decimal, and then its value is ten times the accumulator.
   */
  lemma DisplayParses(f: string)
    requires |f| == 8 && IsHexString(f)
    ensures ParseInt(FrequencyDisplay(f)).Some? <==> IsDigits(f)
    ensures IsDigits(f) ==> ParseInt(FrequencyDisplay(f)) == Some(10 * Accumulator(f))
  {
    var z := LeadingZeros(f);
    var tail := f[z..];
    StripDisplay(f);
    TailDigits(f);
    if IsDigits(f) {
      assert IsDigits(tail);
      DecValAppendZero(tail);
    }
  }

  /** Packs pairs of decimal digits into bytes, high nibble first (packed BCD). */
  function PackDigits(s: string): (bs: seq<byte>)
    requires |s| % 2 == 0 && IsDigits(s)
    ensures |bs| == |s| / 2
  {
    if s == [] then [] else [16 * DigitValue(s[0]) + DigitValue(s[1])] + PackDigits(s[2..])
  }

  /** Hex-printing packed BCD gives back the decimal digits. */
  lemma {:induction false} HexStringOfPacked(s: string)
    requires |s| % 2 == 0 && IsDigits(s)
    ensures HexString(PackDigits(s)) == s
  {
    if s != [] {
      var bs := PackDigits(s);
      PackedNibbles(s[0], s[1]);
      HexStringOfPacked(s[2..]);
      assert bs[1..] == PackDigits(s[2..]);
      assert HexString(bs) == [s[0], s[1]] + s[2..];
      assert s == [s[0], s[1]] + s[2..];
    }
  }

  /** One packed BCD byte prints as its two digits. */
  lemma PackedNibbles(hi: char, lo: char)
    requires IsDigit(hi) && IsDigit(lo)
    ensures var b := 16 * DigitValue(hi) + DigitValue(lo);
      HexChar(b / 16) == hi && HexChar(b % 16) == lo
  {
    var b := 16 * DigitValue(hi) + DigitValue(lo);
    assert b / 16 == DigitValue(hi) && b % 16 == DigitValue(lo);
  }

  /** The eight decimal digits of h, zero-padded on the left. */
  function BcdDigits(h: nat): (p: string)
    requires h < 100000000
    ensures |p| == 8 && IsDigits(p) && DecVal(p) == h
  {
    var ds := DecimalString(h);
    DecimalStringLength(h, 8);
    DecValLeadingZeros(8 - |ds|, ds);
    ZeroPad(ds, 8)
  }

  /**
   * The four frequency bytes the radio sends for a display value of h: the
   * eight decimal digits of h in packed BCD. It is the counterpart of the decoder.
   */
  function BcdBytes(h: nat): (bs: seq<byte>)
    requires h < 100000000
    ensures |bs| == 4
  {
    PackDigits(BcdDigits(h))
  }

  /**
   * Round trip: decoding the BCD bytes of any h below 10^8 yields the
   * accumulator h and a display string whose value is 10 * h.
   */
  lemma FrequencyRoundTrip(h: nat)
    requires h < 100000000
    ensures var f := HexString(BcdBytes(h));
      Accumulator(f) == h && ParseInt(FrequencyDisplay(f)) == Some(10 * h)
  {
    var p := BcdDigits(h);
    HexStringOfPacked(p);
    DisplayParses(p);
  }
}
