/**
 * The frequency line of get_trx_state_string (ft847.py:204-211): the display
 * frequency is read back as an integer, printed with nine zero-padded digits
 * (or "999999999" when it does not read as one), and shown as three groups of
 * three digits separated by dots.
 */
module FrequencyText {
  import opened Text
  import opened FrequencyDecode

  /** `"%09d" % n` when `int()` succeeded with n, and "999999999" when it raised. */
  function PadOrFallback(v: Option<nat>): (freq1: string)
    ensures |freq1| >= 9 && IsDigits(freq1)
    ensures v.None? ==> freq1 == "999999999"
  {
    match v
    case None =>
      assert IsDigits("999999999");
      "999999999"
    case Some(n) =>
      var ds := DecimalString(n);
      DecValLeadingZeros(9 - |ds|, ds);
      ZeroPad(ds, 9)
  }

  /** `freq1` (ft847.py:204-208) for the display string held in `_frequency`. */
  function PaddedFrequency(display: string): (freq1: string)
    ensures |freq1| >= 9 && IsDigits(freq1)
    ensures ParseInt(display).None? ==> freq1 == "999999999"
  {
    PadOrFallback(ParseInt(display))
  }

  /** A frequency below 10^9 is padded to exactly nine digits that denote it. */
  lemma PaddedFrequencyValue(display: string)
    requires ParseInt(display).Some? && ParseInt(display).value < 1000000000
    ensures var freq1 := PaddedFrequency(display);
      |freq1| == 9 && DecVal(freq1) == ParseInt(display).value
  {
    var n := ParseInt(display).value;
    var ds := DecimalString(n);
    DecimalStringLength(n, 9);
    DecValLeadingZeros(9 - |ds|, ds);
  }

  /**
   * `"%03d" % int(x)` for a group of digits: at least three digits with the
   * value of x, and x itself when x is three digits long.
   */
  function Reformat3(x: string): (r: string)
    requires IsDigits(x)
    ensures |r| >= 3 && IsDigits(r) && DecVal(r) == DecVal(x)
    ensures |x| == 3 ==> r == x
  {
    var ds := DecimalString(DecVal(x));
    DecValLeadingZeros(3 - |ds|, ds);
    assert |x| == 3 ==> ZeroPad(ds, 3) == x by {
      if |x| == 3 {
        ReformatDigits(x);
      }
    }
    ZeroPad(ds, 3)
  }

  /**
   * `freq2`: each three-digit slice of freq1 read as an integer and printed
   * again with `%03d`, joined by dots. The round trip through `int()` keeps
   * every digit, so the result is freq1's first nine digits in groups of three.
   */
  function GroupFrequency(freq1: string): (r: string)
    requires |freq1| >= 9 && IsDigits(freq1)
    ensures r == freq1[0..3] + "." + freq1[3..6] + "." + freq1[6..9]
  {
    ReformatSlice(freq1, 0);
    ReformatSlice(freq1, 3);
    ReformatSlice(freq1, 6);
    Reformat3(freq1[0..3]) + "." + Reformat3(freq1[3..6]) + "." + Reformat3(freq1[6..9])
  }

  /** A three-digit slice of freq1 survives `int()` and `%03d` unchanged. */
  lemma ReformatSlice(freq1: string, i: nat)
    requires IsDigits(freq1) && i + 3 <= |freq1|
    ensures IsDigits(freq1[i..i + 3]) && Reformat3(freq1[i..i + 3]) == freq1[i..i + 3]
  {
    var x := freq1[i..i + 3];
    assert IsDigits(x);
  }

  /** The nine digits of a ddd.ddd.ddd line, without its dots. */
  function LineDigits(r: string): string
    requires |r| == 11
  {
    r[0..3] + r[4..7] + r[8..11]
  }

  /**
   * The frequency line `freq2` for a display string: always eleven
   * characters, ddd.ddd.ddd, and "999.999.999" when the display string is not
   * an integer.
   */
  function FrequencyLine(display: string): (r: string)
    ensures |r| == 11 && r[3] == '.' && r[7] == '.' && IsDigits(LineDigits(r))
    ensures ParseInt(display).None? ==> r == "999.999.999"
  {
    LineShape(display);
    GroupFrequency(PaddedFrequency(display))
  }

  /** The shape of the grouped line, for any display string. */
  lemma LineShape(display: string)
    ensures var r := GroupFrequency(PaddedFrequency(display));
      && |r| == 11 && r[3] == '.' && r[7] == '.' && IsDigits(LineDigits(r))
      && (ParseInt(display).None? ==> r == "999.999.999")
  {
    var freq1 := PaddedFrequency(display);
    GroupedDigits(freq1);
    if ParseInt(display).None? {
      FallbackLine();
    }
  }

  /** The grouped line keeps freq1's first nine digits, with dots after the third and sixth. */
  lemma GroupedDigits(freq1: string)
    requires |freq1| >= 9 && IsDigits(freq1)
    ensures var r := GroupFrequency(freq1);
      |r| == 11 && r[3] == '.' && r[7] == '.' && LineDigits(r) == freq1[..9] && IsDigits(freq1[..9])
  {
    var a, b, c := freq1[0..3], freq1[3..6], freq1[6..9];
    var r := GroupFrequency(freq1);
    assert r == a + "." + b + "." + c;
    DottedParts(a, b, c);
    assert a + b + c == freq1[..9];
  }

  /** Three groups of three joined by dots sit at 0..3, 4..7 and 8..11. */
  lemma DottedParts(a: string, b: string, c: string)
    requires |a| == 3 && |b| == 3 && |c| == 3
    ensures var r := a + "." + b + "." + c;
      |r| == 11 && r[3] == '.' && r[7] == '.' && r[0..3] == a && r[4..7] == b && r[8..11] == c
  {
    var r := a + "." + b + "." + c;
    assert r == (a + "." + b + ".") + c;
    assert r[..8] == a + "." + b + ".";
  }

  /** The fallback digits group as "999.999.999". */
  lemma FallbackLine()
    ensures IsDigits("999999999") && GroupFrequency("999999999") == "999.999.999"
  {
    var n, g := "999999999", "999";
    assert IsDigits(n);
    assert n[0..3] == g && n[3..6] == g && n[6..9] == g;
    assert GroupFrequency(n) == g + "." + g + "." + g;
    NinesDotted();
  }

  lemma NinesDotted()
    ensures "999" + "." + "999" + "." + "999" == "999.999.999"
  {
  }

  /** When the display value is below 10^9, the nine digits of the line denote it. */
  lemma FrequencyLineValue(display: string)
    requires ParseInt(display).Some? && ParseInt(display).value < 1000000000
    ensures DecVal(LineDigits(FrequencyLine(display))) == ParseInt(display).value
  {
    var freq1 := PaddedFrequency(display);
    GroupedDigits(freq1);
    PaddedFrequencyValue(display);
    assert freq1[..9] == freq1;
  }

  /**
   * For a decoded response: with only decimal digits the frequency line
   * shows ten times the accumulator; with a hex letter anywhere it shows
   * "999.999.999".
   */
  lemma DecodedFrequencyLine(f: string)
    requires |f| == 8 && IsHexString(f)
    ensures IsDigits(f) ==> DecVal(LineDigits(FrequencyLine(FrequencyDisplay(f)))) == 10 * Accumulator(f)
    ensures !IsDigits(f) ==> FrequencyLine(FrequencyDisplay(f)) == "999.999.999"
  {
    var d := FrequencyDisplay(f);
    DisplayParses(f);
    if IsDigits(f) {
      DecValBound(f);
      assert Pow10(8) == 100000000;
      FrequencyLineValue(d);
    }
  }
}
