/**
 * The S-meter text of get_s_meter_string (ft847.py:144-195): an "S" reading
 * followed by a bar of 31 cells. Levels up to 18 are shown in half S-units;
 * from 19 on the text reads S9 plus 5 dB per level above 19, and the bar cells
 * beyond the 19th are drawn as 'I'.
 */
module SMeter {
  import opened Text

  /**
   * The argument of get_s_meter_string: the `_s_meter` field holds the empty
   * string until the first status read and an integer afterwards. `int("")`
   * raises, which NoReading stands for.
   */
  datatype SMeterValue = NoReading | Reading(level: int)

  /**
   * `"%02.1f" % (n / 2)`: n half-steps as a whole number, a '.', and '5' for
   * an odd n or '0' for an even one. Below 20 half-steps it is three characters.
   */
  function HalfStepText(n: nat): (r: string)
    ensures |r| >= 3 && r[|r| - 2] == '.' && (r[|r| - 1] == '0' || r[|r| - 1] == '5')
    ensures r[|r| - 1] == '5' <==> n % 2 == 1
    ensures IsDigits(r[..|r| - 2]) && DecVal(r[..|r| - 2]) == n / 2
    ensures n < 20 ==> |r| == 3
  {
    var whole := DecimalString(n / 2);
    var r := whole + "." + (if n % 2 == 1 then "5" else "0");
    assert r[..|r| - 2] == whole;
    r
  }

  /**
   * `"S%02.1f   " % s_half` and the `" "` appended after it (ft847.py:158-161).
   * Below level 19 it is "S" d "." t and four spaces, where d.t is level - 1
   * half S-units (0 at level 0).
   */
  function BelowNineHead(level: int): (h: string)
    ensures level < 19 ==>
      && |h| == 8 && h[0] == 'S' && IsDigit(h[1]) && h[2] == '.' && (h[3] == '0' || h[3] == '5')
      && h[4..] == "    "
      && 2 * DigitValue(h[1]) + (if h[3] == '5' then 1 else 0) == (if level > 0 then level - 1 else 0)
  {
    var half := if level > 0 then level - 1 else 0;
    var t := HalfStepText(half);
    var h := "S" + t + "   " + " ";
    assert level < 19 ==> h == ['S', t[0], '.', t[2], ' ', ' ', ' ', ' '] by {
      if level < 19 {
        assert |t| == 3 && t[..1] == [t[0]];
      }
    }
    h
  }

  /**
   * `"S9  "` and `"+%02d " % (5 * above_nine)` (ft847.py:163-166). From level
   * 19 to 31 it is "S9  +", 5 dB per level above 19 as two zero-padded
   * digits, and a space.
   */
  function OverNineHead(level: int): (h: string)
    ensures 19 <= level <= 31 ==>
      && |h| == 8 && h[..5] == "S9  +" && h[7] == ' '
      && IsDigits(h[5..7]) && DecVal(h[5..7]) == 5 * (level - 19)
  {
    var aboveNine := if level > 19 then level - 19 else 0;
    var n := 5 * aboveNine;
    var p := ZeroPad(DecimalString(n), 2);
    var h := "S9  " + "+" + p + " ";
    assert 19 <= level <= 31 ==> |p| == 2 && IsDigits(p) && DecVal(p) == n && h[5..7] == p by {
      if 19 <= level <= 31 {
        DecimalStringLength(n, 2);
        DecValLeadingZeros(2 - |DecimalString(n)|, DecimalString(n));
        assert h == "S9  +" + p + " ";
      }
    }
    h
  }

  /**
   * The text for an integer level, built as ft847.py:157-171 builds it. For
   * a level 0..31 it is 39 characters: the eight-character reading followed
   * by the 31-cell bar.
   */
  function LevelText(level: int): (r: string)
    ensures 0 <= level <= 31 ==> |r| == 39 && r == Head(level) + Bar(level)
  {
    var a, b, c := Repeat('|', Min(level, 19)), Repeat('I', level - 19), Repeat('.', 31 - level);
    if level < 19 then
      assert b == [] && Bar(level) == Repeat('|', level) + Repeat('.', 31 - level);
      BelowNineHead(level) + Repeat('|', level) + Repeat('.', 31 - level)
    else
      var r := OverNineHead(level) + Repeat('|', 19) + Repeat('I', level - 19) + Repeat('.', 31 - level);
      assert r == Head(level) + (a + b + c);
      r
  }

  /** get_s_meter_string: the text for an integer argument, "" when `int()` of the argument raises. */
  function SMeterString(v: SMeterValue): (r: string)
    ensures v.NoReading? ==> r == ""
  {
    match v
    case NoReading => ""
    case Reading(level) => LevelText(level)
  }

  function Min(a: int, b: int): int { if a < b then a else b }

  function Max(a: int, b: int): int { if a < b then b else a }

  /** What bar cell k shows at a given level: '|' up to 19, 'I' above it, '.' beyond the level. */
  function BarCell(level: int, k: int): char {
    if k < Min(level, 19) then '|' else if k < level then 'I' else '.'
  }

  /** The 31-cell bar at a given level. */
  function Bar(level: int): string {
    Repeat('|', Min(level, 19)) + Repeat('I', level - 19) + Repeat('.', 31 - level)
  }

  /** The reading in front of the bar. */
  function Head(level: int): string {
    if level < 19 then BelowNineHead(level) else OverNineHead(level)
  }

  lemma SMeterHead(level: int)
    requires 0 <= level <= 31
    ensures var r := SMeterString(Reading(level));
      |r| == 39 && r[8..] == Bar(level)
  {
    assert (Head(level) + Bar(level))[8..] == Bar(level);
  }

  /**
   * For every level 0..31 the text is 39 characters wide, and its last 31
   * characters are the bar: cell k is '|' below min(level, 19), 'I' from 19
   * up to the level, and '.' from the level on.
   */
  lemma SMeterBar(level: int)
    requires 0 <= level <= 31
    ensures var r := SMeterString(Reading(level));
      |r| == 39 && forall k :: 8 <= k < 39 ==> r[k] == BarCell(level, k - 8)
  {
    var r := SMeterString(Reading(level));
    SMeterHead(level);
    assert forall k :: 8 <= k < 39 ==> r[k] == Bar(level)[k - 8];
    var a, b, c := Repeat('|', Min(level, 19)), Repeat('I', level - 19), Repeat('.', 31 - level);
    forall k | 8 <= k < 39
      ensures r[k] == BarCell(level, k - 8)
    {
      var j := k - 8;
      assert r[k] == Bar(level)[j] == (a + b + c)[j];
      if j < |a| {
        assert (a + b + c)[j] == a[j];
      } else if j < |a| + |b| {
        assert (a + b + c)[j] == b[j - |a|];
      } else {
        assert (a + b + c)[j] == c[j - |a| - |b|];
      }
    }
  }

  /** How many of each character Bar holds. */
  lemma BarCounts(level: int)
    requires 0 <= level <= 31
    ensures multiset(Bar(level))['|'] == Min(level, 19)
    ensures multiset(Bar(level))['I'] == Max(0, level - 19)
    ensures multiset(Bar(level))['.'] == 31 - level
  {
    var a, b, c := Repeat('|', Min(level, 19)), Repeat('I', level - 19), Repeat('.', 31 - level);
    RepeatMultiset('|', Min(level, 19));
    RepeatMultiset('I', level - 19);
    RepeatMultiset('.', 31 - level);
    assert multiset(Bar(level)) == multiset(a) + multiset(b) + multiset(c);
  }

  /**
   * The bar holds min(level, 19) '|', max(0, level - 19) 'I' and 31 - level
   * '.', so marks and dots always total 31.
   */
  lemma SMeterBarCounts(level: int)
    requires 0 <= level <= 31
    ensures var bar := SMeterString(Reading(level))[8..];
      && |bar| == 31
      && multiset(bar)['|'] == Min(level, 19)
      && multiset(bar)['I'] == Max(0, level - 19)
      && multiset(bar)['.'] == 31 - level
      && multiset(bar)['|'] + multiset(bar)['I'] + multiset(bar)['.'] == 31
  {
    SMeterHead(level);
    BarCounts(level);
  }

  /** A higher level never shows fewer marks, and every cell marked at the lower level stays marked. */
  lemma SMeterMonotone(lo: int, hi: int)
    requires 0 <= lo <= hi <= 31
    ensures var r, s := SMeterString(Reading(lo)), SMeterString(Reading(hi));
      forall k :: 8 <= k < 39 ==> (r[k] != '.' ==> s[k] != '.')
  {
    SMeterBar(lo);
    SMeterBar(hi);
  }

  /**
   * Below level 19 the text reads "S" d "." t with d.t the level in half
   * S-units, (level - 1) / 2, or 0 for level 0, followed by four spaces.
   */
  lemma SMeterBelowNine(level: int)
    requires 0 <= level < 19
    ensures var r := SMeterString(Reading(level));
      && r[0] == 'S' && IsDigit(r[1]) && r[2] == '.' && (r[3] == '0' || r[3] == '5')
      && r[4..8] == "    "
      && 2 * DigitValue(r[1]) + (if r[3] == '5' then 1 else 0) == (if level > 0 then level - 1 else 0)
  {
    var r := SMeterString(Reading(level));
    var h := BelowNineHead(level);
    assert r[..8] == h;
    assert r[4..8] == h[4..];
  }

  /**
   * From level 19 on the text starts "S9  +" and then shows 5 dB for every
   * level above 19 as two zero-padded digits.
   */
  lemma SMeterOverNine(level: int)
    requires 19 <= level <= 31
    ensures var r := SMeterString(Reading(level));
      && r[..5] == "S9  +" && IsDigits(r[5..7]) && DecVal(r[5..7]) == 5 * (level - 19) && r[7] == ' '
  {
    var r := SMeterString(Reading(level));
    var h := OverNineHead(level);
    assert r[..8] == h;
    assert r[..5] == h[..5] && r[5..7] == h[5..7];
  }
}
