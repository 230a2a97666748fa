/**
 * The FT847 object (ft847.py:17-248): the transceiver state the monitor keeps,
 * the two queries that update it from the radio's responses, the repeater
 * macros that write fixed command sequences, and the state text the monitor
 * displays.
 *
 * The serial line is modelled by its two directions: the bytes a read
 * returns are a method argument, and every frame written is appended to the
 * trace `written`. The band-plan module is a value of three uninterpreted
 * functions.
 */
module Transceiver {
  import opened Text
  import opened CatProtocol
  import opened FrequencyDecode
  import opened RxStatus
  import opened SMeter
  import opened FrequencyText

  /** The three band-plan lookups the object uses (ft847.py:101-102, 212). */
  datatype BandPlan = BandPlan(
    checkFrequency: nat -> string,
    whatBand: nat -> string,
    signalOnFrequency: string -> string)

  /** The instance state of an FT847 object, and the class attribute `errormessage`. */
  datatype Fields = Fields(
    frequency: string,
    frequencyInt: nat,
    mode: string,
    squelch: bool,
    sMeter: SMeterValue,
    discriminator: bool,
    ctcssDcs: bool,
    bandPlan: string,
    wavelength: string,
    errorMessage: string)

  /** The state set up by `__init__` (ft847.py:52-60), with the class attribute's initial "" (ft847.py:25). */
  function Initial(): Fields {
    Fields("", 0, "", true, NoReading, false, false, "O", "0 metres", "")
  }

  /**
   * What every reachable state satisfies: the display frequency is empty or
   * nine characters ending in '0', the mode is empty or one of the table's
   * labels, and an S-meter reading lies in 0..31.
   */
  predicate Consistent(s: Fields) {
    && (s.frequency == "" || (|s.frequency| == 9 && s.frequency[8] == '0'))
    && (s.mode == "" || s.mode in ModeLabels)
    && (s.sMeter.Reading? ==> 0 <= s.sMeter.level < 32)
  }

  /**
   * `_mode` after read_frequency: the label of byte 4 when that byte is a key
   * of the mode table, and otherwise the old mode, because the IndexError or
   * KeyError of the lookup is swallowed.
   */
  function NextMode(mode: string, resp: seq<byte>): (m: string)
    ensures m == mode || m in ModeLabels
    ensures |resp| >= 5 && resp[4] in Modes ==> m == Modes[resp[4]]
    ensures !(|resp| >= 5 && resp[4] in Modes) ==> m == mode
  {
    if |resp| >= 5 && resp[4] in Modes then Modes[resp[4]] else mode
  }

  /**
   * The decoding part of read_frequency (ft847.py:86-100): the first four
   * bytes as eight hex digits, walked into the display frequency and the
   * accumulator.
   */
  method DecodeFrequency(resp: seq<byte>) returns (display: string, h: nat)
    requires |resp| >= 4
    ensures display == FrequencyDisplay(HexString(resp[..4]))
    ensures h == Accumulator(HexString(resp[..4]))
  {
    var f := HexString(resp[..4]);
    var g;
    g, h := WalkDigits(f);
    display := g + "0";
  }

  /**
   * The state after read_frequency (ft847.py:65-110) received resp. Fewer than
   * four bytes fail at the first index, so nothing changes. Otherwise the
   * display frequency, accumulator, band and wavelength are set from the
   * first four bytes; the mode changes only when a fifth byte is present and
   * is a key of the mode table, because the failing lookup comes last. The
   * error handler binds a local, so errorMessage never changes.
   */
  function AfterReadFrequency(s: Fields, plan: BandPlan, resp: seq<byte>): (t: Fields)
    ensures t.errorMessage == s.errorMessage
    ensures t.squelch == s.squelch && t.ctcssDcs == s.ctcssDcs
    ensures t.discriminator == s.discriminator && t.sMeter == s.sMeter
    ensures |resp| < 4 ==> t == s
    ensures t.mode == NextMode(s.mode, resp)
  {
    if |resp| < 4 then s
    else
      var f := HexString(resp[..4]);
      var h := Accumulator(f);
      s.(frequency := FrequencyDisplay(f),
         frequencyInt := h,
         bandPlan := plan.checkFrequency(h),
         wavelength := plan.whatBand(h),
         mode := NextMode(s.mode, resp))
  }

  /** The fields a decoded response of four or more bytes sets. */
  lemma FrequencyUpdate(s: Fields, plan: BandPlan, resp: seq<byte>, display: string, h: nat)
    requires |resp| >= 4
    requires display == FrequencyDisplay(HexString(resp[..4])) && h == Accumulator(HexString(resp[..4]))
    ensures AfterReadFrequency(s, plan, resp)
      == s.(frequency := display, frequencyInt := h, bandPlan := plan.checkFrequency(h),
            wavelength := plan.whatBand(h), mode := NextMode(s.mode, resp))
  {
  }

  /**
   * A response of four or more bytes whose fifth byte is missing or not in
   * the mode table still sets the display frequency, the accumulator, the
   * band and the wavelength, and keeps the old mode.
   */
  lemma UnknownModeResponse(s: Fields, plan: BandPlan, resp: seq<byte>)
    requires |resp| >= 4 && !(|resp| >= 5 && resp[4] in Modes)
    ensures var t := AfterReadFrequency(s, plan, resp);
      && t.mode == s.mode
      && t.frequency == FrequencyDisplay(HexString(resp[..4]))
      && t.frequencyInt == Accumulator(HexString(resp[..4]))
      && t.bandPlan == plan.checkFrequency(t.frequencyInt)
      && t.wavelength == plan.whatBand(t.frequencyInt)
  {
  }

  /**
   * A response whose fifth byte is a key of the mode table sets the mode to
   * that byte's label, along with the frequency fields.
   */
  lemma KnownModeResponse(s: Fields, plan: BandPlan, resp: seq<byte>)
    requires |resp| >= 5 && resp[4] in Modes
    ensures var t := AfterReadFrequency(s, plan, resp);
      && t.mode == Modes[resp[4]]
      && t.frequency == FrequencyDisplay(HexString(resp[..4]))
      && t.frequencyInt == Accumulator(HexString(resp[..4]))
      && t.bandPlan == plan.checkFrequency(t.frequencyInt)
      && t.wavelength == plan.whatBand(t.frequencyInt)
  {
  }

  /**
   * The state after read_rx_status (ft847.py:112-142) received resp: the four
   * status fields come from the first byte, or from 0 when nothing was read;
   * nothing else changes, errorMessage included.
   */
  function AfterReadRxStatus(s: Fields, resp: seq<byte>): (t: Fields)
    ensures t.frequency == s.frequency && t.frequencyInt == s.frequencyInt && t.mode == s.mode
    ensures t.bandPlan == s.bandPlan && t.wavelength == s.wavelength
    ensures t.errorMessage == s.errorMessage
    ensures t.sMeter.Reading? && 0 <= t.sMeter.level < 32
  {
    var st := DecodeStatus(ResponseByte(resp));
    s.(squelch := st.squelch,
       ctcssDcs := st.ctcssDcs,
       discriminator := st.discriminator,
       sMeter := Reading(st.sMeter))
  }

  /**
   * The values get_trx_state_string lays out (ft847.py:197-212), without the
   * colour codes and column widths.
   */
  datatype StateView = StateView(
    frequencyLine: string,
    mode: string,
    squelch: bool,
    ctcssDcs: bool,
    discriminator: bool,
    sMeterText: string,
    wavelength: string,
    bandPlan: string,
    signal: string)

  /**
   * The displayed state: the frequency line is always ddd.ddd.ddd, the S-meter
   * text is empty before the first status read and a 39-character bar after it,
   * and the band-plan signal is looked up with the padded digits `freq1`.
   */
  function View(s: Fields, plan: BandPlan): (v: StateView)
    requires Consistent(s)
    ensures v.frequencyLine == FrequencyLine(s.frequency)
    ensures |v.frequencyLine| == 11 && v.frequencyLine[3] == '.' && v.frequencyLine[7] == '.'
    ensures IsDigits(LineDigits(v.frequencyLine))
    ensures v.signal == plan.signalOnFrequency(PaddedFrequency(s.frequency))
    ensures s.sMeter.NoReading? ==> v.sMeterText == ""
    ensures s.sMeter.Reading? ==> |v.sMeterText| == 39
  {
    var freq1 := PaddedFrequency(s.frequency);
    var meter := SMeterString(s.sMeter);
    assert s.sMeter.Reading? ==> |meter| == 39 by {
      if s.sMeter.Reading? {
        SMeterHead(s.sMeter.level);
      }
    }
    StateView(
      FrequencyLine(s.frequency), s.mode, s.squelch, s.ctcssDcs, s.discriminator,
      meter, s.wavelength, s.bandPlan, plan.signalOnFrequency(freq1))
  }

  /** Before any response the monitor shows "999.999.999" (`int("")` raises) and no S-meter text. */
  lemma InitialView(plan: BandPlan)
    ensures Consistent(Initial())
    ensures View(Initial(), plan).frequencyLine == "999.999.999"
    ensures View(Initial(), plan).sMeterText == ""
  {
    assert ParseInt("") == None;
  }

  /** read_frequency keeps a consistent state consistent. */
  lemma ReadFrequencyConsistent(s: Fields, plan: BandPlan, resp: seq<byte>)
    requires Consistent(s)
    ensures Consistent(AfterReadFrequency(s, plan, resp))
  {
  }

  /** read_rx_status keeps a consistent state consistent. */
  lemma ReadRxStatusConsistent(s: Fields, resp: seq<byte>)
    requires Consistent(s)
    ensures Consistent(AfterReadRxStatus(s, resp))
  {
  }

  /** Four zero bytes give accumulator 0 and the display frequency "        0". */
  lemma ZeroResponse(s: Fields, plan: BandPlan, resp: seq<byte>)
    requires |resp| >= 4 && resp[..4] == [0, 0, 0, 0]
    ensures var t := AfterReadFrequency(s, plan, resp);
      t.frequencyInt == 0 && t.frequency == "        0" && t.bandPlan == plan.checkFrequency(0)
  {
    var f := HexString(resp[..4]);
    HexStringFour(resp[..4]);
    assert f == "00000000";
    AccumulatorZero(f);
  }

  /**
   * A response whose first four bytes are the packed BCD digits of h stores
   * h, shows a display frequency worth 10 * h, looks up the band of h, and
   * the frequency line's nine digits denote 10 * h.
   */
  lemma BcdResponse(s: Fields, plan: BandPlan, resp: seq<byte>, h: nat)
    requires h < 100000000 && |resp| >= 4 && resp[..4] == BcdBytes(h)
    ensures var t := AfterReadFrequency(s, plan, resp);
      && t.frequencyInt == h
      && ParseInt(t.frequency) == Some(10 * h)
      && t.bandPlan == plan.checkFrequency(h) && t.wavelength == plan.whatBand(h)
      && DecVal(LineDigits(FrequencyLine(t.frequency))) == 10 * h
  {
    var f := HexString(BcdBytes(h));
    FrequencyRoundTrip(h);
    HexStringOfPacked(BcdDigits(h));
    DecodedFrequencyLine(f);
  }

  /**
   * A nibble above 9 in the first four bytes is still folded into the
   * accumulator (as 10..15), but the display frequency no longer reads as an
   * integer, so the frequency line falls back to "999.999.999".
   */
  lemma HexLetterResponse(s: Fields, plan: BandPlan, resp: seq<byte>)
    requires |resp| >= 4 && !IsDigits(HexString(resp[..4]))
    ensures var t := AfterReadFrequency(s, plan, resp);
      && t.frequencyInt == Accumulator(HexString(resp[..4]))
      && ParseInt(t.frequency).None?
      && FrequencyLine(t.frequency) == "999.999.999"
  {
    var f := HexString(resp[..4]);
    DisplayParses(f);
    DecodedFrequencyLine(f);
  }

  /**
   * After a status read the four fields give back the status byte, and the
   * S-meter text is a 39-character bar whose marks count the level.
   */
  lemma StatusResponse(s: Fields, resp: seq<byte>)
    ensures var t := AfterReadRxStatus(s, resp);
      && EncodeStatus(Status(t.squelch, t.ctcssDcs, t.discriminator, t.sMeter.level)) == ResponseByte(resp)
      && |SMeterString(t.sMeter)| == 39
      && multiset(SMeterString(t.sMeter)[8..])['|'] + multiset(SMeterString(t.sMeter)[8..])['I']
         == t.sMeter.level
  {
    var t := AfterReadRxStatus(s, resp);
    EncodeDecode(ResponseByte(resp));
    SMeterBarCounts(t.sMeter.level);
  }

  /** An FT847 object on one serial line. */
  class Ft847 {
    /** The band-plan module the object consults. */
    const plan: BandPlan

    var frequency: string
    var frequencyInt: nat
    var mode: string
    var squelch: bool
    var sMeter: SMeterValue
    var discriminator: bool
    var ctcssDcs: bool
    var bandPlan: string
    var wavelength: string
    /** The class attribute `errormessage` (ft847.py:25). */
    var errorMessage: string

    /** Every frame written to the serial line, oldest first. */
    var written: seq<Frame>

    function Snapshot(): Fields
      reads this
    {
      Fields(frequency, frequencyInt, mode, squelch, sMeter, discriminator, ctcssDcs,
             bandPlan, wavelength, errorMessage)
    }

    /** `__init__`: the serial port is opened outside the model; the fields start as ft847.py:52-60 sets them. */
    constructor(plan: BandPlan)
      ensures this.plan == plan
      ensures Snapshot() == Initial() && written == []
    {
      this.plan := plan;
      frequency := "";
      frequencyInt := 0;
      mode := "";
      squelch := true;
      sMeter := NoReading;
      discriminator := false;
      ctcssDcs := false;
      bandPlan := "O";
      wavelength := "0 metres";
      errorMessage := "";
      written := [];
    }

    /** read_frequency: writes the query, then decodes resp as ft847.py:82-103 does. */
    method ReadFrequency(resp: seq<byte>)
      modifies this
      ensures written == old(written) + [CmdReadFreq]
      ensures Snapshot() == AfterReadFrequency(old(Snapshot()), plan, resp)
    {
      written := written + [CmdReadFreq];
      if |resp| >= 4 {
        var display, h := DecodeFrequency(resp);
        FrequencyUpdate(Snapshot(), plan, resp, display, h);
        Store(display, h, NextMode(mode, resp));
      }
    }

    /** ft847.py:99-103: the fields a decoded frequency response sets, the mode last. */
    method Store(display: string, h: nat, newMode: string)
      modifies this`frequency, this`frequencyInt, this`bandPlan, this`wavelength, this`mode
      ensures Snapshot() == old(Snapshot()).(frequency := display, frequencyInt := h, bandPlan := plan.checkFrequency(h),
                                             wavelength := plan.whatBand(h), mode := newMode)
    {
      frequency := display;
      frequencyInt := h;
      bandPlan := plan.checkFrequency(h);
      wavelength := plan.whatBand(h);
      mode := newMode;
    }

    /** read_rx_status: writes the query, then decodes the first byte read, or 0 when there is none. */
    method ReadRxStatus(resp: seq<byte>)
      modifies this
      ensures written == old(written) + [CmdReadRxStatus]
      ensures Snapshot() == AfterReadRxStatus(old(Snapshot()), resp)
    {
      written := written + [CmdReadRxStatus];
      var respByte: byte := 0x16;
      if |resp| > 0 {
        respByte := resp[0];
      } else {
        respByte := 0x00;
      }
      var st := DecodeStatus(respByte);
      squelch := st.squelch;
      ctcssDcs := st.ctcssDcs;
      discriminator := st.discriminator;
      sMeter := Reading(st.sMeter);
    }

    /** gb3ts: the four GB3TS frames, in order; the state is untouched. */
    method Gb3ts()
      modifies this
      ensures written == old(written) + Gb3tsFrames
      ensures Snapshot() == old(Snapshot())
    {
      written := written + [CmdGb3ts];
      written := written + [CmdSetFmn];
      written := written + [CmdSetCtcss];
      written := written + [CmdSetRptShift];
    }

    /** gb3nt: the five GB3NT frames, in order; the state is untouched. */
    method Gb3nt()
      modifies this
      ensures written == old(written) + Gb3ntFrames
      ensures Snapshot() == old(Snapshot())
    {
      written := written + [CmdGb3nt];
      written := written + [CmdSetFmn];
      written := written + [CmdSetCtcss];
      written := written + [CmdSetTone];
      written := written + [CmdSetRptShift];
    }

  }
}
