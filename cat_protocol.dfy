/**
 * The FT-847 CAT command set as the monitor uses it: every command is a
 * fixed five-byte frame taken from a constant table, and the fifth byte of a
 * frequency response names the operating mode.
 */
module CatProtocol {

  /** One octet on the serial line. */
  type byte = x: int | 0 <= x < 256

  /** A CAT command: always exactly five bytes, the opcode last. */
  type Frame = f: seq<byte> | |f| == 5 witness [0, 0, 0, 0, 0]

  const CmdCatOn: Frame := [0x00, 0x00, 0x00, 0x00, 0x00]
  const CmdReadFreq: Frame := [0x00, 0x00, 0x00, 0x00, 0x03]
  const CmdReadRxStatus: Frame := [0x00, 0x00, 0x00, 0x00, 0xE7]
  const CmdGb3ts: Frame := [0x43, 0x31, 0x75, 0x00, 0x01]
  const CmdGb3nt: Frame := [0x43, 0x30, 0x00, 0x00, 0x01]
  const CmdSetFmn: Frame := [0x88, 0x00, 0x00, 0x00, 0x07]
  const CmdSetCtcss: Frame := [0x2A, 0x00, 0x00, 0x00, 0x0A]
  const CmdSetTone: Frame := [0x1A, 0x00, 0x00, 0x00, 0x0B]
  const CmdSetRptShift: Frame := [0x49, 0x00, 0x00, 0x00, 0x09]

  /** The ten mode codes a frequency response may carry, with their labels. */
  const Modes: map<byte, string> := map[
    0x00 := "Lower Sideband",
    0x01 := "Upper Sideband",
    0x02 := "Continuous Wave",
    0x03 := "Continuous Wave LSB",
    0x04 := "Amplitude Modulation",
    0x08 := "Frequency Modulation",
    0x82 := "Continuous Wave Narrow",
    0x83 := "Continuous Wave LSB Narrow",
    0x84 := "Amplitude Modulation Narrow",
    0x88 := "Frequency Modulation Narrow"
  ]

  /** The labels of the mode table. */
  const ModeLabels: set<string> := Modes.Values

  /** The codes of the mode table. */
  lemma ModeCodes()
    ensures Modes.Keys == {0x00, 0x01, 0x02, 0x03, 0x04, 0x08, 0x82, 0x83, 0x84, 0x88}
  {
  }

  /** The mode table has ten codes. */
  lemma ModeCount()
    ensures |Modes.Keys| == 10
  {
    ModeCodes();
    var k2: set<byte> := {0x00, 0x01};
    var k4 := k2 + {0x02, 0x03};
    var k6 := k4 + {0x04, 0x08};
    var k8 := k6 + {0x82, 0x83};
    var k10 := k8 + {0x84, 0x88};
    assert |k2| == 2;
    assert |k4| == 4 by { assert k2 !! {0x02, 0x03}; }
    assert |k6| == 6 by { assert k4 !! {0x04, 0x08}; }
    assert |k8| == 8 by { assert k6 !! {0x82, 0x83}; }
    assert |k10| == 10 by { assert k8 !! {0x84, 0x88}; }
    assert Modes.Keys == k10;
  }

  /**
   * The code a label stands for: the mode table read backwards, 0xff for a
   * string that is no label.
   */
  function LabelCode(name: string): byte {
    if name == "Lower Sideband" then 0x00
    else if name == "Upper Sideband" then 0x01
    else if name == "Continuous Wave" then 0x02
    else if name == "Continuous Wave LSB" then 0x03
    else if name == "Amplitude Modulation" then 0x04
    else if name == "Frequency Modulation" then 0x08
    else if name == "Continuous Wave Narrow" then 0x82
    else if name == "Continuous Wave LSB Narrow" then 0x83
    else if name == "Amplitude Modulation Narrow" then 0x84
    else if name == "Frequency Modulation Narrow" then 0x88
    else 0xff
  }

  /**
   * The mode table has ten codes with ten different labels, so the label
   * shown identifies the mode byte.
   */
  lemma ModesDistinct()
    ensures |Modes.Keys| == 10
    ensures forall a, b :: a in Modes && b in Modes && Modes[a] == Modes[b] ==> a == b
  {
    ModeCount();
    LabelCodeInverse();
  }

  /** Reading a code's label backwards gives the code. */
  lemma LabelCodeInverse()
    ensures forall b :: b in Modes ==> LabelCode(Modes[b]) == b
  {
    ModeCodes();
    assert LabelCode("Lower Sideband") == 0x00;
    assert LabelCode("Upper Sideband") == 0x01;
    assert LabelCode("Continuous Wave") == 0x02;
    assert LabelCode("Continuous Wave LSB") == 0x03;
    assert LabelCode("Amplitude Modulation") == 0x04;
    assert LabelCode("Frequency Modulation") == 0x08;
    assert LabelCode("Continuous Wave Narrow") == 0x82;
    assert LabelCode("Continuous Wave LSB Narrow") == 0x83;
    assert LabelCode("Amplitude Modulation Narrow") == 0x84;
    assert LabelCode("Frequency Modulation Narrow") == 0x88;
  }

  /** The frames the GB3TS repeater macro writes, in order. */
  const Gb3tsFrames: seq<Frame> := [CmdGb3ts, CmdSetFmn, CmdSetCtcss, CmdSetRptShift]

  /** The frames the GB3NT repeater macro writes, in order. */
  const Gb3ntFrames: seq<Frame> := [CmdGb3nt, CmdSetFmn, CmdSetCtcss, CmdSetTone, CmdSetRptShift]
}
