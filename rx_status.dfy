/**
 * The receiver status byte (ft847.py:112-142): bit 7 squelch closed, bit 6
 * CTCSS/DCS code unmatched, bit 5 discriminator off centre, and the S-meter
 * in the low five bits (the code masks with 0b00011111, so bit 4 is part of
 * the reading and the level runs 0..31).
 */
module RxStatus {
  import opened CatProtocol

  datatype Status = Status(squelch: bool, ctcssDcs: bool, discriminator: bool, sMeter: nat)

  /**
   * The byte read_rx_status decodes (ft847.py:123-136): the first byte read,
   * or 0 when the read returned nothing (both attempts to index it fail).
   */
  function ResponseByte(resp: seq<byte>): (b: byte)
    ensures |resp| > 0 ==> b == resp[0]
    ensures |resp| == 0 ==> b == 0
  {
    if |resp| > 0 then resp[0] else 0
  }

  /**
   * ft847.py:139-142, with `b & 0B10000000`, `b & 0B01000000`, `b & 0B00100000`
   * and `b & 0b00011111` written as division and remainder on 0..255.
   */
  function DecodeStatus(b: byte): (s: Status)
    ensures s.sMeter < 32
  {
    Status(b / 128 == 1, (b / 64) % 2 == 1, (b / 32) % 2 == 0, b % 32)
  }

  /** The status byte the radio sends for s: the inverse of DecodeStatus. */
  function EncodeStatus(s: Status): (b: byte)
    requires s.sMeter < 32
  {
    (if s.squelch then 128 else 0)
    + (if s.ctcssDcs then 64 else 0)
    + (if s.discriminator then 0 else 32)
    + s.sMeter
  }

  /** Every status with a level in 0..31 survives encoding and decoding. */
  lemma DecodeEncode(s: Status)
    requires s.sMeter < 32
    ensures DecodeStatus(EncodeStatus(s)) == s
  {
  }

  /** Decoding loses nothing: the four fields determine the byte. */
  lemma EncodeDecode(b: byte)
    ensures EncodeStatus(DecodeStatus(b)) == b
  {
  }

  /** An empty read decodes as byte 0: squelch open, code matched, discriminator centred, level 0. */
  lemma EmptyReadStatus()
    ensures DecodeStatus(ResponseByte([])) == Status(false, false, true, 0)
  {
  }
}
