# FT-847 CAT monitor core in Dafny

This project models the protocol core of `ft847.py`, the `FT847` class through which the monitor talks to a Yaesu FT-847 transceiver over its CAT (computer aided transceiver) serial interface. The model covers:

- the constant command table: every command is a fixed five-byte frame, and the ten-entry mode table maps the fifth byte of a frequency response to a label;
- `read_frequency`: the four frequency bytes are printed as eight lower-case hex digits. A walk with a `carry` flag blanks the leading `'0'` digits, copies every later digit and folds it into `h = h * 10 + int(digit, 16)`. The display frequency is that walk's text plus a trailing `'0'`, the accumulator is stored, the band plan is consulted, and the mode is looked up;
- `read_rx_status`: the status byte is split into squelch, CTCSS/DCS, discriminator and a five-bit S-meter level;
- `get_s_meter_string`: the S reading in half S-units below S9, S9 plus 5 dB per level above 19, and a 31-cell bar;
- the frequency line of `get_trx_state_string`: the display frequency is read back with `int()`, printed with `%09d`, falls back to `"999999999"`, and is shown as `ddd.ddd.ddd`;
- the `gb3ts` and `gb3nt` repeater macros: each writes a fixed, ordered list of frames.

Modules:

- `Text`: what the model needs of Python strings. This covers `"x" * k`, decimal printing and zero padding (`%d`, `%0Nd`). It also covers `int()` on a string, limited to surrounding spaces and ASCII digits.
- `CatProtocol`: bytes, the five-byte `Frame` type, the `CMD_*` frames, `MODES`, and the two macro frame lists.
- `FrequencyDecode`: the hex printing, and the digit walk as a method (`WalkDigits`) proved against the specification functions `FrequencyDisplay` and `Accumulator`. It also proves the properties of those functions, including a round trip from packed BCD bytes.
- `RxStatus`: the status byte decoding, with its inverse.
- `SMeter`: `get_s_meter_string` as a function, with lemmas about the shape of its text.
- `FrequencyText`: the `freq1`/`freq2` computation (ft847.py:204-211).
- `Transceiver`: the instance state as a datatype, and the effect of each query as a function of the old state and the bytes read. The class `Ft847` has the source's fields and a trace of the frames written, and each of its methods is proved to match those functions.

Python 3 semantics are followed throughout:

- Indexing `bytes` gives an `int`, so `ord(resp[0])` always raises inside `read_rx_status`. The handler's fallback `resp[0]` is what takes effect, and that index fails too when nothing was read, which leaves byte 0.
- `"%02x"` prints lower-case hex.
- `int()` strips surrounding whitespace.
- `s_half /= 2` is a true division, so `"%02.1f"` shows a whole or half step.

Where the code and its documentation differ, the model follows the code:

- Hex letters are accepted. A nibble above 9 in a frequency response is folded into the accumulator as 10-15 and is not treated as an error.
- The accumulator `_frequencyint` holds `h`. When every nibble is 0-9, the display string reads as `10 * h`, because of the trailing `'0'`. With a nibble a-f the display string is not an integer, and the frequency line shows `"999.999.999"`.
- The S-meter mask is `0b00011111`. The level is five bits wide (0..31), although the docstring speaks of bits 3-0.
- Bit 5 set means the discriminator is off centre, and the field is then `False`. A byte such as `0b10010110` has bit 5 clear, so it decodes as discriminator `True`.
- The `errormessage = ...` statements in the exception handlers bind a local variable, so the class attribute keeps its value. The model carries that attribute and proves every operation leaves it unchanged.
- A frequency response of exactly four bytes runs lines 99-102. The lookup `resp[4]` then fails, so the mode is kept, exactly as for an unknown mode byte.

## Model

| member | source | states |
|---|---|---|
| CatProtocol.ModesDistinct | ft847.py:28-38 | the mode table has ten codes and no two codes share a label, so the label shown identifies the mode byte |
| FrequencyDecode.HexValue | ft847.py:97 | `int(c, 16)` of a hex digit is below 16, is 0 exactly for '0', is below 10 exactly for a decimal digit, and then equals its decimal value |
| FrequencyDecode.HexString | ft847.py:86-87 | `"%02x%02x%02x%02x"` gives two lower-case hex digits per byte |
| FrequencyDecode.HexStringFour | ft847.py:87 | four bytes print as their eight nibbles, high nibble first |
| FrequencyDecode.HexFold | ft847.py:96-97 | the fold `h = h * 10 + int(c, 16)` is positive once the digits start with a non-zero one, and on decimal digits it is their decimal value |
| FrequencyDecode.Accumulator | ft847.py:90-100 | `_frequencyint` is 0 exactly when all digits are '0', and on decimal digits it is their value, leading zeros included |
| FrequencyDecode.FrequencyDisplay | ft847.py:88-99 | the display frequency has length 9 and ends in '0'; its first eight characters are spaces exactly at the leading '0' digits of the hex string and copies of it everywhere after, interior zeros included |
| FrequencyDecode.WalkDigits | ft847.py:83-98 | the carry-flag loop builds exactly the blanked digit string and the accumulator fold over the digits after the leading zeros |
| FrequencyDecode.AccumulatorZero | ft847.py:88-100 | the accumulator is 0 exactly when all eight digits are '0', and then the display is "        0" |
| FrequencyDecode.DisplayParses | ft847.py:97-100 | the display string reads as an integer exactly when every nibble is 0-9, and its value is then 10 times the accumulator |
| FrequencyDecode.HexStringOfPacked | ft847.py:86-87 | hex printing of packed BCD bytes gives back the decimal digits |
| FrequencyDecode.FrequencyRoundTrip | ft847.py:86-100 | for every h below 10^8, the BCD bytes of h decode to accumulator h and to a display string worth 10 * h |
| RxStatus.ResponseByte | ft847.py:123-136 | the decoded byte is the first byte read, or 0 when the read returned nothing |
| RxStatus.DecodeStatus | ft847.py:139-142 | the S-meter field is the five low bits, always below 32 |
| RxStatus.DecodeEncode | ft847.py:139-142 | every status with a level in 0..31 is decoded back from its byte |
| RxStatus.EncodeDecode | ft847.py:139-142 | the four decoded fields determine the status byte |
| RxStatus.EmptyReadStatus | ft847.py:124-142 | an empty read gives squelch False, CTCSS/DCS False, discriminator True, level 0 |
| SMeter.SMeterString | ft847.py:153-171 | an argument that `int()` rejects, such as the initial "", gives "" |
| SMeter.HalfStepText | ft847.py:158-160 | `"%02.1f"` of n/2 is the whole part n/2 in digits, a '.', and '5' exactly when n is odd ('0' otherwise); three characters below 20 half steps |
| SMeter.BelowNineHead | ft847.py:157-161 | below level 19 the reading is "S" d "." t and four spaces, eight characters, with d.t equal to level-1 half steps (0 at level 0) |
| SMeter.OverNineHead | ft847.py:162-166 | from level 19 to 31 the reading is "S9  +", 5*(level-19) as two zero-padded digits, and a space, eight characters |
| SMeter.LevelText | ft847.py:157-171 | for level 0..31 the text is 39 characters: the eight-character reading followed by the 31-cell bar |
| SMeter.SMeterHead | ft847.py:157-171 | the text is 39 characters and its tail from position 8 is the bar |
| SMeter.SMeterBar | ft847.py:161-171 | bar cell k is '\|' below min(level, 19), 'I' from 19 up to the level, '.' from the level on |
| SMeter.SMeterBarCounts | ft847.py:161-171 | the bar holds min(level,19) '\|', max(0,level-19) 'I' and 31-level '.', 31 cells in all |
| SMeter.SMeterMonotone | ft847.py:161-171 | a cell marked at a lower level stays marked at every higher level |
| SMeter.SMeterBelowNine | ft847.py:157-161 | below level 19 the text reads "S" d "." t and four spaces, where d.t is (level-1)/2 in half steps, or 0 for level 0 |
| SMeter.SMeterOverNine | ft847.py:162-166 | from level 19 on the text starts "S9  +", then 5*(level-19) as two zero-padded digits and a space |
| Text.ParseInt | ft847.py:205-211 | `int()` of a plain run of digits is its value; a blank string, or one holding any character other than a space or a digit, raises |
| FrequencyText.Reformat3 | ft847.py:211 | `"%03d" % int(x)` has at least three digits with the value of x, and is x itself when x has three digits |
| FrequencyText.PadOrFallback | ft847.py:204-208 | freq1 is at least nine digits, and "999999999" when `int()` raised |
| FrequencyText.PaddedFrequency | ft847.py:204-208 | freq1 for a display string is all digits and at least nine long, "999999999" when it does not parse |
| FrequencyText.PaddedFrequencyValue | ft847.py:205 | a value below 10^9 pads to exactly nine digits that denote it |
| FrequencyText.GroupFrequency | ft847.py:211 | re-reading each three-digit slice with `int()` and printing it with `%03d` gives the slice back, so freq2 is freq1's first nine digits in three dotted groups |
| FrequencyText.ReformatSlice | ft847.py:211 | a three-digit slice read with `int()` and printed with `%03d` comes back unchanged, leading zeros included |
| FrequencyText.GroupedDigits | ft847.py:211 | freq2 has length 11 with dots at positions 3 and 7, and its digits are freq1's first nine |
| FrequencyText.FallbackLine | ft847.py:207-211 | the fallback freq1 shows as "999.999.999" |
| FrequencyText.LineShape | ft847.py:204-211 | for any display string freq2 is eleven characters with dots at 3 and 7 and digits elsewhere, "999.999.999" when `int()` raises |
| FrequencyText.FrequencyLine | ft847.py:204-211 | the frequency line is always ddd.ddd.ddd, and "999.999.999" when the display string is not an integer |
| FrequencyText.FrequencyLineValue | ft847.py:204-211 | for a display value below 10^9 the nine digits of the line denote that value |
| FrequencyText.DecodedFrequencyLine | ft847.py:204-211 | for a decoded response the line's digits denote 10 times the accumulator when all nibbles are decimal, and the line is "999.999.999" otherwise |
| Transceiver.NextMode | ft847.py:103-108 | when a fifth byte is present and is a key of the table the mode becomes its label; when it is missing or unknown the lookup's exception is swallowed and the old mode stays |
| Transceiver.DecodeFrequency | ft847.py:86-100 | the walk over the first four bytes yields the display frequency and the accumulator of their hex string |
| Transceiver.AfterReadFrequency | ft847.py:65-110 | a frequency read never changes the error attribute or the status fields; with fewer than four bytes nothing changes; the mode changes only when a fifth byte is a key of the table |
| Transceiver.UnknownModeResponse | ft847.py:99-108 | four or more bytes with a missing or unknown fifth byte still set the display, the accumulator, and the band and wavelength of the accumulator, and keep the old mode |
| Transceiver.KnownModeResponse | ft847.py:99-103 | a known fifth byte sets the mode to its label, along with the display, the accumulator, the band and the wavelength |
| Transceiver.AfterReadRxStatus | ft847.py:112-142 | a status read changes only the four status fields, never the error attribute, and always leaves a level in 0..31 |
| Transceiver.View | ft847.py:197-212 | the displayed frequency line is the `freq2` of the display frequency: eleven characters, dots at 3 and 7, digits elsewhere; the S-meter text is "" before a reading and 39 characters after one; the band-plan signal is looked up with the padded digits `freq1` |
| Transceiver.InitialView | ft847.py:52-60 | the initial state is consistent and shows "999.999.999" with no S-meter text |
| Transceiver.ReadFrequencyConsistent | ft847.py:99-103 | a frequency read keeps the display 9 characters ending in '0' and the mode a table label |
| Transceiver.ReadRxStatusConsistent | ft847.py:139-142 | a status read keeps the state consistent |
| Transceiver.ZeroResponse | ft847.py:86-101 | four zero bytes store accumulator 0, display "        0", and the band of 0 |
| Transceiver.BcdResponse | ft847.py:86-102 | BCD bytes of h store h, a display worth 10*h, the band and wavelength of h, and a frequency line whose digits denote 10*h |
| Transceiver.HexLetterResponse | ft847.py:97-100 | a nibble above 9 is still folded into the accumulator, but the display does not parse and the line shows "999.999.999" |
| Transceiver.StatusResponse | ft847.py:139-142 | after a status read the fields encode back to the byte, and the S-meter bar's marks count the level |
| Transceiver.Ft847.constructor | ft847.py:50-60 | the fields start as `__init__` sets them and nothing has been written |
| Transceiver.Ft847.ReadFrequency | ft847.py:65-110 | writes CMD_READ_FREQ, and the new state is AfterReadFrequency of the old state |
| Transceiver.Ft847.Store | ft847.py:99-103 | sets display, accumulator, band, wavelength and mode, and nothing else |
| Transceiver.Ft847.ReadRxStatus | ft847.py:112-142 | writes CMD_READ_RX_STATUS, and the new state is AfterReadRxStatus of the old state |
| Transceiver.Ft847.Gb3ts | ft847.py:221-232 | writes CMD_GB3TS, CMD_SET_FMN, CMD_SET_CTCSS, CMD_SET_RPT_SHIFT in that order, and changes no state |
| Transceiver.Ft847.Gb3nt | ft847.py:234-248 | writes CMD_GB3NT, CMD_SET_FMN, CMD_SET_CTCSS, CMD_SET_TONE, CMD_SET_RPT_SHIFT in that order, and changes no state |

## Left out

- Serial transport is not modelled: opening the port, the buffer resets, the `inWaiting` polling loop with its one-second timeout, and `time.sleep` (ft847.py:51, 70-81). A read is the byte sequence it returns, passed to the method. A write is an entry in the `written` trace.
- The half-second pauses between macro frames (ft847.py:224-246) are timing only; the model keeps only the order of the frames.
- The band-plan module `bandplans_uk` is not part of this model. `checkfrequency`, `whatband` and `signalonfrequency` are uninterpreted functions held in a `BandPlan` value.
- BandPlan: the model assumes the three band-plan calls return normally. In the source `checkfrequency` and `whatband` run inside the `try` of `read_frequency` after `_frequency` and `_frequencyint` are assigned (ft847.py:99-102), so a raise there would leave those two fields new and `_bandplan`, `_wavelength` and `_mode` old. `signalonfrequency` (ft847.py:212) runs outside any `try`, so a raise there would propagate out of `get_trx_state_string`. Neither case is modelled.
- The ANSI colour strings, the `%11s`/`%-27s` column layout and the `split` into lines of `get_trx_state_string` (ft847.py:201-203, 212-214) are presentation. `View` keeps only the values laid out.
- The traceback-based message text in the handlers (ft847.py:105-107, 128-130, 191-193) only sets a local variable. Its content is not modelled; that the attribute is untouched is.
- The class-level invariant is stated on the state datatype: `Consistent`, proved for the initial state and preserved by both reads. It is not repeated as a predicate on the object, whose methods are proved equal to the state functions instead.
- ParseInt: Python's `int()` also accepts a sign, underscores between digits, non-ASCII digits and other whitespace. The model accepts only surrounding spaces and ASCII digits. A display frequency or a digit slice never contains anything else.
- SMeter.HalfStepText: `"%02.1f"` is modelled for the non-negative halves it receives. Whole and half steps print exactly, so no floating point is involved.
- trx_monitor.py is not part of this model. It holds the terminal drawing, the endless polling loop and keyboard-interrupt handling.
- The `CMD_CAT_ON` frame is defined but never written; the write that would send it is commented out in the source.
