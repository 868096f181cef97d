/** Machine-width integers, CAN frames and the decoder result shape shared by both nodes. */
module CanTypes {

  type uint8 = x: int | 0 <= x < 0x100
  type int8 = x: int | -0x80 <= x < 0x80
  type uint16 = x: int | 0 <= x < 0x1_0000
  type int16 = x: int | -0x8000 <= x < 0x8000

  const UINT8_MAX: uint8 := 0xFF
  const INT8_MAX: int8 := 0x7F
  const UINT16_MAX: uint16 := 0xFFFF

  datatype Option<T> = None | Some(value: T)

  /** A CAN payload is always the eight bytes of the controller's buffer. */
  type Payload = s: seq<bv8> | |s| == 8 witness [0, 0, 0, 0, 0, 0, 0, 0]

  /** A received frame: `ext` is true for a 29-bit (NMEA 2000) identifier, false for a standard one. */
  datatype Frame = Frame(ext: bool, id: nat, payload: Payload)

  /**
   * What an NMEA 2000 `ParsePgn*` decoder hands back: the bit mask it returns and the values it
   * decoded. Bit i of the mask reports whether its i-th output argument was decoded, and only
   * the arguments whose bit is set are written by the decoder.
   */
  datatype Parsed<T> = Parsed(mask: bv8, out: T)

  /** True when bit `i` of `mask` is set. */
  predicate Bit(mask: bv8, i: nat)
    requires i < 8
  {
    mask & (1 as bv8 << i) != 0
  }

  /** True when every bit of `bits` is set in `mask` (the source's `(rv & bits) == bits`). */
  predicate HasAll(mask: bv8, bits: bv8)
  {
    mask & bits == bits
  }

  /** The value a decoder leaves in an output argument: the decoded one if its bit is set. */
  function Keep<T>(mask: bv8, i: nat, decoded: T, previous: T): (r: T)
    requires i < 8
    ensures Bit(mask, i) ==> r == decoded
    ensures !Bit(mask, i) ==> r == previous
  {
    if Bit(mask, i) then decoded else previous
  }

  /** The C cast of a `uint16_t` to `int16_t` (two's complement reinterpretation). */
  function AsInt16(v: uint16): (r: int16)
    ensures r % 0x1_0000 == v
    ensures v < 0x8000 ==> r == v
  {
    if v < 0x8000 then v else v - 0x1_0000
  }
}
