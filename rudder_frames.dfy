/**
 * What the rudder node puts on the bus: the STATUS word (Code/Rudder_Subsystem/clib/ecanRudder.c:196-201),
 * the environmental-parameters payload built for the temperature (175-185), and the logical
 * content of each frame its senders hand to the transmit buffer.
 */
module RudderFrames {
  import opened CanTypes

  function BitOf(b: bool): bv16
  {
    if b then 1 else 0
  }

  /** The STATUS word: calibrated at bit 0, calibrating at bit 1, starboard limit at bit 2, port limit at bit 3. */
  function StatusWord(portLimit: bool, starLimit: bool, calibrated: bool, calibrating: bool): bv16
  {
    (BitOf(portLimit) << 3) | (BitOf(starLimit) << 2) | (BitOf(calibrated) << 0) | (BitOf(calibrating) << 1)
  }

  /** Reads the four flags back out of a STATUS word. */
  datatype StatusFlags = StatusFlags(portLimit: bool, starLimit: bool, calibrated: bool, calibrating: bool)

  function DecodeStatus(w: bv16): StatusFlags
  {
    StatusFlags(w & 8 != 0, w & 4 != 0, w & 1 != 0, w & 2 != 0)
  }

  /** Every flag lands on its own bit, and every other bit of the word is clear. */
  lemma StatusWordRoundTrip(portLimit: bool, starLimit: bool, calibrated: bool, calibrating: bool)
    ensures var w := StatusWord(portLimit, starLimit, calibrated, calibrating);
      && DecodeStatus(w) == StatusFlags(portLimit, starLimit, calibrated, calibrating)
      && w & 0xFFF0 == 0
  {
  }

  /** Distinct flag combinations give distinct words. */
  lemma StatusWordInjective(a: StatusFlags, b: StatusFlags)
    requires StatusWord(a.portLimit, a.starLimit, a.calibrated, a.calibrating)
          == StatusWord(b.portLimit, b.starLimit, b.calibrated, b.calibrating)
    ensures a == b
  {
    StatusWordRoundTrip(a.portLimit, a.starLimit, a.calibrated, a.calibrating);
    StatusWordRoundTrip(b.portLimit, b.starLimit, b.calibrated, b.calibrating);
  }

  /** The byte that carries the temperature instance (bits 0-5) and the humidity instance (bits 6-7). */
  const INSTANCES: bv8 := 2 | (0x3 << 6)

  /**
   * The PGN 130311 payload built for a temperature already in hundredths of a kelvin: SID 0xFF,
   * the instances byte, the temperature little-endian, and humidity and pressure marked invalid.
   */
  function TemperaturePayload(centiKelvin: bv16): Payload
  {
    [0xFF, INSTANCES, (centiKelvin & 0xFF) as bv8, (centiKelvin >> 8) as bv8, 0xFF, 0xFF, 0xFF, 0xFF]
  }

  /** Reads the temperature back out of a payload. */
  function PayloadTemperature(p: Payload): bv16
  {
    (p[3] as bv16 << 8) | p[2] as bv16
  }

  /** The payload carries the temperature unchanged, low byte first. */
  lemma TemperatureRoundTrip(centiKelvin: bv16)
    ensures PayloadTemperature(TemperaturePayload(centiKelvin)) == centiKelvin
  {
  }

  /**
   * The payload says temperature instance 2 (inside) and humidity instance 3 (invalid), and marks
   * the SID, humidity and pressure bytes as not available.
   */
  lemma TemperatureLayout(centiKelvin: bv16)
    ensures var p := TemperaturePayload(centiKelvin);
      && p[1] & 0x3F == 2 && p[1] >> 6 == 3
      && p[0] == 0xFF && p[4] == 0xFF && p[5] == 0xFF && p[6] == 0xFF && p[7] == 0xFF
  {
  }

  /**
   * The logical content of each frame the rudder node transmits (the encoders that lay these out
   * in CAN frames are not part of this model).
   */
  datatype OutFrame =
    | RudderAngleFrame(node: uint8, instance: uint8, directionOrder: uint8, commanded: real, angle: real)
    | RudderDetailsFrame(potValue: uint16, portLimitValue: uint16, starLimitValue: uint16,
                         portLimit: bool, starLimit: bool, enabled: bool, calibrated: bool, calibrating: bool)
    | StatusFrame(node: uint8, status: bv16, errors: uint16)
}
