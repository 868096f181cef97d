/**
 * The rudder node's CAN traffic as functions of its state (SendAndReceiveEcan,
 * Code/Rudder_Subsystem/clib/ecanRudder.c:207-259): what each received frame changes, and which
 * frames the senders due in a timestep transmit.
 */
module RudderBus {
  import opened CanTypes
  import opened MessageScheduler
  import opened RudderCalibration
  import opened RudderFrames

  /** NMEA 2000 parameter group number of the rudder message. */
  const PGN_RUDDER: nat := 127245

  /** Identifiers defined in headers that are not part of this model. */
  datatype RudderConfig = RudderConfig(nodeId: uint8, setStateId: nat, setTxRateId: nat)

  /**
   * The identifier decoder, and the PGN 127245 decoder as the rudder node calls it, whose output
   * argument 3 (mask bit 3) is the commanded rudder angle.
   */
  datatype RudderCodecs = RudderCodecs(pgnOf: nat -> nat, pgn127245: Payload -> Parsed<real>)

  /**
   * The struct RudderSensorData. The temperature is held as the hundredths of a kelvin the
   * temperature sender computes from it; that floating-point conversion is not modelled.
   */
  datatype Readings = Readings(starLimit: bool, portLimit: bool, potValue: uint16,
                               positionAngle: real, commandedAngle: real, centiKelvin: bv16)

  const INITIAL_READINGS := Readings(false, false, 0, 0.0, 0.0, 0)

  /** Everything the node's CAN code reads or writes. */
  datatype NodeState = NodeState(cal: CalData, readings: Readings, sched: Registry)

  /** What RudderCalibrate reads of the readings. */
  function InputsOf(r: Readings): Inputs
  {
    Inputs(r.starLimit, r.portLimit, r.potValue, r.positionAngle)
  }

  // ---- Receiving ----

  /**
   * One received frame: SET_STATE may start a calibration, SET_TX_RATE changes two rates, and any
   * other frame whose identifier decodes to PGN 127245 may carry a commanded angle.
   */
  function OnFrame(st: NodeState, f: Frame, cfg: RudderConfig, c: RudderCodecs): NodeState
  {
    var p := f.payload;
    if f.id == cfg.setStateId then
      st.(cal := SetState(st.cal, p[0]))
    else if f.id == cfg.setTxRateId then
      st.(sched := UpdateRates(st.sched, p[0] as uint8, p[1] as uint8))
    else if c.pgnOf(f.id) == PGN_RUDDER then
      var r := c.pgn127245(p);
      st.(readings := st.readings.(commandedAngle := Keep(r.mask, 3, r.out, st.readings.commandedAngle)))
    else
      st
  }

  /** The frames of a queue handled in order. */
  function ReceiveAll(st: NodeState, frames: seq<Frame>, cfg: RudderConfig, c: RudderCodecs): NodeState
    decreases |frames|
  {
    if frames == [] then st
    else OnFrame(ReceiveAll(st, frames[..|frames| - 1], cfg, c), frames[|frames| - 1], cfg, c)
  }

  /** A SET_STATE frame starts a run exactly when bit 0 of its first byte is set and no run is in progress. */
  lemma SetStateFrame(st: NodeState, f: Frame, cfg: RudderConfig, c: RudderCodecs)
    requires f.id == cfg.setStateId
    ensures var r := OnFrame(st, f, cfg, c);
      && (r.cal.state == Init <==> (f.payload[0] & 1 == 1 && !st.cal.calibrating) || st.cal.state == Init)
      && (!(f.payload[0] & 1 == 1 && !st.cal.calibrating) ==> r == st)
      && r == st.(cal := r.cal) && r.cal == st.cal.(state := r.cal.state)
  {
  }

  /** A SET_TX_RATE frame hands its first two bytes to the rate-change command and changes nothing else. */
  lemma SetTxRateFrame(st: NodeState, f: Frame, cfg: RudderConfig, c: RudderCodecs)
    requires f.id == cfg.setTxRateId && f.id != cfg.setStateId
    ensures OnFrame(st, f, cfg, c) == st.(sched := UpdateRates(st.sched, f.payload[0] as uint8, f.payload[1] as uint8))
  {
  }

  /** A rudder command frame takes the commanded angle only when the decoder reports it, and nothing else. */
  lemma RudderCommandFrame(st: NodeState, f: Frame, cfg: RudderConfig, c: RudderCodecs)
    requires f.id != cfg.setStateId && f.id != cfg.setTxRateId && c.pgnOf(f.id) == PGN_RUDDER
    ensures var r := OnFrame(st, f, cfg, c); var d := c.pgn127245(f.payload);
      && r == st.(readings := r.readings) && r.readings == st.readings.(commandedAngle := r.readings.commandedAngle)
      && (Bit(d.mask, 3) ==> r.readings.commandedAngle == d.out)
      && (!Bit(d.mask, 3) ==> r == st)
  {
  }

  /** While a calibration runs, no sequence of frames alters the calibration data. */
  lemma {:induction false} RunIsNotInterrupted(st: NodeState, frames: seq<Frame>, cfg: RudderConfig, c: RudderCodecs)
    requires st.cal.calibrating
    ensures ReceiveAll(st, frames, cfg, c).cal == st.cal
    decreases |frames|
  {
    if frames != [] {
      RunIsNotInterrupted(st, frames[..|frames| - 1], cfg, c);
    }
  }

  /** One frame keeps the calibration data consistent and the registry within the scheduler's table. */
  lemma FrameKeepsInvariants(st: NodeState, f: Frame, cfg: RudderConfig, c: RudderCodecs)
    requires Consistent(st.cal) && Fits(st.sched)
    ensures var r := OnFrame(st, f, cfg, c);
      Consistent(r.cal) && Fits(r.sched)
  {
    if f.id == cfg.setStateId {
      SetStateKeepsConsistent(st.cal, f.payload[0]);
    } else if f.id == cfg.setTxRateId {
      UpdateKeepsFits(st.sched, f.payload[0] as uint8, f.payload[1] as uint8);
    }
  }

  /** Receiving keeps the calibration data consistent and the registry within the scheduler's table. */
  lemma {:induction false} ReceiveKeepsInvariants(st: NodeState, frames: seq<Frame>, cfg: RudderConfig, c: RudderCodecs)
    requires Consistent(st.cal) && Fits(st.sched)
    ensures var r := ReceiveAll(st, frames, cfg, c);
      Consistent(r.cal) && Fits(r.sched)
    decreases |frames|
  {
    if frames != [] {
      var init := frames[..|frames| - 1];
      var f := frames[|frames| - 1];
      ReceiveKeepsInvariants(st, init, cfg, c);
      FrameKeepsInvariants(ReceiveAll(st, init, cfg, c), f, cfg, c);
    }
  }

  // ---- Transmitting ----

  /** The frames transmitted for one scheduler id: the temperature sender builds its payload but sends nothing. */
  function SendFor(id: uint8, st: NodeState, cfg: RudderConfig): seq<OutFrame>
  {
    var r, d := st.readings, st.cal;
    if id == SCHED_ID_CUSTOM_LIMITS then
      [RudderDetailsFrame(r.potValue, d.portLimitValue, d.starLimitValue, r.portLimit, r.starLimit, true, d.calibrated, d.calibrating)]
    else if id == SCHED_ID_RUDDER_ANGLE then
      [RudderAngleFrame(cfg.nodeId, 0xFF, 0xF, 0.0, r.positionAngle)]
    else if id == SCHED_ID_TEMPERATURE then
      []
    else if id == SCHED_ID_STATUS then
      [StatusFrame(cfg.nodeId, StatusWord(r.portLimit, r.starLimit, d.calibrated, d.calibrating), 0)]
    else
      []
  }

  /** The frames transmitted for the ids due in a timestep, in the order the scheduler returns them. */
  function Outbox(due: seq<uint8>, st: NodeState, cfg: RudderConfig): seq<OutFrame>
    decreases |due|
  {
    if due == [] then []
    else Outbox(due[..|due| - 1], st, cfg) + SendFor(due[|due| - 1], st, cfg)
  }

  /** The ids whose sender transmits. */
  predicate Transmits(id: uint8)
  {
    id in {SCHED_ID_RUDDER_ANGLE, SCHED_ID_CUSTOM_LIMITS, SCHED_ID_STATUS}
  }

  /** Every id gives at most one frame: one for the angle, limits and status ids, none for the others. */
  lemma SendForCount(id: uint8, st: NodeState, cfg: RudderConfig)
    ensures |SendFor(id, st, cfg)| == if Transmits(id) then 1 else 0
  {
  }

  /** The outbox of two runs of due ids is the two outboxes one after the other. */
  lemma {:induction false} OutboxAppend(a: seq<uint8>, b: seq<uint8>, st: NodeState, cfg: RudderConfig)
    ensures Outbox(a + b, st, cfg) == Outbox(a, st, cfg) + Outbox(b, st, cfg)
    decreases |b|
  {
    if b == [] {
      assert a + b == a;
    } else {
      var init := b[..|b| - 1];
      assert (a + b)[..|a + b| - 1] == a + init;
      OutboxAppend(a, init, st, cfg);
    }
  }

  /** The number of due ids whose sender transmits. */
  function CountTransmitting(due: seq<uint8>): nat
    decreases |due|
  {
    if due == [] then 0
    else CountTransmitting(due[..|due| - 1]) + (if Transmits(due[|due| - 1]) then 1 else 0)
  }

  /** One frame per transmitting due id, and none for the temperature id or an id with no sender. */
  lemma {:induction false} OutboxCount(due: seq<uint8>, st: NodeState, cfg: RudderConfig)
    ensures |Outbox(due, st, cfg)| == CountTransmitting(due)
    ensures (forall k :: 0 <= k < |due| ==> !Transmits(due[k])) ==> Outbox(due, st, cfg) == []
    decreases |due|
  {
    if due != [] {
      OutboxCount(due[..|due| - 1], st, cfg);
      SendForCount(due[|due| - 1], st, cfg);
    }
  }

  /** The STATUS frame reports the limit switches and calibration flags, and no errors. */
  lemma StatusFrameReports(st: NodeState, cfg: RudderConfig)
    ensures var fs := SendFor(SCHED_ID_STATUS, st, cfg);
      && |fs| == 1 && fs[0].StatusFrame? && fs[0].node == cfg.nodeId && fs[0].errors == 0
      && DecodeStatus(fs[0].status) == StatusFlags(st.readings.portLimit, st.readings.starLimit,
                                                   st.cal.calibrated, st.cal.calibrating)
  {
    StatusWordRoundTrip(st.readings.portLimit, st.readings.starLimit, st.cal.calibrated, st.cal.calibrating);
  }
}
