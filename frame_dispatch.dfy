/**
 * What one received frame does to the primary node's blackboard (the body of the receive loop of
 * ProcessAllEcanMessages, Code/Primary_node/EcanSensors.c:133-438), the GPS reassembler inside it,
 * and the effect of draining a whole queue of frames.
 */
module FrameDispatch {
  import opened CanTypes
  import opened Hysteresis
  import opened SensorStore

  // ---- GPS reassembler ----

  /** The check made before a completed bundle is published: a 2D or 3D fix away from (0, 0). */
  predicate FixUsable(fix: GpsFix, cfg: Config)
  {
    (fix.mode == cfg.mode2D || fix.mode == cfg.mode3D) && (fix.lat != 0.0 || fix.lon != 0.0)
  }

  /**
   * A fully valid GPS sub-message has arrived: a repeated part restarts the bundle with that part
   * alone; the part that completes the bundle publishes the fix if it is usable, and in any case
   * empties the received set.
   */
  function PartArrived(b: Board, part: GpsPart, cfg: Config): Board
  {
    var received := b.bundle.received;
    if part in received then
      b.(bundle := b.bundle.(received := {part}))
    else if received + {part} == ALL_PARTS then
      var cleared := b.(bundle := b.bundle.(received := {}));
      if FixUsable(b.bundle.fix, cfg) then
        cleared.(gps := GpsData(b.bundle.fix, b.gps.variation, true), avail := ResetActive(b.avail, Gps))
      else
        cleared
    else
      b.(bundle := b.bundle.(received := received + {part}))
  }

  /** PGN 129025: latitude and longitude (bits 0 and 1) into the accumulator. */
  function OnPosition(b: Board, r: Parsed<LatLon>, cfg: Config): Board
  {
    var fix := b.bundle.fix;
    var b1 := b.(avail := ResetEnabled(b.avail, Gps),
                 bundle := b.bundle.(fix := fix.(lat := Keep(r.mask, 0, r.out.lat, fix.lat),
                                                 lon := Keep(r.mask, 1, r.out.lon, fix.lon))));
    if HasAll(r.mask, 0x03) then PartArrived(b1, Position, cfg) else b1
  }

  /** PGN 129026: course and speed over ground (bits 2 and 3) into the accumulator. */
  function OnHeading(b: Board, r: Parsed<CogSog>, cfg: Config): Board
  {
    var fix := b.bundle.fix;
    var b1 := b.(avail := ResetEnabled(b.avail, Gps),
                 bundle := b.bundle.(fix := fix.(cog := Keep(r.mask, 2, r.out.cog, fix.cog),
                                                 sog := Keep(r.mask, 3, r.out.sog, fix.sog))));
    if HasAll(r.mask, 0x0C) then PartArrived(b1, Heading, cfg) else b1
  }

  /** PGN 129539: fix mode, HDOP and VDOP (bits 2, 3 and 4) into the accumulator. */
  function OnFixQuality(b: Board, r: Parsed<Dops>, cfg: Config): Board
  {
    var fix := b.bundle.fix;
    var b1 := b.(avail := ResetEnabled(b.avail, Gps),
                 bundle := b.bundle.(fix := fix.(mode := Keep(r.mask, 2, r.out.mode, fix.mode),
                                                 hdop := Keep(r.mask, 3, r.out.hdop, fix.hdop),
                                                 vdop := Keep(r.mask, 4, r.out.vdop, fix.vdop))));
    if HasAll(r.mask, 0x1C) then PartArrived(b1, FixQuality, cfg) else b1
  }

  // ---- Standard (proprietary) frames ----

  /** A STATUS frame: a node id in 1..NUM_NODES overwrites that node's entry and clears its counter. */
  function OnStatus(b: Board, s: StatusFields, cfg: Config): (r: Board)
    requires WellFormed(b)
    ensures WellFormed(r)
  {
    if 0 < s.node <= NUM_NODES then
      var i := s.node - 1;
      var b1 := b.(nodes := b.nodes[i := NodeStatus(s.load, s.temp, s.voltage, s.status, s.errors)],
                   nodeCounters := b.nodeCounters[i := 0]);
      if s.node == cfg.rcNode then
        var t := ResetEnabled(b.avail, RcNode);
        b1.(avail := if s.status % 2 == 1 then ResetActive(t, RcNode) else t)
      else
        b1
    else
      b
  }

  /** Both availability counters of a sensor cleared at once (the IMU and gyro frames). */
  function ResetBoth(t: SensorTable, s: Sensor): SensorTable
  {
    ResetActive(ResetEnabled(t, s), s)
  }

  /** ACS300 heartbeat: the drive is enabled; it is active unless its fault bit (0x40 of byte 6) is set. */
  function OnHeartbeat(b: Board, p: Payload, c: Codecs): Board
  {
    var t := ResetEnabled(b.avail, Prop);
    b.(avail := if p[6] & 0x40 == 0 then ResetActive(t, Prop) else t,
       throttle := ThrottleData(c.acs300Heartbeat(p), true))
  }

  /** ACS300 parameter write: only the throttle-command parameter is taken, reinterpreted as signed. */
  function OnWriteParam(b: Board, w: WriteParam, cfg: Config): Board
  {
    if w.address == cfg.acs300ParamCc then
      b.(commands := b.commands.(secondaryManualThrottle := AsInt16(w.value)))
    else
      b
  }

  /** Rudder details: the rudder is active only while enabled, calibrated and not calibrating. */
  function OnRudderDetails(b: Board, d: RudderDetails): Board
  {
    var t := ResetEnabled(b.avail, Rudder);
    b.(rudder := b.rudder.(details := d),
       avail := if d.enabled && d.calibrated && !d.calibrating then ResetActive(t, Rudder) else t)
  }

  /** The if/else table of standard-frame identifiers. */
  function DispatchStd(b: Board, f: Frame, cfg: Config, c: Codecs): (r: Board)
    requires WellFormed(b)
    ensures WellFormed(r)
  {
    var ids := cfg.ids;
    var p := f.payload;
    if f.id == ids.acs300Heartbeat then
      OnHeartbeat(b, p, c)
    else if f.id == ids.acs300WriteParam then
      OnWriteParam(b, c.acs300WriteParam(p), cfg)
    else if f.id == ids.status then
      OnStatus(b, c.status(p), cfg)
    else if f.id == ids.rudderDetails then
      OnRudderDetails(b, c.rudderDetails(p))
    else if f.id == ids.imuData then
      b.(avail := ResetBoth(b.avail, Imu), imu := b.imu.(attitude := c.imuData(p)))
    else if f.id == ids.gyroData then
      b.(avail := ResetBoth(b.avail, Gyro), gyro := GyroData(c.gyroData(p)))
    else if f.id == ids.angVelData then
      b.(avail := ResetBoth(b.avail, Imu), imu := b.imu.(angularVelocity := c.angVelData(p)))
    else if f.id == ids.accelData then
      b.(avail := ResetBoth(b.avail, Imu), imu := b.imu.(acceleration := c.accelData(p)))
    else if f.id == ids.gpsPosData then
      b.(avail := ResetBoth(b.avail, Imu), imu := b.imu.(position := c.gpsPosData(p)))
    else if f.id == ids.gpsEstPosData then
      b.(avail := ResetBoth(b.avail, Imu), imu := b.imu.(estimatedPosition := c.gpsPosData(p)))
    else if f.id == ids.gpsVelData then
      b.(avail := ResetBoth(b.avail, Imu), imu := b.imu.(velocity := c.gpsVelData(p)))
    else
      b
  }

  // ---- NMEA 2000 frames ----

  /** PGN 126992: the system time; a new time is announced only when all six parts decoded. */
  function OnSystemTime(b: Board, r: Parsed<DateTime>): Board
  {
    var t := ResetEnabled(b.avail, Gps);
    var old_ := b.dateTime.time;
    var time := DateTime(Keep(r.mask, 2, r.out.year, old_.year), Keep(r.mask, 3, r.out.month, old_.month),
                         Keep(r.mask, 4, r.out.day, old_.day), Keep(r.mask, 5, r.out.hour, old_.hour),
                         Keep(r.mask, 6, r.out.min, old_.min), Keep(r.mask, 7, r.out.sec, old_.sec));
    if HasAll(r.mask, 0xFC) then
      b.(avail := ResetActive(t, Gps), dateTime := DateTimeData(time, true))
    else
      b.(avail := t, dateTime := b.dateTime.(time := time))
  }

  /** PGN 127245: the commanded rudder angle (bit 2) and the measured one (bit 3); no availability change. */
  function OnRudder(b: Board, r: Parsed<RudderCommand>): Board
  {
    b.(commands := b.commands.(secondaryManualRudder := Keep(r.mask, 2, r.out.command, b.commands.secondaryManualRudder)),
       rudder := b.rudder.(angle := Keep(r.mask, 3, r.out.angle, b.rudder.angle)))
  }

  /** PGN 127258: the magnetic variation (bit 3) into the published GPS record. */
  function OnVariation(b: Board, r: Parsed<real>): Board
  {
    b.(gps := b.gps.(variation := Keep(r.mask, 3, r.out, b.gps.variation)))
  }

  /** PGN 127508: battery status; the power node counts as active when voltage and current decoded. */
  function OnBattery(b: Board, r: Parsed<Battery>): Board
  {
    var t := ResetEnabled(b.avail, Power);
    var power := b.power.(voltage := Keep(r.mask, 2, r.out.voltage, b.power.voltage),
                          current := Keep(r.mask, 3, r.out.current, b.power.current),
                          temperature := Keep(r.mask, 4, r.out.temperature, b.power.temperature));
    if HasAll(r.mask, 0x0C) then
      b.(avail := ResetActive(t, Power), power := power.(newData := true))
    else
      b.(avail := t, power := power)
  }

  /** PGN 128259: water speed; any decoded field counts as activity. */
  function OnSpeed(b: Board, r: Parsed<real>): Board
  {
    var t := ResetEnabled(b.avail, Dst800);
    var water := b.water.(speed := Keep(r.mask, 1, r.out, b.water.speed));
    if r.mask != 0 then
      b.(avail := ResetActive(t, Dst800), water := water.(newData := true))
    else
      b.(avail := t, water := water)
  }

  /** PGN 128267: water depth; only a decoded depth counts as activity. */
  function OnDepth(b: Board, r: Parsed<real>): Board
  {
    var t := ResetEnabled(b.avail, Dst800);
    var water := b.water.(depth := Keep(r.mask, 1, r.out, b.water.depth));
    if HasAll(r.mask, 0x02) then
      b.(avail := ResetActive(t, Dst800), water := water.(newData := true))
    else
      b.(avail := t, water := water)
  }

  /** PGN 130306: wind speed and direction. */
  function OnWind(b: Board, r: Parsed<Wind>): Board
  {
    var t := ResetEnabled(b.avail, Wso100);
    var wind := b.wind.(speed := Keep(r.mask, 1, r.out.speed, b.wind.speed),
                        direction := Keep(r.mask, 2, r.out.direction, b.wind.direction));
    if r.mask != 0 then
      b.(avail := ResetActive(t, Wso100), wind := wind.(newData := true))
    else
      b.(avail := t, wind := wind)
  }

  /** PGN 130310: water temperature; announces new data but is never evidence of activity. */
  function OnWaterTemperature(b: Board, r: Parsed<real>): Board
  {
    var t := ResetEnabled(b.avail, Dst800);
    var water := b.water.(temp := Keep(r.mask, 1, r.out, b.water.temp));
    if r.mask != 0 then
      b.(avail := t, water := water.(newData := true))
    else
      b.(avail := t, water := water)
  }

  /** PGN 130311: air temperature, humidity and pressure. */
  function OnAir(b: Board, r: Parsed<Air>): Board
  {
    var t := ResetEnabled(b.avail, Wso100);
    var air := b.air.(temp := Keep(r.mask, 3, r.out.temp, b.air.temp),
                      humidity := Keep(r.mask, 4, r.out.humidity, b.air.humidity),
                      pressure := Keep(r.mask, 5, r.out.pressure, b.air.pressure));
    if r.mask != 0 then
      b.(avail := ResetActive(t, Wso100), air := air.(newData := true))
    else
      b.(avail := t, air := air)
  }

  /** The switch on the parameter group number of an extended frame. */
  function DispatchPgn(b: Board, pgn: nat, p: Payload, cfg: Config, c: Codecs): (r: Board)
    requires WellFormed(b)
    ensures WellFormed(r)
  {
    if pgn == PGN_SYSTEM_TIME then
      OnSystemTime(b, c.pgn126992(p))
    else if pgn == PGN_RUDDER then
      OnRudder(b, c.pgn127245(p))
    else if pgn == PGN_BATTERY_STATUS then
      OnBattery(b, c.pgn127508(p))
    else if pgn == PGN_SPEED then
      OnSpeed(b, c.pgn128259(p))
    else if pgn == PGN_WATER_DEPTH then
      OnDepth(b, c.pgn128267(p))
    else if pgn == PGN_POSITION_RAP_UPD then
      OnPosition(b, c.pgn129025(p), cfg)
    else if pgn == PGN_COG_SOG_RAP_UPD then
      OnHeading(b, c.pgn129026(p), cfg)
    else if pgn == PGN_GNSS_DOPS then
      OnFixQuality(b, c.pgn129539(p), cfg)
    else if pgn == PGN_MAG_VARIATION then
      OnVariation(b, c.pgn127258(p))
    else if pgn == PGN_WIND_DATA then
      OnWind(b, c.pgn130306(p))
    else if pgn == PGN_ENV_PARAMETERS then
      OnWaterTemperature(b, c.pgn130310(p))
    else if pgn == PGN_ENV_PARAMETERS2 then
      OnAir(b, c.pgn130311(p))
    else
      b
  }

  /** One received frame: standard identifiers by table, extended ones by parameter group number. */
  function Dispatch(b: Board, f: Frame, cfg: Config, c: Codecs): (r: Board)
    requires WellFormed(b)
    ensures WellFormed(r)
  {
    if !f.ext then DispatchStd(b, f, cfg, c) else DispatchPgn(b, c.pgnOf(f.id), f.payload, cfg, c)
  }

  /** The frames of a queue handled in order. */
  function Drain(b: Board, frames: seq<Frame>, cfg: Config, c: Codecs): (r: Board)
    requires WellFormed(b)
    ensures WellFormed(r)
    decreases |frames|
  {
    if frames == [] then b
    else Dispatch(Drain(b, frames[..|frames| - 1], cfg, c), frames[|frames| - 1], cfg, c)
  }
}
