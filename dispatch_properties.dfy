/**
 * What the frame dispatcher promises: which availability counters a frame may clear (stated by an
 * independent table from frame to sensor), which fields each decoder's validity mask lets through,
 * and how the GPS reassembler's received set evolves.
 */
module DispatchProperties {
  import opened CanTypes
  import opened Hysteresis
  import opened SensorStore
  import opened FrameDispatch

  // ---- The evidence table ----

  /** The sensor a frame is evidence for, and whether it also counts as evidence of activity. */
  datatype Route = Route(sensor: Sensor, active: bool)

  /**
   * The availability effect of every frame, written as a table. `fix` is the GPS accumulator as the
   * frame leaves it, against which a completing sub-message is checked.
   */
  function RouteOf(b: Board, f: Frame, fix: GpsFix, cfg: Config, c: Codecs): Option<Route>
  {
    var ids := cfg.ids;
    var p := f.payload;
    if !f.ext then
      if f.id == ids.acs300Heartbeat then Some(Route(Prop, p[6] & 0x40 == 0))
      else if f.id == ids.acs300WriteParam then None
      else if f.id == ids.status then
        var s := c.status(p);
        if 0 < s.node <= NUM_NODES && s.node == cfg.rcNode then Some(Route(RcNode, s.status % 2 == 1)) else None
      else if f.id == ids.rudderDetails then
        var d := c.rudderDetails(p);
        Some(Route(Rudder, d.enabled && d.calibrated && !d.calibrating))
      else if f.id == ids.imuData then Some(Route(Imu, true))
      else if f.id == ids.gyroData then Some(Route(Gyro, true))
      else if f.id in {ids.angVelData, ids.accelData, ids.gpsPosData, ids.gpsEstPosData, ids.gpsVelData} then
        Some(Route(Imu, true))
      else None
    else
      var pgn := c.pgnOf(f.id);
      if pgn == PGN_SYSTEM_TIME then Some(Route(Gps, HasAll(c.pgn126992(p).mask, 0xFC)))
      else if pgn == PGN_BATTERY_STATUS then Some(Route(Power, HasAll(c.pgn127508(p).mask, 0x0C)))
      else if pgn == PGN_SPEED then Some(Route(Dst800, c.pgn128259(p).mask != 0))
      else if pgn == PGN_WATER_DEPTH then Some(Route(Dst800, HasAll(c.pgn128267(p).mask, 0x02)))
      else if pgn == PGN_POSITION_RAP_UPD then
        Some(Route(Gps, HasAll(c.pgn129025(p).mask, 0x03) && Completes(b.bundle.received, Position) && FixUsable(fix, cfg)))
      else if pgn == PGN_COG_SOG_RAP_UPD then
        Some(Route(Gps, HasAll(c.pgn129026(p).mask, 0x0C) && Completes(b.bundle.received, Heading) && FixUsable(fix, cfg)))
      else if pgn == PGN_GNSS_DOPS then
        Some(Route(Gps, HasAll(c.pgn129539(p).mask, 0x1C) && Completes(b.bundle.received, FixQuality) && FixUsable(fix, cfg)))
      else if pgn == PGN_WIND_DATA then Some(Route(Wso100, c.pgn130306(p).mask != 0))
      else if pgn == PGN_ENV_PARAMETERS then Some(Route(Dst800, false))
      else if pgn == PGN_ENV_PARAMETERS2 then Some(Route(Wso100, c.pgn130311(p).mask != 0))
      else None
  }

  /** A sub-message completes the bundle when it is new to it and the other two are already there. */
  predicate Completes(received: set<GpsPart>, part: GpsPart)
  {
    part !in received && received + {part} == ALL_PARTS
  }

  /** The entry of sensor `s` after a frame whose evidence is `route`. */
  function Expected(a: Availability, s: Sensor, route: Option<Route>): Availability
  {
    if route.Some? && route.value.sensor == s then
      Availability(Reset(a.enabled), if route.value.active then Reset(a.active) else a.active)
    else
      a
  }

  lemma PartArrivedAvail(b: Board, part: GpsPart, cfg: Config)
    ensures var r := PartArrived(b, part, cfg);
      r.bundle.fix == b.bundle.fix &&
      r.avail == (if Completes(b.bundle.received, part) && FixUsable(b.bundle.fix, cfg)
                  then ResetActive(b.avail, Gps) else b.avail)
  {
  }

  /**
   * Every frame clears the `enabled` counter of exactly the sensor the table names, its `active`
   * counter only under the table's rule, and touches no other availability entry and no flag.
   */
  lemma EvidenceRules(b: Board, f: Frame, cfg: Config, c: Codecs)
    requires WellFormed(b)
    ensures var r := Dispatch(b, f, cfg, c);
      var route := RouteOf(b, f, r.bundle.fix, cfg, c);
      forall s :: Get(r.avail, s) == Expected(Get(b.avail, s), s, route)
  {
    var r := Dispatch(b, f, cfg, c);
    var route := RouteOf(b, f, r.bundle.fix, cfg, c);
    if f.ext {
      var pgn := c.pgnOf(f.id);
      var p := f.payload;
      if pgn == PGN_POSITION_RAP_UPD {
        var rr := c.pgn129025(p);
        var fix := b.bundle.fix;
        var b1 := b.(avail := ResetEnabled(b.avail, Gps),
                     bundle := b.bundle.(fix := fix.(lat := Keep(rr.mask, 0, rr.out.lat, fix.lat),
                                                     lon := Keep(rr.mask, 1, rr.out.lon, fix.lon))));
        if HasAll(rr.mask, 0x03) { PartArrivedAvail(b1, Position, cfg); }
      } else if pgn == PGN_COG_SOG_RAP_UPD {
        var rr := c.pgn129026(p);
        var fix := b.bundle.fix;
        var b1 := b.(avail := ResetEnabled(b.avail, Gps),
                     bundle := b.bundle.(fix := fix.(cog := Keep(rr.mask, 2, rr.out.cog, fix.cog),
                                                     sog := Keep(rr.mask, 3, rr.out.sog, fix.sog))));
        if HasAll(rr.mask, 0x0C) { PartArrivedAvail(b1, Heading, cfg); }
      } else if pgn == PGN_GNSS_DOPS {
        var rr := c.pgn129539(p);
        var fix := b.bundle.fix;
        var b1 := b.(avail := ResetEnabled(b.avail, Gps),
                     bundle := b.bundle.(fix := fix.(mode := Keep(rr.mask, 2, rr.out.mode, fix.mode),
                                                     hdop := Keep(rr.mask, 3, rr.out.hdop, fix.hdop),
                                                     vdop := Keep(rr.mask, 4, rr.out.vdop, fix.vdop))));
        if HasAll(rr.mask, 0x1C) { PartArrivedAvail(b1, FixQuality, cfg); }
      }
    }
  }

  /** A frame never clears an `active` counter without clearing the same sensor's `enabled` counter. */
  lemma ActiveOnlyWithEnabled(b: Board, f: Frame, cfg: Config, c: Codecs, s: Sensor)
    requires WellFormed(b)
    requires Get(b.avail, s).active.counter != 0
    ensures var r := Dispatch(b, f, cfg, c);
      Get(r.avail, s).active.counter == 0 ==> Get(r.avail, s).enabled.counter == 0
  {
    EvidenceRules(b, f, cfg, c);
  }

  /** Frames only clear counters: no availability flag changes on reception. */
  lemma FramesKeepFlags(b: Board, f: Frame, cfg: Config, c: Codecs, s: Sensor)
    requires WellFormed(b)
    ensures var r := Dispatch(b, f, cfg, c);
      Get(r.avail, s).enabled.flag == Get(b.avail, s).enabled.flag &&
      Get(r.avail, s).active.flag == Get(b.avail, s).active.flag
  {
    EvidenceRules(b, f, cfg, c);
  }

  // ---- Frames that are not routed ----

  /** Whether the dispatcher has a case for the frame's identifier or parameter group number. */
  predicate Handled(f: Frame, cfg: Config, c: Codecs)
  {
    var ids := cfg.ids;
    if !f.ext then
      f.id in {ids.acs300Heartbeat, ids.acs300WriteParam, ids.status, ids.rudderDetails, ids.imuData,
               ids.gyroData, ids.angVelData, ids.accelData, ids.gpsPosData, ids.gpsEstPosData, ids.gpsVelData}
    else
      c.pgnOf(f.id) in {PGN_SYSTEM_TIME, PGN_RUDDER, PGN_MAG_VARIATION, PGN_BATTERY_STATUS, PGN_SPEED,
                        PGN_WATER_DEPTH, PGN_POSITION_RAP_UPD, PGN_COG_SOG_RAP_UPD, PGN_GNSS_DOPS,
                        PGN_WIND_DATA, PGN_ENV_PARAMETERS, PGN_ENV_PARAMETERS2}
  }

  /** Unknown identifiers and parameter group numbers change nothing. */
  lemma UnknownFrameIsIgnored(b: Board, f: Frame, cfg: Config, c: Codecs)
    requires WellFormed(b)
    requires !Handled(f, cfg, c)
    ensures Dispatch(b, f, cfg, c) == b
  {
  }

  /** A queue holding only unknown frames leaves the whole blackboard as it was. */
  lemma {:induction false} UnknownQueueIsIgnored(b: Board, frames: seq<Frame>, cfg: Config, c: Codecs)
    requires WellFormed(b)
    requires forall i :: 0 <= i < |frames| ==> !Handled(frames[i], cfg, c)
    ensures Drain(b, frames, cfg, c) == b
    decreases |frames|
  {
    if frames != [] {
      var init := frames[..|frames| - 1];
      UnknownQueueIsIgnored(b, init, cfg, c);
      UnknownFrameIsIgnored(b, frames[|frames| - 1], cfg, c);
    }
  }

  // ---- Per-decoder commit rules ----

  /** Battery status: each field written iff its bit is set; new data announced iff voltage and current decoded. */
  lemma BatteryFrame(b: Board, f: Frame, cfg: Config, c: Codecs)
    requires WellFormed(b)
    requires f.ext && c.pgnOf(f.id) == PGN_BATTERY_STATUS
    ensures var r := Dispatch(b, f, cfg, c); var d := c.pgn127508(f.payload);
      && (Bit(d.mask, 2) ==> r.power.voltage == d.out.voltage) && (!Bit(d.mask, 2) ==> r.power.voltage == b.power.voltage)
      && (Bit(d.mask, 3) ==> r.power.current == d.out.current) && (!Bit(d.mask, 3) ==> r.power.current == b.power.current)
      && (Bit(d.mask, 4) ==> r.power.temperature == d.out.temperature)
      && (!Bit(d.mask, 4) ==> r.power.temperature == b.power.temperature)
      && r.power.newData == (HasAll(d.mask, 0x0C) || b.power.newData)
      && r == b.(power := r.power, avail := r.avail)
  {
  }

  /** System time: each of the six fields is written under its own bit; all six decoded is the only way to announce a new time. */
  lemma SystemTimeFrame(b: Board, f: Frame, cfg: Config, c: Codecs)
    requires WellFormed(b)
    requires f.ext && c.pgnOf(f.id) == PGN_SYSTEM_TIME
    ensures var r := Dispatch(b, f, cfg, c); var d := c.pgn126992(f.payload);
      && (Bit(d.mask, 2) ==> r.dateTime.time.year == d.out.year)
      && (!Bit(d.mask, 2) ==> r.dateTime.time.year == b.dateTime.time.year)
      && (Bit(d.mask, 3) ==> r.dateTime.time.month == d.out.month)
      && (!Bit(d.mask, 3) ==> r.dateTime.time.month == b.dateTime.time.month)
      && (Bit(d.mask, 4) ==> r.dateTime.time.day == d.out.day)
      && (!Bit(d.mask, 4) ==> r.dateTime.time.day == b.dateTime.time.day)
      && (Bit(d.mask, 5) ==> r.dateTime.time.hour == d.out.hour)
      && (!Bit(d.mask, 5) ==> r.dateTime.time.hour == b.dateTime.time.hour)
      && (Bit(d.mask, 6) ==> r.dateTime.time.min == d.out.min)
      && (!Bit(d.mask, 6) ==> r.dateTime.time.min == b.dateTime.time.min)
      && (Bit(d.mask, 7) ==> r.dateTime.time.sec == d.out.sec)
      && (!Bit(d.mask, 7) ==> r.dateTime.time.sec == b.dateTime.time.sec)
      && (HasAll(d.mask, 0xFC) ==> r.dateTime == DateTimeData(d.out, true))
      && r.dateTime.newData == (HasAll(d.mask, 0xFC) || b.dateTime.newData)
      && r == b.(dateTime := r.dateTime, avail := r.avail)
  {
    var d := c.pgn126992(f.payload);
    if HasAll(d.mask, 0xFC) {
      assert Bit(d.mask, 2) && Bit(d.mask, 3) && Bit(d.mask, 4) && Bit(d.mask, 5) && Bit(d.mask, 6) && Bit(d.mask, 7);
    }
  }

  /** Water speed, depth and temperature: what each of the three DST800 frames writes and announces. */
  lemma WaterFrames(b: Board, f: Frame, cfg: Config, c: Codecs)
    requires WellFormed(b)
    requires f.ext
    ensures var r := Dispatch(b, f, cfg, c); var pgn := c.pgnOf(f.id);
      && (pgn == PGN_SPEED ==>
            var d := c.pgn128259(f.payload);
            && r.water == b.water.(speed := if Bit(d.mask, 1) then d.out else b.water.speed,
                                   newData := d.mask != 0 || b.water.newData)
            && r == b.(water := r.water, avail := r.avail))
      && (pgn == PGN_WATER_DEPTH ==>
            var d := c.pgn128267(f.payload);
            && r.water == b.water.(depth := if Bit(d.mask, 1) then d.out else b.water.depth,
                                   newData := HasAll(d.mask, 0x02) || b.water.newData)
            && r == b.(water := r.water, avail := r.avail))
      && (pgn == PGN_ENV_PARAMETERS ==>
            var d := c.pgn130310(f.payload);
            && r.water == b.water.(temp := if Bit(d.mask, 1) then d.out else b.water.temp,
                                   newData := d.mask != 0 || b.water.newData)
            && Get(r.avail, Dst800).active == Get(b.avail, Dst800).active
            && r == b.(water := r.water, avail := r.avail))
  {
    EvidenceRules(b, f, cfg, c);
  }

  /** Wind and air: the WSO100's two frames, each field under its own bit. */
  lemma WeatherFrames(b: Board, f: Frame, cfg: Config, c: Codecs)
    requires WellFormed(b)
    requires f.ext
    ensures var r := Dispatch(b, f, cfg, c); var pgn := c.pgnOf(f.id);
      && (pgn == PGN_WIND_DATA ==>
            var d := c.pgn130306(f.payload);
            && r.wind == WindData(if Bit(d.mask, 1) then d.out.speed else b.wind.speed,
                                  if Bit(d.mask, 2) then d.out.direction else b.wind.direction,
                                  d.mask != 0 || b.wind.newData)
            && r == b.(wind := r.wind, avail := r.avail))
      && (pgn == PGN_ENV_PARAMETERS2 ==>
            var d := c.pgn130311(f.payload);
            && r.air == AirData(if Bit(d.mask, 3) then d.out.temp else b.air.temp,
                                if Bit(d.mask, 4) then d.out.humidity else b.air.humidity,
                                if Bit(d.mask, 5) then d.out.pressure else b.air.pressure,
                                d.mask != 0 || b.air.newData)
            && r == b.(air := r.air, avail := r.avail))
  {
  }

  /** Rudder PGN and magnetic variation write only their valid fields and touch no availability counter. */
  lemma UnmonitoredPgns(b: Board, f: Frame, cfg: Config, c: Codecs)
    requires WellFormed(b)
    requires f.ext
    ensures var r := Dispatch(b, f, cfg, c); var pgn := c.pgnOf(f.id);
      && (pgn == PGN_RUDDER ==>
            var d := c.pgn127245(f.payload);
            && r.commands.secondaryManualRudder == (if Bit(d.mask, 2) then d.out.command else b.commands.secondaryManualRudder)
            && r.rudder.angle == (if Bit(d.mask, 3) then d.out.angle else b.rudder.angle)
            && r == b.(commands := r.commands, rudder := r.rudder))
      && (pgn == PGN_MAG_VARIATION ==>
            var d := c.pgn127258(f.payload);
            r == b.(gps := b.gps.(variation := if Bit(d.mask, 3) then d.out else b.gps.variation)))
  {
  }

  /** ACS300 heartbeat: rpm always stored and announced; active only when status bit 0x40 of byte 6 is clear. */
  lemma HeartbeatFrame(b: Board, f: Frame, cfg: Config, c: Codecs)
    requires WellFormed(b)
    requires !f.ext && f.id == cfg.ids.acs300Heartbeat
    ensures var r := Dispatch(b, f, cfg, c);
      && r.throttle == ThrottleData(c.acs300Heartbeat(f.payload), true)
      && Get(r.avail, Prop).enabled.counter == 0
      && (Get(r.avail, Prop).active == if f.payload[6] & 0x40 == 0 then Reset(Get(b.avail, Prop).active)
                                       else Get(b.avail, Prop).active)
      && r == b.(throttle := r.throttle, avail := r.avail)
  {
  }

  /**
   * STATUS frames: a node id in 1..NUM_NODES overwrites all five fields of its entry and clears its
   * counter, and for the RC node refreshes its availability; any other id changes nothing.
   */
  lemma StatusFrame(b: Board, f: Frame, cfg: Config, c: Codecs)
    requires WellFormed(b)
    requires !f.ext && f.id == cfg.ids.status
    requires f.id != cfg.ids.acs300Heartbeat && f.id != cfg.ids.acs300WriteParam
    ensures var r := Dispatch(b, f, cfg, c); var s := c.status(f.payload);
      && (0 < s.node <= NUM_NODES ==>
            && r.nodes == b.nodes[s.node - 1 := NodeStatus(s.load, s.temp, s.voltage, s.status, s.errors)]
            && r.nodeCounters == b.nodeCounters[s.node - 1 := 0]
            && r == b.(nodes := r.nodes, nodeCounters := r.nodeCounters, avail := r.avail))
      && (0 < s.node <= NUM_NODES && s.node == cfg.rcNode ==>
            && Get(r.avail, RcNode).enabled.counter == 0
            && (Get(r.avail, RcNode).active.counter == 0 || s.status % 2 == 0)
            && (s.status % 2 == 0 ==> Get(r.avail, RcNode).active == Get(b.avail, RcNode).active))
      && (0 < s.node <= NUM_NODES && s.node != cfg.rcNode ==> r.avail == b.avail)
      && (!(0 < s.node <= NUM_NODES) ==> r == b)
  {
  }

  /**
   * The three GPS sub-messages: each writes its fields into the accumulated fix under their own
   * bits and leaves the other fields of the fix alone; beyond availability and the bundle, only a
   * publication of the accumulated fix, with the stored variation, changes anything.
   */
  lemma GpsFrames(b: Board, f: Frame, cfg: Config, c: Codecs)
    requires WellFormed(b)
    requires f.ext
    ensures var r := Dispatch(b, f, cfg, c); var pgn := c.pgnOf(f.id); var fix := b.bundle.fix;
      && (pgn == PGN_POSITION_RAP_UPD ==>
            var d := c.pgn129025(f.payload);
            r.bundle.fix == fix.(lat := if Bit(d.mask, 0) then d.out.lat else fix.lat,
                                 lon := if Bit(d.mask, 1) then d.out.lon else fix.lon))
      && (pgn == PGN_COG_SOG_RAP_UPD ==>
            var d := c.pgn129026(f.payload);
            r.bundle.fix == fix.(cog := if Bit(d.mask, 2) then d.out.cog else fix.cog,
                                 sog := if Bit(d.mask, 3) then d.out.sog else fix.sog))
      && (pgn == PGN_GNSS_DOPS ==>
            var d := c.pgn129539(f.payload);
            r.bundle.fix == fix.(mode := if Bit(d.mask, 2) then d.out.mode else fix.mode,
                                 hdop := if Bit(d.mask, 3) then d.out.hdop else fix.hdop,
                                 vdop := if Bit(d.mask, 4) then d.out.vdop else fix.vdop))
      && (pgn in {PGN_POSITION_RAP_UPD, PGN_COG_SOG_RAP_UPD, PGN_GNSS_DOPS} ==>
            && r == b.(bundle := r.bundle, avail := r.avail, gps := r.gps)
            && (r.gps == b.gps || r.gps == GpsData(r.bundle.fix, b.gps.variation, true)))
  {
  }

  /** The standard-frame identifiers are distinct constants. */
  predicate DistinctIds(ids: StdIds)
  {
    var all := [ids.acs300Heartbeat, ids.acs300WriteParam, ids.status, ids.rudderDetails, ids.imuData,
                ids.gyroData, ids.angVelData, ids.accelData, ids.gpsPosData, ids.gpsEstPosData, ids.gpsVelData];
    forall i, j :: 0 <= i < j < |all| ==> all[i] != all[j]
  }

  /** ACS300 parameter write: only the throttle-command address changes the command, to the value read as signed. */
  lemma WriteParamFrame(b: Board, f: Frame, cfg: Config, c: Codecs)
    requires WellFormed(b) && DistinctIds(cfg.ids)
    requires !f.ext && f.id == cfg.ids.acs300WriteParam
    ensures var r := Dispatch(b, f, cfg, c); var w := c.acs300WriteParam(f.payload);
      && (w.address == cfg.acs300ParamCc ==>
            && r == b.(commands := b.commands.(secondaryManualThrottle := r.commands.secondaryManualThrottle))
            && r.commands.secondaryManualThrottle % 0x1_0000 == w.value)
      && (w.address != cfg.acs300ParamCc ==> r == b)
  {
    var ids := cfg.ids;
    var all := [ids.acs300Heartbeat, ids.acs300WriteParam, ids.status, ids.rudderDetails, ids.imuData,
                ids.gyroData, ids.angVelData, ids.accelData, ids.gpsPosData, ids.gpsEstPosData, ids.gpsVelData];
    assert all[0] != all[1];
  }

  /**
   * Rudder details, gyro and IMU frames: each stores its decoder's values in its own field and
   * changes nothing else but availability.
   */
  lemma DetailsAndImuFrames(b: Board, f: Frame, cfg: Config, c: Codecs)
    requires WellFormed(b) && DistinctIds(cfg.ids)
    requires !f.ext
    ensures var r := Dispatch(b, f, cfg, c); var ids := cfg.ids; var p := f.payload;
      && (f.id == ids.rudderDetails ==> r == b.(rudder := b.rudder.(details := c.rudderDetails(p)), avail := r.avail))
      && (f.id == ids.gyroData ==> r == b.(gyro := GyroData(c.gyroData(p)), avail := r.avail))
      && (f.id == ids.imuData ==> r == b.(imu := b.imu.(attitude := c.imuData(p)), avail := r.avail))
      && (f.id == ids.angVelData ==> r == b.(imu := b.imu.(angularVelocity := c.angVelData(p)), avail := r.avail))
      && (f.id == ids.accelData ==> r == b.(imu := b.imu.(acceleration := c.accelData(p)), avail := r.avail))
      && (f.id == ids.gpsPosData ==> r == b.(imu := b.imu.(position := c.gpsPosData(p)), avail := r.avail))
      && (f.id == ids.gpsEstPosData ==> r == b.(imu := b.imu.(estimatedPosition := c.gpsPosData(p)), avail := r.avail))
      && (f.id == ids.gpsVelData ==> r == b.(imu := b.imu.(velocity := c.gpsVelData(p)), avail := r.avail))
  {
    var ids := cfg.ids;
    var all := [ids.acs300Heartbeat, ids.acs300WriteParam, ids.status, ids.rudderDetails, ids.imuData,
                ids.gyroData, ids.angVelData, ids.accelData, ids.gpsPosData, ids.gpsEstPosData, ids.gpsVelData];
    if f.id == ids.rudderDetails {
      assert all[0] != all[3] && all[1] != all[3] && all[2] != all[3] && all[3] != all[4] && all[3] != all[5];
      assert all[3] != all[6] && all[3] != all[7] && all[3] != all[8] && all[3] != all[9] && all[3] != all[10];
    } else if f.id == ids.imuData {
      assert all[0] != all[4] && all[1] != all[4] && all[2] != all[4] && all[3] != all[4] && all[4] != all[5];
      assert all[4] != all[6] && all[4] != all[7] && all[4] != all[8] && all[4] != all[9] && all[4] != all[10];
    } else if f.id == ids.gyroData {
      assert all[0] != all[5] && all[1] != all[5] && all[2] != all[5] && all[3] != all[5] && all[4] != all[5];
      assert all[5] != all[6] && all[5] != all[7] && all[5] != all[8] && all[5] != all[9] && all[5] != all[10];
    } else if f.id == ids.angVelData {
      assert all[0] != all[6] && all[1] != all[6] && all[2] != all[6] && all[3] != all[6] && all[4] != all[6];
      assert all[5] != all[6] && all[6] != all[7] && all[6] != all[8] && all[6] != all[9] && all[6] != all[10];
    } else if f.id == ids.accelData {
      assert all[0] != all[7] && all[1] != all[7] && all[2] != all[7] && all[3] != all[7] && all[4] != all[7];
      assert all[5] != all[7] && all[6] != all[7] && all[7] != all[8] && all[7] != all[9] && all[7] != all[10];
    } else if f.id == ids.gpsPosData {
      assert all[0] != all[8] && all[1] != all[8] && all[2] != all[8] && all[3] != all[8] && all[4] != all[8];
      assert all[5] != all[8] && all[6] != all[8] && all[7] != all[8] && all[8] != all[9] && all[8] != all[10];
    } else if f.id == ids.gpsEstPosData {
      assert all[0] != all[9] && all[1] != all[9] && all[2] != all[9] && all[3] != all[9] && all[4] != all[9];
      assert all[5] != all[9] && all[6] != all[9] && all[7] != all[9] && all[8] != all[9] && all[9] != all[10];
    } else if f.id == ids.gpsVelData {
      assert all[0] != all[10] && all[1] != all[10] && all[2] != all[10] && all[3] != all[10] && all[4] != all[10];
      assert all[5] != all[10] && all[6] != all[10] && all[7] != all[10] && all[8] != all[10] && all[9] != all[10];
    }
  }

  /** A frame leaves every node counter as it was or clears it; only a STATUS frame clears one. */
  lemma CountersOnlyCleared(b: Board, f: Frame, cfg: Config, c: Codecs, i: nat)
    requires WellFormed(b) && i < NUM_NODES
    ensures var r := Dispatch(b, f, cfg, c);
      r.nodeCounters[i] == b.nodeCounters[i] || (r.nodeCounters[i] == 0 && !f.ext && f.id == cfg.ids.status)
  {
  }

  // ---- GPS reassembly ----

  /**
   * The received set after a fully valid sub-message: a repeated part restarts the bundle with
   * that part alone, a new part is added, and a completed bundle is emptied.
   */
  lemma ReceivedTransition(b: Board, part: GpsPart, cfg: Config)
    ensures var r := PartArrived(b, part, cfg).bundle.received; var old_ := b.bundle.received;
      && (part in old_ ==> r == {part})
      && (part !in old_ && old_ + {part} != ALL_PARTS ==> r == old_ + {part})
      && (Completes(old_, part) ==> r == {})
      && r != ALL_PARTS
  {
    var r := PartArrived(b, part, cfg).bundle.received;
    var old_ := b.bundle.received;
    if part in old_ {
      var other := if part == Position then Heading else Position;
      assert other in ALL_PARTS && other !in r;
    }
  }

  /**
   * Publication: the public GPS reading becomes the accumulated fix, flagged new, exactly when the
   * sub-message completes the bundle and the fix is usable; otherwise it is left untouched.
   */
  lemma PublishRule(b: Board, part: GpsPart, cfg: Config)
    ensures var r := PartArrived(b, part, cfg);
      && (Completes(b.bundle.received, part) && FixUsable(b.bundle.fix, cfg) ==>
            r.gps == GpsData(b.bundle.fix, b.gps.variation, true) && Get(r.avail, Gps).active.counter == 0)
      && (!(Completes(b.bundle.received, part) && FixUsable(b.bundle.fix, cfg)) ==> r.gps == b.gps && r.avail == b.avail)
  {
  }

  /** A frame never leaves the accumulator with all three parts marked received. */
  lemma MaskNeverAll(b: Board, f: Frame, cfg: Config, c: Codecs)
    requires WellFormed(b)
    requires b.bundle.received != ALL_PARTS
    ensures Dispatch(b, f, cfg, c).bundle.received != ALL_PARTS
  {
    if f.ext {
      var pgn := c.pgnOf(f.id);
      var p := f.payload;
      if pgn == PGN_POSITION_RAP_UPD {
        var b1 := b.(avail := ResetEnabled(b.avail, Gps), bundle := Dispatch(b, f, cfg, c).bundle.(received := b.bundle.received));
        ReceivedTransition(b1, Position, cfg);
      } else if pgn == PGN_COG_SOG_RAP_UPD {
        var b1 := b.(avail := ResetEnabled(b.avail, Gps), bundle := Dispatch(b, f, cfg, c).bundle.(received := b.bundle.received));
        ReceivedTransition(b1, Heading, cfg);
      } else if pgn == PGN_GNSS_DOPS {
        var b1 := b.(avail := ResetEnabled(b.avail, Gps), bundle := Dispatch(b, f, cfg, c).bundle.(received := b.bundle.received));
        ReceivedTransition(b1, FixQuality, cfg);
      }
    }
  }

  /** Between frames the received set is never complete, however many frames a drain handles. */
  lemma {:induction false} DrainKeepsBundleOpen(b: Board, frames: seq<Frame>, cfg: Config, c: Codecs)
    requires WellFormed(b)
    requires b.bundle.received != ALL_PARTS
    ensures Drain(b, frames, cfg, c).bundle.received != ALL_PARTS
    decreases |frames|
  {
    if frames != [] {
      var init := frames[..|frames| - 1];
      DrainKeepsBundleOpen(b, init, cfg, c);
      MaskNeverAll(Drain(b, init, cfg, c), frames[|frames| - 1], cfg, c);
    }
  }

  /**
   * Three distinct fully valid sub-messages into an empty bundle publish the accumulated fix once,
   * if it is usable, and leave the bundle empty again; the public reading is untouched otherwise.
   */
  lemma ThreePartsPublish(b: Board, p1: GpsPart, p2: GpsPart, p3: GpsPart, cfg: Config)
    requires b.bundle.received == {}
    requires p1 != p2 && p2 != p3 && p1 != p3
    ensures var r := PartArrived(PartArrived(PartArrived(b, p1, cfg), p2, cfg), p3, cfg);
      && r.bundle == b.bundle
      && (FixUsable(b.bundle.fix, cfg) ==> r.gps == GpsData(b.bundle.fix, b.gps.variation, true))
      && (!FixUsable(b.bundle.fix, cfg) ==> r.gps == b.gps)
  {
    var b1 := PartArrived(b, p1, cfg);
    ReceivedTransition(b, p1, cfg);
    assert b1.bundle.received == {p1} && b1.gps == b.gps;
    var b2 := PartArrived(b1, p2, cfg);
    assert {p1, p2} != ALL_PARTS by {
      assert p3 in ALL_PARTS && p3 !in {p1, p2};
    }
    assert b2.bundle.received == {p1, p2} && b2.gps == b.gps;
    assert Completes({p1, p2}, p3) by {
      forall q: GpsPart ensures q in {p1, p2} + {p3} {
        if q != p1 && q != p2 {
          match q
          case Position => assert p1 != Position && p2 != Position;
          case Heading => assert p1 != Heading && p2 != Heading;
          case FixQuality => assert p1 != FixQuality && p2 != FixQuality;
        }
      }
    }
    PublishRule(b2, p3, cfg);
  }
}
