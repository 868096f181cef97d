/**
 * The primary node's CAN receive side as the C file has it: process-wide stores updated in place
 * by a drain loop over the receive queue, a per-tick aging pass with a loop over the node table,
 * and consume-once getters (Code/Primary_node/EcanSensors.c).
 */
module EcanSensors {
  import opened CanTypes
  import opened Hysteresis
  import opened SensorStore
  import opened FrameDispatch
  import opened SensorAging

  class SensorHub {
    const cfg: Config
    const codecs: Codecs

    var powerDataStore: PowerData
    var windDataStore: WindData
    var airDataStore: AirData
    var waterDataStore: WaterData
    var throttleDataStore: ThrottleData
    var gpsDataStore: GpsData
    var gpsNewDataStore: GpsBundle
    var dateTimeDataStore: DateTimeData
    var tokimecDataStore: ImuData
    var gyroDataStore: GyroData
    var rudderSensorData: RudderData
    var currentCommands: Commands
    const nodeStatusDataStore: array<NodeStatus>
    const nodeStatusTimeoutCounters: array<uint8>
    var sensorAvailability: SensorTable

    /** The frames the CAN controller has queued and not yet handed over. */
    var rxQueue: seq<Frame>

    ghost predicate Valid()
      reads this
    {
      nodeStatusDataStore.Length == NUM_NODES && nodeStatusTimeoutCounters.Length == NUM_NODES
    }

    /** The stores as one value. */
    ghost function Board(): (b: Board)
      reads this, nodeStatusDataStore, nodeStatusTimeoutCounters
      requires Valid()
      ensures WellFormed(b)
    {
      SensorStore.Board(powerDataStore, windDataStore, airDataStore, waterDataStore, throttleDataStore,
                        gpsDataStore, gpsNewDataStore, dateTimeDataStore, tokimecDataStore, gyroDataStore,
                        rudderSensorData, currentCommands,
                        nodeStatusDataStore[..], nodeStatusTimeoutCounters[..], sensorAvailability)
    }

    /** The static initialisers of the stores. */
    constructor (cfg: Config, codecs: Codecs)
      ensures Valid() && this.cfg == cfg && this.codecs == codecs
      ensures Board() == InitialBoard(cfg) && rxQueue == []
    {
      this.cfg := cfg;
      this.codecs := codecs;
      var b := InitialBoard(cfg);
      powerDataStore, windDataStore, airDataStore := b.power, b.wind, b.air;
      waterDataStore, throttleDataStore := b.water, b.throttle;
      gpsDataStore, gpsNewDataStore, dateTimeDataStore := b.gps, b.bundle, b.dateTime;
      tokimecDataStore, gyroDataStore := b.imu, b.gyro;
      rudderSensorData, currentCommands := b.rudder, b.commands;
      nodeStatusDataStore := new NodeStatus[NUM_NODES](_ => SENTINEL);
      nodeStatusTimeoutCounters := new uint8[NUM_NODES](_ => cfg.nodeTimeout);
      sensorAvailability := b.avail;
      rxQueue := [];
      new;
      assert nodeStatusDataStore[..] == b.nodes;
      assert nodeStatusTimeoutCounters[..] == b.nodeCounters;
    }

    /** Reads the water speed and consumes its new-data flag. */
    method GetWaterSpeed() returns (speed: real)
      requires Valid()
      modifies this`waterDataStore
      ensures speed == old(waterDataStore.speed)
      ensures Valid() && Board() == old(Board()).(water := old(waterDataStore).(newData := false))
    {
      waterDataStore := waterDataStore.(newData := false);
      speed := waterDataStore.speed;
    }

    /** Reads the propeller speed and consumes its new-data flag. */
    method GetPropSpeed() returns (rpm: uint16)
      requires Valid()
      modifies this`throttleDataStore
      ensures rpm == old(throttleDataStore.rpm)
      ensures Valid() && Board() == old(Board()).(throttle := old(throttleDataStore).(newData := false))
    {
      throttleDataStore := throttleDataStore.(newData := false);
      rpm := throttleDataStore.rpm;
    }

    /** Copies out the GPS reading, new-data flag included, then consumes the flag. */
    method GetGpsData() returns (data: GpsData)
      requires Valid()
      modifies this`gpsDataStore
      ensures data == old(gpsDataStore)
      ensures Valid() && Board() == old(Board()).(gps := old(gpsDataStore).(newData := false))
    {
      data := gpsDataStore;
      gpsDataStore := gpsDataStore.(newData := false);
    }

    /** Ecan1Receive: hands over the oldest queued frame, if any, and how many remain. */
    method Receive() returns (found: bool, msg: Frame, messagesLeft: nat)
      requires Valid()
      modifies this`rxQueue
      ensures Valid() && Board() == old(Board())
      ensures found == (old(rxQueue) != [])
      ensures found ==> msg == old(rxQueue)[0] && rxQueue == old(rxQueue)[1..]
      ensures !found ==> rxQueue == old(rxQueue)
      ensures messagesLeft == |rxQueue|
    {
      if rxQueue == [] {
        found, msg := false, Frame(false, 0, [0, 0, 0, 0, 0, 0, 0, 0]);
      } else {
        found, msg := true, rxQueue[0];
        rxQueue := rxQueue[1..];
      }
      messagesLeft := |rxQueue|;
    }

    /** A GPS sub-message that decoded fully: the received-mask rules and the atomic publication. */
    method GpsPartArrived(part: GpsPart)
      requires Valid()
      modifies this`gpsNewDataStore, this`gpsDataStore, this`sensorAvailability
      ensures Valid() && Board() == PartArrived(old(Board()), part, cfg)
    {
      if part in gpsNewDataStore.received {
        gpsNewDataStore := gpsNewDataStore.(received := {part});
      } else {
        gpsNewDataStore := gpsNewDataStore.(received := gpsNewDataStore.received + {part});
        if gpsNewDataStore.received == ALL_PARTS {
          if FixUsable(gpsNewDataStore.fix, cfg) {
            gpsDataStore := GpsData(gpsNewDataStore.fix, gpsDataStore.variation, true);
            sensorAvailability := ResetActive(sensorAvailability, Gps);
          }
          gpsNewDataStore := gpsNewDataStore.(received := {});
        }
      }
    }

    // ---- One method per branch of the receive loop's body ----

    method HeartbeatFrame(p: Payload)
      requires Valid()
      modifies this`sensorAvailability, this`throttleDataStore
      ensures Valid() && Board() == OnHeartbeat(old(Board()), p, codecs)
    {
      sensorAvailability := ResetEnabled(sensorAvailability, Prop);
      if p[6] & 0x40 == 0 {
        sensorAvailability := ResetActive(sensorAvailability, Prop);
      }
      throttleDataStore := ThrottleData(codecs.acs300Heartbeat(p), true);
    }

    method WriteParamFrame(w: WriteParam)
      requires Valid()
      modifies this`currentCommands
      ensures Valid() && Board() == OnWriteParam(old(Board()), w, cfg)
    {
      if w.address == cfg.acs300ParamCc {
        currentCommands := currentCommands.(secondaryManualThrottle := AsInt16(w.value));
      }
    }

    method StatusFrame(s: StatusFields)
      requires Valid()
      modifies this`sensorAvailability, nodeStatusDataStore, nodeStatusTimeoutCounters
      ensures Valid() && Board() == OnStatus(old(Board()), s, cfg)
    {
      if 0 < s.node <= NUM_NODES {
        nodeStatusDataStore[s.node - 1] := NodeStatus(s.load, s.temp, s.voltage, s.status, s.errors);
        nodeStatusTimeoutCounters[s.node - 1] := 0;
        if s.node == cfg.rcNode {
          sensorAvailability := ResetEnabled(sensorAvailability, RcNode);
          if s.status % 2 == 1 {
            sensorAvailability := ResetActive(sensorAvailability, RcNode);
          }
        }
      }
    }

    method RudderDetailsFrame(d: RudderDetails)
      requires Valid()
      modifies this`sensorAvailability, this`rudderSensorData
      ensures Valid() && Board() == OnRudderDetails(old(Board()), d)
    {
      sensorAvailability := ResetEnabled(sensorAvailability, Rudder);
      rudderSensorData := rudderSensorData.(details := d);
      if d.enabled && d.calibrated && !d.calibrating {
        sensorAvailability := ResetActive(sensorAvailability, Rudder);
      }
    }

    /** The body of the receive loop for one standard-identifier frame. */
    method HandleStdFrame(msg: Frame)
      requires Valid() && !msg.ext
      modifies this`sensorAvailability, this`throttleDataStore, this`currentCommands, this`rudderSensorData,
               this`tokimecDataStore, this`gyroDataStore, nodeStatusDataStore, nodeStatusTimeoutCounters
      ensures Valid() && Board() == Dispatch(old(Board()), msg, cfg, codecs)
    {
      var ids := cfg.ids;
      var p := msg.payload;
      if msg.id == ids.acs300Heartbeat {
        HeartbeatFrame(p);
      } else if msg.id == ids.acs300WriteParam {
        WriteParamFrame(codecs.acs300WriteParam(p));
      } else if msg.id == ids.status {
        StatusFrame(codecs.status(p));
      } else if msg.id == ids.rudderDetails {
        RudderDetailsFrame(codecs.rudderDetails(p));
      } else if msg.id == ids.imuData {
        sensorAvailability := ResetBoth(sensorAvailability, Imu);
        tokimecDataStore := tokimecDataStore.(attitude := codecs.imuData(p));
      } else if msg.id == ids.gyroData {
        sensorAvailability := ResetBoth(sensorAvailability, Gyro);
        gyroDataStore := GyroData(codecs.gyroData(p));
      } else if msg.id == ids.angVelData {
        sensorAvailability := ResetBoth(sensorAvailability, Imu);
        tokimecDataStore := tokimecDataStore.(angularVelocity := codecs.angVelData(p));
      } else if msg.id == ids.accelData {
        sensorAvailability := ResetBoth(sensorAvailability, Imu);
        tokimecDataStore := tokimecDataStore.(acceleration := codecs.accelData(p));
      } else if msg.id == ids.gpsPosData {
        sensorAvailability := ResetBoth(sensorAvailability, Imu);
        tokimecDataStore := tokimecDataStore.(position := codecs.gpsPosData(p));
      } else if msg.id == ids.gpsEstPosData {
        sensorAvailability := ResetBoth(sensorAvailability, Imu);
        tokimecDataStore := tokimecDataStore.(estimatedPosition := codecs.gpsPosData(p));
      } else if msg.id == ids.gpsVelData {
        sensorAvailability := ResetBoth(sensorAvailability, Imu);
        tokimecDataStore := tokimecDataStore.(velocity := codecs.gpsVelData(p));
      }
    }

    method SystemTimeFrame(r: Parsed<DateTime>)
      requires Valid()
      modifies this`sensorAvailability, this`dateTimeDataStore
      ensures Valid() && Board() == OnSystemTime(old(Board()), r)
    {
      sensorAvailability := ResetEnabled(sensorAvailability, Gps);
      var t := dateTimeDataStore.time;
      dateTimeDataStore := dateTimeDataStore.(time := DateTime(
        Keep(r.mask, 2, r.out.year, t.year), Keep(r.mask, 3, r.out.month, t.month),
        Keep(r.mask, 4, r.out.day, t.day), Keep(r.mask, 5, r.out.hour, t.hour),
        Keep(r.mask, 6, r.out.min, t.min), Keep(r.mask, 7, r.out.sec, t.sec)));
      if HasAll(r.mask, 0xFC) {
        sensorAvailability := ResetActive(sensorAvailability, Gps);
        dateTimeDataStore := dateTimeDataStore.(newData := true);
      }
    }

    method RudderFrame(r: Parsed<RudderCommand>)
      requires Valid()
      modifies this`currentCommands, this`rudderSensorData
      ensures Valid() && Board() == OnRudder(old(Board()), r)
    {
      currentCommands := currentCommands.(secondaryManualRudder := Keep(r.mask, 2, r.out.command, currentCommands.secondaryManualRudder));
      rudderSensorData := rudderSensorData.(angle := Keep(r.mask, 3, r.out.angle, rudderSensorData.angle));
    }

    method BatteryFrame(r: Parsed<Battery>)
      requires Valid()
      modifies this`sensorAvailability, this`powerDataStore
      ensures Valid() && Board() == OnBattery(old(Board()), r)
    {
      sensorAvailability := ResetEnabled(sensorAvailability, Power);
      powerDataStore := powerDataStore.(voltage := Keep(r.mask, 2, r.out.voltage, powerDataStore.voltage),
                                        current := Keep(r.mask, 3, r.out.current, powerDataStore.current),
                                        temperature := Keep(r.mask, 4, r.out.temperature, powerDataStore.temperature));
      if HasAll(r.mask, 0x0C) {
        sensorAvailability := ResetActive(sensorAvailability, Power);
        powerDataStore := powerDataStore.(newData := true);
      }
    }

    method SpeedFrame(r: Parsed<real>)
      requires Valid()
      modifies this`sensorAvailability, this`waterDataStore
      ensures Valid() && Board() == OnSpeed(old(Board()), r)
    {
      sensorAvailability := ResetEnabled(sensorAvailability, Dst800);
      waterDataStore := waterDataStore.(speed := Keep(r.mask, 1, r.out, waterDataStore.speed));
      if r.mask != 0 {
        sensorAvailability := ResetActive(sensorAvailability, Dst800);
        waterDataStore := waterDataStore.(newData := true);
      }
    }

    method DepthFrame(r: Parsed<real>)
      requires Valid()
      modifies this`sensorAvailability, this`waterDataStore
      ensures Valid() && Board() == OnDepth(old(Board()), r)
    {
      sensorAvailability := ResetEnabled(sensorAvailability, Dst800);
      waterDataStore := waterDataStore.(depth := Keep(r.mask, 1, r.out, waterDataStore.depth));
      if HasAll(r.mask, 0x02) {
        sensorAvailability := ResetActive(sensorAvailability, Dst800);
        waterDataStore := waterDataStore.(newData := true);
      }
    }

    method PositionFrame(r: Parsed<LatLon>)
      requires Valid()
      modifies this`sensorAvailability, this`gpsNewDataStore, this`gpsDataStore
      ensures Valid() && Board() == OnPosition(old(Board()), r, cfg)
    {
      sensorAvailability := ResetEnabled(sensorAvailability, Gps);
      var fix := gpsNewDataStore.fix;
      gpsNewDataStore := gpsNewDataStore.(fix := fix.(lat := Keep(r.mask, 0, r.out.lat, fix.lat),
                                                      lon := Keep(r.mask, 1, r.out.lon, fix.lon)));
      if HasAll(r.mask, 0x03) {
        GpsPartArrived(Position);
      }
    }

    method HeadingFrame(r: Parsed<CogSog>)
      requires Valid()
      modifies this`sensorAvailability, this`gpsNewDataStore, this`gpsDataStore
      ensures Valid() && Board() == OnHeading(old(Board()), r, cfg)
    {
      sensorAvailability := ResetEnabled(sensorAvailability, Gps);
      var fix := gpsNewDataStore.fix;
      gpsNewDataStore := gpsNewDataStore.(fix := fix.(cog := Keep(r.mask, 2, r.out.cog, fix.cog),
                                                      sog := Keep(r.mask, 3, r.out.sog, fix.sog)));
      if HasAll(r.mask, 0x0C) {
        GpsPartArrived(Heading);
      }
    }

    method FixQualityFrame(r: Parsed<Dops>)
      requires Valid()
      modifies this`sensorAvailability, this`gpsNewDataStore, this`gpsDataStore
      ensures Valid() && Board() == OnFixQuality(old(Board()), r, cfg)
    {
      sensorAvailability := ResetEnabled(sensorAvailability, Gps);
      var fix := gpsNewDataStore.fix;
      gpsNewDataStore := gpsNewDataStore.(fix := fix.(mode := Keep(r.mask, 2, r.out.mode, fix.mode),
                                                      hdop := Keep(r.mask, 3, r.out.hdop, fix.hdop),
                                                      vdop := Keep(r.mask, 4, r.out.vdop, fix.vdop)));
      if HasAll(r.mask, 0x1C) {
        GpsPartArrived(FixQuality);
      }
    }

    method VariationFrame(r: Parsed<real>)
      requires Valid()
      modifies this`gpsDataStore
      ensures Valid() && Board() == OnVariation(old(Board()), r)
    {
      gpsDataStore := gpsDataStore.(variation := Keep(r.mask, 3, r.out, gpsDataStore.variation));
    }

    method WindFrame(r: Parsed<Wind>)
      requires Valid()
      modifies this`sensorAvailability, this`windDataStore
      ensures Valid() && Board() == OnWind(old(Board()), r)
    {
      sensorAvailability := ResetEnabled(sensorAvailability, Wso100);
      windDataStore := windDataStore.(speed := Keep(r.mask, 1, r.out.speed, windDataStore.speed),
                                      direction := Keep(r.mask, 2, r.out.direction, windDataStore.direction));
      if r.mask != 0 {
        sensorAvailability := ResetActive(sensorAvailability, Wso100);
        windDataStore := windDataStore.(newData := true);
      }
    }

    method WaterTemperatureFrame(r: Parsed<real>)
      requires Valid()
      modifies this`sensorAvailability, this`waterDataStore
      ensures Valid() && Board() == OnWaterTemperature(old(Board()), r)
    {
      sensorAvailability := ResetEnabled(sensorAvailability, Dst800);
      waterDataStore := waterDataStore.(temp := Keep(r.mask, 1, r.out, waterDataStore.temp));
      if r.mask != 0 {
        waterDataStore := waterDataStore.(newData := true);
      }
    }

    method AirFrame(r: Parsed<Air>)
      requires Valid()
      modifies this`sensorAvailability, this`airDataStore
      ensures Valid() && Board() == OnAir(old(Board()), r)
    {
      sensorAvailability := ResetEnabled(sensorAvailability, Wso100);
      airDataStore := airDataStore.(temp := Keep(r.mask, 3, r.out.temp, airDataStore.temp),
                                    humidity := Keep(r.mask, 4, r.out.humidity, airDataStore.humidity),
                                    pressure := Keep(r.mask, 5, r.out.pressure, airDataStore.pressure));
      if r.mask != 0 {
        sensorAvailability := ResetActive(sensorAvailability, Wso100);
        airDataStore := airDataStore.(newData := true);
      }
    }

    /** The body of the receive loop for one NMEA 2000 frame: the switch on its parameter group number. */
    method HandlePgnFrame(msg: Frame)
      requires Valid() && msg.ext
      modifies this`sensorAvailability, this`dateTimeDataStore, this`currentCommands, this`rudderSensorData,
               this`powerDataStore, this`waterDataStore, this`gpsNewDataStore, this`gpsDataStore,
               this`windDataStore, this`airDataStore
      ensures Valid() && Board() == Dispatch(old(Board()), msg, cfg, codecs)
    {
      var pgn := codecs.pgnOf(msg.id);
      var p := msg.payload;
      if pgn == PGN_SYSTEM_TIME {
        SystemTimeFrame(codecs.pgn126992(p));
      } else if pgn == PGN_RUDDER {
        RudderFrame(codecs.pgn127245(p));
      } else if pgn == PGN_BATTERY_STATUS {
        BatteryFrame(codecs.pgn127508(p));
      } else if pgn == PGN_SPEED {
        SpeedFrame(codecs.pgn128259(p));
      } else if pgn == PGN_WATER_DEPTH {
        DepthFrame(codecs.pgn128267(p));
      } else if pgn == PGN_POSITION_RAP_UPD {
        PositionFrame(codecs.pgn129025(p));
      } else if pgn == PGN_COG_SOG_RAP_UPD {
        HeadingFrame(codecs.pgn129026(p));
      } else if pgn == PGN_GNSS_DOPS {
        FixQualityFrame(codecs.pgn129539(p));
      } else if pgn == PGN_MAG_VARIATION {
        VariationFrame(codecs.pgn127258(p));
      } else if pgn == PGN_WIND_DATA {
        WindFrame(codecs.pgn130306(p));
      } else if pgn == PGN_ENV_PARAMETERS {
        WaterTemperatureFrame(codecs.pgn130310(p));
      } else if pgn == PGN_ENV_PARAMETERS2 {
        AirFrame(codecs.pgn130311(p));
      }
    }

    /** The body of the receive loop for one frame. */
    method HandleFrame(msg: Frame)
      requires Valid()
      modifies this`sensorAvailability, this`throttleDataStore, this`currentCommands, this`rudderSensorData,
               this`tokimecDataStore, this`gyroDataStore, this`dateTimeDataStore, this`powerDataStore,
               this`waterDataStore, this`gpsNewDataStore, this`gpsDataStore, this`windDataStore, this`airDataStore,
               nodeStatusDataStore, nodeStatusTimeoutCounters
      ensures Valid() && Board() == Dispatch(old(Board()), msg, cfg, codecs)
    {
      if msg.ext {
        HandlePgnFrame(msg);
      } else {
        HandleStdFrame(msg);
      }
    }

    /**
     * Drains the receive queue: keeps receiving until the controller reports no frame left, and
     * returns how many frames it handled, in the 8-bit counter the source uses.
     */
    method ProcessAllEcanMessages() returns (messagesHandled: uint8)
      requires Valid()
      modifies this`rxQueue, this`sensorAvailability, this`throttleDataStore, this`currentCommands,
               this`rudderSensorData, this`tokimecDataStore, this`gyroDataStore, this`dateTimeDataStore,
               this`powerDataStore, this`waterDataStore, this`gpsNewDataStore, this`gpsDataStore,
               this`windDataStore, this`airDataStore, nodeStatusDataStore, nodeStatusTimeoutCounters
      ensures Valid() && rxQueue == []
      ensures messagesHandled == |old(rxQueue)| % 0x100
      ensures Board() == Drain(old(Board()), old(rxQueue), cfg, codecs)
    {
      ghost var queue := rxQueue;
      ghost var start := Board();
      ghost var k := 0;
      messagesHandled := 0;
      var more := true;
      while more
        invariant Valid()
        invariant 0 <= k <= |queue| && rxQueue == queue[k..]
        invariant messagesHandled == k % 0x100
        invariant Board() == Drain(start, queue[..k], cfg, codecs)
        invariant !more ==> rxQueue == []
        decreases |rxQueue| + (if more then 1 else 0)
      {
        var found, msg, messagesLeft := Receive();
        if found {
          DrainNext(start, queue, k, cfg, codecs);
          CounterWraps(messagesHandled, k);
          HandleFrame(msg);
          k := k + 1;
          messagesHandled := (messagesHandled + 1) % 0x100;
        }
        more := messagesLeft > 0;
      }
      assert queue[..k] == queue;
    }

    /** SENSOR_STATE_UPDATE(sensor): the hysteresis macro applied to both records of one sensor. */
    method SensorStateUpdate(s: Sensor)
      modifies this`sensorAvailability
      ensures sensorAvailability == StepSensor(old(sensorAvailability), s, cfg.sensorTimeout)
    {
      var a := Get(sensorAvailability, s);
      var enabled, active := a.enabled, a.active;
      if enabled.flag {
        if enabled.counter < cfg.sensorTimeout {
          enabled := enabled.(counter := enabled.counter + 1);
        } else {
          enabled := enabled.(flag := false);
        }
      } else if !enabled.flag && enabled.counter < cfg.sensorTimeout {
        enabled := enabled.(flag := true);
      }
      if active.flag {
        if active.counter < cfg.sensorTimeout {
          active := active.(counter := active.counter + 1);
        } else {
          active := active.(flag := false);
        }
      } else if !active.flag && active.counter < cfg.sensorTimeout {
        active := active.(flag := true);
      }
      sensorAvailability := Set(sensorAvailability, s, Availability(enabled, active));
    }

    /** The node loop of the tick: every other node's entry counts up or, at the timeout, becomes the sentinel. */
    method AgeNodeTable()
      requires Valid()
      modifies nodeStatusDataStore, nodeStatusTimeoutCounters
      ensures Valid()
      ensures (nodeStatusDataStore[..], nodeStatusTimeoutCounters[..])
           == AgeNodes(old(nodeStatusDataStore[..]), old(nodeStatusTimeoutCounters[..]), cfg.nodeId, cfg.nodeTimeout)
    {
      ghost var nodes, counters := nodeStatusDataStore[..], nodeStatusTimeoutCounters[..];
      var i := 0;
      while i < NUM_NODES
        invariant 0 <= i <= NUM_NODES
        invariant forall j :: 0 <= j < i && j != cfg.nodeId - 1 ==>
          (nodeStatusDataStore[j], nodeStatusTimeoutCounters[j]) == AgeNode(nodes[j], counters[j], cfg.nodeTimeout)
        invariant forall j :: 0 <= j < NUM_NODES && (i <= j || j == cfg.nodeId - 1) ==>
          nodeStatusDataStore[j] == nodes[j] && nodeStatusTimeoutCounters[j] == counters[j]
      {
        if i != cfg.nodeId - 1 {
          if nodeStatusTimeoutCounters[i] < cfg.nodeTimeout {
            nodeStatusTimeoutCounters[i] := nodeStatusTimeoutCounters[i] + 1;
          } else {
            nodeStatusDataStore[i] := SENTINEL;
          }
        }
        i := i + 1;
      }
      ghost var aged := AgeNodes(nodes, counters, cfg.nodeId, cfg.nodeTimeout);
      assert nodeStatusDataStore[..] == aged.0;
      assert nodeStatusTimeoutCounters[..] == aged.1;
    }

    /** The ten SENSOR_STATE_UPDATE lines of the tick. */
    method AgeAvailability()
      modifies this`sensorAvailability
      ensures sensorAvailability == AgeSensors(old(sensorAvailability), cfg.sensorTimeout)
    {
      SensorStateUpdate(Gps);
      SensorStateUpdate(Imu);
      SensorStateUpdate(Wso100);
      SensorStateUpdate(Dst800);
      SensorStateUpdate(Power);
      SensorStateUpdate(Prop);
      SensorStateUpdate(Rudder);
      SensorStateUpdate(RcNode);
      SensorStateUpdate(Gyro);
      SensorStateUpdate(Gps);
    }

    /** One tick: age every other node's entry, then step every sensor's availability (the GPS twice). */
    method UpdateSensorsAvailability()
      requires Valid()
      modifies this`sensorAvailability, nodeStatusDataStore, nodeStatusTimeoutCounters
      ensures Valid() && Board() == Age(old(Board()), cfg)
    {
      AgeNodeTable();
      AgeAvailability();
    }
  }

  /** The 8-bit count of handled frames stays the true count modulo 256. */
  lemma CounterWraps(m: int, k: int)
    requires m == k % 0x100
    ensures (m + 1) % 0x100 == (k + 1) % 0x100
  {
  }

  /** Draining one more frame of the queue is dispatching it on the board drained so far. */
  lemma DrainNext(start: Board, queue: seq<Frame>, k: nat, cfg: Config, c: Codecs)
    requires WellFormed(start) && k < |queue|
    ensures Drain(start, queue[..k + 1], cfg, c) == Dispatch(Drain(start, queue[..k], cfg, c), queue[k], cfg, c)
  {
    assert queue[..k + 1][..k] == queue[..k];
  }
}
