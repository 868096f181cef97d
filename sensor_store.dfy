/**
 * The primary node's blackboard (Code/Primary_node/EcanSensors.c:43-93): the latest reading of every
 * sensor with its new-data flag, the status of every node on the bus with its timeout counter, the
 * GPS accumulator and the per-sensor availability records; plus the constants and decoders that
 * live in headers and libraries outside this model.
 */
module SensorStore {
  import opened CanTypes
  import opened Hysteresis

  /** Number of nodes on the bus: the length of `nodeStatusDataStore` and its counters. */
  const NUM_NODES: nat := 7

  // NMEA 2000 parameter group numbers handled by the dispatcher.
  const PGN_SYSTEM_TIME: nat := 126992
  const PGN_RUDDER: nat := 127245
  const PGN_MAG_VARIATION: nat := 127258
  const PGN_BATTERY_STATUS: nat := 127508
  const PGN_SPEED: nat := 128259
  const PGN_WATER_DEPTH: nat := 128267
  const PGN_POSITION_RAP_UPD: nat := 129025
  const PGN_COG_SOG_RAP_UPD: nat := 129026
  const PGN_GNSS_DOPS: nat := 129539
  const PGN_WIND_DATA: nat := 130306
  const PGN_ENV_PARAMETERS: nat := 130310
  const PGN_ENV_PARAMETERS2: nat := 130311

  /** Standard-frame identifiers of the proprietary messages, defined in headers not modelled here. */
  datatype StdIds = StdIds(
    acs300Heartbeat: nat, acs300WriteParam: nat, status: nat, rudderDetails: nat,
    imuData: nat, gyroData: nat, angVelData: nat, accelData: nat,
    gpsPosData: nat, gpsEstPosData: nat, gpsVelData: nat)

  /** Build-time constants of the primary node whose values live in headers not modelled here. */
  datatype Config = Config(
    ids: StdIds,
    nodeId: uint8,            // this node's own id
    rcNode: uint8,            // CAN_NODE_RC
    acs300ParamCc: uint16,    // ACS300_PARAM_CC, the "current command" parameter address
    sensorTimeout: nat,       // SENSOR_TIMEOUT, in ticks
    nodeTimeout: uint8,       // NODE_TIMEOUT, in ticks
    mode2D: int,              // PGN_129539_MODE_2D
    mode3D: int)              // PGN_129539_MODE_3D

  // ---- Decoder outputs ----

  datatype Vec3 = Vec3(x: real, y: real, z: real)
  datatype LatLon = LatLon(lat: real, lon: real)
  datatype StatusFields = StatusFields(node: uint8, load: uint8, temp: int8, voltage: uint8, status: uint16, errors: uint16)
  datatype RudderDetails = RudderDetails(
    potValue: uint16, limitStarboard: uint16, limitPort: uint16,
    limitHitPort: bool, limitHitStarboard: bool, enabled: bool, calibrated: bool, calibrating: bool)
  datatype GpsVel = GpsVel(direction: real, speed: real, magneticBearing: real, status: int)
  datatype WriteParam = WriteParam(address: uint16, value: uint16)
  datatype DateTime = DateTime(year: int, month: int, day: int, hour: int, min: int, sec: int)
  datatype RudderCommand = RudderCommand(command: real, angle: real)
  datatype Battery = Battery(voltage: real, current: real, temperature: real)
  datatype CogSog = CogSog(cog: real, sog: real)
  datatype Dops = Dops(mode: int, hdop: real, vdop: real)
  datatype Wind = Wind(speed: real, direction: real)
  datatype Air = Air(temp: real, humidity: real, pressure: real)

  /**
   * The decoders, which are not part of this model, as uninterpreted functions of the frame.
   * A `Parsed` result's mask bit i stands for the i-th output argument of the C decoder.
   */
  datatype Codecs = Codecs(
    pgnOf: nat -> nat,                              // Iso11783Decode
    acs300Heartbeat: Payload -> uint16,             // Acs300DecodeHeartbeat: rpm
    acs300WriteParam: Payload -> WriteParam,        // Acs300DecodeWriteParam
    status: Payload -> StatusFields,                // CanMessageDecodeStatus
    rudderDetails: Payload -> RudderDetails,        // CanMessageDecodeRudderDetails
    imuData: Payload -> Vec3,                       // CanMessageDecodeImuData: yaw, pitch, roll
    gyroData: Payload -> real,                      // CanMessageDecodeGyroData: z rate
    angVelData: Payload -> Vec3,                    // CanMessageDecodeAngularVelocityData
    accelData: Payload -> Vec3,                     // CanMessageDecodeAccelerationData
    gpsPosData: Payload -> LatLon,                  // CanMessageDecodeGpsPosData
    gpsVelData: Payload -> GpsVel,                  // CanMessageDecodeGpsVelData
    pgn126992: Payload -> Parsed<DateTime>,         // bits 2..7: year, month, day, hour, min, sec
    pgn127245: Payload -> Parsed<RudderCommand>,    // bit 2: command, bit 3: angle
    pgn127508: Payload -> Parsed<Battery>,          // bits 2, 3, 4: voltage, current, temperature
    pgn128259: Payload -> Parsed<real>,             // bit 1: water speed
    pgn128267: Payload -> Parsed<real>,             // bit 1: depth
    pgn129025: Payload -> Parsed<LatLon>,           // bits 0, 1: latitude, longitude
    pgn129026: Payload -> Parsed<CogSog>,           // bits 2, 3: course, speed over ground
    pgn129539: Payload -> Parsed<Dops>,             // bits 2, 3, 4: mode, hdop, vdop
    pgn127258: Payload -> Parsed<real>,             // bit 3: magnetic variation
    pgn130306: Payload -> Parsed<Wind>,             // bits 1, 2: speed, direction
    pgn130310: Payload -> Parsed<real>,             // bit 1: water temperature
    pgn130311: Payload -> Parsed<Air>)              // bits 3, 4, 5: temperature, humidity, pressure

  // ---- Data stores ----

  datatype PowerData = PowerData(voltage: real, current: real, temperature: real, newData: bool)
  datatype WindData = WindData(speed: real, direction: real, newData: bool)
  datatype AirData = AirData(temp: real, humidity: real, pressure: real, newData: bool)
  datatype WaterData = WaterData(speed: real, depth: real, temp: real, newData: bool)
  datatype ThrottleData = ThrottleData(rpm: uint16, newData: bool)
  datatype DateTimeData = DateTimeData(time: DateTime, newData: bool)
  datatype GyroData = GyroData(zRate: real)
  /** The Tokimec IMU's readings (`tokimecDataStore`). */
  datatype ImuData = ImuData(attitude: Vec3, angularVelocity: Vec3, acceleration: Vec3,
                             position: LatLon, estimatedPosition: LatLon, velocity: GpsVel)
  /** The primary node's copy of the rudder's state (`rudderSensorData`). */
  datatype RudderData = RudderData(details: RudderDetails, angle: real)
  /** The fields of `currentCommands` that frames write. */
  datatype Commands = Commands(secondaryManualThrottle: int16, secondaryManualRudder: real)

  /** The fields of a GPS fix that the three GPS sub-messages deliver. */
  datatype GpsFix = GpsFix(lat: real, lon: real, cog: real, sog: real, mode: int, hdop: real, vdop: real)
  datatype GpsData = GpsData(fix: GpsFix, variation: real, newData: bool)

  /** The three GPS sub-messages, one bit each of the accumulator's received mask. */
  datatype GpsPart = Position | Heading | FixQuality
  const ALL_PARTS: set<GpsPart> := {Position, Heading, FixQuality}
  /** The GPS accumulator (`gpsNewDataStore`). */
  datatype GpsBundle = GpsBundle(fix: GpsFix, received: set<GpsPart>)

  datatype NodeStatus = NodeStatus(load: uint8, temp: int8, voltage: uint8, status: uint16, errors: uint16)
  /** What a node's entry reads while its status is unknown. */
  const SENTINEL: NodeStatus := NodeStatus(UINT8_MAX, INT8_MAX, UINT8_MAX, UINT16_MAX, UINT16_MAX)

  // ---- Availability ----

  /** The sensors of `struct stc`, in the order the aging code visits them. */
  datatype Sensor = Gps | Imu | Wso100 | Dst800 | Power | Prop | Rudder | RcNode | Gyro
  datatype Availability = Availability(enabled: Record, active: Record)
  /** One availability entry per sensor (`struct stc sensorAvailability`). */
  datatype SensorTable = SensorTable(
    gps: Availability, imu: Availability, wso100: Availability, dst800: Availability,
    power: Availability, prop: Availability, rudder: Availability, rcNode: Availability,
    gyro: Availability)

  /** The entry of sensor `s`. */
  function Get(t: SensorTable, s: Sensor): Availability
  {
    match s
    case Gps => t.gps
    case Imu => t.imu
    case Wso100 => t.wso100
    case Dst800 => t.dst800
    case Power => t.power
    case Prop => t.prop
    case Rudder => t.rudder
    case RcNode => t.rcNode
    case Gyro => t.gyro
  }

  /** The table with the entry of sensor `s` replaced. */
  function Set(t: SensorTable, s: Sensor, a: Availability): (r: SensorTable)
    ensures Get(r, s) == a
    ensures forall s' :: s' != s ==> Get(r, s') == Get(t, s')
  {
    match s
    case Gps => t.(gps := a)
    case Imu => t.(imu := a)
    case Wso100 => t.(wso100 := a)
    case Dst800 => t.(dst800 := a)
    case Power => t.(power := a)
    case Prop => t.(prop := a)
    case Rudder => t.(rudder := a)
    case RcNode => t.(rcNode := a)
    case Gyro => t.(gyro := a)
  }

  /** A frame is evidence that the sensor is connected: its `enabled` counter is cleared. */
  function ResetEnabled(t: SensorTable, s: Sensor): (r: SensorTable)
    ensures Get(r, s).enabled == Reset(Get(t, s).enabled) && Get(r, s).active == Get(t, s).active
    ensures forall s' :: s' != s ==> Get(r, s') == Get(t, s')
  {
    Set(t, s, Get(t, s).(enabled := Reset(Get(t, s).enabled)))
  }

  /** A fully valid reading is evidence that the sensor is working: its `active` counter is cleared. */
  function ResetActive(t: SensorTable, s: Sensor): (r: SensorTable)
    ensures Get(r, s).active == Reset(Get(t, s).active) && Get(r, s).enabled == Get(t, s).enabled
    ensures forall s' :: s' != s ==> Get(r, s') == Get(t, s')
  {
    Set(t, s, Get(t, s).(active := Reset(Get(t, s).active)))
  }

  /** The whole blackboard of the primary node as one value. */
  datatype Board = Board(
    power: PowerData, wind: WindData, air: AirData, water: WaterData, throttle: ThrottleData,
    gps: GpsData, bundle: GpsBundle, dateTime: DateTimeData, imu: ImuData, gyro: GyroData,
    rudder: RudderData, commands: Commands,
    nodes: seq<NodeStatus>, nodeCounters: seq<uint8>,
    avail: SensorTable)

  /** The shape every board keeps: one entry and one counter per node. */
  predicate WellFormed(b: Board)
  {
    |b.nodes| == NUM_NODES && |b.nodeCounters| == NUM_NODES
  }

  const ZERO_VEC: Vec3 := Vec3(0.0, 0.0, 0.0)
  const ZERO_POS: LatLon := LatLon(0.0, 0.0)
  const ZERO_FIX: GpsFix := GpsFix(0.0, 0.0, 0.0, 0.0, 0, 0.0, 0.0)

  /** Every sensor starts flagged with its counters at the timeout: disconnected, as of the first tick. */
  function InitialTable(timeout: nat): (t: SensorTable)
    ensures forall s :: Get(t, s) == Availability(Initial(timeout), Initial(timeout))
  {
    var a := Availability(Initial(timeout), Initial(timeout));
    SensorTable(a, a, a, a, a, a, a, a, a)
  }

  /** The stores at start-up: zeroed readings, every node unknown and timed out, every sensor disconnected. */
  function InitialBoard(cfg: Config): (b: Board)
    ensures WellFormed(b)
    ensures forall i :: 0 <= i < NUM_NODES ==> b.nodes[i] == SENTINEL && b.nodeCounters[i] == cfg.nodeTimeout
    ensures b.bundle.received == {}
  {
    Board(
      PowerData(0.0, 0.0, 0.0, false), WindData(0.0, 0.0, false), AirData(0.0, 0.0, 0.0, false),
      WaterData(0.0, 0.0, 0.0, false), ThrottleData(0, false),
      GpsData(ZERO_FIX, 0.0, false), GpsBundle(ZERO_FIX, {}),
      DateTimeData(DateTime(0, 0, 0, 0, 0, 0), false),
      ImuData(ZERO_VEC, ZERO_VEC, ZERO_VEC, ZERO_POS, ZERO_POS, GpsVel(0.0, 0.0, 0.0, 0)),
      GyroData(0.0),
      RudderData(RudderDetails(0, 0, 0, false, false, false, false, false), 0.0),
      Commands(0, 0.0),
      seq(NUM_NODES, _ => SENTINEL), seq(NUM_NODES, _ => cfg.nodeTimeout),
      InitialTable(cfg.sensorTimeout))
  }
}
