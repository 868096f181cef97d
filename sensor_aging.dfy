/**
 * One tick of UpdateSensorsAvailability (Code/Primary_node/EcanSensors.c:450-485): node entries age
 * toward their sentinel values and every sensor's two availability records take one hysteresis
 * step, the GPS's two.
 */
module SensorAging {
  import opened CanTypes
  import opened Hysteresis
  import opened SensorStore

  /** SENSOR_STATE_UPDATE for one entry: both of its records take one step. */
  function StepAvail(a: Availability, timeout: nat): Availability
  {
    Availability(Step(a.enabled, timeout), Step(a.active, timeout))
  }

  function StepSensor(t: SensorTable, s: Sensor, timeout: nat): (r: SensorTable)
    ensures Get(r, s) == StepAvail(Get(t, s), timeout)
    ensures forall s' :: s' != s ==> Get(r, s') == Get(t, s')
  {
    Set(t, s, StepAvail(Get(t, s), timeout))
  }

  /** The ten SENSOR_STATE_UPDATE lines in source order, GPS both first and last. */
  function AgeSensors(t: SensorTable, timeout: nat): (r: SensorTable)
    ensures forall s :: Get(r, s) == if s == Gps then StepAvail(StepAvail(Get(t, s), timeout), timeout)
                                     else StepAvail(Get(t, s), timeout)
  {
    var t1 := StepSensor(t, Gps, timeout);
    var t2 := StepSensor(t1, Imu, timeout);
    var t3 := StepSensor(t2, Wso100, timeout);
    var t4 := StepSensor(t3, Dst800, timeout);
    var t5 := StepSensor(t4, Power, timeout);
    var t6 := StepSensor(t5, Prop, timeout);
    var t7 := StepSensor(t6, Rudder, timeout);
    var t8 := StepSensor(t7, RcNode, timeout);
    var t9 := StepSensor(t8, Gyro, timeout);
    StepSensor(t9, Gps, timeout)
  }

  /** A node's entry and counter after one tick: count up to the timeout, then report the sentinel. */
  function AgeNode(status: NodeStatus, counter: uint8, timeout: uint8): (NodeStatus, uint8)
  {
    if counter < timeout then (status, counter + 1) else (SENTINEL, counter)
  }

  /** The node loop: every index but this node's own (`nodeId - 1`) ages. */
  function AgeNodes(nodes: seq<NodeStatus>, counters: seq<uint8>, nodeId: uint8, timeout: uint8)
    : (r: (seq<NodeStatus>, seq<uint8>))
    requires |nodes| == |counters|
    ensures |r.0| == |nodes| && |r.1| == |counters|
    ensures forall i :: 0 <= i < |nodes| && i == nodeId - 1 ==> r.0[i] == nodes[i] && r.1[i] == counters[i]
    ensures forall i :: 0 <= i < |nodes| && i != nodeId - 1 ==> (r.0[i], r.1[i]) == AgeNode(nodes[i], counters[i], timeout)
  {
    (seq(|nodes|, i requires 0 <= i < |nodes| => if i != nodeId - 1 then AgeNode(nodes[i], counters[i], timeout).0 else nodes[i]),
     seq(|nodes|, i requires 0 <= i < |nodes| => if i != nodeId - 1 then AgeNode(nodes[i], counters[i], timeout).1 else counters[i]))
  }

  /** The whole tick. */
  function Age(b: Board, cfg: Config): (r: Board)
    requires WellFormed(b)
    ensures WellFormed(r)
  {
    var (nodes, counters) := AgeNodes(b.nodes, b.nodeCounters, cfg.nodeId, cfg.nodeTimeout);
    b.(nodes := nodes, nodeCounters := counters, avail := AgeSensors(b.avail, cfg.sensorTimeout))
  }

  // ---- Properties ----

  /** Every counter within its timeout. */
  predicate Bounded(b: Board, cfg: Config)
    requires WellFormed(b)
  {
    && (forall s :: Get(b.avail, s).enabled.counter <= cfg.sensorTimeout
                 && Get(b.avail, s).active.counter <= cfg.sensorTimeout)
    && (forall i :: 0 <= i < NUM_NODES ==> b.nodeCounters[i] <= cfg.nodeTimeout)
  }

  /** The start-up board is within bounds. */
  lemma InitiallyBounded(cfg: Config)
    ensures Bounded(InitialBoard(cfg), cfg)
  {
  }

  /** A tick keeps every counter within its timeout. */
  lemma AgeKeepsBounds(b: Board, cfg: Config)
    requires WellFormed(b) && Bounded(b, cfg)
    ensures Bounded(Age(b, cfg), cfg)
  {
    var r := Age(b, cfg);
    forall i | 0 <= i < NUM_NODES
      ensures r.nodeCounters[i] <= cfg.nodeTimeout
    {
    }
  }

  /** Only the GPS is stepped twice per tick; every other sensor once; nothing but nodes and availability changes. */
  lemma AgingSteps(b: Board, cfg: Config, s: Sensor)
    requires WellFormed(b)
    ensures var r := Age(b, cfg);
      && (s == Gps ==> Get(r.avail, s) == StepAvail(StepAvail(Get(b.avail, s), cfg.sensorTimeout), cfg.sensorTimeout))
      && (s != Gps ==> Get(r.avail, s) == StepAvail(Get(b.avail, s), cfg.sensorTimeout))
      && r == b.(nodes := r.nodes, nodeCounters := r.nodeCounters, avail := r.avail)
  {
  }

  /** Every sensor starts connected-looking but reads unavailable after the very first tick. */
  lemma FirstTickAllUnavailable(cfg: Config, s: Sensor)
    ensures var r := Age(InitialBoard(cfg), cfg);
      Get(r.avail, s) == Availability(Record(false, cfg.sensorTimeout), Record(false, cfg.sensorTimeout))
  {
  }

  /** The node loop: this node's own entry is never aged; others count up and report the sentinel at the timeout. */
  lemma NodeAging(b: Board, cfg: Config, i: nat)
    requires WellFormed(b) && Bounded(b, cfg)
    requires i < NUM_NODES
    ensures var r := Age(b, cfg);
      && (i == cfg.nodeId - 1 ==> r.nodes[i] == b.nodes[i] && r.nodeCounters[i] == b.nodeCounters[i])
      && (i != cfg.nodeId - 1 && b.nodeCounters[i] < cfg.nodeTimeout ==>
            r.nodes[i] == b.nodes[i] && r.nodeCounters[i] == b.nodeCounters[i] + 1)
      && (i != cfg.nodeId - 1 && b.nodeCounters[i] == cfg.nodeTimeout ==>
            r.nodes[i] == SENTINEL && r.nodeCounters[i] == cfg.nodeTimeout)
  {
  }

  /** `n` ticks of one node entry with no STATUS frame from it. */
  function AgeNodeN(status: NodeStatus, counter: uint8, n: nat, timeout: uint8): (NodeStatus, uint8)
    decreases n
  {
    if n == 0 then (status, counter)
    else var (s1, c1) := AgeNode(status, counter, timeout); AgeNodeN(s1, c1, n - 1, timeout)
  }

  /**
   * After a STATUS frame clears a node's counter, its entry keeps the received values for exactly
   * `timeout` ticks and reads as the sentinel from tick `timeout + 1` on.
   */
  lemma {:induction false} NodeTimeline(status: NodeStatus, c: uint8, n: nat, timeout: uint8)
    requires c <= timeout
    ensures c + n <= timeout ==> AgeNodeN(status, c, n, timeout) == (status, (c + n) as uint8)
    ensures c + n > timeout ==> AgeNodeN(status, c, n, timeout) == (SENTINEL, timeout)
    decreases n
  {
    if n > 0 {
      if c < timeout {
        NodeTimeline(status, c + 1, n - 1, timeout);
      } else {
        SentinelIsSticky(n - 1, timeout);
      }
    }
  }

  /** Once a node reads as the sentinel at the timeout, further ticks keep it there. */
  lemma {:induction false} SentinelIsSticky(n: nat, timeout: uint8)
    ensures AgeNodeN(SENTINEL, timeout, n, timeout) == (SENTINEL, timeout)
    decreases n
  {
    if n > 0 {
      SentinelIsSticky(n - 1, timeout);
    }
  }
}
