/**
 * The rudder node's CAN side as the C file has it (Code/Rudder_Subsystem/clib/ecanRudder.c): the
 * calibration and sensor structs and the scheduler updated in place, a do-while receive loop and
 * a loop over the ids due in a timestep. The transmit buffer and the non-volatile memory the node
 * writes are kept as logs of what was handed to them.
 */
module EcanRudder {
  import opened CanTypes
  import opened MessageScheduler
  import opened RudderCalibration
  import opened RudderFrames
  import opened RudderBus

  class RudderNode {
    const cfg: RudderConfig
    const codecs: RudderCodecs

    var rudderCalData: CalData
    var rudderSensorData: Readings
    var sched: Registry

    /** The frames the CAN controller has queued and not yet handed over. */
    var rxQueue: seq<Frame>
    /** Every frame handed to the transmit buffer, oldest first. */
    var sent: seq<OutFrame>
    /** Every (port, starboard) range written to non-volatile memory, oldest first. */
    var savedRanges: seq<(uint16, uint16)>

    /** The node's state as one value. */
    function State(): NodeState
      reads this
    {
      NodeState(rudderCalData, rudderSensorData, sched)
    }

    /** The zero initialisers of the globals and an empty scheduler. */
    constructor (cfg: RudderConfig, codecs: RudderCodecs)
      ensures this.cfg == cfg && this.codecs == codecs
      ensures State() == NodeState(INITIAL_CAL, INITIAL_READINGS, map[])
      ensures rxQueue == [] && sent == [] && savedRanges == []
    {
      this.cfg := cfg;
      this.codecs := codecs;
      rudderCalData := INITIAL_CAL;
      rudderSensorData := INITIAL_READINGS;
      sched := map[];
      rxQueue, sent, savedRanges := [], [], [];
    }

    // ---- The scheduler, as an abstract registry ----

    method AddMessageRepeating(id: uint8, rate: uint8) returns (ok: bool)
      modifies this`sched
      ensures ok == Add(old(sched), id, rate).Some?
      ensures sched == if ok then Add(old(sched), id, rate).value else old(sched)
    {
      ok := id !in sched && |sched| < CAPACITY;
      if ok {
        sched := sched[id := rate];
      }
    }

    method RemoveMessage(id: uint8)
      modifies this`sched
      ensures sched == Remove(old(sched), id)
    {
      sched := sched - {id};
    }

    /**
     * RudderSubsystemInit: registers the four ids in order and reports failure at the first
     * registration that fails, where the node halts.
     */
    method RudderSubsystemInit() returns (ok: bool)
      modifies this`sched
      ensures ok == Startup(old(sched)).0 && sched == Startup(old(sched)).1
      ensures ok <==> old(sched) == map[]
      ensures ok ==> sched == map[1 := 10, 2 := 4, 3 := 1, 4 := 2]
    {
      StartupOutcome(sched);
      ghost var s0 := sched;
      assert Startup(s0) == Register(s0, [1, 2, 3, 4], [10, 4, 1, 2]);
      ok := AddMessageRepeating(SCHED_ID_RUDDER_ANGLE, 10);
      if !ok {
        return;
      }
      assert Startup(s0) == Register(sched, [2, 3, 4], [4, 1, 2]) by {
        assert [1, 2, 3, 4][1..] == [2, 3, 4] && [10, 4, 1, 2][1..] == [4, 1, 2];
      }
      ok := AddMessageRepeating(SCHED_ID_CUSTOM_LIMITS, 4);
      if !ok {
        return;
      }
      assert Startup(s0) == Register(sched, [3, 4], [1, 2]) by {
        assert [2, 3, 4][1..] == [3, 4] && [4, 1, 2][1..] == [1, 2];
      }
      ok := AddMessageRepeating(SCHED_ID_TEMPERATURE, 1);
      if !ok {
        return;
      }
      assert Startup(s0) == Register(sched, [4], [2]) by {
        assert [3, 4][1..] == [4] && [1, 2][1..] == [2];
      }
      ok := AddMessageRepeating(SCHED_ID_STATUS, 2);
      assert [4][1..] == [] && [2][1..] == [];
    }

    // ---- Calibration ----

    /** SaveRudderCalibrationRange: the current limits go to non-volatile memory. */
    method SaveRudderCalibrationRange()
      modifies this`savedRanges
      ensures savedRanges == old(savedRanges) + [(rudderCalData.portLimitValue, rudderCalData.starLimitValue)]
    {
      savedRanges := savedRanges + [(rudderCalData.portLimitValue, rudderCalData.starLimitValue)];
    }

    /** RudderCalibrate: one step of the calibration state machine, saving the range when a run completes. */
    method RudderCalibrate()
      modifies this`rudderCalData, this`savedRanges
      ensures rudderCalData == CalStep(old(rudderCalData), InputsOf(rudderSensorData)).0
      ensures savedRanges == old(savedRanges) +
        (if CalStep(old(rudderCalData), InputsOf(rudderSensorData)).1
         then [(rudderCalData.portLimitValue, rudderCalData.starLimitValue)] else [])
    {
      var state := rudderCalData.state;
      if state == Init {
        rudderCalData := rudderCalData.(calibrated := false, calibrating := true, commandedRun := true);
        rudderCalData := rudderCalData.(portLimitValue := 0, starLimitValue := 0);
        if rudderSensorData.starLimit {
          rudderCalData := rudderCalData.(state := FirstToPort, commandedDirection := TO_PORT);
        } else {
          rudderCalData := rudderCalData.(state := FirstToStarboard, commandedDirection := TO_STARBOARD);
        }
      } else if state == FirstToPort {
        if rudderSensorData.portLimit {
          rudderCalData := rudderCalData.(portLimitValue := rudderSensorData.potValue);
          rudderCalData := rudderCalData.(state := SecondToStarboard, commandedDirection := TO_STARBOARD);
        }
      } else if state == FirstToStarboard {
        if rudderSensorData.starLimit {
          rudderCalData := rudderCalData.(starLimitValue := rudderSensorData.potValue);
          rudderCalData := rudderCalData.(state := SecondToPort, commandedDirection := TO_PORT);
        }
      } else if state == SecondToPort {
        if rudderSensorData.portLimit {
          rudderCalData := rudderCalData.(portLimitValue := rudderSensorData.potValue);
          SaveRudderCalibrationRange();
          rudderCalData := rudderCalData.(state := Recenter, commandedDirection := TO_STARBOARD, calibrated := true);
        }
      } else if state == SecondToStarboard {
        if rudderSensorData.starLimit {
          rudderCalData := rudderCalData.(starLimitValue := rudderSensorData.potValue);
          SaveRudderCalibrationRange();
          rudderCalData := rudderCalData.(state := Recenter, commandedDirection := TO_PORT, calibrated := true);
        }
      } else if state == Recenter {
        if Centred(rudderSensorData.positionAngle) {
          rudderCalData := rudderCalData.(commandedRun := false, calibrating := false, state := Null);
        }
      }
    }

    // ---- Receiving ----

    /** UpdateMessageRate: each rate byte in 1..100 re-registers its id at that rate. */
    method UpdateMessageRate(angleRate: uint8, statusRate: uint8)
      modifies this`sched
      ensures sched == UpdateRates(old(sched), angleRate, statusRate)
    {
      if angleRate != 0xFF {
        if angleRate == 0x00 {
        } else if angleRate <= 100 && angleRate >= 1 {
          RemoveMessage(SCHED_ID_RUDDER_ANGLE);
          var added := AddMessageRepeating(SCHED_ID_RUDDER_ANGLE, angleRate);
        }
      }
      if statusRate != 0xFF {
        if statusRate == 0x00 {
        } else if statusRate <= 100 && statusRate >= 1 {
          RemoveMessage(SCHED_ID_CUSTOM_LIMITS);
          var added := AddMessageRepeating(SCHED_ID_CUSTOM_LIMITS, statusRate);
        }
      }
    }

    /** ecan1_receive: hands over the oldest queued frame, if any, and how many remain. */
    method Receive() returns (found: bool, msg: Frame, messagesLeft: nat)
      modifies this`rxQueue
      ensures found == (old(rxQueue) != [])
      ensures found ==> msg == old(rxQueue)[0] && rxQueue == old(rxQueue)[1..]
      ensures !found ==> rxQueue == old(rxQueue)
      ensures messagesLeft == |rxQueue|
    {
      if rxQueue == [] {
        found, msg := false, Frame(false, 0, [0, 0, 0, 0, 0, 0, 0, 0]);
      } else {
        found, msg := true, rxQueue[0];
        rxQueue := rxQueue[1..];
      }
      messagesLeft := |rxQueue|;
    }

    /** The body of the receive loop for one frame. */
    method HandleFrame(msg: Frame)
      modifies this`rudderCalData, this`sched, this`rudderSensorData
      ensures State() == OnFrame(old(State()), msg, cfg, codecs)
    {
      if msg.id == cfg.setStateId {
        if msg.payload[0] & 0x01 == 1 && rudderCalData.calibrating == false {
          rudderCalData := rudderCalData.(state := Init);
        }
      } else if msg.id == cfg.setTxRateId {
        UpdateMessageRate(msg.payload[0] as uint8, msg.payload[1] as uint8);
      } else {
        var pgn := codecs.pgnOf(msg.id);
        if pgn == PGN_RUDDER {
          var r := codecs.pgn127245(msg.payload);
          rudderSensorData := rudderSensorData.(commandedAngle := Keep(r.mask, 3, r.out, rudderSensorData.commandedAngle));
        }
      }
    }

    // ---- Transmitting ----

    /** RudderSendNmea: PGN 127245 with instance 0xFF, direction order 0xF, no command, and the measured angle. */
    method RudderSendNmea()
      modifies this`sent
      ensures sent == old(sent) + SendFor(SCHED_ID_RUDDER_ANGLE, State(), cfg)
    {
      sent := sent + [RudderAngleFrame(cfg.nodeId, 0xFF, 0xF, 0.0, rudderSensorData.positionAngle)];
    }

    /** RudderSendCustomLimit: the rudder details frame, with the rudder reported enabled. */
    method RudderSendCustomLimit()
      modifies this`sent
      ensures sent == old(sent) + SendFor(SCHED_ID_CUSTOM_LIMITS, State(), cfg)
    {
      sent := sent + [RudderDetailsFrame(rudderSensorData.potValue, rudderCalData.portLimitValue,
                                         rudderCalData.starLimitValue, rudderSensorData.portLimit,
                                         rudderSensorData.starLimit, true, rudderCalData.calibrated,
                                         rudderCalData.calibrating)];
    }

    /** RudderSendTemperature: builds the payload, but its transmission is disabled. */
    method RudderSendTemperature() returns (payload: Payload)
      ensures payload == TemperaturePayload(rudderSensorData.centiKelvin)
    {
      var instances: bv8 := 2;
      instances := instances | (0x3 << 6);
      var temp := rudderSensorData.centiKelvin;
      payload := [0xFF, instances, (temp & 0xFF) as bv8, (temp >> 8) as bv8, 0xFF, 0xFF, 0xFF, 0xFF];
    }

    /** RudderSendStatus: the STATUS frame every node sends, with its status word and no errors. */
    method RudderSendStatus()
      modifies this`sent
      ensures sent == old(sent) + SendFor(SCHED_ID_STATUS, State(), cfg)
    {
      var status := StatusWord(rudderSensorData.portLimit, rudderSensorData.starLimit,
                               rudderCalData.calibrated, rudderCalData.calibrating);
      var errors := 0;
      sent := sent + [StatusFrame(cfg.nodeId, status, errors)];
    }

    /**
     * SendAndReceiveEcan: drains the receive queue, then runs the sender of each id the scheduler
     * returns for this timestep, in the order returned.
     */
    method SendAndReceiveEcan(due: seq<uint8>)
      modifies this`rudderCalData, this`sched, this`rudderSensorData, this`rxQueue, this`sent
      ensures rxQueue == []
      ensures State() == ReceiveAll(old(State()), old(rxQueue), cfg, codecs)
      ensures sent == old(sent) + Outbox(due, State(), cfg)
    {
      ghost var queue := rxQueue;
      ghost var start := State();
      ghost var k := 0;
      var more := true;
      while more
        invariant 0 <= k <= |queue| && rxQueue == queue[k..]
        invariant State() == ReceiveAll(start, queue[..k], cfg, codecs)
        invariant sent == old(sent)
        invariant !more ==> rxQueue == []
        decreases |rxQueue| + (if more then 1 else 0)
      {
        var found, msg, messagesLeft := Receive();
        if found {
          HandleFrame(msg);
          assert queue[..k + 1][..k] == queue[..k];
          k := k + 1;
        }
        more := messagesLeft > 0;
      }
      assert queue[..k] == queue;

      ghost var received := State();
      var i := 0;
      while i < |due|
        invariant 0 <= i <= |due|
        invariant rxQueue == [] && State() == received
        invariant sent == old(sent) + Outbox(due[..i], State(), cfg)
      {
        var id := due[i];
        assert due[..i + 1][..i] == due[..i];
        if id == SCHED_ID_CUSTOM_LIMITS {
          RudderSendCustomLimit();
        } else if id == SCHED_ID_RUDDER_ANGLE {
          RudderSendNmea();
        } else if id == SCHED_ID_TEMPERATURE {
          var payload := RudderSendTemperature();
        } else if id == SCHED_ID_STATUS {
          RudderSendStatus();
        }
        i := i + 1;
      }
      assert due[..i] == due;
    }
  }
}
