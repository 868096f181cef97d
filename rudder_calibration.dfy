/**
 * The rudder calibration state machine (RudderCalibrate, Code/Rudder_Subsystem/clib/ecanRudder.c:85-135)
 * and the rule by which a SET_STATE frame starts a run (218-221). A run drives the rudder to one
 * limit switch, then to the other, recording the potentiometer reading at each, saves the range
 * and recentres.
 */
module RudderCalibration {
  import opened CanTypes

  datatype CalState = Null | Init | FirstToPort | FirstToStarboard | SecondToPort | SecondToStarboard | Recenter

  /** The commanded direction values. */
  const TO_PORT: uint8 := 1
  const TO_STARBOARD: uint8 := 0

  /** The struct RudderCalibrationData. */
  datatype CalData = CalData(
    state: CalState,
    calibrated: bool,
    calibrating: bool,
    commandedRun: bool,
    commandedDirection: uint8,
    portLimitValue: uint16,
    starLimitValue: uint16)

  /** The zero initialiser of the calibration struct. */
  const INITIAL_CAL := CalData(Null, false, false, false, 0, 0, 0)

  /** What the state machine reads of the rudder's sensors. */
  datatype Inputs = Inputs(starLimit: bool, portLimit: bool, potValue: uint16, positionAngle: real)

  /** The recentring test: the rudder angle is within 0.1 radians of centre. */
  predicate Centred(angle: real)
  {
    -0.1 < angle < 0.1
  }

  /** One call of RudderCalibrate: the new calibration data, and whether the range was saved. */
  function CalStep(d: CalData, i: Inputs): (CalData, bool)
  {
    match d.state
    case Init =>
      var started := d.(calibrated := false, calibrating := true, commandedRun := true,
                         portLimitValue := 0, starLimitValue := 0);
      if i.starLimit then (started.(state := FirstToPort, commandedDirection := TO_PORT), false)
      else (started.(state := FirstToStarboard, commandedDirection := TO_STARBOARD), false)
    case FirstToPort =>
      if i.portLimit then
        (d.(portLimitValue := i.potValue, state := SecondToStarboard, commandedDirection := TO_STARBOARD), false)
      else (d, false)
    case FirstToStarboard =>
      if i.starLimit then
        (d.(starLimitValue := i.potValue, state := SecondToPort, commandedDirection := TO_PORT), false)
      else (d, false)
    case SecondToPort =>
      if i.portLimit then
        (d.(portLimitValue := i.potValue, state := Recenter, commandedDirection := TO_STARBOARD, calibrated := true), true)
      else (d, false)
    case SecondToStarboard =>
      if i.starLimit then
        (d.(starLimitValue := i.potValue, state := Recenter, commandedDirection := TO_PORT, calibrated := true), true)
      else (d, false)
    case Recenter =>
      if Centred(i.positionAngle) then
        (d.(commandedRun := false, calibrating := false, state := Null), false)
      else (d, false)
    case Null =>
      (d, false)
  }

  /** A SET_STATE frame: bit 0 of its first byte starts a run, unless one is in progress. */
  function SetState(d: CalData, command: bv8): CalData
  {
    if command & 0x01 == 1 && !d.calibrating then d.(state := Init) else d
  }

  // ---- Properties ----

  /** The states in which the motor is driven by the calibration run. */
  predicate Running(s: CalState)
  {
    s in {FirstToPort, FirstToStarboard, SecondToPort, SecondToStarboard, Recenter}
  }

  /**
   * What holds of the calibration data between calls: a run is in progress exactly in the running
   * states and commands the motor exactly then; the direction points at the limit being sought;
   * the rudder reads calibrated while recentring and not while seeking a limit.
   */
  predicate Consistent(d: CalData)
  {
    && d.calibrating == d.commandedRun
    && (d.calibrating <==> Running(d.state))
    && (d.state in {FirstToPort, SecondToPort} ==> d.commandedDirection == TO_PORT)
    && (d.state in {FirstToStarboard, SecondToStarboard} ==> d.commandedDirection == TO_STARBOARD)
    && (d.state == Recenter ==> d.calibrated)
    && (d.state in {FirstToPort, FirstToStarboard, SecondToPort, SecondToStarboard} ==> !d.calibrated)
    && (d.state in {FirstToPort, SecondToStarboard} ==> d.starLimitValue == 0)
    && (d.state in {FirstToStarboard, SecondToPort} ==> d.portLimitValue == 0)
  }

  lemma InitiallyConsistent()
    ensures Consistent(INITIAL_CAL)
  {
  }

  /** One step keeps the data consistent; the range is saved exactly on entering RECENTER. */
  lemma StepKeepsConsistent(d: CalData, i: Inputs)
    requires Consistent(d)
    ensures var (r, saved) := CalStep(d, i);
      && Consistent(r)
      && (saved <==> r.state == Recenter && d.state != Recenter)
  {
  }

  /** Starting a run keeps the data consistent, and never interrupts a run in progress. */
  lemma SetStateKeepsConsistent(d: CalData, command: bv8)
    requires Consistent(d)
    ensures Consistent(SetState(d, command))
    ensures d.calibrating ==> SetState(d, command) == d
  {
  }

  /**
   * The step of every state: INIT starts a run toward the limit the rudder is not on; each
   * limit-seeking state moves on, recording the potentiometer and turning round, exactly when its
   * limit switch closes and otherwise stays put; RECENTER ends the run exactly when centred; NULL
   * never moves. The range is saved exactly when a second limit is reached.
   */
  lemma Transitions(d: CalData, i: Inputs)
    ensures var (r, saved) := CalStep(d, i);
      && (d.state == Null ==> r == d)
      && (d.state == Init ==>
            r == d.(calibrated := false, calibrating := true, commandedRun := true,
                    portLimitValue := 0, starLimitValue := 0,
                    state := if i.starLimit then FirstToPort else FirstToStarboard,
                    commandedDirection := if i.starLimit then TO_PORT else TO_STARBOARD))
      && (d.state == FirstToPort && i.portLimit ==>
            r == d.(portLimitValue := i.potValue, state := SecondToStarboard, commandedDirection := TO_STARBOARD))
      && (d.state == FirstToStarboard && i.starLimit ==>
            r == d.(starLimitValue := i.potValue, state := SecondToPort, commandedDirection := TO_PORT))
      && (d.state == SecondToPort && i.portLimit ==>
            r == d.(portLimitValue := i.potValue, state := Recenter, commandedDirection := TO_STARBOARD, calibrated := true))
      && (d.state == SecondToStarboard && i.starLimit ==>
            r == d.(starLimitValue := i.potValue, state := Recenter, commandedDirection := TO_PORT, calibrated := true))
      && (d.state in {FirstToPort, SecondToPort} && !i.portLimit ==> r == d)
      && (d.state in {FirstToStarboard, SecondToStarboard} && !i.starLimit ==> r == d)
      && (d.state == Recenter && Centred(i.positionAngle) ==>
            r == d.(commandedRun := false, calibrating := false, state := Null))
      && (d.state == Recenter && !Centred(i.positionAngle) ==> r == d)
      && (saved <==> (d.state == SecondToPort && i.portLimit) || (d.state == SecondToStarboard && i.starLimit))
  {
  }

  /** A sequence of calls of RudderCalibrate, and the ranges saved along the way. */
  function Run(d: CalData, inputs: seq<Inputs>): (CalData, seq<(uint16, uint16)>)
    decreases |inputs|
  {
    if inputs == [] then (d, [])
    else
      var step := CalStep(d, inputs[0]);
      var rest := Run(step.0, inputs[1..]);
      (rest.0, (if step.1 then [(step.0.portLimitValue, step.0.starLimitValue)] else []) + rest.1)
  }

  /** Consistency holds after any sequence of calls. */
  lemma {:induction false} RunKeepsConsistent(d: CalData, inputs: seq<Inputs>)
    requires Consistent(d)
    ensures Consistent(Run(d, inputs).0)
    decreases |inputs|
  {
    if inputs != [] {
      StepKeepsConsistent(d, inputs[0]);
      RunKeepsConsistent(CalStep(d, inputs[0]).0, inputs[1..]);
    }
  }

  /** While the sought limit switch stays open, the run waits where it is and saves nothing. */
  lemma {:induction false} WaitsForLimit(d: CalData, inputs: seq<Inputs>)
    requires d.state in {FirstToPort, SecondToPort} ==> forall k :: 0 <= k < |inputs| ==> !inputs[k].portLimit
    requires d.state in {FirstToStarboard, SecondToStarboard} ==> forall k :: 0 <= k < |inputs| ==> !inputs[k].starLimit
    requires d.state in {FirstToPort, FirstToStarboard, SecondToPort, SecondToStarboard}
    ensures Run(d, inputs).0 == d && Run(d, inputs).1 == []
    decreases |inputs|
  {
    if inputs != [] {
      assert CalStep(d, inputs[0]) == (d, false);
      WaitsForLimit(d, inputs[1..]);
    }
  }

  /**
   * A full run from INIT that starts away from the starboard limit: first starboard, then port,
   * then recentre. It records both limits, saves that range exactly once, and ends calibrated,
   * idle and no longer driving the motor.
   */
  lemma FullRunFromStarboardSide(d: CalData, away: Inputs, atStar: Inputs, atPort: Inputs, centred: Inputs)
    requires d.state == Init
    requires !away.starLimit && atStar.starLimit && atPort.portLimit && Centred(centred.positionAngle)
    ensures var (r, log) := Run(d, [away, atStar, atPort, centred]);
      && r.state == Null && r.calibrated && !r.calibrating && !r.commandedRun
      && r.starLimitValue == atStar.potValue && r.portLimitValue == atPort.potValue
      && log == [(atPort.potValue, atStar.potValue)]
  {
    var d1 := CalStep(d, away).0;
    var d2 := CalStep(d1, atStar).0;
    var d3 := CalStep(d2, atPort).0;
    var d4 := CalStep(d3, centred).0;
    assert d3.state == Recenter && CalStep(d2, atPort).1;
    assert Run(d3, [centred]).0 == d4 && Run(d3, [centred]).1 == [] by {
      assert [centred][1..] == [];
    }
    assert Run(d2, [atPort, centred]).0 == d4 && Run(d2, [atPort, centred]).1 == [(atPort.potValue, atStar.potValue)] by {
      assert [atPort, centred][1..] == [centred];
    }
    assert Run(d1, [atStar, atPort, centred]).0 == d4 && Run(d1, [atStar, atPort, centred]).1 == [(atPort.potValue, atStar.potValue)] by {
      assert [atStar, atPort, centred][1..] == [atPort, centred];
    }
    assert [away, atStar, atPort, centred][1..] == [atStar, atPort, centred];
  }

  /** The mirror-image run from INIT that starts on the starboard limit: first port, then starboard. */
  lemma FullRunFromPortSide(d: CalData, onStar: Inputs, atPort: Inputs, atStar: Inputs, centred: Inputs)
    requires d.state == Init
    requires onStar.starLimit && atPort.portLimit && atStar.starLimit && Centred(centred.positionAngle)
    ensures var (r, log) := Run(d, [onStar, atPort, atStar, centred]);
      && r.state == Null && r.calibrated && !r.calibrating && !r.commandedRun
      && r.starLimitValue == atStar.potValue && r.portLimitValue == atPort.potValue
      && log == [(atPort.potValue, atStar.potValue)]
  {
    var d1 := CalStep(d, onStar).0;
    var d2 := CalStep(d1, atPort).0;
    var d3 := CalStep(d2, atStar).0;
    var d4 := CalStep(d3, centred).0;
    assert d3.state == Recenter && CalStep(d2, atStar).1;
    assert Run(d3, [centred]).0 == d4 && Run(d3, [centred]).1 == [] by {
      assert [centred][1..] == [];
    }
    assert Run(d2, [atStar, centred]).0 == d4 && Run(d2, [atStar, centred]).1 == [(atPort.potValue, atStar.potValue)] by {
      assert [atStar, centred][1..] == [centred];
    }
    assert Run(d1, [atPort, atStar, centred]).0 == d4 && Run(d1, [atPort, atStar, centred]).1 == [(atPort.potValue, atStar.potValue)] by {
      assert [atPort, atStar, centred][1..] == [atStar, centred];
    }
    assert [onStar, atPort, atStar, centred][1..] == [atPort, atStar, centred];
  }
}
