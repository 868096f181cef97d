# Autoboat CAN handling: primary node sensor blackboard and rudder node

This project models two CAN endpoints of the Autoboat control system and proves properties of them.

**The primary node** (`Code/Primary_node/EcanSensors.c`) keeps a blackboard of the latest sensor readings.
- `ProcessAllEcanMessages` drains the CAN receive queue. It routes each frame by its standard identifier or its NMEA 2000 parameter group number (PGN) to a decoder. It copies the fields the decoder reports valid into the stores.
- Each frame clears the timeout counters of the sensor the frame is evidence for.
- The three GPS sub-messages (position, course/speed, fix quality) are reassembled into one fix. The fix is published only when the bundle is complete and the fix is usable.
- `UpdateSensorsAvailability` runs once per tick:
  - it ages the node-status table toward its sentinel values;
  - it steps every sensor's `enabled`/`active` hysteresis once, and the GPS's twice.

Module `EcanSensors` holds class `SensorHub`, which has the C globals as fields and the C functions as methods. Each method is proved equal to a pure function of the old blackboard (`Board`):
- `FrameDispatch.Dispatch` and `FrameDispatch.Drain` for reception;
- `SensorAging.Age` for the tick.

What those functions guarantee is proved as lemmas:
- `Hysteresis`: the timing of one availability record;
- `DispatchProperties`: which counters a frame clears, which fields each validity mask lets through, and GPS reassembly;
- `SensorAging`: what one tick does and when a node reads as timed out;
- `TickProperties`: every counter stays within its timeout whatever frames arrive.

**The rudder node** (`Code/Rudder_Subsystem/clib/ecanRudder.c`) has four jobs:
- it runs the calibration state machine, which drives the rudder to both limit switches, saves the range and recentres;
- it accepts a SET_STATE frame that starts a calibration;
- it accepts a rate-change frame for its periodic messages;
- it transmits the messages the scheduler reports due.

Module `EcanRudder` holds class `RudderNode`, whose methods are proved against these modules:
- `RudderCalibration`: the state machine and its consistency invariant;
- `MessageScheduler`: the scheduler as a registry from id to rate;
- `RudderFrames`: the STATUS word and the temperature payload;
- `RudderBus`: what a received frame changes, and what a timestep transmits.

## Model

| member | source | states |
|---|---|---|
| CanTypes.AsInt16 | Code/Primary_node/EcanSensors.c:147-153 | The `uint16_t`/`int16_t` union reinterprets the value modulo 2^16, and values below 0x8000 are unchanged. |
| Hysteresis.Step | Code/Primary_node/EcanSensors.c:25-34 | One aging step keeps a counter within the timeout, moves it up by at most one, and never changes the flag and the counter in the same step. |
| Hysteresis.StepTable | Code/Primary_node/EcanSensors.c:25-34 | The four cases of the macro: count up, clear the flag at the timeout, set the flag again below the timeout, or stay timed out. |
| Hysteresis.TimedOutIsSticky | Code/Primary_node/EcanSensors.c:31-33 | A cleared flag whose counter sits at the timeout stays that way for any number of ticks without a frame. |
| Hysteresis.StepSettles | Code/Primary_node/EcanSensors.c:25-34 | After any step, a cleared flag implies that the counter is exactly at the timeout. |
| Hysteresis.CountsUpWhileFresh | Code/Primary_node/EcanSensors.c:26-28 | While a flag is set, the counter rises by exactly one per tick up to the timeout. |
| Hysteresis.EventuallyTimesOut | Code/Primary_node/EcanSensors.c:25-34 | From any bounded record, a stated number of ticks without a frame always ends in the timed-out state. |
| Hysteresis.TimeoutBoundary | Code/Primary_node/EcanSensors.c:25-34 | After a reset, the flag holds for exactly `timeout` ticks and is cleared on tick `timeout + 1`. |
| Hysteresis.ResetRevives | Code/Primary_node/EcanSensors.c:31-33 | With a positive timeout, a reset record has its flag set after the next tick. |
| SensorStore.InitialTable | Code/Primary_node/EcanSensors.c:83-93 | Every sensor starts with both flags set and both counters at the timeout. |
| SensorStore.InitialBoard | Code/Primary_node/EcanSensors.c:43-93 | Every node entry starts as the sentinel with its counter at the node timeout, and the GPS bundle starts empty. |
| SensorAging.StepSensor | Code/Primary_node/EcanSensors.c:39-41 | SENSOR_STATE_UPDATE steps both records of the named sensor and leaves every other sensor unchanged. |
| SensorAging.AgeSensors | Code/Primary_node/EcanSensors.c:475-484 | After the ten macro lines, the GPS has been stepped twice and every other sensor once. |
| SensorAging.AgeNodes | Code/Primary_node/EcanSensors.c:456-470 | This node's own entry is untouched. Every other entry counts up, or becomes the sentinel once its counter is at the timeout. |
| SensorAging.Age | Code/Primary_node/EcanSensors.c:450-485 | A tick keeps one entry and one counter per node. |
| SensorAging.InitiallyBounded | Code/Primary_node/EcanSensors.c:71-93 | The start-up counters are all within their timeouts. |
| SensorAging.AgeKeepsBounds | Code/Primary_node/EcanSensors.c:450-485 | A tick keeps every sensor and node counter within its timeout. |
| SensorAging.AgingSteps | Code/Primary_node/EcanSensors.c:475-484 | A tick steps the GPS twice and every other sensor once, and changes nothing but the node table and availability. |
| SensorAging.FirstTickAllUnavailable | Code/Primary_node/EcanSensors.c:83-93 | After the first tick from start-up, every sensor reads disabled and inactive. |
| SensorAging.NodeAging | Code/Primary_node/EcanSensors.c:456-470 | Per node index: own entry kept; below the timeout the counter increments and the entry is kept; at the timeout the entry reads as the sentinel. |
| SensorAging.NodeTimeline | Code/Primary_node/EcanSensors.c:456-470 | After a STATUS frame clears a counter, the entry keeps its values for exactly NODE_TIMEOUT ticks and reads as the sentinel from then on. |
| SensorAging.SentinelIsSticky | Code/Primary_node/EcanSensors.c:463-468 | A node at the sentinel with its counter at the timeout stays there without a STATUS frame. |
| DispatchProperties.PartArrivedAvail | Code/Primary_node/EcanSensors.c:315-326 | A GPS sub-message clears the GPS `active` counter exactly when it completes the bundle and the fix is usable, and it leaves the accumulated fix alone. |
| DispatchProperties.EvidenceRules | Code/Primary_node/EcanSensors.c:136-433 | Every frame clears the `enabled` counter of exactly the sensor given by an independent frame-to-sensor table. It clears that sensor's `active` counter only under the table's validity rule, and changes no other entry and no flag. |
| DispatchProperties.ActiveOnlyWithEnabled | Code/Primary_node/EcanSensors.c:136-433 | A frame never clears an `active` counter without also clearing the same sensor's `enabled` counter. |
| DispatchProperties.FramesKeepFlags | Code/Primary_node/EcanSensors.c:136-433 | Reception never changes an availability flag; only the tick does. |
| DispatchProperties.UnknownFrameIsIgnored | Code/Primary_node/EcanSensors.c:135-436 | A frame whose identifier or PGN has no case leaves the blackboard unchanged. |
| DispatchProperties.UnknownQueueIsIgnored | Code/Primary_node/EcanSensors.c:131-439 | Draining a queue of such frames leaves the blackboard unchanged. |
| DispatchProperties.BatteryFrame | Code/Primary_node/EcanSensors.c:267-276 | Voltage, current and temperature are each written exactly when their bit is set. New data is announced exactly when voltage and current were both decoded. |
| DispatchProperties.SystemTimeFrame | Code/Primary_node/EcanSensors.c:249-258 | Year, month, day, hour, minute and second are each written exactly when their bit (2 to 7) is set. The time is announced as new only when all six fields were decoded. |
| DispatchProperties.WaterFrames | Code/Primary_node/EcanSensors.c:277-294 | Speed, depth and water temperature are each written under their bit, each with its own new-data rule. Water temperature never marks the DST800 active. |
| DispatchProperties.WeatherFrames | Code/Primary_node/EcanSensors.c:413-433 | Wind speed and direction, and air temperature, humidity and pressure, are each written under their own bit. New data is announced when any field was decoded. |
| DispatchProperties.UnmonitoredPgns | Code/Primary_node/EcanSensors.c:260-266 | The rudder PGN writes the manual rudder command under bit 2 and the angle under bit 3, and touches no availability. Magnetic variation writes only the variation, under bit 3. |
| DispatchProperties.HeartbeatFrame | Code/Primary_node/EcanSensors.c:136-142 | The rpm is always stored and announced and the propulsion `enabled` counter is cleared. The `active` counter is cleared only when status bit 0x40 of byte 6 is clear. |
| DispatchProperties.StatusFrame | Code/Primary_node/EcanSensors.c:155-183 | A node id in 1..7 overwrites all five fields of its entry and clears its counter; for the RC node it also refreshes availability, with `active` only under status bit 0. Any other id changes nothing. |
| DispatchProperties.GpsFrames | Code/Primary_node/EcanSensors.c:295-409 | Position writes latitude and longitude (bits 0 and 1), course/speed writes course and speed (bits 2 and 3), and fix quality writes mode, HDOP and VDOP (bits 2 to 4) into the accumulated fix, each under its own bit and leaving the other fields alone. Apart from availability and the bundle, only a publication of the accumulated fix changes anything. |
| DispatchProperties.WriteParamFrame | Code/Primary_node/EcanSensors.c:143-154 | Only a write to the current-command address changes the secondary throttle command, to the value read as signed 16-bit. Any other address changes nothing. |
| DispatchProperties.DetailsAndImuFrames | Code/Primary_node/EcanSensors.c:184-245 | Rudder details, gyro and each of the five IMU frames store their decoder's values in their own field and change nothing else but availability. |
| DispatchProperties.CountersOnlyCleared | Code/Primary_node/EcanSensors.c:155-183 | A frame leaves each node counter unchanged or sets it to zero, and only a STATUS frame sets one to zero. |
| DispatchProperties.ReceivedTransition | Code/Primary_node/EcanSensors.c:301-330 | A repeated part restarts the bundle with that part alone, a new part is added, and a completing part empties the bundle. The set is never left complete. |
| DispatchProperties.PublishRule | Code/Primary_node/EcanSensors.c:312-328 | The public GPS reading becomes the accumulated fix, flagged new, exactly when the part completes the bundle and the fix is usable; otherwise it is untouched. |
| DispatchProperties.MaskNeverAll | Code/Primary_node/EcanSensors.c:295-409 | No frame leaves all three parts marked received. |
| DispatchProperties.DrainKeepsBundleOpen | Code/Primary_node/EcanSensors.c:131-439 | However many frames are drained, the received set is never left complete. |
| DispatchProperties.ThreePartsPublish | Code/Primary_node/EcanSensors.c:295-409 | Three distinct valid parts into an empty bundle publish the fix once if it is usable, and leave the bundle empty again. |
| TickProperties.DispatchKeepsBounds | Code/Primary_node/EcanSensors.c:136-433 | One frame keeps every counter within its timeout. |
| TickProperties.DrainKeepsBounds | Code/Primary_node/EcanSensors.c:131-439 | Draining any queue keeps every counter within its timeout. |
| TickProperties.Tick | Code/Primary_node/EcanSensors.c:123-485 | A drain followed by an aging tick keeps one entry and one counter per node. |
| TickProperties.TickKeepsBounds | Code/Primary_node/EcanSensors.c:123-485 | A whole main-loop tick keeps every counter within its timeout, so every reachable blackboard is bounded. |
| EcanSensors.SensorHub.constructor | Code/Primary_node/EcanSensors.c:43-93 | The globals start as the initialisers give them, with an empty receive queue. |
| EcanSensors.SensorHub.GetWaterSpeed | Code/Primary_node/EcanSensors.c:95-99 | Returns the stored water speed and clears only its new-data flag. |
| EcanSensors.SensorHub.GetPropSpeed | Code/Primary_node/EcanSensors.c:101-105 | Returns the stored rpm and clears only its new-data flag. |
| EcanSensors.SensorHub.GetGpsData | Code/Primary_node/EcanSensors.c:107-111 | Returns the stored GPS reading and clears only its new-data flag. |
| EcanSensors.SensorHub.Receive | Code/Primary_node/EcanSensors.c:132 | Hands over the oldest queued frame, if there is one, reports how many remain, and leaves the stores untouched. |
| EcanSensors.SensorHub.GpsPartArrived | Code/Primary_node/EcanSensors.c:301-330 | The reassembly step in place equals `PartArrived` of the old blackboard. |
| EcanSensors.SensorHub.HeartbeatFrame | Code/Primary_node/EcanSensors.c:136-142 | The new blackboard equals `OnHeartbeat` of the old one. |
| EcanSensors.SensorHub.WriteParamFrame | Code/Primary_node/EcanSensors.c:143-154 | The secondary throttle command is taken, as a signed value, only for the current-command parameter. |
| EcanSensors.SensorHub.StatusFrame | Code/Primary_node/EcanSensors.c:155-183 | Writing the node table arrays in place equals `OnStatus` of the old blackboard. |
| EcanSensors.SensorHub.RudderDetailsFrame | Code/Primary_node/EcanSensors.c:184-199 | The rudder details are stored, and the rudder reads active only when enabled, calibrated and not calibrating. |
| EcanSensors.SensorHub.HandleStdFrame | Code/Primary_node/EcanSensors.c:135-245 | The standard-frame branch equals `Dispatch` of the old blackboard. |
| EcanSensors.SensorHub.SystemTimeFrame | Code/Primary_node/EcanSensors.c:249-258 | Equals `OnSystemTime` of the old blackboard. |
| EcanSensors.SensorHub.RudderFrame | Code/Primary_node/EcanSensors.c:260-266 | Equals `OnRudder` of the old blackboard. |
| EcanSensors.SensorHub.BatteryFrame | Code/Primary_node/EcanSensors.c:267-276 | Equals `OnBattery` of the old blackboard. |
| EcanSensors.SensorHub.SpeedFrame | Code/Primary_node/EcanSensors.c:277-283 | Equals `OnSpeed` of the old blackboard. |
| EcanSensors.SensorHub.DepthFrame | Code/Primary_node/EcanSensors.c:284-294 | Equals `OnDepth` of the old blackboard. |
| EcanSensors.SensorHub.PositionFrame | Code/Primary_node/EcanSensors.c:295-333 | Equals `OnPosition` of the old blackboard. |
| EcanSensors.SensorHub.HeadingFrame | Code/Primary_node/EcanSensors.c:334-372 | Equals `OnHeading` of the old blackboard. |
| EcanSensors.SensorHub.FixQualityFrame | Code/Primary_node/EcanSensors.c:373-409 | Equals `OnFixQuality` of the old blackboard. |
| EcanSensors.SensorHub.VariationFrame | Code/Primary_node/EcanSensors.c:410-412 | Equals `OnVariation` of the old blackboard. |
| EcanSensors.SensorHub.WindFrame | Code/Primary_node/EcanSensors.c:413-419 | Equals `OnWind` of the old blackboard. |
| EcanSensors.SensorHub.WaterTemperatureFrame | Code/Primary_node/EcanSensors.c:420-426 | Equals `OnWaterTemperature` of the old blackboard. |
| EcanSensors.SensorHub.AirFrame | Code/Primary_node/EcanSensors.c:427-433 | Equals `OnAir` of the old blackboard. |
| EcanSensors.SensorHub.HandlePgnFrame | Code/Primary_node/EcanSensors.c:246-435 | The extended-frame switch equals `Dispatch` of the old blackboard. |
| EcanSensors.SensorHub.HandleFrame | Code/Primary_node/EcanSensors.c:133-437 | The loop body for one frame equals `Dispatch` of the old blackboard. |
| EcanSensors.SensorHub.ProcessAllEcanMessages | Code/Primary_node/EcanSensors.c:123-442 | Empties the queue. Leaves the blackboard equal to `Drain` of the old blackboard over the old queue, in order. Returns the queue length modulo 256. |
| EcanSensors.SensorHub.SensorStateUpdate | Code/Primary_node/EcanSensors.c:39-41 | The macro in place equals `StepSensor`. |
| EcanSensors.SensorHub.AgeNodeTable | Code/Primary_node/EcanSensors.c:456-470 | The node loop in place on the two arrays equals `AgeNodes` of their old contents. |
| EcanSensors.SensorHub.AgeAvailability | Code/Primary_node/EcanSensors.c:475-484 | The ten macro lines in place equal `AgeSensors` of the old table. |
| EcanSensors.SensorHub.UpdateSensorsAvailability | Code/Primary_node/EcanSensors.c:450-485 | The node loop and the ten macro lines in place equal `Age` of the old blackboard. |
| MessageScheduler.Add | Code/Rudder_Subsystem/clib/ecanRudder.c:62-83 | Registration succeeds exactly when the id is new and the table has room. On success the id is scheduled at its rate and the table grows by one. |
| MessageScheduler.Remove | Code/Rudder_Subsystem/clib/ecanRudder.c:269-270 | The id is no longer scheduled, and every other entry is kept with its rate. |
| MessageScheduler.StartupOutcome | Code/Rudder_Subsystem/clib/ecanRudder.c:62-83 | Start-up succeeds exactly on an empty scheduler, and then schedules ids 1, 2, 3 and 4 at 10, 4, 1 and 2 Hz. |
| MessageScheduler.SetRateEffect | Code/Rudder_Subsystem/clib/ecanRudder.c:264-271 | A rate byte in 1..100 replaces that id's rate when the id is registered or there is room. 0, 0xFF and 101..254 leave the registry as it was. |
| MessageScheduler.UpdateKeepsFits | Code/Rudder_Subsystem/clib/ecanRudder.c:261-282 | The rate-change command never overfills the scheduler's table. |
| MessageScheduler.UpdateRatesIndependent | Code/Rudder_Subsystem/clib/ecanRudder.c:261-282 | The angle byte alone decides the rudder-angle entry, and every entry other than the two named ids is kept. |
| MessageScheduler.RatesOnRegistered | Code/Rudder_Subsystem/clib/ecanRudder.c:261-282 | The exact effect of both bytes on the rudder-angle and custom-limits entries; all other entries are kept. |
| MessageScheduler.UpdateKeepsIds | Code/Rudder_Subsystem/clib/ecanRudder.c:261-282 | After start-up, rate changes keep the same four ids registered. |
| RudderCalibration.InitiallyConsistent | Code/Rudder_Subsystem/clib/ecanRudder.c:85-135 | The zeroed calibration data satisfies the state machine's invariant. |
| RudderCalibration.StepKeepsConsistent | Code/Rudder_Subsystem/clib/ecanRudder.c:85-135 | One RudderCalibrate call keeps the invariant: a run is in progress and the motor is commanded exactly in the running states, and the direction points at the sought limit. The range is saved exactly on entering RECENTER. |
| RudderCalibration.SetStateKeepsConsistent | Code/Rudder_Subsystem/clib/ecanRudder.c:218-221 | Starting a run keeps the invariant and never interrupts a run in progress. |
| RudderCalibration.Transitions | Code/Rudder_Subsystem/clib/ecanRudder.c:85-135 | The exact successor of every state. INIT starts a run away from the closed limit. Each limit-seeking state records the potentiometer, turns round and moves on exactly when its switch closes, and otherwise stays put. RECENTER ends the run exactly when centred, and NULL never moves. The range is saved exactly when the second limit is reached. |
| RudderCalibration.RunKeepsConsistent | Code/Rudder_Subsystem/clib/ecanRudder.c:85-135 | The invariant holds after any sequence of calls. |
| RudderCalibration.WaitsForLimit | Code/Rudder_Subsystem/clib/ecanRudder.c:100-127 | While the sought limit switch stays open, the run waits in place and saves nothing. |
| RudderCalibration.FullRunFromStarboardSide | Code/Rudder_Subsystem/clib/ecanRudder.c:85-135 | A run that starts off the starboard limit ends idle and calibrated, with both limits recorded and the range saved exactly once. |
| RudderCalibration.FullRunFromPortSide | Code/Rudder_Subsystem/clib/ecanRudder.c:85-135 | The same for a run that starts on the starboard limit and goes to port first. |
| RudderFrames.StatusWordRoundTrip | Code/Rudder_Subsystem/clib/ecanRudder.c:196-199 | Each flag lands on its own bit of the STATUS word, reads back unchanged, and bits 4-15 are clear. |
| RudderFrames.StatusWordInjective | Code/Rudder_Subsystem/clib/ecanRudder.c:196-199 | Distinct flag combinations give distinct STATUS words. |
| RudderFrames.TemperatureRoundTrip | Code/Rudder_Subsystem/clib/ecanRudder.c:181-182 | The payload carries the temperature in hundredths of a kelvin unchanged, low byte first. |
| RudderFrames.TemperatureLayout | Code/Rudder_Subsystem/clib/ecanRudder.c:175-185 | Temperature instance 2 and humidity instance 3 share byte 1. SID, humidity and pressure are marked not available. |
| RudderBus.SetStateFrame | Code/Rudder_Subsystem/clib/ecanRudder.c:218-221 | A SET_STATE frame enters INIT exactly when bit 0 of byte 0 is set and no run is in progress, and changes nothing else. |
| RudderBus.SetTxRateFrame | Code/Rudder_Subsystem/clib/ecanRudder.c:222-224 | A rate-change frame hands bytes 0 and 1 to the rate-change command and changes nothing else. |
| RudderBus.RudderCommandFrame | Code/Rudder_Subsystem/clib/ecanRudder.c:225-231 | A PGN 127245 frame takes the commanded angle only when its bit is set, and changes nothing else. |
| RudderBus.RunIsNotInterrupted | Code/Rudder_Subsystem/clib/ecanRudder.c:213-234 | While a calibration runs, no sequence of received frames alters the calibration data. |
| RudderBus.FrameKeepsInvariants | Code/Rudder_Subsystem/clib/ecanRudder.c:213-234 | One received frame keeps the calibration invariant and the scheduler within its table. |
| RudderBus.ReceiveKeepsInvariants | Code/Rudder_Subsystem/clib/ecanRudder.c:213-234 | Receiving any queue keeps both invariants. |
| RudderBus.SendForCount | Code/Rudder_Subsystem/clib/ecanRudder.c:237-258 | The angle, limits and status ids each transmit one frame. The temperature id and unknown ids transmit none. |
| RudderBus.OutboxAppend | Code/Rudder_Subsystem/clib/ecanRudder.c:237-258 | The frames for two runs of due ids are the two outboxes in order. |
| RudderBus.OutboxCount | Code/Rudder_Subsystem/clib/ecanRudder.c:237-258 | One frame per transmitting due id; nothing at all when no due id transmits. |
| RudderBus.StatusFrameReports | Code/Rudder_Subsystem/clib/ecanRudder.c:192-205 | The STATUS frame carries this node's id and no errors, and its word decodes to the limit switches and calibration flags. |
| EcanRudder.RudderNode.constructor | Code/Rudder_Subsystem/clib/ecanRudder.c:62-83 | The calibration and sensor structs start zeroed, with an empty scheduler and no frames queued, sent or ranges saved. |
| EcanRudder.RudderNode.AddMessageRepeating | Code/Rudder_Subsystem/clib/ecanRudder.c:64-82 | The scheduler call in place equals `Add`, and reports success. |
| EcanRudder.RudderNode.RemoveMessage | Code/Rudder_Subsystem/clib/ecanRudder.c:269-270 | The scheduler call in place equals `Remove`. |
| EcanRudder.RudderNode.RudderSubsystemInit | Code/Rudder_Subsystem/clib/ecanRudder.c:62-83 | Succeeds exactly on an empty scheduler and then leaves ids 1-4 at 10, 4, 1 and 2 Hz. It stops at the first failed registration. |
| EcanRudder.RudderNode.SaveRudderCalibrationRange | Code/Rudder_Subsystem/clib/ecanRudder.c:113-123 | Appends the current port and starboard limits to the non-volatile log. |
| EcanRudder.RudderNode.RudderCalibrate | Code/Rudder_Subsystem/clib/ecanRudder.c:85-135 | The calibration data becomes `CalStep` of the old data and the sensor readings. The range is logged exactly when `CalStep` saves it. |
| EcanRudder.RudderNode.UpdateMessageRate | Code/Rudder_Subsystem/clib/ecanRudder.c:261-282 | The scheduler becomes `UpdateRates` of the old registry and the two bytes. |
| EcanRudder.RudderNode.Receive | Code/Rudder_Subsystem/clib/ecanRudder.c:213 | Hands over the oldest queued frame, if there is one, and reports how many remain. |
| EcanRudder.RudderNode.HandleFrame | Code/Rudder_Subsystem/clib/ecanRudder.c:214-233 | The receive-loop body for one frame equals `OnFrame` of the old state. |
| EcanRudder.RudderNode.RudderSendNmea | Code/Rudder_Subsystem/clib/ecanRudder.c:137-145 | Transmits the rudder angle frame: instance 0xFF, direction order 0xF, no command, and the measured angle. |
| EcanRudder.RudderNode.RudderSendCustomLimit | Code/Rudder_Subsystem/clib/ecanRudder.c:147-161 | Transmits the details frame with the potentiometer reading, both limits and switches, and the calibration flags. |
| EcanRudder.RudderNode.RudderSendTemperature | Code/Rudder_Subsystem/clib/ecanRudder.c:164-189 | Builds the environmental-parameters payload for the current temperature and transmits nothing. |
| EcanRudder.RudderNode.RudderSendStatus | Code/Rudder_Subsystem/clib/ecanRudder.c:192-205 | Transmits the STATUS frame with the status word and no errors. |
| EcanRudder.RudderNode.SendAndReceiveEcan | Code/Rudder_Subsystem/clib/ecanRudder.c:207-259 | Empties the receive queue, leaving the state equal to `ReceiveAll` over the old queue. Then appends `Outbox` of the due ids to the transmit log. |

## Left out

- The CAN frame decoders and encoders (`ParsePgn*`, `Acs300Decode*`, `CanMessageDecode*`, `Iso11783Decode/Encode`, `CanMessagePackageRudderDetails`, `PackagePgn127245`) are not part of this model. The decoders are uninterpreted function parameters (`Codecs`, `RudderCodecs`). Each returns the validity mask and the values it decoded, and only the outputs whose bit is set are written. The encoders are replaced by the logical content of the frame (`OutFrame`).
- CAN identifiers, SENSOR_TIMEOUT, NODE_TIMEOUT, `nodeId`, the RC node id, ACS300_PARAM_CC and the 2D/3D fix modes come from headers that are not part of this model. They are fields of `Config` and `RudderConfig`. NUM_NODES (7) and the NMEA 2000 PGN numbers are fixed constants.
- Floating-point values are modelled as `real`, with no rounding.
- The rudder node's recentring test compares the angle with 0.1 as an exact real (`Centred`), not as a `double`.
- `PotToRads`, `CalculateRudderAngle` and the sensor sampling that fills `rudderSensorData` are outside the CAN code. Their results are the inputs of `RudderCalibration.CalStep`.
- The temperature sender converts degrees Celsius to hundredths of a kelvin in floating point (ecanRudder.c:179). The model takes the converted value (`centiKelvin`) as the reading.
- `ClearGpsData` (EcanSensors.c:113-121) is not modelled: it is not called by the receive or aging code.
- The microseconds-since-epoch output of PGN 126992 is not modelled. It is the eighth output argument, and its validity bit cannot be in the 8-bit mask.
- The GPS `memcpy` copies the whole accumulator struct over the public reading. The struct layouts are in headers that are not part of this model. The model copies the fix fields and keeps the public magnetic variation, which the accumulator does not carry.
- The receive primitive's `messagesLeft` is a `uint8_t` in C and a `nat` here. The queue length is unbounded, and the count returned by `ProcessAllEcanMessages` is reduced modulo 256 explicitly.
- MessageScheduler.Add: the scheduler's implementation is not part of this model. Registration is modelled as failing exactly when the id is already registered or all four slots (ECAN_MSGS_SIZE) are used.
- EcanRudder.RudderNode.SendAndReceiveEcan: `GetMessagesForTimestep` and its timing are not modelled. The ids it returns are the method's `due` parameter, in order.
- The CAN controller and its buffers (`ecan1_receive`, `ecan1_buffered_transmit`) are a queue field and a transmit log. Non-volatile memory writes are a log of saved ranges.
- SaveRudderCalibrationRange is defined outside `ecanRudder.c`. Its non-volatile write is modelled as appending the range to a log.
- `uart2.c` and `MavlinkGlue.h` are not part of this model.

Behaviours of the code a reader might not expect:
- A timed-out availability flag is not set again on the next tick. The macro sets it again only while its counter is below the timeout, so it stays false, with its counter at the timeout, until a frame clears the counter (Code/Primary_node/EcanSensors.c:25-34; `Hysteresis.TimedOutIsSticky`, `Hysteresis.ResetRevives`).
- A node entry reads as the sentinel on tick NODE_TIMEOUT + 1 after a STATUS frame, not on tick NODE_TIMEOUT. The counter must first reach the timeout, and the sentinel is written on the next tick (Code/Primary_node/EcanSensors.c:461-468; `SensorAging.NodeTimeline`).
- The GPS is aged twice per tick, because its macro line appears both first and last (Code/Primary_node/EcanSensors.c:475, 484; `SensorAging.AgingSteps`).
- The temperature sender builds its payload, but its transmit call is commented out, so the temperature id transmits nothing (Code/Rudder_Subsystem/clib/ecanRudder.c:188; `RudderBus.SendForCount`).
