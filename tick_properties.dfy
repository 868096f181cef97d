/**
 * Properties of the primary node's main-loop tick as a whole: draining the receive queue and then
 * aging the availability table (ProcessAllEcanMessages followed by UpdateSensorsAvailability).
 */
module TickProperties {
  import opened CanTypes
  import opened Hysteresis
  import opened SensorStore
  import opened FrameDispatch
  import opened SensorAging
  import opened DispatchProperties

  /** A frame only ever clears counters, so it keeps them within their timeouts. */
  lemma DispatchKeepsBounds(b: Board, f: Frame, cfg: Config, c: Codecs)
    requires WellFormed(b) && Bounded(b, cfg)
    ensures Bounded(Dispatch(b, f, cfg, c), cfg)
  {
    EvidenceRules(b, f, cfg, c);
    var r := Dispatch(b, f, cfg, c);
    forall i | 0 <= i < NUM_NODES
      ensures r.nodeCounters[i] <= cfg.nodeTimeout
    {
      CountersOnlyCleared(b, f, cfg, c, i);
    }
  }

  /** Draining any queue keeps every counter within its timeout. */
  lemma {:induction false} DrainKeepsBounds(b: Board, frames: seq<Frame>, cfg: Config, c: Codecs)
    requires WellFormed(b) && Bounded(b, cfg)
    ensures Bounded(Drain(b, frames, cfg, c), cfg)
    decreases |frames|
  {
    if frames != [] {
      var init := frames[..|frames| - 1];
      DrainKeepsBounds(b, init, cfg, c);
      DispatchKeepsBounds(Drain(b, init, cfg, c), frames[|frames| - 1], cfg, c);
    }
  }

  /** One main-loop tick. */
  function Tick(b: Board, frames: seq<Frame>, cfg: Config, c: Codecs): (r: Board)
    requires WellFormed(b)
    ensures WellFormed(r)
  {
    Age(Drain(b, frames, cfg, c), cfg)
  }

  /** Every reachable board has its counters within their timeouts. */
  lemma TickKeepsBounds(b: Board, frames: seq<Frame>, cfg: Config, c: Codecs)
    requires WellFormed(b) && Bounded(b, cfg)
    ensures Bounded(Tick(b, frames, cfg, c), cfg)
  {
    DrainKeepsBounds(b, frames, cfg, c);
    AgeKeepsBounds(Drain(b, frames, cfg, c), cfg);
  }
}
