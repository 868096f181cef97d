/**
 * The debounce record behind every sensor's `enabled` and `active` availability flags and one tick
 * of the aging macro applied to it (Code/Primary_node/EcanSensors.c, SENSOR_STATE_UPDATE_STATE).
 */
module Hysteresis {

  /** A flag with its timeout counter, as `enabled`/`enabled_counter` or `active`/`active_counter`. */
  datatype Record = Record(flag: bool, counter: nat)

  /** The state every record starts in: flagged, with its counter already at the timeout. */
  function Initial(timeout: nat): Record
  {
    Record(true, timeout)
  }

  /** Fresh evidence from a frame: only the counter is cleared, the flag is left to the next tick. */
  function Reset(h: Record): (r: Record)
    ensures r.counter == 0 && r.flag == h.flag
  {
    h.(counter := 0)
  }

  /** One tick of aging for one record. */
  function Step(h: Record, timeout: nat): (r: Record)
    ensures h.counter <= timeout ==> r.counter <= timeout
    ensures h.counter <= r.counter <= h.counter + 1
    ensures r.flag != h.flag ==> r.counter == h.counter
  {
    if h.flag then
      if h.counter < timeout then Record(true, h.counter + 1) else Record(false, h.counter)
    else if h.counter < timeout then
      Record(true, h.counter)
    else
      h
  }

  /** The four cases of one aging step. */
  lemma StepTable(h: Record, timeout: nat)
    ensures h.flag && h.counter < timeout ==> Step(h, timeout) == Record(true, h.counter + 1)
    ensures h.flag && h.counter >= timeout ==> Step(h, timeout) == Record(false, h.counter)
    ensures !h.flag && h.counter < timeout ==> Step(h, timeout) == Record(true, h.counter)
    ensures !h.flag && h.counter >= timeout ==> Step(h, timeout) == h
  {
  }

  /** `n` consecutive ticks with no frame in between. */
  function StepN(h: Record, n: nat, timeout: nat): Record
    decreases n
  {
    if n == 0 then h else StepN(Step(h, timeout), n - 1, timeout)
  }

  /** A record that has timed out stays timed out for as long as no frame resets its counter. */
  lemma {:induction false} TimedOutIsSticky(n: nat, timeout: nat)
    ensures StepN(Record(false, timeout), n, timeout) == Record(false, timeout)
  {
    if n > 0 {
      assert Step(Record(false, timeout), timeout) == Record(false, timeout);
      TimedOutIsSticky(n - 1, timeout);
    }
  }

  /** After any tick, a cleared flag means its counter is pinned at the timeout. */
  lemma StepSettles(h: Record, timeout: nat)
    requires h.counter <= timeout
    ensures !Step(h, timeout).flag ==> Step(h, timeout).counter == timeout
  {
  }

  /** Without a reset, a fresh record counts up one per tick while its flag stays set. */
  lemma {:induction false} CountsUpWhileFresh(c: nat, k: nat, timeout: nat)
    requires c + k <= timeout
    ensures StepN(Record(true, c), k, timeout) == Record(true, c + k)
    decreases k
  {
    if k > 0 {
      assert Step(Record(true, c), timeout) == Record(true, c + 1);
      CountsUpWhileFresh(c + 1, k - 1, timeout);
    }
  }

  /**
   * From any record within bounds, enough ticks without a reset always end in the timed-out state:
   * at most `timeout - counter + 1` ticks when the flag is set, one more when it is clear.
   */
  lemma {:induction false} EventuallyTimesOut(h: Record, n: nat, timeout: nat)
    requires h.counter <= timeout
    requires n >= timeout - h.counter + (if h.flag then 1 else 2)
    ensures StepN(h, n, timeout) == Record(false, timeout)
    decreases n
  {
    var h' := Step(h, timeout);
    if h.flag && h.counter == timeout {
      TimedOutIsSticky(n - 1, timeout);
    } else if h.flag {
      EventuallyTimesOut(h', n - 1, timeout);
    } else if h.counter < timeout {
      assert h' == Record(true, h.counter);
      EventuallyTimesOut(h', n - 1, timeout);
    } else {
      assert h == Record(false, timeout);
      TimedOutIsSticky(n, timeout);
    }
  }

  /**
   * The timing after a frame resets a flagged record: the flag holds for exactly `timeout` ticks
   * and is cleared on tick `timeout + 1`.
   */
  lemma TimeoutBoundary(k: nat, timeout: nat)
    ensures k <= timeout ==> StepN(Record(true, 0), k, timeout) == Record(true, k)
    ensures k > timeout ==> StepN(Record(true, 0), k, timeout) == Record(false, timeout)
  {
    if k <= timeout {
      CountsUpWhileFresh(0, k, timeout);
    } else {
      EventuallyTimesOut(Record(true, 0), k, timeout);
    }
  }

  /** A reset record that had timed out is flagged again on the next tick (when the timeout is positive). */
  lemma ResetRevives(h: Record, timeout: nat)
    requires timeout > 0
    ensures Step(Reset(h), timeout).flag
  {
  }
}
