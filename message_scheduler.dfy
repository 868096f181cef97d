/**
 * The rudder node's message scheduler seen as an abstract registry from scheduler id to
 * transmission rate in Hz, and the operations on it that Code/Rudder_Subsystem/clib/ecanRudder.c
 * performs: the start-up registration (62-83) and the rate-change command (261-282).
 */
module MessageScheduler {
  import opened CanTypes

  /** ECAN_MSGS_SIZE: the scheduler's table has room for four ids. */
  const CAPACITY: nat := 4

  const SCHED_ID_RUDDER_ANGLE: uint8 := 1
  const SCHED_ID_CUSTOM_LIMITS: uint8 := 2
  const SCHED_ID_TEMPERATURE: uint8 := 3
  const SCHED_ID_STATUS: uint8 := 4

  type Registry = map<uint8, uint8>

  /**
   * AddMessageRepeating: registering an id fails when the id is already registered or the table
   * is full; otherwise the id is scheduled at `rate`.
   */
  function Add(reg: Registry, id: uint8, rate: uint8): (r: Option<Registry>)
    ensures r.Some? <==> id !in reg && |reg| < CAPACITY
    ensures r.Some? ==> r.value == reg[id := rate] && |r.value| == |reg| + 1
  {
    if id in reg || |reg| >= CAPACITY then None else Some(reg[id := rate])
  }

  /** RemoveMessage: the id is no longer scheduled. */
  function Remove(reg: Registry, id: uint8): (r: Registry)
    ensures id !in r && forall k :: k != id ==> (k in r <==> k in reg)
    ensures forall k :: k in r ==> r[k] == reg[k]
  {
    reg - {id}
  }

  /** The rates registered at start-up, in registration order. */
  const STARTUP_IDS: seq<uint8> := [SCHED_ID_RUDDER_ANGLE, SCHED_ID_CUSTOM_LIMITS, SCHED_ID_TEMPERATURE, SCHED_ID_STATUS]
  const STARTUP_RATES: seq<uint8> := [10, 4, 1, 2]

  /**
   * RudderSubsystemInit: register the ids in order and stop at the first failure, which the node
   * answers by halting. Returns whether every registration succeeded, and the registry as left.
   */
  function Register(reg: Registry, ids: seq<uint8>, rates: seq<uint8>): (bool, Registry)
    requires |ids| == |rates|
    decreases |ids|
  {
    if ids == [] then (true, reg)
    else match Add(reg, ids[0], rates[0])
      case None => (false, reg)
      case Some(next) => Register(next, ids[1..], rates[1..])
  }

  function Startup(reg: Registry): (bool, Registry)
  {
    Register(reg, STARTUP_IDS, STARTUP_RATES)
  }

  /** Start-up succeeds exactly on an empty registry, and then schedules the four ids at 10, 4, 1 and 2 Hz. */
  lemma StartupOutcome(reg: Registry)
    ensures Startup(reg).0 <==> reg == map[]
    ensures reg == map[] ==> Startup(reg).1 == map[1 := 10, 2 := 4, 3 := 1, 4 := 2]
  {
    var ids, rates := STARTUP_IDS, STARTUP_RATES;
    assert ids[1..] == [2, 3, 4] && rates[1..] == [4, 1, 2];
    assert ids[1..][1..] == [3, 4] && rates[1..][1..] == [1, 2];
    assert ids[1..][1..][1..] == [4] && rates[1..][1..][1..] == [2];
    assert ids[1..][1..][1..][1..] == [] && rates[1..][1..][1..][1..] == [];
    var r1 := Add(reg, 1, 10);
    if r1.Some? {
      assert Startup(reg) == Register(r1.value, [2, 3, 4], [4, 1, 2]);
      var r2 := Add(r1.value, 2, 4);
      if r2.Some? {
        assert Startup(reg) == Register(r2.value, [3, 4], [1, 2]);
        var r3 := Add(r2.value, 3, 1);
        if r3.Some? {
          assert Startup(reg) == Register(r3.value, [4], [2]);
          if reg != map[] {
            assert |reg| >= 1 by {
              var k :| k in reg;
              assert k in reg.Keys;
            }
            assert |r3.value| >= CAPACITY;
          } else {
            assert Register(r3.value, [4], [2]) == (true, r3.value[4 := 2]);
          }
        }
      }
    }
  }

  /**
   * One rate byte of the rate-change command: 0xFF keeps the entry, 0 is not implemented and also
   * keeps it, 1..100 re-registers the id at that rate (the add's outcome is not checked), and any
   * other value is ignored.
   */
  function SetRate(reg: Registry, id: uint8, rate: uint8): Registry
  {
    if rate != 0xFF && rate != 0 && 1 <= rate <= 100 then
      match Add(Remove(reg, id), id, rate)
      case Some(r) => r
      case None => Remove(reg, id)
    else
      reg
  }

  /** UpdateMessageRate: the angle byte rates the rudder-angle id, then the status byte the custom-limits id. */
  function UpdateRates(reg: Registry, angleRate: uint8, statusRate: uint8): Registry
  {
    SetRate(SetRate(reg, SCHED_ID_RUDDER_ANGLE, angleRate), SCHED_ID_CUSTOM_LIMITS, statusRate)
  }

  /** A registry the scheduler's table can hold. */
  predicate Fits(reg: Registry)
  {
    |reg| <= CAPACITY
  }

  /**
   * A rate in 1..100 for a registered id (or with room to spare) replaces that id's rate and
   * nothing else; every other rate byte leaves the registry as it was.
   */
  lemma SetRateEffect(reg: Registry, id: uint8, rate: uint8)
    requires Fits(reg)
    ensures var r := SetRate(reg, id, rate);
      && Fits(r)
      && (1 <= rate <= 100 && (id in reg || |reg| < CAPACITY) ==> r == reg[id := rate])
      && (1 <= rate <= 100 && id !in reg && |reg| == CAPACITY ==> r == reg)
      && (!(1 <= rate <= 100) ==> r == reg)
  {
    if 1 <= rate <= 100 && id in reg {
      RemoveShrinks(reg, id);
      assert Remove(reg, id)[id := rate] == reg[id := rate];
    } else if 1 <= rate <= 100 {
      assert Remove(reg, id) == reg;
    }
  }

  /** Removing a registered id frees exactly one slot. */
  lemma RemoveShrinks(reg: Registry, id: uint8)
    requires id in reg
    ensures |Remove(reg, id)| == |reg| - 1
  {
    assert reg.Keys == Remove(reg, id).Keys + {id};
  }

  /** The rate-change command never overfills the scheduler's table. */
  lemma UpdateKeepsFits(reg: Registry, angleRate: uint8, statusRate: uint8)
    requires Fits(reg)
    ensures Fits(UpdateRates(reg, angleRate, statusRate))
  {
    SetRateEffect(reg, SCHED_ID_RUDDER_ANGLE, angleRate);
    SetRateEffect(SetRate(reg, SCHED_ID_RUDDER_ANGLE, angleRate), SCHED_ID_CUSTOM_LIMITS, statusRate);
  }

  /**
   * The angle byte of the rate-change command alone decides the rudder-angle entry, and every entry
   * other than the rudder-angle and custom-limits ones is kept.
   */
  lemma UpdateRatesIndependent(reg: Registry, a1: uint8, s1: uint8, a2: uint8, s2: uint8)
    requires Fits(reg)
    ensures var r1 := UpdateRates(reg, a1, s1); var r2 := UpdateRates(reg, a2, s2);
      && (a1 == a2 ==> (SCHED_ID_RUDDER_ANGLE in r1 <==> SCHED_ID_RUDDER_ANGLE in r2))
      && (a1 == a2 && SCHED_ID_RUDDER_ANGLE in r1 ==> r1[SCHED_ID_RUDDER_ANGLE] == r2[SCHED_ID_RUDDER_ANGLE])
      && (forall k :: k != SCHED_ID_RUDDER_ANGLE && k != SCHED_ID_CUSTOM_LIMITS ==>
            (k in r1 <==> k in reg) && (k in r1 ==> r1[k] == reg[k]))
  {
    RatesOnRegistered(reg, a1, s1);
    RatesOnRegistered(reg, a2, s2);
  }

  /** With every start-up id registered, the command sets exactly the entries its bytes ask for. */
  lemma RatesOnRegistered(reg: Registry, angleRate: uint8, statusRate: uint8)
    requires Fits(reg)
    ensures var r := UpdateRates(reg, angleRate, statusRate);
      && Fits(r)
      && (SCHED_ID_RUDDER_ANGLE in r <==> SCHED_ID_RUDDER_ANGLE in reg || (1 <= angleRate <= 100 && |reg| < CAPACITY))
      && (SCHED_ID_RUDDER_ANGLE in r && 1 <= angleRate <= 100 ==> r[SCHED_ID_RUDDER_ANGLE] == angleRate)
      && (SCHED_ID_RUDDER_ANGLE in reg && !(1 <= angleRate <= 100) ==> r[SCHED_ID_RUDDER_ANGLE] == reg[SCHED_ID_RUDDER_ANGLE])
      && (SCHED_ID_CUSTOM_LIMITS in reg ==> SCHED_ID_CUSTOM_LIMITS in r)
      && (SCHED_ID_CUSTOM_LIMITS in reg && 1 <= statusRate <= 100 ==> r[SCHED_ID_CUSTOM_LIMITS] == statusRate)
      && (SCHED_ID_CUSTOM_LIMITS in reg && !(1 <= statusRate <= 100) ==> r[SCHED_ID_CUSTOM_LIMITS] == reg[SCHED_ID_CUSTOM_LIMITS])
      && (forall k :: k != SCHED_ID_RUDDER_ANGLE && k != SCHED_ID_CUSTOM_LIMITS ==>
            (k in r <==> k in reg) && (k in r ==> r[k] == reg[k]))
  {
    var mid := SetRate(reg, SCHED_ID_RUDDER_ANGLE, angleRate);
    SetRateEffect(reg, SCHED_ID_RUDDER_ANGLE, angleRate);
    SetRateEffect(mid, SCHED_ID_CUSTOM_LIMITS, statusRate);
  }

  /** Once start-up has run, rate changes keep the same four ids registered. */
  lemma UpdateKeepsIds(reg: Registry, angleRate: uint8, statusRate: uint8)
    requires reg.Keys == {1, 2, 3, 4}
    ensures UpdateRates(reg, angleRate, statusRate).Keys == {1, 2, 3, 4}
  {
    assert |reg| == 4 by {
      assert reg.Keys == {1, 2, 3, 4};
    }
    RatesOnRegistered(reg, angleRate, statusRate);
  }
}
