/** The Disk 1A's motor timer. Any access restarts it, and fifteen seconds after the last one the motors
    stop. The board does not move its alarm at each access: it lets an early one ring, and sets the next
    from there.
 */
module Disk1aMotor {
  import opened Basics

  const SECONDS: nat := 15

  /** `motor` is the Motor Control Register; `offAt` when the motors stop if nothing touches the board. */
  datatype Timer = Timer(motor: byte, offAt: nat, wake: Option<nat>)

  /** An access, perhaps to the Motor Control Register; or a reset. */
  datatype Op = Access(write: Option<byte>) | ResetLine

  /** What happens `wait` T-states after the last thing, the CPU's clock then at `hz`. */
  datatype Event = Event(wait: nat, hz: nat, op: Op)

  /** Only the upper four bits are kept. */
  function Kept(v: byte): byte { v - v % 16 }

  function Written(m: byte, op: Op): byte {
    if op.Access? && op.write.Some? then Kept(op.write.value) else m
  }

  // ---------------------------------------------------------------------------------------
  // The board
  // ---------------------------------------------------------------------------------------

  /** Every access restarts the timer, but the alarm is set only if none is. */
  function Touched(b: Timer, now: nat, hz: nat): Timer {
    b.(offAt := now + hz * SECONDS,
       wake := if b.motor != 0 && b.wake.None? then Some(now + hz * SECONDS) else b.wake)
  }

  /** The alarm: stop the motors if it is time, and if not set it for when it will be. */
  function Check(b: Timer, now: nat): Timer {
    b.(motor := if now >= b.offAt then 0 else b.motor,
       wake := if b.motor != 0 && now < b.offAt then Some(b.offAt) else None)
  }

  function Do(b: Timer, now: nat, hz: nat, op: Op): Timer {
    match op
    case Access(_) => Touched(b.(motor := Written(b.motor, op)), now, hz)
    case ResetLine => b.(motor := 0, wake := None)
  }

  /** The clock runs to `to`, and the alarms due on the way ring at their own times. */
  function Pass(b: Timer, to: nat): Timer
    decreases if b.wake.Some? && b.wake.value <= to then to - b.wake.value + 1 else 0
  {
    if b.wake.Some? && b.wake.value <= to then Pass(Check(b, b.wake.value), to) else b
  }

  function Run(b: Timer, now: nat, events: seq<Event>): Timer
    decreases |events|
  {
    if |events| == 0 then b
    else
      var t := now + events[0].wait;
      Run(Do(Pass(b, t), t, events[0].hz, events[0].op), t, events[1..])
  }

  // ---------------------------------------------------------------------------------------
  // The alarm moved at every access
  // ---------------------------------------------------------------------------------------

  /** The motors, and when they stop. */
  datatype Eager = Eager(motor: byte, offAt: nat)

  function EagerPass(e: Eager, to: nat): Eager {
    e.(motor := if e.offAt <= to then 0 else e.motor)
  }

  function EagerDo(e: Eager, now: nat, hz: nat, op: Op): Eager {
    match op
    case Access(_) => Eager(Written(e.motor, op), now + hz * SECONDS)
    case ResetLine => e.(motor := 0)
  }

  function EagerRun(e: Eager, now: nat, events: seq<Event>): Eager
    decreases |events|
  {
    if |events| == 0 then e
    else
      var t := now + events[0].wait;
      EagerRun(EagerDo(EagerPass(e, t), t, events[0].hz, events[0].op), t, events[1..])
  }

  // ---------------------------------------------------------------------------------------
  // When the motors stop
  // ---------------------------------------------------------------------------------------

  /** While a motor turns an alarm is set, and every alarm is still to come. */
  predicate Set(b: Timer, now: nat) {
    && (b.motor != 0 ==> b.wake.Some?)
    && (b.wake.Some? ==> now < b.wake.value)
  }

  /** And no alarm is set for later than the motors should stop. */
  predicate Good(b: Timer, now: nat) {
    Set(b, now) && (b.wake.Some? ==> b.wake.value <= b.offAt)
  }

  /** The moment left to itself the board stops its motors. */
  function Stop(b: Timer): nat {
    if b.wake.Some? && b.wake.value > b.offAt then b.wake.value else b.offAt
  }

  /** Time alone stops the motors when they should, or at the alarm if it is set for later; neither
      before then nor after, however the alarms ring. */
  lemma {:induction false} PassStops(b: Timer, now: nat, to: nat)
    requires Set(b, now) && now <= to
    ensures var p := Pass(b, to);
      && Set(p, to) && p.offAt == b.offAt && (Good(b, now) ==> Good(p, to))
      && p.motor == if Stop(b) <= to then 0 else b.motor
    decreases if b.wake.Some? && b.wake.value <= to then to - b.wake.value + 1 else 0
  {
    if b.wake.Some? && b.wake.value <= to {
      PassStops(Check(b, b.wake.value), b.wake.value, to);
    }
  }

  lemma AlarmAhead(hz: nat)
    requires hz > 0
    ensures hz * SECONDS > 0
  {}

  /** Fifteen seconds from `now` the alarm set, if one is, will have rung: what to ask before an access
      after the CPU's clock has changed. */
  predicate Soon(b: Timer, now: nat, hz: nat) {
    b.wake.Some? ==> b.wake.value <= now + hz * SECONDS
  }

  lemma DoSet(b: Timer, now: nat, hz: nat, op: Op)
    requires Set(b, now) && hz > 0
    ensures Set(Do(b, now, hz, op), now)
    ensures op.Access? && Soon(b, now, hz) ==> Good(Do(b, now, hz, op), now)
    ensures op.ResetLine? ==> Good(Do(b, now, hz, op), now)
  {
    AlarmAhead(hz);
  }

  /** Every rate of the run is one. */
  predicate Rates(events: seq<Event>) {
    forall i :: 0 <= i < |events| ==> events[i].hz > 0
  }

  /** At the end of any run, however its rate has changed, an alarm is set while a motor turns. */
  lemma {:induction false} RunSet(b: Timer, now: nat, events: seq<Event>)
    requires Set(b, now) && Rates(events)
    ensures Set(Run(b, now, events), EndOf(now, events))
    decreases |events|
  {
    if |events| > 0 {
      var t := now + events[0].wait;
      PassStops(b, now, t);
      DoSet(Pass(b, t), t, events[0].hz, events[0].op);
      RunSet(Do(Pass(b, t), t, events[0].hz, events[0].op), t, events[1..]);
    }
  }

  function EndOf(now: nat, events: seq<Event>): nat
    decreases |events|
  {
    if |events| == 0 then now else EndOf(now + events[0].wait, events[1..])
  }

  const POWER := Timer(0, 0, None)

  /** FIFTEEN SECONDS, EXACTLY WHEN. From power on, after any run at any rates, `now` an access at `hz`: the
      motors that turn stop fifteen seconds later, at that rate, if and only if the alarm already set is for
      no later than that; and otherwise at that alarm. */
  lemma StopsOnTimeExactly(events: seq<Event>, wait: nat, hz: nat, write: Option<byte>)
    requires Rates(events) && hz > 0
    requires var now := EndOf(0, events) + wait;
      Do(Pass(Run(POWER, 0, events), now), now, hz, Access(write)).motor != 0
    ensures var now := EndOf(0, events) + wait;
      var b, due := Pass(Run(POWER, 0, events), now), now + hz * SECONDS;
      var a := Do(b, now, hz, Access(write));
      && (Soon(b, now, hz) <==> forall to :: to >= now ==> Pass(a, to).motor == if to < due then a.motor else 0)
      && (!Soon(b, now, hz) ==>
            due < b.wake.value
            && forall to :: to >= now ==> Pass(a, to).motor == if to < b.wake.value then a.motor else 0)
  {
    hide Pass, Set, Run;
    var end := EndOf(0, events);
    assert Set(POWER, 0) by { PowerSet(); }
    RunSet(POWER, 0, events);
    PassStops(Run(POWER, 0, events), end, end + wait);
    StopsAt(Pass(Run(POWER, 0, events), end + wait), end + wait, hz, write);
  }

  lemma PowerSet()
    ensures Set(POWER, 0)
  {}

  lemma StopsAt(b: Timer, now: nat, hz: nat, write: Option<byte>)
    requires Set(b, now) && hz > 0 && Do(b, now, hz, Access(write)).motor != 0
    ensures var a, due := Do(b, now, hz, Access(write)), now + hz * SECONDS;
      && (Soon(b, now, hz) <==> forall to :: to >= now ==> Pass(a, to).motor == if to < due then a.motor else 0)
      && (!Soon(b, now, hz) ==>
            due < b.wake.value
            && forall to :: to >= now ==> Pass(a, to).motor == if to < b.wake.value then a.motor else 0)
  {
    hide Pass, Set;
    DoSet(b, now, hz, Access(write));
    StopAfter(b, now, hz, write);
    var a, due := Do(b, now, hz, Access(write)), now + hz * SECONDS;
    forall to | to >= now
      ensures Pass(a, to).motor == if to < Stop(a) then a.motor else 0
    {
      PassStops(a, now, to);
    }
    if !Soon(b, now, hz) {
      assert Pass(a, due).motor == a.motor != 0;
    }
  }

  /** And it happens: motors turned on at one rate, looked at a T-state later at half of it, turn past their
      fifteen seconds until the alarm of the first access rings. */
  lemma LoweredClockStopsLate(hz: nat)
    requires hz > 0
    ensures var on := Event(0, 2 * hz, Access(Some(0x10)));
      var b := Pass(Run(POWER, 0, [on]), 1);
      var a := Do(b, 1, hz, Access(None));
      && Rates([on]) && EndOf(0, [on]) == 0 && !Soon(b, 1, hz)
      && b.wake == Some(30 * hz) && a.offAt == 1 + 15 * hz
      && forall to :: to >= 1 ==> Pass(a, to).motor == if to < 30 * hz then 0x10 else 0
  {
    hide Pass;
    var on := Event(0, 2 * hz, Access(Some(0x10)));
    PassNothing(POWER, 0);
    assert [on][1..] == [];
    var b0 := Do(POWER, 0, 2 * hz, on.op);
    assert Run(POWER, 0, [on]) == Run(b0, 0, []) == b0;
    PassNothing(b0, 1);
    DoSet(POWER, 0, 2 * hz, on.op);
    StopsAt(b0, 1, hz, None);
  }

  lemma PassNothing(b: Timer, to: nat)
    requires b.wake.Some? ==> to < b.wake.value
    ensures Pass(b, to) == b
  {}

  lemma StopAfter(b: Timer, now: nat, hz: nat, write: Option<byte>)
    ensures Stop(Do(b, now, hz, Access(write))) == if Soon(b, now, hz) then now + hz * SECONDS else b.wake.value
  {}

  // ---------------------------------------------------------------------------------------
  // The lazy alarm and the eager one
  // ---------------------------------------------------------------------------------------

  /** At every access of a run the alarm then set is for no later than the access asks. */
  predicate Guarded(b: Timer, now: nat, events: seq<Event>)
    decreases |events|
  {
    |events| > 0 ==>
      var t := now + events[0].wait;
      && events[0].hz > 0
      && (events[0].op.Access? ==> Soon(Pass(b, t), t, events[0].hz))
      && Guarded(Do(Pass(b, t), t, events[0].hz, events[0].op), t, events[1..])
  }

  /** Over any such run of accesses, motor writes, resets and alarms, at whatever rates, the motors are on
      and off exactly as if every access had moved the alarm. */
  lemma {:induction false} LazyIsEager(b: Timer, now: nat, events: seq<Event>)
    requires Good(b, now) && Guarded(b, now, events)
    ensures var r, e := Run(b, now, events), EagerRun(Eager(b.motor, b.offAt), now, events);
      && r.motor == e.motor && r.offAt == e.offAt && Good(r, EndOf(now, events))
    decreases |events|
  {
    if |events| > 0 {
      var t := now + events[0].wait;
      PassStops(b, now, t);
      DoSet(Pass(b, t), t, events[0].hz, events[0].op);
      LazyIsEager(Do(Pass(b, t), t, events[0].hz, events[0].op), t, events[1..]);
    }
  }

  /** The clock is never slowed. */
  predicate NeverSlower(hz: nat, events: seq<Event>)
    decreases |events|
  {
    |events| > 0 ==> events[0].hz >= hz && NeverSlower(events[0].hz, events[1..])
  }

  /** And then every run is such a run: at a fixed rate in particular. */
  lemma {:induction false} NeverSlowerIsGuarded(b: Timer, now: nat, hz: nat, events: seq<Event>)
    requires Good(b, now) && hz > 0 && b.offAt <= now + hz * SECONDS && NeverSlower(hz, events)
    ensures Guarded(b, now, events)
    decreases |events|
  {
    if |events| > 0 {
      var t, hz2 := now + events[0].wait, events[0].hz;
      assert hz2 * SECONDS >= hz * SECONDS;
      PassStops(b, now, t);
      DoSet(Pass(b, t), t, hz2, events[0].op);
      NeverSlowerIsGuarded(Do(Pass(b, t), t, hz2, events[0].op), t, hz2, events[1..]);
    }
  }

  /** From power on, at rates that never fall, what is turning after an access goes on turning for fifteen
      seconds and then stops, if nothing touches the board. */
  lemma StopsAfterFifteenSeconds(hz: nat, events: seq<Event>, last: Event, to: nat)
    requires hz > 0 && NeverSlower(hz, events + [last]) && last.op.Access?
    requires to >= EndOf(0, events) + last.wait
    ensures var t := EndOf(0, events) + last.wait;
      var r := Do(Pass(Run(POWER, 0, events), t), t, last.hz, last.op);
      Pass(r, to).motor == if to < t + last.hz * SECONDS then r.motor else 0
  {
    var b := POWER;
    NeverSlowerIsGuarded(b, 0, hz, events + [last]);
    GuardedEnds(b, 0, events, last);
    LazyIsEager(b, 0, events);
    var end := EndOf(0, events);
    var t := end + last.wait;
    PassStops(Run(b, 0, events), end, t);
    DoSet(Pass(Run(b, 0, events), t), t, last.hz, last.op);
    PassStops(Do(Pass(Run(b, 0, events), t), t, last.hz, last.op), t, to);
  }

  lemma {:induction false} GuardedEnds(b: Timer, now: nat, events: seq<Event>, last: Event)
    requires Guarded(b, now, events + [last])
    ensures Guarded(b, now, events) && last.hz > 0
    ensures var t := EndOf(now, events) + last.wait;
      last.op.Access? ==> Soon(Pass(Run(b, now, events), t), t, last.hz)
    decreases |events|
  {
    var all := events + [last];
    if |events| == 0 {
      assert all[0] == last;
    } else {
      assert all[0] == events[0] && all[1..] == events[1..] + [last];
      var t := now + events[0].wait;
      GuardedEnds(Do(Pass(b, t), t, events[0].hz, events[0].op), t, events[1..], last);
    }
  }

  /** A board whose motors are off sets no alarm, however often it is touched. */
  lemma {:induction false} AtRestNoAlarm(b: Timer, now: nat, events: seq<Event>)
    requires b.motor == 0 && b.wake.None?
    requires forall i :: 0 <= i < |events| ==> events[i].op.ResetLine? || events[i].op.write.None?
    ensures Run(b, now, events).motor == 0 && Run(b, now, events).wake.None?
    decreases |events|
  {
    if |events| > 0 {
      var t := now + events[0].wait;
      PassNothing(b, t);
      AtRestNoAlarm(Do(b, t, events[0].hz, events[0].op), t, events[1..]);
    }
  }

  // ---------------------------------------------------------------------------------------
  // The board, changed in place
  // ---------------------------------------------------------------------------------------

  class Disk1a {
    var motor: byte
    var motorOffAt: nat
    var motorWake: Option<nat>

    ghost function State(): Timer
      reads this
    {
      Timer(motor, motorOffAt, motorWake)
    }

    constructor ()
      ensures State() == POWER && Good(State(), 0)
    {
      motor, motorOffAt, motorWake := 0, 0, None;
    }

    method Restart(now: nat, hz: nat)
      modifies this`motorOffAt, this`motorWake
      ensures State() == Touched(old(State()), now, hz)
    {
      motorOffAt := now + hz * SECONDS;
      if motor != 0 && motorWake.None? {
        motorWake := Some(motorOffAt);
      }
    }

    method MotorCheck(now: nat)
      modifies this
      ensures State() == Check(old(State()), now)
    {
      motorWake := None;
      if motor == 0 {
        return;
      }
      if now >= motorOffAt {
        motor := 0;
        return;
      }
      motorWake := Some(motorOffAt);
    }

    /** An access to one of the board's ports: the register first, and then the timer. */
    method Touch(now: nat, hz: nat, write: Option<byte>)
      modifies this
      ensures State() == Do(old(State()), now, hz, Access(write))
    {
      if write.Some? {
        motor := write.value - write.value % 16;
      }
      Restart(now, hz);
    }

    method ResetRegisters()
      modifies this
      ensures motor == 0 && motorWake == None && motorOffAt == old(motorOffAt)
      ensures forall now: nat, hz: nat :: State() == Do(old(State()), now, hz, ResetLine)
    {
      motor, motorWake := 0, None;
    }

    /** The clock runs to `to`. */
    method Advance(to: nat)
      modifies this
      ensures State() == Pass(old(State()), to)
    {
      while motorWake.Some? && motorWake.value <= to
        invariant Pass(State(), to) == Pass(old(State()), to)
        decreases if motorWake.Some? && motorWake.value <= to then to - motorWake.value + 1 else 0
      {
        MotorCheck(motorWake.value);
      }
    }
  }
}
