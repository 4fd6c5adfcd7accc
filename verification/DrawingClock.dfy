/** The CADzilla's drawing clock: the machine counts T-states, the graphics chip counts 2CLK, and the
    board carries the one into the other whenever it is touched, and wakes itself when a command ends.

    The chip is only its command queue: what it is drawing until when, and what each command behind
    that will cost.
 */
module DrawingClock {
  import opened Arithmetic
  import opened Basics

  // ---------------------------------------------------------------------------------------
  // The chip
  // ---------------------------------------------------------------------------------------

  datatype Chip = Chip(now: nat, busy: bool, until: nat, queue: seq<nat>)

  /** A command in hand ends in the future. */
  predicate Sane(c: Chip) { c.busy ==> c.until > c.now }

  /** No command is free. */
  function Cost(n: nat): nat {
    if n == 0 then 1 else n
  }

  function Left(c: Chip): nat { |c.queue| + if c.busy then 1 else 0 }

  /** The command ends, and the next one starts at that moment. */
  function Finish(c: Chip): (r: Chip)
    requires c.busy
    ensures Left(r) < Left(c) && Sane(r) && r.now == c.until
  {
    var more := |c.queue| > 0;
    Chip(c.until, more, if more then c.until + Cost(c.queue[0]) else c.until, if more then c.queue[1..] else [])
  }

  function Draw(c: Chip, to: nat): (r: Chip)
    ensures Sane(c) && to >= c.now ==> Sane(r) && r.now == to && Left(r) <= Left(c)
    decreases Left(c)
  {
    if to < c.now then c
    else if c.busy && c.until <= to then Draw(Finish(c), to)
    else c.(now := to)
  }

  function Submit(c: Chip, cost: nat): (r: Chip)
    ensures Sane(c) ==> Sane(r) && r.now == c.now
  {
    c.(busy := true,
       until := if c.busy then c.until else c.now + Cost(cost),
       queue := if c.busy then c.queue + [cost] else c.queue)
  }

  lemma DrawNothing(c: Chip, to: nat)
    requires c.now <= to && (c.busy ==> to < c.until)
    ensures Draw(c, to) == c.(now := to)
  {}

  lemma {:induction false} DrawTwice(c: Chip, t1: nat, t2: nat)
    requires Sane(c) && c.now <= t1 <= t2
    ensures Draw(Draw(c, t1), t2) == Draw(c, t2)
    decreases Left(c)
  {
    if c.busy && c.until <= t1 {
      DrawTwice(Finish(c), t1, t2);
    }
  }

  /** What the commands of a queue take, each at least one 2CLK. */
  function Costs(queue: seq<nat>): nat {
    if |queue| == 0 then 0 else (if queue[0] == 0 then 1 else queue[0]) + Costs(queue[1..])
  }

  lemma {:induction false} CostsAppend(queue: seq<nat>, n: nat)
    ensures Costs(queue + [n]) == Costs(queue) + (if n == 0 then 1 else n)
  {
    if |queue| == 0 {
      assert (queue + [n])[1..] == [];
    } else {
      assert (queue + [n])[1..] == queue[1..] + [n];
      CostsAppend(queue[1..], n);
    }
  }

  /** When everything the chip has been given is drawn. */
  function Ends(c: Chip): nat { if c.busy then c.until + Costs(c.queue) else c.now }

  /** Nothing waits while nothing is drawn. */
  predicate InTurn(c: Chip) { Sane(c) && (c.busy || c.queue == []) }

  /** A command given waits for those before it, and takes its own time after theirs. */
  lemma SubmitAdds(c: Chip, n: nat)
    requires InTurn(c)
    ensures var d := Submit(c, n); InTurn(d) && d.busy && Ends(d) == Ends(c) + (if n == 0 then 1 else n)
  {
    CostsAppend(c.queue, n);
  }

  /** And drawing takes none of it away: the chip is busy up to that moment and idle from it on. */
  lemma {:induction false} DrawEnds(c: Chip, to: nat)
    requires InTurn(c) && c.now <= to
    ensures var d := Draw(c, to); InTurn(d) && (d.busy <==> to < Ends(c)) && (d.busy ==> Ends(d) == Ends(c))
    decreases Left(c)
  {
    if c.busy && c.until <= to {
      DrawEnds(Finish(c), to);
    }
  }

  // ---------------------------------------------------------------------------------------
  // The board
  // ---------------------------------------------------------------------------------------

  /** `hz` T-states and `rate` 2CLK a second; `acc` and `rem` are the count and its remainder at
      T-state `last`. */
  datatype Board = Board(hz: nat, rate: nat, acc: nat, rem: nat, last: nat, chip: Chip, wake: Option<nat>)

  /** How far the end of the command in hand lies ahead, or the least a next command can cost. */
  function Ahead(b: Board): nat
    requires Sane(b.chip) && b.chip.now == b.acc
  {
    if b.chip.busy then b.chip.until - b.acc else 1
  }

  /** The remainder is less than one 2CLK after any sync that had time to carry. It need not be after the
      CPU's clock has been changed; then it must be no more than what the command still has to run. */
  predicate Valid(b: Board) {
    b.hz > 0 && b.rate > 0 && Sane(b.chip) && b.chip.now == b.acc && b.rem <= Ahead(b) * b.hz
  }

  /** T-states times 2CLK a second: the time owed to the chip at `t`, before division. */
  function Work(b: Board, t: nat): nat
    requires b.last <= t
  {
    b.acc * b.hz + b.rem + (t - b.last) * b.rate
  }

  function Carried(b: Board, t: nat): nat
    requires b.hz > 0 && b.last <= t
  {
    MulMonotone(0, (t - b.last) % b.hz, b.rate);
    (t - b.last) % b.hz * b.rate + b.rem
  }

  /** The division is split so that no product is larger than it need be, and is not made when no time
      has passed. */
  function Sync(b: Board, t: nat): Board
    requires b.hz > 0 && b.last <= t
  {
    MulMonotone(0, (t - b.last) / b.hz, b.rate);
    var acc := if t > b.last then b.acc + (t - b.last) / b.hz * b.rate + Carried(b, t) / b.hz else b.acc;
    b.(acc := acc, rem := if t > b.last then Carried(b, t) % b.hz else b.rem, last := t,
       chip := Draw(b.chip, acc))
  }

  function CeilDiv(a: nat, d: nat): nat
    requires d > 0
  {
    (a + d - 1) / d
  }

  /** When what is being drawn ends. */
  function Deadline(b: Board): nat
    requires Valid(b)
  {
    if b.chip.busy then
      b.last + CeilDiv((b.chip.until - b.acc) * b.hz - b.rem, b.rate)
    else b.last
  }

  /** The moment to wake at, seen from `t`: never `t` itself. */
  function Due(b: Board, t: nat): nat
    requires Valid(b)
  {
    if Deadline(b) <= t then t + 1 else Deadline(b)
  }

  function Arm(b: Board, t: nat): Board
    requires Valid(b) && b.last <= t
  {
    b.(wake := if b.chip.busy then Some(Due(b, t)) else None)
  }

  lemma OwedIsPositive(owed: nat, hz: nat)
    requires owed > 0
    ensures owed * hz >= hz
  {
    MulMonotone(1, owed, hz);
  }

  // ---------------------------------------------------------------------------------------
  // The count is exact
  // ---------------------------------------------------------------------------------------

  lemma Split(dT: nat, hz: nat, rate: nat, rem: nat)
    requires hz > 0
    ensures var num := dT % hz * rate + rem;
      (dT / hz * rate + num / hz) * hz + num % hz == dT * rate + rem
  {
    var q, m := dT / hz, dT % hz;
    var num := m * rate + rem;
    assert num / hz * hz + num % hz == num;
    assert dT == q * hz + m;
    calc {
      dT * rate;
      (q * hz + m) * rate;
      q * hz * rate + m * rate;
      q * rate * hz + m * rate;
    }
    assert (q * rate + num / hz) * hz == q * rate * hz + num / hz * hz;
  }

  lemma Distribute(a: int, b: int, c: int)
    ensures (a + b) * c == a * c + b * c
  {}

  lemma SyncArithmetic(acc: nat, rem: nat, hz: nat, rate: nat, d1: nat, d2: nat)
    requires hz > 0
    ensures var num := d1 % hz * rate + rem; var now := acc + d1 / hz * rate + num / hz;
      && now >= acc && num % hz < hz && now * hz + num % hz == acc * hz + rem + d1 * rate
      && now * hz + num % hz + d2 * rate == acc * hz + rem + (d1 + d2) * rate
  {
    hide *;
    Split(d1, hz, rate, rem);
    Distribute(d1, d2, rate);
    Distribute(acc, d1 / hz * rate + (d1 % hz * rate + rem) / hz, hz);
  }

  /** A sync changes no amount of work, now or later, and leaves less than one 2CLK over unless no time
      has passed. */
  lemma SyncIsExact(b: Board, t: nat, later: nat)
    requires Valid(b) && b.last <= t <= later
    ensures var s := Sync(b, t); Valid(s) && Work(s, later) == Work(b, later)
    ensures var s := Sync(b, t); s.acc >= b.acc && s.acc * b.hz + s.rem == Work(b, t)
    ensures t > b.last || b.rem < b.hz ==> Sync(b, t).rem < b.hz
    ensures t == b.last ==> Sync(b, t) == b
  {
    SyncArithmetic(b.acc, b.rem, b.hz, b.rate, t - b.last, later - t);
    var s := Sync(b, t);
    OwedIsPositive(Ahead(s), s.hz);
    DrawNothing(b.chip, b.acc);
  }

  lemma SameCount(a1: nat, r1: nat, a2: nat, r2: nat, hz: nat)
    requires r1 < hz && r2 < hz && a1 * hz + r1 == a2 * hz + r2
    ensures a1 == a2 && r1 == r2
  {
    DivUnique(a1 * hz + r1, hz, a1, r1);
    DivUnique(a1 * hz + r1, hz, a2, r2);
  }

  /** However often the board is touched on the way, and whenever, it arrives with the same count, the
      same remainder and the same commands drawn. */
  lemma SyncSplits(b: Board, t1: nat, t2: nat)
    requires Valid(b) && b.last <= t1 <= t2
    ensures Valid(Sync(b, t1)) && Sync(Sync(b, t1), t2) == Sync(b, t2)
  {
    hide Sync, Draw, Work;
    var m, s := Sync(b, t1), Sync(b, t2);
    SyncIsExact(b, t1, t2);
    SyncLeaves(b, t1);
    SyncIsExact(m, t2, t2);
    if t1 == b.last || t1 == t2 {
      return;
    }
    SyncIsExact(b, t2, t2);
    SyncLeaves(b, t2);
    SyncLeaves(m, t2);
    var e := Sync(m, t2);
    SameCount(e.acc, e.rem, s.acc, s.rem, b.hz);
    DrawTwice(b.chip, m.acc, s.acc);
  }

  lemma SyncLeaves(b: Board, t: nat)
    requires b.hz > 0 && b.last <= t
    ensures var s := Sync(b, t);
      && s.hz == b.hz && s.rate == b.rate && s.last == t && s.wake == b.wake && s.chip == Draw(b.chip, s.acc)
      && s == Board(s.hz, s.rate, s.acc, s.rem, s.last, s.chip, s.wake)
  {}

  /** No product leaves sixty-four bits when hz * (rate + 1), and what is left over, fit in them. */
  lemma CarryFits(b: Board, t: nat)
    requires Valid(b) && b.last <= t
    ensures (t - b.last) % b.hz * b.rate <= Carried(b, t) < b.hz * b.rate + b.rem + 1
    ensures b.rem < b.hz ==> Carried(b, t) < b.hz * (b.rate + 1)
  {
    MulMonotone((t - b.last) % b.hz, b.hz - 1, b.rate);
    assert (b.hz - 1) * b.rate == b.hz * b.rate - b.rate;
    assert b.hz * (b.rate + 1) == b.hz * b.rate + b.hz;
  }

  // ---------------------------------------------------------------------------------------
  // The wake is the first moment
  // ---------------------------------------------------------------------------------------

  lemma CeilDivLeast(a: nat, d: nat, x: nat)
    requires d > 0
    ensures CeilDiv(a, d) * d >= a
    ensures x < CeilDiv(a, d) ==> x * d < a
  {
    var q := CeilDiv(a, d);
    assert q * d <= a + d - 1 < q * d + d;
    if x < q {
      MulMonotone(x + 1, q, d);
      assert (x + 1) * d == x * d + d;
    }
  }

  /** At the deadline the count reaches the command's end, and at no T-state before it. */
  lemma DeadlineIsFirst(b: Board, t: nat)
    requires Valid(b) && b.chip.busy && b.last <= t
    ensures b.last <= Deadline(b) && (b.rem < b.hz ==> b.last < Deadline(b))
    ensures t >= Deadline(b) <==> Work(b, t) >= b.chip.until * b.hz
  {
    var owed := b.chip.until - b.acc;
    OwedIsPositive(owed, b.hz);
    var need := owed * b.hz - b.rem;
    assert b.chip.until * b.hz == b.acc * b.hz + owed * b.hz;
    CeilDivLeast(need, b.rate, t - b.last);
    if t >= Deadline(b) {
      MulMonotone(CeilDiv(need, b.rate), t - b.last, b.rate);
    }
  }

  lemma Reached(acc: nat, rem: nat, hz: nat, until: nat)
    requires rem < hz
    ensures acc * hz + rem >= until * hz <==> acc >= until
  {
    if acc >= until {
      MulMonotone(until, acc, hz);
    } else {
      MulMonotone(acc + 1, until, hz);
      assert (acc + 1) * hz == acc * hz + hz;
    }
  }

  /** So a sync that has time to carry ends the command exactly from the deadline on. */
  lemma SyncEndsCommand(b: Board, t: nat)
    requires Valid(b) && b.chip.busy && b.last <= t
    ensures t >= Due(b, b.last) <==> Sync(b, t).acc >= b.chip.until
  {
    hide Sync, Work, Deadline;
    var s := Sync(b, t);
    SyncIsExact(b, t, t);
    DeadlineIsFirst(b, t);
    if t > b.last {
      Reached(s.acc, s.rem, b.hz, b.chip.until);
    }
  }

  // ---------------------------------------------------------------------------------------
  // Time passing with nobody at the board
  // ---------------------------------------------------------------------------------------

  /** Awake no later than the end of what is being drawn, if anything is. */
  predicate Armed(b: Board) {
    && Valid(b) && b.wake.Some? == b.chip.busy
    && (b.chip.busy ==> b.last < b.wake.value <= Due(b, b.last))
  }

  /** Awake at that end itself: every access leaves the board so. */
  predicate Sharp(b: Board) {
    Armed(b) && (b.chip.busy ==> b.wake.value == Due(b, b.last))
  }

  /** The wake: bring the chip up to date, and wait for the next command if there is one. */
  function Fire(b: Board, t: nat): Board
    requires Valid(b) && b.last <= t
  {
    SyncIsExact(b, t, t);
    Arm(Sync(b.(wake := None), t), t)
  }

  lemma DrawLess(c: Chip, to: nat)
    requires Sane(c) && c.busy && c.now <= to
    ensures Left(Draw(c, to)) <= Left(c)
    ensures c.until <= to ==> Left(Draw(c, to)) < Left(c)
  {
    if c.until <= to {
      assert Left(Draw(Finish(c), to)) <= Left(Finish(c));
    }
  }

  lemma ArmArms(s: Board, t: nat)
    requires Valid(s) && s.last == t
    ensures Sharp(Arm(s, t)) && Arm(s, t) == s.(wake := Arm(s, t).wake)
  {
    hide Deadline;
    SameDeadline(s, Arm(s, t).wake);
  }

  lemma SameDeadline(b: Board, w: Option<nat>)
    requires Valid(b)
    ensures Valid(b.(wake := w)) && Deadline(b.(wake := w)) == Deadline(b)
  {}

  lemma WakeDoesNotCount(b: Board, w: Option<nat>, t: nat)
    requires b.hz > 0 && b.last <= t
    ensures Sync(b.(wake := w), t) == Sync(b, t).(wake := w)
  {
    hide Draw, Carried;
    SameCarried(b, w, t);
  }

  lemma SameCarried(b: Board, w: Option<nat>, t: nat)
    requires b.hz > 0 && b.last <= t
    ensures Carried(b.(wake := w), t) == Carried(b, t)
  {}

  /** A wake at the end of a command finishes it; an earlier one only sets the wake right. */
  lemma FireEndsOne(b: Board, t: nat)
    requires Armed(b) && b.chip.busy && t >= b.wake.value
    ensures b.last < t && Sharp(Fire(b, t)) && Fire(b, t).last == t
    ensures Left(Fire(b, t).chip) <= Left(b.chip)
    ensures t >= Due(b, b.last) ==> Left(Fire(b, t).chip) < Left(b.chip)
    ensures Fire(b, t) == Sync(b, t).(wake := Fire(b, t).wake)
  {
    hide Deadline, Work, Sync, Arm, Left;
    SyncEndsCommand(b, t);
    var c := b.(wake := None);
    SyncIsExact(c, t, t);
    SyncLeaves(c, t);
    ArmArms(Sync(c, t), t);
    SyncIsExact(b, t, t);
    SyncLeaves(b, t);
    WakeDoesNotCount(b, None, t);
    DrawLess(b.chip, Sync(b, t).acc);
  }

  /** The machine runs to `to`, and the board is woken when it asked to be. */
  function Pass(b: Board, to: nat): (r: Board)
    requires Armed(b)
    ensures Armed(r) && r.hz == b.hz
    decreases Left(b.chip), !Sharp(b)
  {
    if b.wake.Some? && b.wake.value <= to then
      FireEndsOne(b, b.wake.value);
      Pass(Fire(b, b.wake.value), to)
    else b
  }

  /** The wakes are enough. At any moment the chip is drawing what it would be drawing had the board
      been synced at every T-state, and a sync then leaves the same board. */
  lemma {:induction false} WakesSuffice(b: Board, to: nat)
    requires Armed(b) && b.last <= to
    ensures var p := Pass(b, to);
      && Armed(p) && p.last <= to && (p.wake.Some? ==> p.wake.value > to)
      && p.chip == Sync(b, to).chip.(now := p.chip.now)
      && Sync(p, to) == Sync(b, to).(wake := p.wake)
    decreases Left(b.chip), !Sharp(b)
  {
    hide Deadline, Draw, Work, Sync, Fire;
    if b.wake.Some? && b.wake.value <= to {
      var t := b.wake.value;
      FireEndsOne(b, t);
      var a := Fire(b, t);
      WakesSuffice(a, to);
      SyncSplits(b, t, to);
      SyncLeaves(a, to);
      SyncLeaves(Sync(b, t), to);
      WakeDoesNotCount(Sync(b, t), a.wake, to);
    } else {
      if b.chip.busy { SyncEndsCommand(b, to); }
      SyncLeaves(b, to);
      SyncIsExact(b, to, to);
      DrawNothing(b.chip, Sync(b, to).acc);
    }
  }

  // ---------------------------------------------------------------------------------------
  // Whole runs
  // ---------------------------------------------------------------------------------------

  datatype Op = Look | Mode(rate: nat) | Command(cost: nat)

  /** The guest's access `wait` T-states after the last one. */
  datatype Step = Step(wait: nat, op: Op)

  function Done(s: Board, op: Op): (r: Board)
    requires Valid(s)
    ensures Valid(r) && r.last == s.last
  {
    if op.Mode? && op.rate > 0 then s.(rate := op.rate)
    else if op.Command? then
      MulMonotone(1, Cost(op.cost), s.hz);
      s.(chip := Submit(s.chip, op.cost))
    else s
  }

  /** A change of rate comes after a sync: the time so far was at the old one. */
  function Access(b: Board, t: nat, op: Op): Board
    requires Valid(b) && b.last <= t
  {
    SyncIsExact(b, t, t);
    Arm(Done(Sync(b, t), op), t)
  }

  lemma AccessArms(b: Board, t: nat, op: Op)
    requires Valid(b) && b.last <= t
    ensures var a := Access(b, t, op);
      && Sharp(a) && a.last == t && a.hz == b.hz && (t > b.last || b.rem < b.hz ==> a.rem < b.hz)
      && a.acc * b.hz + a.rem == Work(b, t)
      && a.rate == if op.Mode? && op.rate > 0 then op.rate else b.rate
  {
    hide Deadline, Draw, Work, Sync, Arm;
    SyncIsExact(b, t, t);
    SyncLeaves(b, t);
    ArmArms(Done(Sync(b, t), op), t);
  }

  /** The machine runs to `t`, and the guest makes its access. */
  function Visit(b: Board, t: nat, op: Op): (r: Board)
    requires Armed(b) && b.last <= t
    ensures Armed(r) && r.last == t && r.hz == b.hz
  {
    WakesSuffice(b, t);
    AccessArms(Pass(b, t), t, op);
    Access(Pass(b, t), t, op)
  }

  function Run(b: Board, steps: seq<Step>): (r: Board)
    requires Armed(b)
    decreases |steps|
  {
    if |steps| == 0 then b else Run(Visit(b, b.last + steps[0].wait, steps[0].op), steps[1..])
  }

  /** What the chip is owed for a run: each stretch of time at the rate in force over it. */
  function Owed(rate: nat, steps: seq<Step>): nat
    decreases |steps|
  {
    if |steps| == 0 then 0
    else steps[0].wait * rate
         + Owed(if steps[0].op.Mode? && steps[0].op.rate > 0 then steps[0].op.rate else rate, steps[1..])
  }

  /** No 2CLK is lost or invented, however the accesses fall, the wakes fire and the rate changes. */
  lemma {:induction false} RunIsExact(b: Board, steps: seq<Step>)
    requires Armed(b)
    ensures var r := Run(b, steps);
      && Armed(r) && r.hz == b.hz && (b.rem < b.hz ==> r.rem < r.hz)
      && r.acc * b.hz + r.rem == b.acc * b.hz + b.rem + Owed(b.rate, steps)
    decreases |steps|
  {
    hide Deadline, Draw, Sync, Arm, Pass, Access;
    if |steps| > 0 {
      var t := b.last + steps[0].wait;
      WakesSuffice(b, t);
      var p := Pass(b, t);
      AccessArms(p, t, steps[0].op);
      SyncIsExact(p, t, t);
      SyncIsExact(b, t, t);
      SyncLeaves(b, t);
      SyncLeaves(p, t);
      RunIsExact(Visit(b, t, steps[0].op), steps[1..]);
    }
  }

  lemma AccessIsSync(b: Board, p: Board, t: nat, op: Op)
    requires Valid(b) && Valid(p) && b.last <= t && p.last <= t && Sync(p, t) == Sync(b, t).(wake := Sync(p, t).wake)
    ensures Access(p, t, op) == Access(b, t, op)
  {
    hide Deadline, Draw, Work, Sync;
    SyncIsExact(b, t, t);
    SyncIsExact(p, t, t);
    SameDeadline(Done(Sync(b, t), op), Sync(p, t).wake);
  }

  /** Looking at the board on the way changes nothing: the count, the commands and the next wake come
      out as if nobody had. */
  lemma LooksAreInvisible(b: Board, t1: nat, t2: nat, op: Op)
    requires Armed(b) && b.last <= t1 <= t2
    ensures Visit(Visit(b, t1, Look), t2, op) == Visit(b, t2, op)
  {
    hide Deadline, Draw, Work, Sync, Arm, Pass, Access;
    WakesSuffice(b, t1);
    var p := Pass(b, t1);
    AccessArms(p, t1, Look);
    var look := Access(p, t1, Look);
    LookIsSync(p, t1);
    WakesSuffice(look, t2);
    WakesSuffice(b, t2);
    SyncSplits(b, t1, t2);
    SyncLeaves(b, t1);
    WakeDoesNotCount(Sync(b, t1), look.wake, t2);
    AccessIsSync(Pass(b, t2), Pass(look, t2), t2, op);
  }

  lemma LookIsSync(b: Board, t: nat)
    requires Valid(b) && b.last <= t
    ensures Access(b, t, Look) == Sync(b, t).(wake := Access(b, t, Look).wake)
  {}

  // ---------------------------------------------------------------------------------------
  // The CPU's clock is changed
  // ---------------------------------------------------------------------------------------

  const WORD := 0x1_0000_0000_0000_0000

  /** Subtraction as the machine makes it. */
  function Minus(a: nat, b: nat): nat { (a - b) % WORD }

  /** The deadline worked out with a new rate and nothing carried since the old one: its subtraction is
      right exactly when what is left over is no more than what the command has still to run, and so
      whenever the clock is not lowered. Otherwise the count is already there and the subtraction comes
      out nearly a whole word. */
  lemma SubtractionIsRight(b: Board, hz: nat)
    requires Valid(b) && b.chip.busy && hz > 0 && Ahead(b) * hz < WORD && b.rem < WORD
    ensures var r := b.(hz := hz); var owed := Minus(Ahead(b) * hz, b.rem);
      && (owed == Ahead(b) * hz - b.rem <==> b.rem <= Ahead(b) * hz)
      && (Valid(r) <==> b.rem <= Ahead(b) * hz)
      && (hz >= b.hz ==> Valid(r))
      && (Valid(r) ==> Deadline(r) == b.last + CeilDiv(owed, b.rate))
      && (!Valid(r) ==> owed >= WORD - b.rem && Work(r, b.last) > b.chip.until * hz)
  {
    Raise(b, hz);
    Distribute(b.acc, Ahead(b), hz);
  }

  lemma Raise(b: Board, hz: nat)
    requires Valid(b) && hz > 0
    ensures hz >= b.hz ==> b.rem <= Ahead(b) * hz
  {
    if hz >= b.hz { MulMonotone(b.hz, hz, Ahead(b)); }
  }

  /** A one-2CLK command, looked at a T-state after it began; the clock goes from 4 MHz to 2 MHz, and
      the board is looked at again before another T-state. */
  lemma LoweredClockCanWrap()
    ensures var idle := Board(4_000_000, 3_146_875, 0, 0, 0, Chip(0, false, 0, []), None);
      && Valid(idle) && Valid(Access(idle, 0, Command(1)))
      && (var b := Access(Access(idle, 0, Command(1)), 1, Look);
          b.chip.busy && b.chip.now == b.acc && Sane(b.chip) && b.rem > Ahead(b) * 2_000_000)
  {
    hide Draw;
    var idle := Board(4_000_000, 3_146_875, 0, 0, 0, Chip(0, false, 0, []), None);
    DrawNothing(idle.chip, 0);
    DrawNothing(Access(idle, 0, Command(1)).chip, 0);
  }

  /** The machine runs to `now`, and there its clock is set. Nothing tells the board. */
  function Reclock(b: Board, now: nat, hz: nat): Board
    requires Armed(b) && b.last <= now
  {
    Pass(b, now).(hz := hz)
  }

  lemma DeadlineFollowsClock(b: Board, hz: nat)
    requires Valid(b) && hz >= b.hz
    ensures Valid(b.(hz := hz)) && Deadline(b.(hz := hz)) >= Deadline(b)
  {
    Raise(b, hz);
    if b.chip.busy {
      MulMonotone(b.hz, hz, Ahead(b));
      CeilDivMonotone(Ahead(b) * b.hz - b.rem, Ahead(b) * hz - b.rem, b.rate);
    }
  }

  lemma CeilDivMonotone(need: nat, more: nat, d: nat)
    requires d > 0 && need <= more
    ensures CeilDiv(need, d) <= CeilDiv(more, d)
  {
    hide CeilDiv;
    CeilDivLeast(more, d, 0);
    CeilDivLeast(need, d, CeilDiv(more, d));
  }

  /** The board is as good as after any access exactly when the subtraction is right and the wake already
      asked for comes no later than the new deadline: so whenever the clock is not lowered. */
  lemma ReclockedIsArmed(b: Board, now: nat, hz: nat)
    requires Armed(b) && b.last <= now && hz > 0
    ensures var r := Reclock(b, now, hz);
      && Sane(r.chip) && r.chip.now == r.acc && r.last <= now && (r.chip.busy ==> r.wake.Some? && r.wake.value > now)
      && (Armed(r) <==> r.rem <= Ahead(r) * hz && (r.chip.busy ==> r.wake.value <= Due(r, r.last)))
      && (hz >= b.hz ==> Armed(r))
  {
    hide Deadline, Pass, Draw, Sync;
    WakesSuffice(b, now);
    var p := Pass(b, now);
    if hz >= b.hz { DeadlineFollowsClock(p, hz); }
  }

  /** The wake asked for at the old rate is in time at the new one if and only if it is no later than the
      new deadline; if it is later, the command has ended before anyone is woken. */
  lemma WakeInTime(b: Board, hz: nat)
    requires Armed(b) && b.chip.busy && Valid(b.(hz := hz))
    ensures var r := b.(hz := hz);
      b.wake.value <= Due(r, r.last)
      <==> forall t :: b.last <= t < b.wake.value ==> Sync(r, t).acc < r.chip.until
  {
    hide Sync, Deadline;
    var r := b.(hz := hz);
    forall t | b.last <= t < b.wake.value
      ensures Sync(r, t).acc < r.chip.until <==> t < Due(r, r.last)
    {
      SyncEndsCommand(r, t);
    }
    if b.wake.value > Due(r, r.last) {
      DeadlineIsFirst(r, r.last);
      assert Sync(r, Due(r, r.last)).acc >= r.chip.until;
    }
  }

  /** And it can be later: a two-2CLK command begun at 4 Hz, the clock set to 2 Hz at once. A sync at T-state 4
      reaches the command's end, with the wake at T-state 8. */
  lemma LoweredClockWakesLate()
    ensures var idle := Board(4, 1, 0, 0, 0, Chip(0, false, 0, []), None);
      Valid(idle) && Sharp(idle) && Armed(Access(idle, 0, Command(2)))
    ensures var b := Access(Board(4, 1, 0, 0, 0, Chip(0, false, 0, []), None), 0, Command(2));
      var r := Reclock(b, 0, 2);
      && Valid(r) && r.chip.busy && r.wake == Some(8) && Deadline(r) == 4 && !Armed(r)
      && (forall t :: 0 <= t ==> (Sync(r, t).acc >= r.chip.until <==> t >= 4))
  {
    hide Draw, Sync;
    var idle := Board(4, 1, 0, 0, 0, Chip(0, false, 0, []), None);
    SyncIsExact(idle, 0, 0);
    AccessArms(idle, 0, Command(2));
    var b := Access(idle, 0, Command(2));
    var r := Reclock(b, 0, 2);
    assert r == b.(hz := 2);
    forall t | 0 <= t
      ensures Sync(r, t).acc >= r.chip.until <==> t >= 4
    {
      SyncEndsCommand(r, t);
    }
  }

  /** A raised clock: from there on the count is exact at the new rate, and the wakes are enough. */
  lemma RaisedClockStaysExact(b: Board, now: nat, hz: nat, steps: seq<Step>, to: nat)
    requires Armed(b) && b.last <= now <= to && hz >= b.hz
    ensures var r := Reclock(b, now, hz);
      && Armed(r) && r.last <= now
      && Run(r, steps).acc * hz + Run(r, steps).rem == r.acc * hz + r.rem + Owed(r.rate, steps)
      && Pass(r, to).chip == Sync(r, to).chip.(now := Pass(r, to).chip.now)
  {
    hide Deadline, Pass, Draw, Sync, Run, Owed;
    ReclockedIsArmed(b, now, hz);
    RunIsExact(Reclock(b, now, hz), steps);
    WakesSuffice(Reclock(b, now, hz), to);
  }

  // ---------------------------------------------------------------------------------------
  // The board, changed in place
  // ---------------------------------------------------------------------------------------

  class Cadzilla {
    const hz: nat
    var twoClk: nat
    var acc2clk: nat
    var rem: nat
    var lastT: nat
    var acrtc: Chip
    var wake: Option<nat>

    ghost function State(): Board
      reads this
    {
      Board(hz, twoClk, acc2clk, rem, lastT, acrtc, wake)
    }

    constructor (cpu: nat, rate: nat, now: nat)
      requires cpu > 0 && rate > 0
      ensures Sharp(State()) && State() == Board(cpu, rate, 0, 0, now, Chip(0, false, 0, []), None)
    {
      hz, twoClk, acc2clk, rem, lastT := cpu, rate, 0, 0, now;
      acrtc, wake := Chip(0, false, 0, []), None;
    }

    method CatchUp(t: nat)
      requires Valid(State()) && lastT <= t
      modifies this`acc2clk, this`rem, this`lastT, this`acrtc
      ensures Valid(State()) && State() == Sync(old(State()), t)
    {
      hide Draw, Work;
      SyncIsExact(State(), t, t);
      if t > lastT {
        var dT := t - lastT;
        var num := dT % hz * twoClk + rem;
        acc2clk := acc2clk + dT / hz * twoClk + num / hz;
        rem := num % hz;
      }
      lastT := t;
      acrtc := Draw(acrtc, acc2clk);
    }

    method SetWake(now: nat)
      requires Valid(State()) && lastT <= now
      modifies this`wake
      ensures State() == Arm(old(State()), now)
    {
      wake := None;
      if !acrtc.busy {
        return;
      }
      var dT := 0;
      if acrtc.until > acc2clk {
        var owed := (acrtc.until - acc2clk) * hz - rem;
        dT := (owed + twoClk - 1) / twoClk;
      }
      var when := lastT + dT;
      if when <= now {
        when := now + 1;
      }
      wake := Some(when);
    }

    /** The clock reached the wake. */
    method Woken(t: nat)
      requires Valid(State()) && lastT <= t
      modifies this
      ensures State() == Fire(old(State()), t)
    {
      hide Sync, Draw, Work, Deadline;
      wake := None;
      SyncLeaves(State(), t);
      CatchUp(t);
      SetWake(t);
    }

    method Touch(t: nat, op: Op)
      requires Valid(State()) && lastT <= t
      modifies this
      ensures Sharp(State()) && State() == Access(old(State()), t, op)
    {
      hide Sync, Draw, Work, Deadline;
      AccessArms(State(), t, op);
      SyncLeaves(State(), t);
      CatchUp(t);
      match op {
        case Look =>
        case Mode(rate) =>
          if rate > 0 {
            twoClk := rate;
          }
        case Command(cost) =>
          acrtc := Submit(acrtc, cost);
      }
      SetWake(t);
    }
  }
}
