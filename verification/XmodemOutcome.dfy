/** Which transfers can still be completed.

    The sender numbers no reply and the receiver repeats no ACK for a block it has: one ACK lost and the
    two are a block apart for good. Everything else that can be lost can be made up for.
 */
module XmodemOutcome {
  import opened Basics
  import opened Xmodem

  /** An ACK that was sent has gone: fewer are on the way than blocks taken and not yet known. */
  predicate AckLost(st: State) {
    st.acked + Acks(st.back) < st.due - 1 && !st.r.Written?
  }

  predicate Listening(st: State) { st.r.Asking? || st.r.Taking? }

  /** A try is left: a NAK is on the way or can yet be, or the sender can send again. */
  predicate TryLeft(st: State) {
    match st.s
    case Waiting => Nak in st.back || (st.r.Asking? && st.r.asks < ASKS)
    case Sending(tries, awaiting) => awaiting ==> tries + 1 < TRIES
    case Ending(tries, awaiting) => awaiting ==> tries + 1 < TRIES
    case _ => false
  }

  /** What the last try is waiting for is already on its way. */
  predicate Coming(st: State) {
    match st.s
    case Sending(_, _) => Acks(st.back) > 0 || exists f :: f in st.there && IsNext(st, f)
    case Ending(_, _) => Eot in st.there
    case Sent => Eot in st.there
    case _ => false
  }

  /** The transfer can still come to its end. */
  predicate Alive(st: State) {
    || (st.r.Written? && (st.s.Ending? || st.s.Sent?))
    || (Listening(st) && !AckLost(st) && (TryLeft(st) || Coming(st)))
  }

  predicate Complete(st: State) { st.s.Sent? && st.r.Written? }

  ghost predicate CanComplete(bs: seq<Block>, st: State) {
    exists sts, es :: Path(bs, sts, es) && sts[0] == st && Complete(sts[|es|])
  }

  // ---------------------------------------------------------------------------------------
  // An ACK lost
  // ---------------------------------------------------------------------------------------

  /** In the transfer of any file, any one ACK can be lost, or damaged. */
  lemma AckCanBeLost(data: seq<byte>, k: nat, damaged: bool) returns (sts: seq<State>, es: seq<Event>)
    requires k < |Blocks(data)|
    ensures Run(Blocks(data), sts, es) && |es| == 3 * k + 5 && AckLost(sts[|es|])
    ensures Listening(sts[|es|]) && TryLeft(sts[|es|])
  {
    hide Run, Joined, Blocks, Step;
    var bs := Blocks(data);
    sts, es := AllBlocks(bs, k);
    RunLength(bs, sts, es);
    sts, es := BlockTaken(bs, sts, es, k);
    var b := sts[|es|];
    var e := if damaged then DamageReply(0) else LoseReply(0);
    var c := b.(back := if damaged then [Garbled] else []);
    LineTrouble(bs, b, damaged);
    Extend(bs, sts, es, e, c);
    sts, es := sts + [c], es + [e];
    RunLength(bs, sts, es);
  }

  lemma LineTrouble(bs: seq<Block>, st: State, damaged: bool)
    requires st.back == [Ack]
    ensures var back := if damaged then [Garbled] else [];
      Acks(back) == 0 && Step(bs, st, if damaged then DamageReply(0) else LoseReply(0), st.(back := back))
  {
    assert st.back[..0] + st.back[1..] == [] && st.back[0 := Garbled] == [Garbled] && [Garbled][1..] == [];
  }

  /** The sender can only repeat a block that the receiver, waiting for the next, refuses. */
  lemma AckLostStays(bs: seq<Block>, st: State, e: Event, st': State)
    requires Inv(bs, st) && AckLost(st) && Step(bs, st, e, st')
    ensures AckLost(st') && st'.due == st.due && st'.out == st.out && !st'.s.Sent?
  {
    hide Joined;
    match e
    case LoseReply(k) => AcksCut(st.back, k);
    case DamageReply(k) => AcksCut(st.back, k);
    case Ask => AcksAppend(st.back, Nak);
    case ReceiverHears(_) =>
      AcksAppend(st.back, Nak);
      if st.there[0].Data? { NoAlias(bs, st, st.there[0]); }
    case _ =>
  }

  // ---------------------------------------------------------------------------------------
  // What cannot be completed never can be
  // ---------------------------------------------------------------------------------------

  /** What a dead transfer that has lost no ACK is like. */
  predicate Spent(st: State) {
    !AckLost(st) && !Alive(st)
  }

  lemma LinesSpent(bs: seq<Block>, st: State, e: Event, st': State)
    requires Inv(bs, st) && Step(bs, st, e, st') && Spent(st)
    requires e.LoseFrame? || e.DamageFrame? || e.LoseReply? || e.DamageReply?
    ensures !Alive(st')
  {
    hide Joined, Inv, Acks;
    match e {
      case LoseFrame(k) => CutLess(st.there, k, Noise);
      case DamageFrame(k) => CutLess(st.there, k, Noise);
      case LoseReply(k) => AcksCut(st.back, k); CutLess(st.back, k, Garbled);
      case DamageReply(k) => AcksCut(st.back, k); CutLess(st.back, k, Garbled);
    }
    NoNewFrame(st, st');
  }

  lemma NoNewFrame(st: State, st': State)
    requires st'.due == st.due && forall f :: f in st'.there && f != Noise ==> f in st.there
    ensures (exists f :: f in st'.there && IsNext(st', f)) ==> exists f :: f in st.there && IsNext(st, f)
    ensures Eot in st'.there ==> Eot in st.there
  {
    if exists f :: f in st'.there && IsNext(st', f) {
      var f :| f in st'.there && IsNext(st', f);
      assert f in st.there && IsNext(st, f);
    }
  }

  /** A line that has lost something, or has it damaged, carries nothing new but the damage. */
  lemma CutLess<T>(line: seq<T>, k: nat, noise: T)
    requires k < |line|
    ensures forall x :: x in line[..k] + line[k + 1..] ==> x in line
    ensures forall x :: x in line[k := noise] ==> x in line || x == noise
  {}

  lemma HearsSpent(bs: seq<Block>, st: State, replies: bool, st': State)
    requires Inv(bs, st) && Step(bs, st, ReceiverHears(replies), st') && Spent(st)
    ensures !Alive(st')
  {
    hide Joined;
    AcksAppend(st.back, Nak);
    HeadFresh(bs, st);
    if st.there[0].Data? { NoAlias(bs, st, st.there[0]); }
    if st'.due == st.due { NoNewFrame(st, st'); } else { assert IsNext(st, st.there[0]); }
  }

  lemma SenderSpent(bs: seq<Block>, st: State, e: Event, st': State)
    requires Inv(bs, st) && Step(bs, st, e, st') && Spent(st)
    requires e.Begin? || e.NeverAsked? || e.SendBlock? || e.SendEot? || e.SenderHears? || e.SenderWaits?
    ensures !Alive(st')
  {
    hide Joined, Fresh;
  }

  lemma NoneLeft(bs: seq<Block>, st: State, e: Event, st': State)
    requires Inv(bs, st) && Step(bs, st, e, st') && !AckLost(st) && !Alive(st)
    ensures !Alive(st')
  {
    hide Joined, Step, Inv, Alive, AckLost;
    match e
    case ReceiverHears(replies) => HearsSpent(bs, st, replies, st');
    case Ask => AskSpent(bs, st, e, st');
    case ReceiverStalls => AskSpent(bs, st, e, st');
    case LoseFrame(_) => LinesSpent(bs, st, e, st');
    case DamageFrame(_) => LinesSpent(bs, st, e, st');
    case LoseReply(_) => LinesSpent(bs, st, e, st');
    case DamageReply(_) => LinesSpent(bs, st, e, st');
    case _ => SenderSpent(bs, st, e, st');
  }

  lemma AskSpent(bs: seq<Block>, st: State, e: Event, st': State)
    requires Inv(bs, st) && Step(bs, st, e, st') && Spent(st) && (e.Ask? || e.ReceiverStalls?)
    ensures !Alive(st')
  {
    hide Joined, Fresh;
    AcksAppend(st.back, Nak);
  }

  lemma DeadStays(bs: seq<Block>, st: State, e: Event, st': State)
    requires Inv(bs, st) && Inv(bs, st') && Step(bs, st, e, st') && !Alive(st)
    ensures !Alive(st')
  {
    hide Step;
    if AckLost(st) { AckLostStays(bs, st, e, st'); } else { NoneLeft(bs, st, e, st'); }
  }

  lemma {:induction false} NeverComplete(bs: seq<Block>, sts: seq<State>, es: seq<Event>)
    requires Path(bs, sts, es) && Inv(bs, sts[0]) && !Alive(sts[0])
    ensures !Complete(sts[|es|])
    decreases |es|
  {
    hide Inv, Acks;
    if |es| > 0 {
      StepKeeps(bs, sts[0], es[0], sts[1]);
      DeadStays(bs, sts[0], es[0], sts[1]);
      NeverComplete(bs, sts[1..], es[1..]);
    }
  }

  // ---------------------------------------------------------------------------------------
  // Everything else can be
  // ---------------------------------------------------------------------------------------

  lemma Before(bs: seq<Block>, st: State, e: Event, st': State)
    requires Step(bs, st, e, st') && CanComplete(bs, st')
    ensures CanComplete(bs, st)
  {
    hide Step;
    var sts, es :| Path(bs, sts, es) && sts[0] == st' && Complete(sts[|es|]);
    var ts, fs := [st] + sts, [e] + es;
    forall i | 0 <= i < |fs|
      ensures Step(bs, ts[i], fs[i], ts[i + 1])
    {
      if i > 0 { assert fs[i] == es[i - 1] && ts[i] == sts[i - 1] && ts[i + 1] == sts[i]; }
    }
    assert Path(bs, ts, fs) && ts[0] == st && Complete(ts[|fs|]);
  }

  lemma Arrived(bs: seq<Block>, st: State)
    requires Complete(st)
    ensures CanComplete(bs, st)
  {
    assert Path(bs, [st], []) && Complete([st][0]);
  }

  /** What is first on a line can always be lost. */
  lemma {:induction false} WithoutFrames(bs: seq<Block>, st: State, k: nat)
    requires k <= |st.there| && CanComplete(bs, st.(there := st.there[k..]))
    ensures CanComplete(bs, st)
    decreases k
  {
    hide CanComplete;
    if k > 0 {
      var st1 := st.(there := st.there[1..]);
      assert st1.there[k - 1..] == st.there[k..] && st.there[..0] + st.there[1..] == st.there[1..];
      WithoutFrames(bs, st1, k - 1);
      Before(bs, st, LoseFrame(0), st1);
    } else {
      assert st.there[0..] == st.there;
    }
  }

  lemma {:induction false} WithoutReplies(bs: seq<Block>, st: State, k: nat)
    requires k <= |st.back| && CanComplete(bs, st.(back := st.back[k..]))
    ensures CanComplete(bs, st)
    decreases k
  {
    hide CanComplete;
    if k > 0 {
      var st1 := st.(back := st.back[1..]);
      assert st1.back[k - 1..] == st.back[k..] && st.back[..0] + st.back[1..] == st.back[1..];
      WithoutReplies(bs, st1, k - 1);
      Before(bs, st, LoseReply(0), st1);
    } else {
      assert st.back[0..] == st.back;
    }
  }

  lemma WithoutLines(bs: seq<Block>, st: State)
    requires CanComplete(bs, st.(there := [], back := []))
    ensures CanComplete(bs, st)
  {
    hide CanComplete;
    assert st.there[|st.there|..] == [] && st.back[|st.back|..] == [];
    WithoutReplies(bs, st.(there := []), |st.back|);
    WithoutFrames(bs, st, |st.there|);
  }

  /** With the file written, the sender ends at the latest when its tries run out. */
  lemma {:induction false} WrittenCompletes(bs: seq<Block>, st: State)
    requires st.r.Written? && (st.s.Ending? || st.s.Sent?)
    ensures CanComplete(bs, st)
    decreases st.s.Ending?, if st.s.Ending? && st.s.tries < TRIES then TRIES - st.s.tries else 0,
              st.s.Ending? && !st.s.awaiting
  {
    hide CanComplete;
    if st.s.Sent? {
      Arrived(bs, st);
    } else if st.s.awaiting {
      WrittenCompletes(bs, EndRetried(st));
      Before(bs, st, SenderWaits, EndRetried(st));
    } else {
      var st1 := st.(s := Ending(st.s.tries, true), there := st.there + [Eot]);
      WrittenCompletes(bs, st1);
      Before(bs, st, SendEot, st1);
    }
  }

  lemma EotCompletes(bs: seq<Block>, st: State)
    requires Listening(st) && (st.s.Ending? || st.s.Sent?) && Eot in st.there
    ensures CanComplete(bs, st)
  {
    hide CanComplete;
    var k :| 0 <= k < |st.there| && st.there[k] == Eot;
    var st1 := st.(there := st.there[k..]);
    var st2 := Take(st1.(there := st1.there[1..]), Eot, true);
    WrittenCompletes(bs, st2);
    Before(bs, st1, ReceiverHears(true), st2);
    WithoutFrames(bs, st, k);
  }

  lemma EndingCompletes(bs: seq<Block>, st: State)
    requires Listening(st) && st.s.Ending? && TryLeft(st)
    ensures CanComplete(bs, st)
  {
    hide CanComplete;
    var st1 := if st.s.awaiting then EndRetried(st) else st;
    var st2 := st1.(s := Ending(st1.s.tries, true), there := st1.there + [Eot]);
    EotCompletes(bs, st2);
    Before(bs, st1, SendEot, st2);
    if st.s.awaiting { Before(bs, st, SenderWaits, st1); }
  }

  /** Sender and receiver at the same block, about to send it, on whatever try. */
  predicate Level(bs: seq<Block>, st: State) {
    Listening(st) && st.s.Sending? && !st.s.awaiting && st.due == st.acked + 1 && st.acked < |bs|
  }

  /** An ACK on its way to a sender that waits for it. */
  lemma AckArrives(bs: seq<Block>, st: State, k: nat)
    requires Listening(st) && st.s.Sending? && st.s.awaiting && k < |st.back| && st.back[k] == Ack
    requires CanComplete(bs, Advanced(st.(there := [], back := []), bs))
    ensures CanComplete(bs, st)
  {
    hide CanComplete;
    var st1 := st.(back := st.back[k..]);
    var st2 := Advanced(st1.(back := st1.back[1..]), bs);
    assert st2.(there := [], back := []) == Advanced(st.(there := [], back := []), bs);
    WithoutLines(bs, st2);
    Before(bs, st1, SenderHears, st2);
    WithoutReplies(bs, st, k);
  }

  /** The receiver has had its block, and whatever else was on the way is lost. */
  function Got(st: State, out: seq<byte>): State {
    st.(there := [], back := [], r := Taking, due := st.due + 1, out := out)
  }

  /** A block on its way to a receiver that waits for it. */
  lemma BlockArrives(bs: seq<Block>, st: State, k: nat)
    requires Listening(st) && st.s.Sending? && st.s.awaiting && k < |st.there| && IsNext(st, st.there[k])
    requires forall out :: CanComplete(bs, Advanced(Got(st, out), bs))
    ensures CanComplete(bs, st)
  {
    hide CanComplete;
    var st1 := st.(there := st.there[k..]);
    var st2 := Take(st1.(there := st1.there[1..]), st1.there[0], true);
    assert st2.back[|st.back|] == Ack;
    assert st2.(there := [], back := []) == Got(st, st2.out);
    AckArrives(bs, st2, |st.back|);
    Before(bs, st1, ReceiverHears(true), st2);
    WithoutFrames(bs, st, k);
  }

  lemma {:induction false} LevelCompletes(bs: seq<Block>, st: State)
    requires Level(bs, st)
    ensures CanComplete(bs, st)
    decreases |bs| - st.acked, 0
  {
    hide CanComplete;
    var st1 := st.(s := Sending(st.s.tries, true), there := st.there + [BlockFrame(bs, st.acked + 1)]);
    forall out
      ensures CanComplete(bs, Advanced(Got(st1, out), bs))
    {
      Onward(bs, Got(st1, out));
    }
    BlockArrives(bs, st1, |st.there|);
    Before(bs, st, SendBlock, st1);
  }

  lemma {:induction false} Onward(bs: seq<Block>, st: State)
    requires Listening(st) && st.due == st.acked + 2 && st.acked < |bs|
    ensures CanComplete(bs, Advanced(st, bs))
    decreases |bs| - st.acked - 1, 1
  {
    hide CanComplete;
    if st.acked + 1 < |bs| { LevelCompletes(bs, Advanced(st, bs)); } else { EndingCompletes(bs, Advanced(st, bs)); }
  }

  lemma {:induction false} AckThere(back: seq<Reply>) returns (k: nat)
    requires Acks(back) > 0
    ensures k < |back| && back[k] == Ack
  {
    if back[0].Ack? { k := 0; } else { k := AckThere(back[1..]); k := k + 1; }
  }

  lemma SendingCompletes(bs: seq<Block>, st: State)
    requires Inv(bs, st) && Alive(st) && st.s.Sending? && Listening(st)
    ensures CanComplete(bs, st)
  {
    hide CanComplete, Joined, Advanced, Retried;
    if st.due == st.acked + 2 {
      var k := AckThere(st.back);
      Onward(bs, st.(there := [], back := []));
      if st.s.awaiting {
        AckArrives(bs, st, k);
      } else {
        var st1 := st.(s := Sending(st.s.tries, true), there := st.there + [BlockFrame(bs, st.acked + 1)]);
        AdvancedForgets(bs, st, st1);
        AckArrives(bs, st1, k);
        Before(bs, st, SendBlock, st1);
      }
    } else if TryLeft(st) {
      var st1 := if st.s.awaiting then Retried(st) else st;
      RetriedIsLevel(bs, st);
      LevelCompletes(bs, st1);
      if st.s.awaiting { Before(bs, st, SenderWaits, st1); }
    } else {
      assert Acks(st.back) == 0;
      var f :| f in st.there && IsNext(st, f);
      var k :| 0 <= k < |st.there| && st.there[k] == f;
      forall out
        ensures CanComplete(bs, Advanced(Got(st, out), bs))
      {
        Onward(bs, Got(st, out));
      }
      BlockArrives(bs, st, k);
    }
  }

  lemma AdvancedForgets(bs: seq<Block>, st: State, st1: State)
    requires st1 == st.(s := st1.s, there := st1.there)
    ensures Advanced(st1.(there := [], back := []), bs) == Advanced(st.(there := [], back := []), bs)
  {}

  lemma RetriedIsLevel(bs: seq<Block>, st: State)
    requires Listening(st) && st.s.Sending? && st.due == st.acked + 1 && st.acked < |bs| && TryLeft(st)
    ensures Level(bs, if st.s.awaiting then Retried(st) else st)
  {}

  lemma NakBegins(bs: seq<Block>, st: State, k: nat)
    requires Inv(bs, st) && Listening(st) && st.s.Waiting? && k < |st.back| && st.back[k] == Nak
    ensures CanComplete(bs, st)
  {
    hide CanComplete, Joined;
    var st1 := st.(back := st.back[k..]);
    var st2 := st1.(back := st1.back[1..], s := if |bs| > 0 then Sending(0, false) else Ending(0, false));
    if |bs| > 0 { LevelCompletes(bs, st2); } else { EndingCompletes(bs, st2); }
    Before(bs, st1, Begin, st2);
    WithoutReplies(bs, st, k);
  }

  lemma WaitingCompletes(bs: seq<Block>, st: State)
    requires Inv(bs, st) && Listening(st) && st.s.Waiting? && TryLeft(st)
    ensures CanComplete(bs, st)
  {
    hide CanComplete, Inv;
    if Nak in st.back {
      var k :| 0 <= k < |st.back| && st.back[k] == Nak;
      NakBegins(bs, st, k);
    } else {
      var st1 := st.(r := Asking(st.r.asks + 1), back := st.back + [Nak]);
      AskKeeps(bs, st, Ask, st1);
      NakBegins(bs, st1, |st.back|);
      Before(bs, st, Ask, st1);
    }
  }

  lemma AliveCompletes(bs: seq<Block>, st: State)
    requires Inv(bs, st) && Alive(st)
    ensures CanComplete(bs, st)
  {
    hide CanComplete, Inv, Acks;
    if st.r.Written? {
      WrittenCompletes(bs, st);
    } else {
      match st.s
      case Waiting => WaitingCompletes(bs, st);
      case Sending(_, _) => SendingCompletes(bs, st);
      case _ =>
        if TryLeft(st) {
          EndingCompletes(bs, st);
        } else {
          EotCompletes(bs, st);
        }
    }
  }

  // ---------------------------------------------------------------------------------------
  // Exactly which
  // ---------------------------------------------------------------------------------------

  /** Of any state of any run: some continuation completes the transfer if and only if it is Alive. */
  lemma CompletesExactly(bs: seq<Block>, sts: seq<State>, es: seq<Event>, i: nat)
    requires Run(bs, sts, es) && i < |sts|
    ensures CanComplete(bs, sts[i]) <==> Alive(sts[i])
  {
    hide Inv, Step, Alive, Acks;
    RunInv(bs, sts, es, i);
    if Alive(sts[i]) {
      AliveCompletes(bs, sts[i]);
    } else if CanComplete(bs, sts[i]) {
      var ts, fs :| Path(bs, ts, fs) && ts[0] == sts[i] && Complete(ts[|fs|]);
      NeverComplete(bs, ts, fs);
    }
  }

  /** So with both sides still going and a try left, it hangs on one thing: that no ACK has been lost. */
  lemma OnlyAckLossIsFatal(bs: seq<Block>, sts: seq<State>, es: seq<Event>, i: nat)
    requires Run(bs, sts, es) && i < |sts| && Listening(sts[i]) && TryLeft(sts[i])
    ensures CanComplete(bs, sts[i]) <==> !AckLost(sts[i])
  {
    hide Inv, Step, Acks, CanComplete;
    CompletesExactly(bs, sts, es, i);
  }
}
