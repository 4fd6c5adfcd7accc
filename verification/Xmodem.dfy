/** The XMODEM sender and receiver, as two processes over two lossy first-in first-out lines.

    A frame or a reply on its way may be lost, or damaged so that its checks fail; it is never
    forged and never overtakes another.
 */
module Xmodem {
  import opened Basics

  const SUB: byte := 0x1A
  const BLOCK: nat := 128
  const ASKS: nat := 60    // NAKs before the receiver gives up on a start
  const TRIES: nat := 10   // of a block, and of the end of the transmission

  type Block = seq<byte>

  // ---------------------------------------------------------------------------------------
  // Blocks
  // ---------------------------------------------------------------------------------------

  /** The last block filled out with SUBs. */
  function Filled(data: seq<byte>): (b: Block)
    requires |data| <= BLOCK
    ensures |b| == BLOCK
  {
    data + seq(BLOCK - |data|, _ => SUB)
  }

  /** A file cut into blocks. */
  function Blocks(data: seq<byte>): (bs: seq<Block>)
    ensures forall i :: 0 <= i < |bs| ==> |bs[i]| == BLOCK
  {
    if |data| == 0 then []
    else if |data| <= BLOCK then [Filled(data)]
    else [data[..BLOCK]] + Blocks(data[BLOCK..])
  }

  function Joined(bs: seq<Block>): (data: seq<byte>) {
    if |bs| == 0 then [] else bs[0] + Joined(bs[1..])
  }

  /** What arrives when all of a file does: the file, and fewer than 128 SUBs to fill its last block. */
  lemma {:induction false} JoinedBlocks(data: seq<byte>)
    ensures data <= Joined(Blocks(data))
    ensures |Joined(Blocks(data))| < |data| + 128 && |Joined(Blocks(data))| % 128 == 0
    ensures forall i :: |data| <= i < |Joined(Blocks(data))| ==> Joined(Blocks(data))[i] == 0x1A
  {
    if |data| > BLOCK {
      var bs := Blocks(data);
      assert bs[1..] == Blocks(data[BLOCK..]);
      JoinedBlocks(data[BLOCK..]);
      assert data == data[..BLOCK] + data[BLOCK..];
      var rest := Joined(bs[1..]);
      assert forall i :: |data| <= i < |Joined(bs)| ==> Joined(bs)[i] == rest[i - BLOCK];
    } else if |data| > 0 {
      assert Blocks(data)[1..] == [];
      assert Joined(Blocks(data)) == Filled(data);
    }
  }

  lemma {:induction false} JoinedAppend(bs: seq<Block>, b: Block)
    ensures Joined(bs + [b]) == Joined(bs) + b
  {
    if |bs| == 0 {
      assert (bs + [b])[1..] == [];
    } else {
      assert (bs + [b])[1..] == bs[1..] + [b];
      JoinedAppend(bs[1..], b);
    }
  }

  /** The sender's cut of the file, 128 bytes at a time. */
  method Cut(data: seq<byte>) returns (bs: seq<Block>)
    ensures bs == Blocks(data)
  {
    bs := [];
    var i := 0;
    assert data[0..] == data;
    while i < |data|
      invariant i <= |data| && bs + Blocks(data[i..]) == Blocks(data)
    {
      var n := if i + BLOCK <= |data| then BLOCK else |data| - i;
      CutOne(data[i..], n);
      assert data[i..][n..] == data[i + n..];
      assert bs + ([Filled(data[i..][..n])] + Blocks(data[i + n..])) == bs + [Filled(data[i..][..n])] + Blocks(data[i + n..]);
      bs := bs + [Filled(data[i..][..n])];
      i := i + n;
    }
  }

  lemma CutOne(data: seq<byte>, n: nat)
    requires 0 < n <= |data| && n <= BLOCK && (n == BLOCK || n == |data|)
    ensures Blocks(data) == [Filled(data[..n])] + Blocks(data[n..])
  {
    if n == BLOCK { assert Filled(data[..n]) == data[..n]; }
    if n == |data| { assert data[..n] == data && Blocks(data[n..]) == []; }
  }

  // ---------------------------------------------------------------------------------------
  // Frames
  // ---------------------------------------------------------------------------------------

  /** What is on the way to the receiver: a block and the eight bits of its number, the end of the
      transmission, or something that fails its checks. */
  datatype Frame = Data(n: byte, block: Block) | Eot | Noise

  datatype Reply = Ack | Nak | Garbled

  // ---------------------------------------------------------------------------------------
  // The two processes
  // ---------------------------------------------------------------------------------------

  datatype Sender = Waiting | Sending(tries: nat, awaiting: bool) | Ending(tries: nat, awaiting: bool) | Sent | Failed

  datatype Receiver = Asking(asks: nat) | Taking | Written | Stalled

  /** `acked` counts the blocks the sender has had acknowledged: block `acked + 1` is the one it
      sends. `due` numbers the block the receiver waits for. */
  datatype State = State(
    s: Sender, acked: nat, r: Receiver, due: nat, out: seq<byte>, there: seq<Frame>, back: seq<Reply>)

  const START := State(Waiting, 0, Asking(0), 1, [], [], [])

  function BlockFrame(bs: seq<Block>, i: nat): Frame
    requires 1 <= i <= |bs|
  {
    Data(i % 256, bs[i - 1])
  }

  datatype Event =
    | Ask | Begin | NeverAsked | SendBlock | SendEot | SenderHears | SenderWaits
    | ReceiverHears(replies: bool) | ReceiverStalls
    | LoseFrame(k: nat) | DamageFrame(k: nat) | LoseReply(k: nat) | DamageReply(k: nat)

  /** The sender after its block, or the whole of its file, is acknowledged. */
  function Advanced(st: State, bs: seq<Block>): State {
    st.(acked := st.acked + 1, s := if st.acked + 1 < |bs| then Sending(0, false) else Ending(0, false))
  }

  /** The sender after a reply that is no ACK, or none. */
  function Retried(st: State): State
    requires st.s.Sending?
  {
    st.(s := if st.s.tries + 1 < TRIES then Sending(st.s.tries + 1, false) else Failed)
  }

  function EndRetried(st: State): State
    requires st.s.Ending?
  {
    st.(s := if st.s.tries + 1 < TRIES then Ending(st.s.tries + 1, false) else Sent)
  }

  /** The receiver takes a frame. */
  function Take(st: State, f: Frame, replies: bool): State {
    match f
    case Eot => st.(r := Written, back := st.back + [Ack])
    case Data(n, block) =>
      if n == st.due % 256 then
        st.(r := Taking, out := st.out + block, due := st.due + 1, back := st.back + [Ack])
      else st.(r := Taking, back := st.back + [Nak])
    case Noise => if replies then st.(r := Taking, back := st.back + [Nak]) else st
  }

  predicate Step(bs: seq<Block>, st: State, e: Event, st': State) {
    match e
    case Ask =>
      st.r.Asking? && st.r.asks < ASKS && st' == st.(r := Asking(st.r.asks + 1), back := st.back + [Nak])
    case Begin =>
      && st.s.Waiting? && |st.back| > 0
      && st' == st.(back := st.back[1..],
                    s := if st.back[0].Garbled? || st.back[0].Ack? then Waiting
                         else if |bs| > 0 then Sending(0, false) else Ending(0, false))
    case NeverAsked => st.s.Waiting? && st' == st.(s := Failed)
    case SendBlock =>
      && st.s.Sending? && !st.s.awaiting && st.acked < |bs|
      && st' == st.(s := Sending(st.s.tries, true), there := st.there + [BlockFrame(bs, st.acked + 1)])
    case SendEot =>
      && st.s.Ending? && !st.s.awaiting
      && st' == st.(s := Ending(st.s.tries, true), there := st.there + [Eot])
    case SenderHears =>
      && (st.s.Sending? || st.s.Ending?) && st.s.awaiting && |st.back| > 0
      && var st1 := st.(back := st.back[1..]);
         st' == if st.s.Sending? then (if st.back[0].Ack? then Advanced(st1, bs) else Retried(st1))
                else (if st.back[0].Ack? then st1.(s := Sent) else EndRetried(st1))
    case SenderWaits =>
      && (st.s.Sending? || st.s.Ending?) && st.s.awaiting
      && st' == if st.s.Sending? then Retried(st) else EndRetried(st)
    case ReceiverHears(replies) =>
      && (st.r.Asking? || st.r.Taking?) && |st.there| > 0
      && st' == Take(st.(there := st.there[1..]), st.there[0], replies)
    case ReceiverStalls => (st.r.Asking? ==> st.r.asks == ASKS) && !st.r.Written? && st' == st.(r := Stalled)
    case LoseFrame(k) => k < |st.there| && st' == st.(there := st.there[..k] + st.there[k + 1..])
    case DamageFrame(k) => k < |st.there| && st' == st.(there := st.there[k := Noise])
    case LoseReply(k) => k < |st.back| && st' == st.(back := st.back[..k] + st.back[k + 1..])
    case DamageReply(k) => k < |st.back| && st' == st.(back := st.back[k := Garbled])
  }

  // ---------------------------------------------------------------------------------------
  // The invariant
  // ---------------------------------------------------------------------------------------

  function Acks(back: seq<Reply>): nat {
    if |back| == 0 then 0 else (if back[0].Ack? then 1 else 0) + Acks(back[1..])
  }

  /** A frame on the way carries the block the receiver waits for -- if the sender has come to it --
      or the one before. */
  predicate Fresh(bs: seq<Block>, st: State, f: Frame) {
    match f
    case Noise => true
    case Eot => st.acked == |bs| && !st.s.Sending? && !st.s.Waiting?
    case Data(n, block) =>
      || (1 <= st.due <= |bs| && st.due <= st.acked + 1 && f == BlockFrame(bs, st.due))
      || (2 <= st.due <= |bs| + 1 && f == BlockFrame(bs, st.due - 1))
  }

  predicate IsNext(st: State, f: Frame) { f.Data? && f.n == st.due % 256 }

  /** Sender and receiver are never more than one block apart, no ACK is unearned, and what is on the
      way is in order. */
  predicate Inv(bs: seq<Block>, st: State) {
    && st.acked + Acks(st.back) <= st.due - 1 + (if st.r.Written? then 1 else 0)
    && st.acked <= st.due - 1 <= st.acked + 1 && 1 <= st.due <= |bs| + 1
    && st.out == Joined(bs[..st.due - 1])
    && (st.s.Waiting? ==> st.acked == 0)
    && (st.s.Sending? ==> st.acked < |bs|)
    && (st.s.Ending? || st.s.Sent? ==> st.acked == |bs|)
    && (st.s.Waiting? ==> st.there == [] && st.due == 1 && !st.r.Written?)
    && (st.r.Written? ==> st.acked == |bs|)
    && (forall i :: 0 <= i < |st.there| ==> Fresh(bs, st, st.there[i]))
    && (forall i, j :: 0 <= i < j < |st.there| && IsNext(st, st.there[i]) && st.there[j].Data? ==> IsNext(st, st.there[j]))
  }

  lemma {:induction false} AcksAppend(back: seq<Reply>, r: Reply)
    ensures Acks(back + [r]) == Acks(back) + (if r.Ack? then 1 else 0)
  {
    if |back| == 0 {
      assert (back + [r])[1..] == [];
    } else {
      assert (back + [r])[1..] == back[1..] + [r];
      AcksAppend(back[1..], r);
    }
  }

  lemma {:induction false} AcksCut(back: seq<Reply>, k: nat)
    requires k < |back|
    ensures Acks(back[..k] + back[k + 1..]) <= Acks(back)
    ensures Acks(back[k := Garbled]) <= Acks(back)
  {
    if k == 0 {
      assert back[..0] + back[1..] == back[1..];
      assert back[0 := Garbled][1..] == back[1..];
    } else {
      assert (back[..k] + back[k + 1..])[1..] == back[1..][..k - 1] + back[1..][k..];
      assert back[k := Garbled][1..] == back[1..][k - 1 := Garbled];
      AcksCut(back[1..], k - 1);
    }
  }

  lemma OneMoreBlock(bs: seq<Block>, n: nat)
    requires n < |bs|
    ensures Joined(bs[..n + 1]) == Joined(bs[..n]) + bs[n]
  {
    assert bs[..n + 1] == bs[..n] + [bs[n]];
    JoinedAppend(bs[..n], bs[n]);
  }

  /** Eight bits are enough: the two numbers that can be on the way are never the same in them. */
  lemma NoAlias(bs: seq<Block>, st: State, f: Frame)
    requires Inv(bs, st) && Fresh(bs, st, f) && f.Data?
    ensures f.n == st.due % 256 ==> st.due <= |bs| && st.due <= st.acked + 1 && f.block == bs[st.due - 1]
    ensures f.n != st.due % 256 ==> st.due >= 2 && f == BlockFrame(bs, st.due - 1)
  {}

  lemma TakeKeeps(bs: seq<Block>, st: State, f: Frame, replies: bool)
    requires Inv(bs, st) && Fresh(bs, st, f) && !st.r.Written? && !st.s.Waiting?
    requires f.Data? && IsNext(st, f) ==> forall i :: 0 <= i < |st.there| && st.there[i].Data? ==> IsNext(st, st.there[i])
    ensures Inv(bs, Take(st, f, replies))
  {
    hide Acks, Joined;
    AcksAppend(st.back, Ack);
    AcksAppend(st.back, Nak);
    if f.Data? {
      NoAlias(bs, st, f);
      if IsNext(st, f) {
        OneMoreBlock(bs, st.due - 1);
        forall i | 0 <= i < |st.there| && st.there[i].Data?
          ensures st.there[i] == BlockFrame(bs, st.due)
        {
          NoAlias(bs, st, st.there[i]);
        }
      }
    }
  }

  lemma HeadKeeps(bs: seq<Block>, st: State)
    requires Inv(bs, st) && |st.there| > 0
    ensures Inv(bs, st.(there := st.there[1..]))
  {
    hide Joined;
  }

  lemma LinesKeep(bs: seq<Block>, st: State, k: nat)
    requires Inv(bs, st)
    ensures k < |st.there| ==> Inv(bs, st.(there := st.there[..k] + st.there[k + 1..]))
    ensures k < |st.there| ==> Inv(bs, st.(there := st.there[k := Noise]))
    ensures k < |st.back| ==> Inv(bs, st.(back := st.back[..k] + st.back[k + 1..]))
    ensures k < |st.back| ==> Inv(bs, st.(back := st.back[k := Garbled]))
  {
    hide Acks, Joined;
    if k < |st.back| { AcksCut(st.back, k); }
  }

  lemma SendKeeps(bs: seq<Block>, st: State, st': State)
    requires Inv(bs, st) && (Step(bs, st, SendBlock, st') || Step(bs, st, SendEot, st'))
    ensures Inv(bs, st')
  {
    hide Acks, Joined;
  }

  lemma HearKeeps(bs: seq<Block>, st: State, e: Event, st': State)
    requires Inv(bs, st) && Step(bs, st, e, st') && (e.Begin? || e.SenderHears? || e.SenderWaits?)
    ensures Inv(bs, st')
  {
    hide Joined;
  }

  lemma AskKeeps(bs: seq<Block>, st: State, e: Event, st': State)
    requires Inv(bs, st) && Step(bs, st, e, st') && (e.Ask? || e.NeverAsked? || e.ReceiverStalls?)
    ensures Inv(bs, st')
  {
    hide Acks, Joined;
    AcksAppend(st.back, Nak);
  }

  lemma StepKeeps(bs: seq<Block>, st: State, e: Event, st': State)
    requires Inv(bs, st) && Step(bs, st, e, st')
    ensures Inv(bs, st')
  {
    hide Inv, Take;
    match e
    case ReceiverHears(replies) =>
      HeadKeeps(bs, st);
      HeadFresh(bs, st);
      TakeKeeps(bs, st.(there := st.there[1..]), st.there[0], replies);
    case LoseFrame(k) => LinesKeep(bs, st, k);
    case DamageFrame(k) => LinesKeep(bs, st, k);
    case LoseReply(k) => LinesKeep(bs, st, k);
    case DamageReply(k) => LinesKeep(bs, st, k);
    case SendBlock => SendKeeps(bs, st, st');
    case SendEot => SendKeeps(bs, st, st');
    case Begin => HearKeeps(bs, st, e, st');
    case SenderHears => HearKeeps(bs, st, e, st');
    case SenderWaits => HearKeeps(bs, st, e, st');
    case _ => AskKeeps(bs, st, e, st');
  }

  lemma HeadFresh(bs: seq<Block>, st: State)
    requires Inv(bs, st) && |st.there| > 0
    ensures !st.s.Waiting?
    ensures var st1 := st.(there := st.there[1..]);
      Fresh(bs, st1, st.there[0])
      && (st.there[0].Data? && IsNext(st1, st.there[0]) ==>
          forall i :: 0 <= i < |st1.there| && st1.there[i].Data? ==> IsNext(st1, st1.there[i]))
  {
    var st1 := st.(there := st.there[1..]);
    if st.there[0].Data? && IsNext(st1, st.there[0]) {
      forall i | 0 <= i < |st1.there| && st1.there[i].Data?
        ensures IsNext(st1, st1.there[i])
      {
        assert st1.there[i] == st.there[i + 1] && IsNext(st, st.there[0]);
      }
    }
  }

  // ---------------------------------------------------------------------------------------
  // Whole transfers
  // ---------------------------------------------------------------------------------------

  predicate Path(bs: seq<Block>, sts: seq<State>, es: seq<Event>) {
    |sts| == |es| + 1 && forall i :: 0 <= i < |es| ==> Step(bs, sts[i], es[i], sts[i + 1])
  }

  predicate Run(bs: seq<Block>, sts: seq<State>, es: seq<Event>) {
    Path(bs, sts, es) && sts[0] == START
  }

  lemma {:induction false} RunInv(bs: seq<Block>, sts: seq<State>, es: seq<Event>, i: nat)
    requires Run(bs, sts, es) && i < |sts|
    ensures Inv(bs, sts[i])
  {
    hide Step;
    if i > 0 {
      RunInv(bs, sts, es, i - 1);
      StepKeeps(bs, sts[i - 1], es[i - 1], sts[i]);
    } else {
      assert bs[..0] == [];
    }
  }

  /** EXACTLY ONCE AND IN ORDER. At every moment of every run, what the receiver has is the first
      blocks of the file; if it has written the file, or if the sender has declared the transfer done,
      it is all of them. */
  lemma Delivered(data: seq<byte>, sts: seq<State>, es: seq<Event>, i: nat)
    requires Run(Blocks(data), sts, es) && i < |sts|
    ensures exists n: nat :: n <= |Blocks(data)| && sts[i].out == Joined(Blocks(data)[..n])
    ensures sts[i].r.Written? || sts[i].s.Sent? ==> sts[i].out == Joined(Blocks(data))
  {
    hide Step, Acks, Joined;
    var bs := Blocks(data);
    RunInv(bs, sts, es, i);
    var n := sts[i].due - 1;
    assert sts[i].out == Joined(bs[..n]);
    if n == |bs| { assert bs[..n] == bs; }
  }

  // ---------------------------------------------------------------------------------------
  // A transfer over a clear line
  // ---------------------------------------------------------------------------------------

  /** Between blocks: `k` of them delivered and acknowledged, and nothing on the way. */
  predicate Between(bs: seq<Block>, st: State, k: nat) {
    && k <= |bs| && st.acked == k && st.due == k + 1 && st.there == [] && st.back == []
    && st.out == Joined(bs[..k]) && (st.r.Asking? || st.r.Taking?)
    && st.s == if k < |bs| then Sending(0, false) else Ending(0, false)
  }

  lemma Extend(bs: seq<Block>, sts: seq<State>, es: seq<Event>, e: Event, st: State)
    requires Run(bs, sts, es) && Step(bs, sts[|es|], e, st)
    ensures Run(bs, sts + [st], es + [e])
  {
    hide Step;
    var ts, fs := sts + [st], es + [e];
    forall i | 0 <= i < |fs|
      ensures Step(bs, ts[i], fs[i], ts[i + 1])
    {
      if i < |es| { assert ts[i] == sts[i] && ts[i + 1] == sts[i + 1] && fs[i] == es[i]; }
    }
  }

  /** The next block sent and taken, and its ACK on the way. */
  lemma BlockTaken(bs: seq<Block>, sts: seq<State>, es: seq<Event>, k: nat) returns (ts: seq<State>, fs: seq<Event>)
    requires Run(bs, sts, es) && k < |bs| && Between(bs, sts[|es|], k)
    ensures Run(bs, ts, fs) && |fs| == |es| + 2 && |ts| == |fs| + 1
    ensures var st := sts[|es|];
      ts[|fs|] == st.(s := Sending(0, true), r := Taking, out := st.out + bs[k], due := k + 2, back := [Ack])
  {
    hide Run, Joined;
    RunLength(bs, sts, es);
    var st := sts[|es|];
    var a := st.(s := Sending(0, true), there := [BlockFrame(bs, k + 1)]);
    assert st.there + [BlockFrame(bs, st.acked + 1)] == a.there;
    var b := a.(there := [], r := Taking, out := st.out + bs[k], due := k + 2, back := [Ack]);
    assert a.there[1..] == [] && st.back + [Ack] == [Ack];
    Extend(bs, sts, es, SendBlock, a);
    RunLength(bs, sts + [a], es + [SendBlock]);
    Extend(bs, sts + [a], es + [SendBlock], ReceiverHears(true), b);
    ts, fs := sts + [a] + [b], es + [SendBlock] + [ReceiverHears(true)];
    RunLength(bs, ts, fs);
  }

  lemma OneBlock(bs: seq<Block>, sts: seq<State>, es: seq<Event>, k: nat) returns (ts: seq<State>, fs: seq<Event>)
    requires Run(bs, sts, es) && k < |bs| && Between(bs, sts[|es|], k)
    ensures Run(bs, ts, fs) && Between(bs, ts[|fs|], k + 1) && |fs| == |es| + 3
  {
    hide Run, Joined;
    RunLength(bs, sts, es);
    OneMoreBlock(bs, k);
    ts, fs := BlockTaken(bs, sts, es, k);
    var b := ts[|fs|];
    assert b.back[1..] == [];
    Extend(bs, ts, fs, SenderHears, Advanced(b.(back := []), bs));
    ts, fs := ts + [Advanced(b.(back := []), bs)], fs + [SenderHears];
    RunLength(bs, ts, fs);
  }

  lemma RunLength(bs: seq<Block>, sts: seq<State>, es: seq<Event>)
    requires Run(bs, sts, es)
    ensures |sts| == |es| + 1
  {}

  lemma {:induction false} AllBlocks(bs: seq<Block>, k: nat) returns (sts: seq<State>, es: seq<Event>)
    requires k <= |bs|
    ensures Run(bs, sts, es) && Between(bs, sts[|es|], k) && |es| == 2 + 3 * k
  {
    if k == 0 {
      var a := START.(r := Asking(1), back := [Nak]);
      var b := a.(back := [], s := if |bs| > 0 then Sending(0, false) else Ending(0, false));
      assert START.back + [Nak] == [Nak] && a.back[1..] == [] && bs[..0] == [];
      Extend(bs, [START], [], Ask, a);
      Extend(bs, [START] + [a], [] + [Ask], Begin, b);
      sts, es := [START] + [a] + [b], [] + [Ask] + [Begin];
    } else {
      sts, es := AllBlocks(bs, k - 1);
      sts, es := OneBlock(bs, sts, es, k - 1);
    }
  }

  /** Of any file, there is a transfer with nothing lost in which every block is sent once, both sides
      finish, and the receiver has all of it. */
  lemma ClearLineCompletes(data: seq<byte>) returns (sts: seq<State>, es: seq<Event>)
    ensures Run(Blocks(data), sts, es) && |es| == 3 * |Blocks(data)| + 5
    ensures sts[|es|].s.Sent? && sts[|es|].r.Written? && sts[|es|].out == Joined(Blocks(data))
  {
    hide Run, Joined, Blocks;
    var bs := Blocks(data);
    sts, es := AllBlocks(bs, |bs|);
    RunLength(bs, sts, es);
    var st := sts[|es|];
    assert bs[..|bs|] == bs;
    var a := st.(s := Ending(0, true), there := [Eot]);
    assert st.there + [Eot] == [Eot] && a.there[1..] == [] && st.back + [Ack] == [Ack];
    var b := a.(there := [], r := Written, back := [Ack]);
    var c := b.(back := [], s := Sent);
    assert b.back[1..] == [];
    Extend(bs, sts, es, SendEot, a);
    RunLength(bs, sts + [a], es + [SendEot]);
    Extend(bs, sts + [a], es + [SendEot], ReceiverHears(true), b);
    RunLength(bs, sts + [a] + [b], es + [SendEot] + [ReceiverHears(true)]);
    Extend(bs, sts + [a] + [b], es + [SendEot] + [ReceiverHears(true)], SenderHears, c);
    sts, es := sts + [a] + [b] + [c], es + [SendEot] + [ReceiverHears(true)] + [SenderHears];
    RunLength(bs, sts, es);
  }

  // ---------------------------------------------------------------------------------------
  // Giving up
  // ---------------------------------------------------------------------------------------

  /** A sender that has sent and waited in vain `n` times, its frames still on the way. */
  function Unheard(bs: seq<Block>, st: State, n: nat): (t: State)
    requires if st.s.Sending? then st.acked < |bs| else st.s.Ending?
    decreases n
  {
    if n == 0 then st
    else
      var f := if st.s.Sending? then BlockFrame(bs, st.acked + 1) else Eot;
      var sent := st.(there := st.there + [f]);
      var t := if st.s.Sending? then Retried(sent) else EndRetried(sent);
      if t.s.Sending? || t.s.Ending? then Unheard(bs, t, n - 1) else t
  }

  /** One more send and one more wait, as two steps of the protocol. */
  lemma UnheardSteps(bs: seq<Block>, st: State) returns (sent: State)
    requires (st.s.Sending? && st.acked < |bs|) || st.s.Ending?
    requires !st.s.awaiting
    ensures Step(bs, st, if st.s.Sending? then SendBlock else SendEot, sent)
    ensures Step(bs, sent, SenderWaits, Unheard(bs, st, 1))
  {
    if st.s.Sending? {
      sent := st.(s := Sending(st.s.tries, true), there := st.there + [BlockFrame(bs, st.acked + 1)]);
    } else {
      sent := st.(s := Ending(st.s.tries, true), there := st.there + [Eot]);
    }
    OneUnheard(bs, st);
  }

  lemma OneUnheard(bs: seq<Block>, st: State)
    requires (st.s.Sending? && st.acked < |bs|) || st.s.Ending?
    ensures st.s.Sending? ==> Unheard(bs, st, 1) == Retried(st.(there := st.there + [BlockFrame(bs, st.acked + 1)]))
    ensures st.s.Ending? ==> Unheard(bs, st, 1) == EndRetried(st.(there := st.there + [Eot]))
  {}

  /** TEN TRIES. A block never answered is sent ten times and then the transfer has failed; an end never answered is
      sent ten times and then taken for heard. */
  lemma {:induction false} TenTries(bs: seq<Block>, st: State, n: nat)
    requires 0 < n <= 10
    requires (st.s == Sending(10 - n, false) && st.acked < |bs|) || st.s == Ending(10 - n, false)
    ensures var t := Unheard(bs, st, n);
      && |t.there| == |st.there| + n && (st.s.Sending? ==> t.s == Failed) && (st.s.Ending? ==> t.s == Sent)
    ensures n > 1 ==> Unheard(bs, st, n - 1).s == if st.s.Sending? then Sending(9, false) else Ending(9, false)
    decreases n
  {
    if n > 1 { TenTries(bs, Unheard(bs, st, 1), n - 1); }
  }

  /** SIXTY ASKS. A receiver can ask for a start while it has asked fewer than sixty times, and gives up asking only
      after the sixtieth. */
  lemma SixtyAsks(bs: seq<Block>, st: State, st': State)
    requires st.r.Asking?
    ensures st.r.asks < 60 <==> exists t :: Step(bs, st, Ask, t)
    ensures Step(bs, st, ReceiverStalls, st') ==> st.r.asks == 60
    ensures st.r.asks == 60 ==> Step(bs, st, ReceiverStalls, st.(r := Stalled))
  {
    assert st.r.asks < 60 ==> Step(bs, st, Ask, st.(r := Asking(st.r.asks + 1), back := st.back + [Nak]));
  }
}
