/** The XMODEM check: sixteen bits, shifted a message bit at a time, are the remainder of the message
    by x^16 + x^12 + x^5 + 1 over GF(2).

    Polynomials are their coefficients, the highest power first.
 */
module Crc16 {
  import opened Arithmetic
  import opened Basics

  type Poly = seq<bool>

  function Zeros(n: nat): (p: Poly)
    ensures |p| == n
  {
    seq(n, _ => false)
  }

  /** Sum, which over GF(2) is also difference. */
  function Sum(a: Poly, b: Poly): (p: Poly)
    requires |a| == |b|
    ensures |p| == |a|
  {
    seq(|a|, i requires 0 <= i < |a| => a[i] != b[i])
  }

  /** x^16 + x^12 + x^5 + 1 */
  const GENERATOR: Poly :=
    [true, false, false, false, true, false, false, false, false, false, false, true,
     false, false, false, false, true]

  /** q times the generator, of degree sixteen more. */
  function TimesGenerator(q: Poly): (p: Poly)
    ensures |p| == |q| + 16
  {
    if |q| == 0 then Zeros(16)
    else Sum(TimesGenerator(q[..|q| - 1]) + [false],
             if q[|q| - 1] then Zeros(|q| - 1) + GENERATOR else Zeros(|q| + 16))
  }

  /** `p` is a multiple of the generator plus `r`, of degree below sixteen. */
  predicate IsQuotient(p: Poly, q: Poly, r: Poly) {
    |p| == |q| + 16 && |r| == 16 && p == Sum(TimesGenerator(q), Zeros(|q|) + r)
  }

  ghost predicate IsRemainder(p: Poly, r: Poly) {
    exists q: Poly :: IsQuotient(p, q, r)
  }

  // ---------------------------------------------------------------------------------------
  // The remainder is unique
  // ---------------------------------------------------------------------------------------

  lemma TimesPush(q: Poly, t: bool)
    ensures var m, p := TimesGenerator(q), TimesGenerator(q + [t]);
      && (forall i :: 0 <= i < |q| ==> p[i] == m[i])
      && (forall i :: |q| <= i < |q| + 16 ==> p[i] == (m[i] != (t && GENERATOR[i - |q|])))
      && p[|q| + 16] == (t && GENERATOR[16])
  {
    hide *;
    TimesDef(q, t);
  }

  lemma TimesDef(q: Poly, t: bool)
    ensures var m, p := TimesGenerator(q), TimesGenerator(q + [t]);
      forall i :: 0 <= i < |q| + 17 ==>
        p[i] == ((m + [false])[i] != (if i < |q| then false else t && GENERATOR[i - |q|]))
  {
    assert (q + [t])[..|q|] == q;
  }

  lemma {:induction false} QuotientUnique(q1: Poly, q2: Poly)
    requires |q1| == |q2| && TimesGenerator(q1)[..|q1|] == TimesGenerator(q2)[..|q1|]
    ensures q1 == q2
  {
    hide TimesGenerator;
    if |q1| > 0 {
      var n := |q1| - 1;
      var p1, p2 := TimesGenerator(q1), TimesGenerator(q2);
      forall i | 0 <= i <= n
    ensures p1[i] == p2[i]
      {
        assert p1[..n + 1][i] == p2[..n + 1][i];
      }
      assert q1 == q1[..n] + [q1[n]] && q2 == q2[..n] + [q2[n]];
      TimesPush(q1[..n], q1[n]);
      TimesPush(q2[..n], q2[n]);
      var m1, m2 := TimesGenerator(q1[..n]), TimesGenerator(q2[..n]);
      assert forall i :: 0 <= i < n ==> m1[i] == p1[i] && m2[i] == p2[i];
      assert m1[..n] == m2[..n];
      QuotientUnique(q1[..n], q2[..n]);
      assert GENERATOR[n - n];
      assert p1[n] == (m1[n] != (q1[n] && GENERATOR[n - n])) && p2[n] == (m2[n] != (q2[n] && GENERATOR[n - n]));
    }
  }

  /** Division leaves one remainder only. */
  lemma RemainderUnique(p: Poly, r1: Poly, r2: Poly)
    requires IsRemainder(p, r1) && IsRemainder(p, r2)
    ensures r1 == r2
  {
    hide TimesGenerator;
    var q1: Poly :| IsQuotient(p, q1, r1);
    var q2: Poly :| IsQuotient(p, q2, r2);
    var m1, m2 := TimesGenerator(q1), TimesGenerator(q2);
    var n := |q1|;
    forall i | 0 <= i < n
      ensures m1[i] == m2[i]
    {
      assert p[i] == m1[i] && p[i] == m2[i];
    }
    assert m1[..n] == m2[..n];
    QuotientUnique(q1, q2);
    forall i | 0 <= i < 16
      ensures r1[i] == r2[i]
    {
      assert p[n + i] == (m1[n + i] != r1[i]) && p[n + i] == (m1[n + i] != r2[i]);
    }
  }

  // ---------------------------------------------------------------------------------------
  // The register
  // ---------------------------------------------------------------------------------------

  /** The register, its top bit first. */
  type Word = w: Poly | |w| == 16 witness Zeros(16)

  /** The register shifted up a place, less the generator if a bit fell out. */
  function Shift(c: Word): Word {
    Sum(c[1..] + [false], if c[0] then GENERATOR[1..] else Zeros(16))
  }

  /** A message bit is added at the top, and the register shifted. */
  function Feed(c: Word, x: bool): Word {
    Shift([c[0] != x] + c[1..])
  }

  /** The register after some message bits, starting from `c`. */
  function Run(c: Word, bits: Poly): Word {
    if |bits| == 0 then c else Feed(Run(c, bits[..|bits| - 1]), bits[|bits| - 1])
  }

  function Register(bits: Poly): Word { Run(Zeros(16), bits) }

  lemma RunPush(c: Word, b: Poly, x: bool)
    ensures Run(c, b + [x]) == Feed(Run(c, b), x)
  {
    assert (b + [x])[..|b|] == b;
  }

  lemma RunNothing(c: Word, b: Poly)
    requires b == []
    ensures Run(c, b) == c
  {}

  lemma FeedBits(c: Word, x: bool)
    ensures var t := c[0] != x;
      && (forall i :: 0 <= i < 15 ==> Feed(c, x)[i] == (c[i + 1] != (t && GENERATOR[i + 1])))
      && Feed(c, x)[15] == (t && GENERATOR[16])
  {}

  lemma OneMoreBit(b: Poly, x: bool, q: Poly)
    requires IsQuotient(b + Zeros(16), q, Register(b))
    ensures IsQuotient((b + [x]) + Zeros(16), q + [Register(b)[0] != x], Register(b + [x]))
  {
    hide Feed, TimesGenerator, Run;
    var m, c, d := |b|, Register(b), Register(b + [x]);
    var t := c[0] != x;
    RunPush(Zeros(16), b, x);
    FeedBits(c, x);
    TimesPush(q, t);
    var was, now := b + Zeros(16), (b + [x]) + Zeros(16);
    var m0, m1 := TimesGenerator(q), TimesGenerator(q + [t]);
    forall i | 0 <= i < m + 17
      ensures now[i] == (m1[i] != (Zeros(m + 1) + d)[i])
    {
      if i < m + 16 {
        assert was[i] == (m0[i] != (Zeros(m) + c)[i]);
      }
    }
    assert now == Sum(m1, Zeros(m + 1) + d);
  }

  /** The register is the remainder of the message, moved up sixteen places, by the generator. */
  lemma {:induction false} RegisterIsRemainder(b: Poly)
    ensures IsRemainder(b + Zeros(16), Register(b))
  {
    hide Feed;
    if |b| == 0 {
      assert IsQuotient(b + Zeros(16), [], Register(b));
    } else {
      var n := |b| - 1;
      RegisterIsRemainder(b[..n]);
      var q: Poly :| IsQuotient(b[..n] + Zeros(16), q, Register(b[..n]));
      OneMoreBit(b[..n], b[n], q);
      assert b[..n] + [b[n]] == b;
    }
  }

  // ---------------------------------------------------------------------------------------
  // What the check catches
  // ---------------------------------------------------------------------------------------

  lemma FeedIsLinear(c: Word, d: Word, x: bool, y: bool)
    ensures Feed(Sum(c, d), x != y) == Sum(Feed(c, x), Feed(d, y))
  {
    hide Feed;
    FeedBits(c, x);
    FeedBits(d, y);
    FeedBits(Sum(c, d), x != y);
  }

  lemma {:induction false} RunIsLinear(c: Word, d: Word, a: Poly, b: Poly)
    requires |a| == |b|
    ensures Run(Sum(c, d), Sum(a, b)) == Sum(Run(c, a), Run(d, b))
  {
    hide Feed;
    if |a| > 0 {
      var n := |a| - 1;
      RunIsLinear(c, d, a[..n], b[..n]);
      assert Sum(a, b)[..n] == Sum(a[..n], b[..n]);
      FeedIsLinear(Run(c, a[..n]), Run(d, b[..n]), a[n], b[n]);
    }
  }

  lemma {:induction false} RunJoins(c: Word, a: Poly, b: Poly)
    ensures Run(c, a + b) == Run(Run(c, a), b)
  {
    hide Feed;
    if |b| == 0 {
      assert a + b == a;
    } else {
      var n := |b| - 1;
      RunJoins(c, a, b[..n]);
      assert (a + b)[..|a| + n] == a + b[..n];
    }
  }

  lemma FeedsTo(c: Word, x: bool, e: Poly)
    requires |e| <= 15
    ensures Feed(c, x) == e + Zeros(16 - |e|) <==> c == [x] + e + Zeros(15 - |e|)
  {
    hide Feed;
    FeedBits(c, x);
    var z, w := e + Zeros(16 - |e|), [x] + e + Zeros(15 - |e|);
    assert !z[15];
    assert forall i :: 0 <= i < 15 ==> z[i] == w[i + 1];
    if Feed(c, x) == z {
      assert Feed(c, x)[15] == z[15];
      forall i | 0 <= i < 16
    ensures c[i] == w[i]
      {
        if i > 0 { assert Feed(c, x)[i - 1] == z[i - 1]; }
      }
    }
  }

  /** Of every word, only one with the bits themselves at the top is shifted out to nothing by them. */
  lemma {:induction false} RunsOut(c: Word, e: Poly)
    requires |e| <= 16
    ensures Run(c, e) == Zeros(16) <==> c == e + Zeros(16 - |e|)
    decreases |e|
  {
    hide Feed;
    if |e| > 0 {
      RunJoins(c, e[..1], e[1..]);
      assert e[..1] + e[1..] == e;
      RunPush(c, [], e[0]);
      assert [] + [e[0]] == e[..1];
      RunsOut(Feed(c, e[0]), e[1..]);
      FeedsTo(c, e[0], e[1..]);
      assert [e[0]] + e[1..] == e;
    }
  }

  /** A message with its register after it leaves nothing, and with any other word after it leaves
      something: the receiver's comparison is division of the whole frame. */
  lemma FrameDivides(b: Poly, c: Word)
    ensures Register(b + c) == Zeros(16) <==> c == Register(b)
  {
    hide Feed;
    RunJoins(Zeros(16), b, c);
    RunsOut(Register(b), c);
    assert c + Zeros(0) == c;
  }

  lemma {:induction false} ZerosKeep(c: Word, k: nat)
    ensures Run(c, Zeros(k)) == Zeros(16) <==> c == Zeros(16)
  {
    hide *;
    if k == 0 {
      RunNothing(c, Zeros(0));
    } else {
      ZerosKeep(c, k - 1);
      ZerosPush(k - 1);
      RunPush(c, Zeros(k - 1), false);
      FeedsNothing(Run(c, Zeros(k - 1)));
    }
  }

  lemma ZerosPush(k: nat)
    ensures Zeros(k) + [false] == Zeros(k + 1)
  {}

  lemma FeedsNothing(c: Word)
    ensures Feed(c, false) == Zeros(16) <==> c == Zeros(16)
  {
    hide Feed;
    FeedsTo(c, false, []);
    assert [] + Zeros(16) == Zeros(16) && [false] + [] + Zeros(15) == Zeros(16);
  }

  /** Damage confined to sixteen bits in a row, anywhere in a frame, always changes its remainder. */
  lemma BurstDetected(frame: Poly, before: nat, burst: Poly, after: nat)
    requires |burst| <= 16 && before + |burst| + after == |frame|
    requires exists i :: 0 <= i < |burst| && burst[i]
    ensures Register(Sum(frame, Zeros(before) + burst + Zeros(after))) != Register(frame)
  {
    hide Feed, Run;
    var none, e := Zeros(16), Zeros(before) + burst + Zeros(after);
    RunIsLinear(none, none, frame, e);
    assert Sum(none, none) == none;
    RunJoins(none, Zeros(before) + burst, Zeros(after));
    RunJoins(none, Zeros(before), burst);
    ZerosKeep(none, before);
    RunsOut(none, burst);
    var i :| 0 <= i < |burst| && burst[i];
    assert (burst + Zeros(16 - |burst|))[i] && !none[i];
    ZerosKeep(Register(burst), after);
    assert Register(e) != none;
    if Sum(Register(frame), Register(e)) == Register(frame) {
      forall j | 0 <= j < 16
    ensures Register(e)[j] == none[j]
      {
        assert Sum(Register(frame), Register(e))[j] == Register(frame)[j];
      }
      assert false;
    }
  }

  // ---------------------------------------------------------------------------------------
  // The program's integers
  // ---------------------------------------------------------------------------------------

  /** The low `n` bits of a number. */
  function Bits(v: nat, n: nat): (r: Poly)
    ensures |r| == n
  {
    if n == 0 then [] else Bits(v / 2, n - 1) + [v % 2 == 1]
  }

  function Xor(a: nat, b: nat): nat
    decreases a + b
  {
    if a == 0 && b == 0 then 0
    else 2 * Xor(a / 2, b / 2) + (if a % 2 != b % 2 then 1 else 0)
  }

  lemma {:induction false} XorBits(a: nat, b: nat, n: nat)
    ensures Bits(Xor(a, b), n) == Sum(Bits(a, n), Bits(b, n))
    decreases n
  {
    if n > 0 {
      XorBits(a / 2, b / 2, n - 1);
    }
  }

  lemma {:induction false} XorFits(a: nat, b: nat, n: nat)
    requires a < Pow2(n) && b < Pow2(n)
    ensures Xor(a, b) < Pow2(n)
    decreases n
  {
    if n > 0 {
      XorFits(a / 2, b / 2, n - 1);
    }
  }

  lemma {:induction false} BitsOfSum(h: nat, v: nat, n: nat)
    ensures Bits(h * Pow2(n) + v, n) == Bits(v, n)
  {
    if n > 0 {
      var m := h * Pow2(n - 1);
      assert h * Pow2(n) == 2 * m;
      BitsOfSum(h, v / 2, n - 1);
    }
  }

  lemma {:induction false} TopBit(v: nat, n: nat)
    requires v < Pow2(n + 1)
    ensures Bits(v, n + 1)[0] <==> v >= Pow2(n)
  {
    if n > 0 {
      TopBit(v / 2, n - 1);
    }
  }

  lemma {:induction false} LowBits(v: nat, n: nat)
    ensures Bits(v, n + 1)[1..] == Bits(v, n)
  {
    if n > 0 {
      LowBits(v / 2, n - 1);
    }
  }

  /** Sixteen bits are a number below 10000H. */
  lemma Sixteen()
    ensures Pow2(16) == 0x1_0000 && Pow2(15) == 0x8000 && Pow2(8) == 0x100
  {
    assert Pow2(4) == 16 && Pow2(8) == 16 * Pow2(4) && Pow2(12) == 16 * Pow2(8) && Pow2(15) == 8 * Pow2(12);
  }

  lemma FourMore(v: nat, n: nat, x: nat)
    requires x < 16
    ensures Bits(16 * v + x, n + 4) == Bits(v, n) + [x / 8 == 1, x / 4 % 2 == 1, x / 2 % 2 == 1, x % 2 == 1]
  {
    hide Bits;
    OneMore(v, n, x / 8);
    OneMore(2 * v + x / 8, n + 1, x / 4 % 2);
    OneMore(4 * v + x / 4, n + 2, x / 2 % 2);
    OneMore(8 * v + x / 2, n + 3, x % 2);
  }

  lemma OneMore(v: nat, n: nat, x: nat)
    requires x < 2
    ensures Bits(2 * v + x, n + 1) == Bits(v, n) + [x == 1]
  {}

  lemma GeneratorBits()
    ensures Bits(0x1021, 16) == GENERATOR[1..]
  {
    hide Bits;
    NoBits(0);
    FourMore(0, 0, 1);
    FourMore(0x1, 4, 0);
    FourMore(0x10, 8, 2);
    FourMore(0x102, 12, 1);
  }

  /** One turn of the inner loop on a number. */
  lemma ShiftNumber(c: nat)
    requires c < 0x1_0000
    ensures Bits(Xor(2 * c, 0x1021) % 0x1_0000, 16) == Sum(Bits(c, 16)[1..] + [false], GENERATOR[1..])
    ensures Bits(2 * c % 0x1_0000, 16) == Bits(c, 16)[1..] + [false]
    ensures c / 0x8000 % 2 == 1 <==> Bits(c, 16)[0]
  {
    hide Xor, Bits;
    Sixteen();
    TopBit(c, 15);
    LowBits(c, 15);
    Doubled(c);
    XorBits(2 * c, 0x1021, 16);
    GeneratorBits();
    Wrapped(2 * c);
    Wrapped(Xor(2 * c, 0x1021));
  }

  lemma Doubled(c: nat)
    ensures Bits(2 * c, 16) == Bits(c, 15) + [false]
  {}

  lemma Wrapped(v: nat)
    ensures Bits(v % 0x1_0000, 16) == Bits(v, 16)
  {
    hide Bits;
    Sixteen();
    BitsOfSum(v / 0x1_0000, v % 0x1_0000, 16);
  }

  lemma ByteAtTop(b: nat)
    ensures Bits(b * 0x100, 16) == Bits(b, 8) + Zeros(8)
  {
    ShiftedUp(b, 8);
    Sixteen();
  }

  lemma {:induction false} ShiftedUp(b: nat, k: nat)
    ensures Bits(b * Pow2(k), 8 + k) == Bits(b, 8) + Zeros(k)
  {
    if k > 0 {
      ShiftedUp(b, k - 1);
      assert b * Pow2(k) == 2 * (b * Pow2(k - 1));
      assert Zeros(k - 1) + [false] == Zeros(k);
    }
  }

  // ---------------------------------------------------------------------------------------
  // A byte at a time
  // ---------------------------------------------------------------------------------------

  function MessageBits(data: seq<byte>): (r: Poly)
    ensures |r| == 8 * |data|
  {
    if |data| == 0 then [] else MessageBits(data[..|data| - 1]) + Bits(data[|data| - 1], 8)
  }

  /** Adding a byte to the top and then shifting is feeding it a bit at a time. */
  lemma ShiftFeeds(c: Word, rest: Word)
    ensures Shift(Sum(c, rest)) == Sum(Feed(c, rest[0]), rest[1..] + [false])
  {}

  method Crc16(data: seq<byte>) returns (c: nat)
    ensures c < 0x1_0000 && Bits(c, 16) == Register(MessageBits(data))
  {
    hide Bits, Feed, Shift, Xor;
    Sixteen();
    c := 0;
    NoBits(16);
    for i := 0 to |data|
      invariant c < 0x1_0000 && Bits(c, 16) == Register(MessageBits(data[..i]))
    {
      ghost var was, bits := Bits(c, 16), Bits(data[i], 8);
      ghost var rest: Word := bits + Zeros(8);
      XorBits(c, (data[i] as int) * 0x100, 16);
      XorFits(c, (data[i] as int) * 0x100, 16);
      ByteAtTop(data[i]);
      c := Xor(c, (data[i] as int) * 0x100);
      for k := 0 to 8
        invariant c < 0x1_0000
        invariant rest == bits[k..] + Zeros(8 + k)
        invariant Bits(c, 16) == Sum(Run(was, bits[..k]), rest)
      {
        OneTurn(c, was, bits, k);
        c := if c / 0x8000 % 2 == 1 then Xor(2 * c, 0x1021) % 0x1_0000 else 2 * c % 0x1_0000;
        rest := rest[1..] + [false];
      }
      AddNothing(Run(was, bits));
      assert bits[..8] == bits;
      RunJoins(Zeros(16), MessageBits(data[..i]), bits);
      assert data[..i + 1][..i] == data[..i];
    }
    assert data[..|data|] == data;
  }

  lemma AddNothing(w: Word)
    ensures Sum(w, Zeros(16)) == w
  {}

  lemma {:induction false} NoBits(n: nat)
    ensures Bits(0, n) == Zeros(n)
  {
    if n > 0 {
      NoBits(n - 1);
      assert Zeros(n - 1) + [false] == Zeros(n);
    }
  }

  lemma OneTurn(c: nat, was: Word, bits: Poly, k: nat)
    requires |bits| == 8 && k < 8 && c < 0x1_0000
    requires Bits(c, 16) == Sum(Run(was, bits[..k]), bits[k..] + Zeros(8 + k))
    ensures var d := if c / 0x8000 % 2 == 1 then Xor(2 * c, 0x1021) % 0x1_0000 else 2 * c % 0x1_0000;
      Bits(d, 16) == Sum(Run(was, bits[..k + 1]), bits[k + 1..] + Zeros(9 + k))
    ensures (bits[k..] + Zeros(8 + k))[1..] + [false] == bits[k + 1..] + Zeros(9 + k)
  {
    hide Bits, Feed, Xor, Run;
    var rest := bits[k..] + Zeros(8 + k);
    ShiftNumber(c);
    ShiftFeeds(Run(was, bits[..k]), rest);
    RunPush(was, bits[..k], bits[k]);
    assert bits[..k] + [bits[k]] == bits[..k + 1];
    AddNothing(Bits(c, 16)[1..] + [false]);
    assert rest[1..] + [false] == bits[k + 1..] + Zeros(9 + k);
  }

  // ---------------------------------------------------------------------------------------
  // The frame in bytes
  // ---------------------------------------------------------------------------------------

  /** `h` moved up `k` places. */
  function Moved(h: nat, k: nat): nat {
    if k == 0 then h else 2 * Moved(h, k - 1)
  }

  lemma MovedByte(h: nat)
    ensures Moved(h, 8) == 256 * h
  {
    assert Moved(h, 1) == 2 * h;
    assert Moved(h, 2) == 4 * h;
    assert Moved(h, 4) == 16 * h;
    assert Moved(h, 6) == 64 * h;
  }

  lemma {:induction false} BitsJoin(h: nat, v: nat, n: nat, k: nat)
    requires v < Pow2(k)
    ensures Bits(Moved(h, k) + v, n + k) == Bits(h, n) + Bits(v, k)
  {
    if k > 0 {
      assert (Moved(h, k) + v) / 2 == Moved(h, k - 1) + v / 2 && (Moved(h, k) + v) % 2 == v % 2;
      BitsJoin(h, v / 2, n, k - 1);
    }
  }

  lemma {:induction false} BitsTell(a: nat, b: nat, n: nat)
    requires a < Pow2(n) && b < Pow2(n) && Bits(a, n) == Bits(b, n)
    ensures a == b
  {
    if n > 0 {
      assert Bits(a, n)[n - 1] == Bits(b, n)[n - 1];
      assert Bits(a, n)[..n - 1] == Bits(a / 2, n - 1) && Bits(b, n)[..n - 1] == Bits(b / 2, n - 1);
      BitsTell(a / 2, b / 2, n - 1);
    }
  }

  /** A word goes out high byte first, so its bits follow the message's. */
  lemma WordFollows(data: seq<byte>, c: nat)
    requires c < 0x1_0000
    ensures MessageBits(data + [c / 256, c % 256]) == MessageBits(data) + Bits(c, 16)
  {
    hide Bits;
    Sixteen();
    MovedByte(c / 256);
    BitsJoin(c / 256, c % 256, 8, 8);
    var frame: seq<byte> := data + [c / 256, c % 256];
    var first: seq<byte> := data + [c / 256];
    assert frame[..|data| + 1] == first && first[..|data|] == data;
    assert MessageBits(frame) == MessageBits(data) + Bits(c / 256, 8) + Bits(c % 256, 8);
  }

  /** The check of a message and the word after it, high byte first, comes to nothing if and only if the word
      is the message's own check. */
  lemma FrameChecks(data: seq<byte>, c: nat, own: nat)
    requires c < 0x1_0000 && own < 0x1_0000 && Bits(own, 16) == Register(MessageBits(data))
    ensures Register(MessageBits(data + [c / 256, c % 256])) == Zeros(16) <==> c == own
  {
    hide Bits, Run, MessageBits;
    Sixteen();
    WordFollows(data, c);
    FrameDivides(MessageBits(data), Bits(c, 16));
    if Bits(c, 16) == Bits(own, 16) { BitsTell(c, own, 16); }
  }
}
