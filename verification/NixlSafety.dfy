/** Safety of the chain: the inductive invariant behind delivery and buffer protection. */
module NixlSafety {
  import opened Buckets
  import opened BucketViews
  import opened NixlChain

  /** The chain's parameters with the buckets rank 0 will post; `ok`: it posts a last one. */
  datatype Plan = Plan(n: nat, cap: nat, bs: seq<Bucket>, ok: bool) {
    ghost predicate Valid() {
      n >= 2 && |bs| > 0 && forall k :: 0 <= k < |bs| ==> Fits(bs[k], cap)
    }

    ghost predicate LastAt(k: nat) { ok && k + 1 == |bs| }
  }

  ghost function PlanOf(c: Config): Plan {
    Plan(c.n, c.cap, Pack(c.ws, EMPTY, c.cap).0, Pack(c.ws, EMPTY, c.cap).1)
  }

  /** The physical buffer of rank r that holds bucket k. */
  function Slot(r: nat, k: nat): nat { if r == 0 then k % 2 else (k + 1) % 2 }

  lemma SlotFlips(r: nat, k: nat)
    ensures Slot(r, k + 1) == 1 - Slot(r, k)
  {
  }

  ghost function MsgFor(p: Plan, r: nat, k: nat): Msg
    requires k < |p.bs|
  {
    Msg(k, Slot(r, k), p.bs[k].meta, p.LastAt(k))
  }

  // ---------- Rank 0 ----------

  /** The bucket being filled. */
  ghost function Filling(t: Port, s: Send): Bucket
    requires t.send < |t.bufs| && s.offset <= |t.bufs[t.send]|
  {
    Bucket(s.meta, t.bufs[t.send][..s.offset])
  }

  /** What rank 0 will still post, told from where it is in its loop. */
  ghost function Remaining(cap: nat, t: Port, s: Send): (seq<Bucket>, bool)
    requires t.send < |t.bufs| && s.offset <= |t.bufs[t.send]| && (s.pc == Fit ==> s.rest != [])
  {
    match s.pc
    case Fit => Place(s.rest, Filling(t, s), cap)
    case LastAck => ([], true)
    case Sent => ([], true)
    case TooLarge => ([], false)
    case _ => Pack(s.rest, Filling(t, s), cap)
  }

  ghost predicate SendOk(p: Plan, t: Port, s: Send) {
    && s.pc != SendCrashed
    && (s.pc.Wait? && s.pc.last ==> s.rest == [])
    && (s.pc.Post? && s.pc.last ==> s.rest == [])
    && (s.pc.Wait? && !s.pc.last ==> s.rest != [] && s.offset + |s.rest[0].data| > p.cap)
    && (s.pc.Post? && !s.pc.last ==> s.rest != [] && s.offset + |s.rest[0].data| > p.cap)
    && (s.pc.Post? || s.pc == Sent ==> t.op == NoOp)
    && (s.pc == LastAck ==> t.op.Open?)
    && (s.pc == Next || s.pc == Fit ==> (t.op.Open? <==> t.posted > 0))
    && (s.pc != LastAck && s.pc != Sent ==> t.send == Slot(0, t.posted))
  }

  ghost predicate SenderInv(p: Plan, t: Port, s: Send) {
    && PortShape(p.cap, t) && (s.pc == Fit ==> s.rest != [])
    && t.read == NoXfer && t.begun == 0 && t.posted <= |p.bs| && s.offset <= p.cap
    && OpInv(p, 0, t) && SendOk(p, t, s)
    && (p.bs[t.posted..], p.ok) == Remaining(p.cap, t, s)
  }

  /** The buffer an open operation exposes holds the bucket that was posted from it. */
  ghost predicate OpInv(p: Plan, r: nat, t: Port)
    requires PortShape(p.cap, t)
  {
    t.op.Open? ==> r + 1 < p.n && 0 < t.posted <= |p.bs| && t.op.key == t.posted - 1 && t.op.slot == Slot(r, t.op.key)
                   && Holds(t.bufs[t.op.slot], p.bs[t.op.key])
  }

  // ---------- A receiver ----------

  /** Inside the loop, from step 3 to step 5, the next bucket is being fetched as well. */
  ghost predicate Ahead(v: Recv) { !v.isLast && (v.pc.Yield? || v.pc == Ack || v.pc == Read) }

  /** Which bucket a receiver holds in send_buf; -1 before the first read is over. */
  ghost function Cur(t: Port, v: Recv): int {
    if v.pc == FirstMeta then -1 else if v.pc == FirstRead || Ahead(v) then t.begun - 2 else t.begun - 1
  }

  /** The bucket being fetched into recv_buf. */
  ghost predicate FetchInv(p: Plan, r: nat, t: Port, v: Recv)
    requires PortShape(p.cap, t)
  {
    && 0 < t.begun <= |p.bs| && t.read != NoXfer
    && t.recv == Slot(r, t.begun - 1)
    && v.nextMeta == p.bs[t.begun - 1].meta && v.nextLast == p.LastAt(t.begun - 1)
    && HoldsBut(t.bufs[t.recv], p.bs[t.begun - 1], if t.read.InFlight? then t.read.pending else {})
  }

  /** The bucket being forwarded and yielded from send_buf. */
  ghost predicate HeldInv(p: Plan, r: nat, t: Port, v: Recv)
    requires PortShape(p.cap, t)
  {
    var cur := Cur(t, v);
    && 0 <= cur < |p.bs|
    && t.send == Slot(r, cur) && v.meta == p.bs[cur].meta
    && v.isLast == p.LastAt(cur) && Holds(t.bufs[t.send], p.bs[cur])
  }

  ghost predicate PostInv(p: Plan, r: nat, t: Port, v: Recv) {
    && t.posted == (if r + 1 == p.n then 0 else if v.pc == Forward then Cur(t, v) else Cur(t, v) + 1)
    && (t.op.Open? <==> r + 1 < p.n && (v.pc == Meta || v.pc.Yield? || v.pc == Ack))
  }

  ghost predicate OutInv(p: Plan, t: Port, v: Recv)
    requires 0 <= Cur(t, v) < |p.bs|
  {
    var cur := Cur(t, v);
    if v.pc.Yield? then v.pc.i <= |p.bs[cur].meta| && v.out == Yields(p.bs, cur, v.pc.i)
    else if v.pc == Forward || v.pc == Meta then v.out == Yields(p.bs, cur, 0)
    else v.out == Yields(p.bs, cur + 1, 0)
  }

  ghost predicate StartInv(t: Port, v: Recv) {
    && t.begun == (if v.pc == FirstMeta then 0 else 1)
    && t.posted == 0 && t.op == NoOp && t.recv == 1 && v.out == []
  }

  ghost predicate CycleInv(p: Plan, r: nat, t: Port, v: Recv)
    requires PortShape(p.cap, t)
  {
    && HeldInv(p, r, t, v) && PostInv(p, r, t, v) && OutInv(p, t, v)
    && (v.isLast ==> v.pc != Meta && v.pc != Read)
    && (v.pc == Received ==> v.isLast)
  }

  ghost predicate ReceiverInv(p: Plan, r: nat, t: Port, v: Recv) {
    && PortShape(p.cap, t) && OpInv(p, r, t) && v.pc != RecvCrashed
    && (if v.pc == FirstRead || (v.pc != FirstMeta && Ahead(v)) then FetchInv(p, r, t, v) else t.read == NoXfer)
    && (if v.pc == FirstMeta || v.pc == FirstRead then StartInv(t, v) else CycleInv(p, r, t, v))
  }

  ghost predicate RankInv(p: Plan, r: nat, k: Rank) {
    match k
    case Sender(t, s) => r == 0 && SenderInv(p, t, s)
    case Receiver(t, v) => 0 < r < p.n && ReceiverInv(p, r, t, v)
  }

  // ---------- A link ----------

  ghost function Acked(t: Port): int { if t.op.Open? then t.posted - 1 else t.posted }

  ghost function Fetched(t: Port): int { if t.read.InFlight? then t.begun - 1 else t.begun }

  /** What is queued is exactly what was posted but not picked up, and what was read but not acknowledged. */
  ghost predicate LinkInv(p: Plan, r: nat, up: Port, down: Port, m: seq<Msg>, nt: seq<nat>) {
    && 0 <= Acked(up) <= Fetched(down) <= down.begun <= up.posted <= |p.bs|
    && m == (if down.begun < up.posted then [MsgFor(p, r, down.begun)] else [])
    && nt == (if Acked(up) < Fetched(down) then [Acked(up)] else [])
    && (down.read.InFlight? ==> down.begun > 0 && down.read.remote == Slot(r, down.begun - 1) && down.read.key == down.begun - 1)
  }

  /** Keeps the invariants of the ranks and links folded: each is looked into only where it is asked for. */
  datatype Fold = Fold

  ghost predicate RankFold(p: Plan, r: nat, k: Rank, f: Fold) { RankInv(p, r, k) }

  ghost predicate RankFolded(p: Plan, r: nat, k: Rank) { forall f: Fold :: RankFold(p, r, k, f) }

  ghost predicate RankAt(p: Plan, s: State, r: nat)
    requires r < |s.ranks|
  {
    RankFolded(p, r, s.ranks[r])
  }

  ghost predicate LinkFold(p: Plan, r: nat, up: Port, down: Port, m: seq<Msg>, nt: seq<nat>, f: Fold) {
    LinkInv(p, r, up, down, m, nt)
  }

  ghost predicate LinkFolded(p: Plan, r: nat, up: Port, down: Port, m: seq<Msg>, nt: seq<nat>) {
    forall f: Fold :: LinkFold(p, r, up, down, m, nt, f)
  }

  ghost predicate LinkAt(p: Plan, s: State, r: nat)
    requires r + 1 < |s.ranks| && r < |s.msgs| && r < |s.notifs|
  {
    LinkFolded(p, r, s.ranks[r].port, s.ranks[r + 1].port, s.msgs[r], s.notifs[r])
  }

  lemma UnfoldRank(p: Plan, r: nat, k: Rank)
    requires RankFolded(p, r, k)
    ensures RankInv(p, r, k)
  {
    assert RankFold(p, r, k, Fold);
  }

  lemma UnfoldLink(p: Plan, r: nat, up: Port, down: Port, m: seq<Msg>, nt: seq<nat>)
    requires LinkFolded(p, r, up, down, m, nt)
    ensures LinkInv(p, r, up, down, m, nt)
  {
    assert LinkFold(p, r, up, down, m, nt, Fold);
  }

  ghost predicate Inv(c: Config, s: State) {
    && c.Valid() && Shape(c, s)
    && (forall r :: 0 <= r < c.n ==> RankAt(PlanOf(c), s, r))
    && (forall r :: 0 <= r < c.n - 1 ==> LinkAt(PlanOf(c), s, r))
  }

  lemma PlanValid(c: Config)
    requires c.Valid()
    ensures PlanOf(c).Valid()
    ensures forall k :: 0 <= k < |PlanOf(c).bs| ==> |PlanOf(c).bs[k].meta| <= |c.ws|
  {
    PackRoundTrip(c.ws, c.cap);
  }

  lemma InvInit(c: Config)
    requires c.Valid()
    ensures Inv(c, Init(c))
  {
    PlanValid(c);
    var s, p := Init(c), PlanOf(c);
    assert Filling(InitPort(c.cap), s.ranks[0].s) == EMPTY;
    assert p.bs[0..] == p.bs;
    assert SenderInv(p, s.ranks[0].port, s.ranks[0].s);
    forall r | 0 < r < c.n ensures RankInv(p, r, s.ranks[r]) {
      assert s.ranks[r] == InitRank(c, r);
    }
  }

  // ---------- Steps of rank 0 ----------

  lemma NextStep(p: Plan, t: Port, s: Send)
    requires SenderInv(p, t, s) && s.pc == Next
    ensures SenderInv(p, t, TakeNext(p.cap, s))
  {
    assert Filling(t, TakeNext(p.cap, s)) == Filling(t, s);
  }

  lemma SendWaitStep(p: Plan, t: Port, s: Send)
    requires SenderInv(p, t, s) && (s.pc.Wait? || s.pc == LastAck)
    ensures SenderInv(p, t.(op := NoOp), AfterWait(s))
  {
    assert Filling(t.(op := NoOp), AfterWait(s)) == Filling(t, s);
  }

  lemma FitStep(p: Plan, t: Port, s: Send)
    requires SenderInv(p, t, s) && s.pc == Fit
    ensures RankInv(p, 0, TakeFit(p.cap, t, s))
  {
    var k, w := TakeFit(p.cap, t, s), s.rest[0];
    if s.offset + |w.data| <= p.cap {
      assert Filling(k.port, k.s) == AddWeight(Filling(t, s), w);
      if t.op.Open? { SlotFlips(0, t.op.key); }
    }
  }

  lemma PostLast(p: Plan, t: Port, s: Send)
    requires p.n >= 2 && SenderInv(p, t, s) && s.pc == Post(true)
    ensures SenderInv(p, OpenOp(t), s.(pc := LastAck))
    ensures t.posted < |p.bs| && PostMsg(Sender(t, s)) == MsgFor(p, 0, t.posted)
  {
    assert p.bs[t.posted..] == [Filling(t, s)];
    assert p.bs[t.posted + 1..] == [];
    assert p.bs[t.posted] == p.bs[t.posted..][0];
    assert Holds(t.bufs[t.send], p.bs[t.posted]);
  }

  lemma PostFull(p: Plan, t: Port, s: Send)
    requires p.n >= 2 && SenderInv(p, t, s) && s.pc == Post(false)
    ensures SenderInv(p, Swap(OpenOp(t)), s.(pc := Fit, meta := [], offset := 0))
    ensures t.posted < |p.bs| && PostMsg(Sender(t, s)) == MsgFor(p, 0, t.posted)
  {
    SlotFlips(0, t.posted);
    assert p.bs[t.posted..] == [Filling(t, s)] + Place(s.rest, EMPTY, p.cap).0;
    assert p.bs[t.posted] == p.bs[t.posted..][0];
    assert p.bs[t.posted + 1..] == p.bs[t.posted..][1..] == Place(s.rest, EMPTY, p.cap).0;
    assert Filling(Swap(OpenOp(t)), s.(pc := Fit, meta := [], offset := 0)) == EMPTY;
    if p.ok { PackNonempty(s.rest[1..], AddWeight(EMPTY, s.rest[0]), p.cap); }
    assert Holds(t.bufs[t.send], p.bs[t.posted]);
  }

  // ---------- Steps of a receiver ----------

  lemma ForwardStep(p: Plan, r: nat, t: Port, v: Recv)
    requires 0 < r < p.n && ReceiverInv(p, r, t, v) && v.pc == Forward
    ensures RankInv(p, r, TakePost(Receiver(t, v), r + 1 < p.n))
    ensures r + 1 < p.n ==> t.posted < |p.bs| && PostMsg(Receiver(t, v)) == MsgFor(p, r, t.posted)
  {
  }

  lemma FirstBegin(p: Plan, r: nat, t: Port, v: Recv)
    requires p.Valid() && 0 < r < p.n && ReceiverInv(p, r, t, v) && v.pc == FirstMeta && t.begun < |p.bs|
    ensures RankInv(p, r, TakeMeta(p.cap, Receiver(t, v), MsgFor(p, r - 1, t.begun)))
  {
    assert Fits(p.bs[t.begun], p.cap);
  }

  lemma NextBegin(p: Plan, r: nat, t: Port, v: Recv)
    requires p.Valid() && 0 < r < p.n && ReceiverInv(p, r, t, v) && v.pc == Meta && t.begun < |p.bs|
    ensures RankInv(p, r, TakeMeta(p.cap, Receiver(t, v), MsgFor(p, r - 1, t.begun)))
  {
    assert Fits(p.bs[t.begun], p.cap);
    SlotFlips(r, Cur(t, v));
    var u := TakeMeta(p.cap, Receiver(t, v), MsgFor(p, r - 1, t.begun));
    assert Cur(u.port, u.v) == Cur(t, v);
  }

  lemma YieldEntryOut(p: Plan, t: Port, v: Recv)
    requires p.Valid() && PortShape(p.cap, t) && v.pc.Yield? && v.pc.i < |v.meta| && 0 <= Cur(t, v) < |p.bs|
    requires OutInv(p, t, v) && v.meta == p.bs[Cur(t, v)].meta && Holds(t.bufs[t.send], p.bs[Cur(t, v)])
    ensures Cur(t, TakeYield(t, v)) == Cur(t, v) && OutInv(p, t, TakeYield(t, v))
  {
    var cur := Cur(t, v);
    assert Fits(p.bs[cur], p.cap);
    ExtractHeld(t.bufs[t.send], p.bs[cur], v.pc.i);
    YieldsNext(p.bs, cur, v.pc.i);
  }

  lemma YieldEndOut(p: Plan, t: Port, v: Recv)
    requires PortShape(p.cap, t) && v.pc == Yield(|v.meta|) && 0 <= Cur(t, v) < |p.bs|
    requires OutInv(p, t, v) && v.meta == p.bs[Cur(t, v)].meta
    ensures Cur(t, TakeYield(t, v)) == Cur(t, v) && OutInv(p, t, TakeYield(t, v))
  {
    YieldsBucket(p.bs, Cur(t, v));
  }

  /** A yield leaves everything else as it was. */
  lemma YieldStep(p: Plan, r: nat, t: Port, v: Recv)
    requires 0 < r < p.n && ReceiverInv(p, r, t, v) && v.pc.Yield? && v.pc.i <= |v.meta|
    requires Cur(t, TakeYield(t, v)) == Cur(t, v) && OutInv(p, t, TakeYield(t, v))
    ensures ReceiverInv(p, r, t, TakeYield(t, v))
  {
  }

  lemma YieldOut(p: Plan, r: nat, t: Port, v: Recv)
    requires p.Valid() && 0 < r < p.n && ReceiverInv(p, r, t, v) && v.pc.Yield?
    ensures v.pc.i <= |v.meta| && Cur(t, TakeYield(t, v)) == Cur(t, v) && OutInv(p, t, TakeYield(t, v))
  {
    if v.pc.i < |v.meta| { YieldEntryOut(p, t, v); } else { YieldEndOut(p, t, v); }
  }

  lemma AckedCycle(p: Plan, r: nat, t: Port, v: Recv)
    requires PortShape(p.cap, t) && CycleInv(p, r, t, v) && v.pc == Ack
    ensures CycleInv(p, r, t.(op := NoOp), AfterAck(v)) && Cur(t.(op := NoOp), AfterAck(v)) == Cur(t, v)
  {
    assert Cur(t.(op := NoOp), AfterAck(v)) == Cur(t, v);
  }

  lemma AckedStep(p: Plan, r: nat, t: Port, v: Recv)
    requires 0 < r < p.n && ReceiverInv(p, r, t, v) && v.pc == Ack
    ensures ReceiverInv(p, r, t.(op := NoOp), AfterAck(v))
  {
    AckedCycle(p, r, t, v);
  }

  lemma FirstReadStep(p: Plan, r: nat, t: Port, v: Recv)
    requires 0 < r < p.n && ReceiverInv(p, r, t, v) && v.pc == FirstRead && t.read == Landed
    ensures RankInv(p, r, TakeRead(Receiver(t, v)))
  {
    assert Yields(p.bs, 0, 0) == [];
  }

  /** A fetched bucket is the next one held. */
  lemma FetchedIsHeld(p: Plan, r: nat, t: Port, v: Recv, u: Port, w: Recv)
    requires PortShape(p.cap, t) && FetchInv(p, r, t, v) && t.read == Landed
    requires u == Swap(t).(read := NoXfer) && w == v.(pc := Forward, meta := v.nextMeta, isLast := v.nextLast)
    ensures PortShape(p.cap, u) && HeldInv(p, r, u, w) && Cur(u, w) == t.begun - 1
  {
  }

  lemma NextReadCycle(p: Plan, r: nat, t: Port, v: Recv, u: Port, w: Recv)
    requires PortShape(p.cap, t) && CycleInv(p, r, t, v) && v.pc == Read && t.posted == (if r + 1 == p.n then 0 else Cur(t, v) + 1)
    requires PortShape(p.cap, u) && HeldInv(p, r, u, w) && Cur(u, w) == Cur(t, v) + 1
    requires u.posted == t.posted && u.op == t.op && w.pc == Forward && w.out == v.out
    ensures CycleInv(p, r, u, w)
  {
  }

  lemma NextReadStep(p: Plan, r: nat, t: Port, v: Recv)
    requires 0 < r < p.n && ReceiverInv(p, r, t, v) && v.pc == Read && t.read == Landed
    ensures RankInv(p, r, TakeRead(Receiver(t, v)))
  {
    var u := TakeRead(Receiver(t, v));
    FetchedIsHeld(p, r, t, v, u.port, u.v);
    NextReadCycle(p, r, t, v, u.port, u.v);
  }

  lemma LandFetch(p: Plan, r: nat, t: Port, v: Recv, src: seq<byte>, j: nat)
    requires PortShape(p.cap, t) && FetchInv(p, r, t, v) && t.read.InFlight? && j in t.read.pending && |src| == p.cap
    requires Holds(src, p.bs[t.begun - 1])
    ensures PortShape(p.cap, LandByte(t, src, j)) && FetchInv(p, r, LandByte(t, src, j), v)
  {
  }

  lemma LandHeld(p: Plan, r: nat, t: Port, v: Recv, u: Port)
    requires PortShape(p.cap, t) && PortShape(p.cap, u) && CycleInv(p, r, t, v)
    requires u == t.(bufs := u.bufs, read := u.read) && u.bufs[u.send] == t.bufs[t.send]
    ensures CycleInv(p, r, u, v)
  {
    assert Cur(u, v) == Cur(t, v);
  }

  lemma LandRank(p: Plan, r: nat, t: Port, v: Recv, src: seq<byte>, j: nat)
    requires 0 < r < p.n && ReceiverInv(p, r, t, v) && t.read.InFlight? && j in t.read.pending && |src| == p.cap
    requires Holds(src, p.bs[t.begun - 1])
    ensures ReceiverInv(p, r, LandByte(t, src, j), v)
  {
    var u := LandByte(t, src, j);
    LandFetch(p, r, t, v, src, j);
    assert u.bufs[u.send] == t.bufs[t.send];
    if v.pc != FirstRead {
      LandHeld(p, r, t, v, u);
      assert t.op.Open? ==> t.op.key == Cur(t, v);
    }
  }

  lemma CompleteRank(p: Plan, r: nat, t: Port, v: Recv)
    requires 0 < r < p.n && ReceiverInv(p, r, t, v) && t.read.InFlight? && t.read.pending == {}
    ensures ReceiverInv(p, r, t.(read := Landed), v)
  {
  }

  // ---------- Steps seen from the links ----------

  lemma Exposing(p: Plan, r: nat, k: Rank)
    requires RankFolded(p, r, k)
    ensures PortShape(p.cap, k.port) && OpInv(p, r, k.port)
  {
    UnfoldRank(p, r, k);
  }

  lemma AckRank(p: Plan, r: nat, k: Rank)
    requires RankInv(p, r, k) && AwaitsAck(k)
    ensures k.port.op.Open? && RankInv(p, r, TakeAck(k, k.port.op.key))
    ensures TakeAck(k, k.port.op.key).port == k.port.(op := NoOp)
  {
    match k
    case Sender(t, s) => SendWaitStep(p, t, s);
    case Receiver(t, v) => AckedStep(p, r, t, v);
  }

  /** The notification that arrives is the open operation's. */
  lemma NotifiedKey(p: Plan, r: nat, up: Port, down: Port, m: seq<Msg>, nt: seq<nat>)
    requires PortShape(p.cap, up) && OpInv(p, r, up) && LinkFolded(p, r, up, down, m, nt) && up.op.Open? && nt != []
    ensures nt[0] == up.op.key && LinkFolded(p, r, up.(op := NoOp), down, m, nt[1..])
  {
    UnfoldLink(p, r, up, down, m, nt);
  }

  lemma AckLink(p: Plan, r: nat, k: Rank, down: Port, m: seq<Msg>, nt: seq<nat>)
    requires RankFolded(p, r, k) && LinkFolded(p, r, k.port, down, m, nt) && AwaitsAck(k) && nt != []
    ensures RankFolded(p, r, TakeAck(k, nt[0]))
    ensures LinkFolded(p, r, TakeAck(k, nt[0]).port, down, m, nt[1..])
    ensures TakeAck(k, nt[0]).port == k.port.(op := NoOp)
  {
    Exposing(p, r, k);
    NotifiedKey(p, r, k.port, down, m, nt);
    UnfoldRank(p, r, k);
    AckRank(p, r, k);
  }

  lemma PostRank(p: Plan, r: nat, k: Rank)
    requires p.n >= 2 && r + 1 < p.n && RankInv(p, r, k) && Posts(k)
    ensures RankInv(p, r, TakePost(k, true)) && k.port.op == NoOp
    ensures k.port.posted < |p.bs| && PostMsg(k) == MsgFor(p, r, k.port.posted)
  {
    match k
    case Sender(t, s) => if s.pc.last { PostLast(p, t, s); } else { PostFull(p, t, s); }
    case Receiver(t, v) => ForwardStep(p, r, t, v);
  }

  lemma PostQueued(p: Plan, r: nat, up: Port, down: Port, m: seq<Msg>, nt: seq<nat>, next: Port)
    requires LinkFolded(p, r, up, down, m, nt) && up.op == NoOp && up.posted < |p.bs|
    requires next == OpenOp(up) || next == Swap(OpenOp(up))
    ensures LinkFolded(p, r, next, down, m + [MsgFor(p, r, up.posted)], nt)
  {
    UnfoldLink(p, r, up, down, m, nt);
  }

  lemma PostLink(p: Plan, r: nat, k: Rank, down: Port, m: seq<Msg>, nt: seq<nat>)
    requires p.n >= 2 && r + 1 < p.n && RankFolded(p, r, k) && LinkFolded(p, r, k.port, down, m, nt) && Posts(k)
    ensures RankFolded(p, r, TakePost(k, true))
    ensures LinkFolded(p, r, TakePost(k, true).port, down, m + [PostMsg(k)], nt)
  {
    UnfoldRank(p, r, k);
    PostRank(p, r, k);
    PostQueued(p, r, k.port, down, m, nt, TakePost(k, true).port);
  }

  /** What a receiver that waits for metadata finds first. */
  lemma NextMessage(p: Plan, r: nat, up: Port, down: Port, m: seq<Msg>, nt: seq<nat>)
    requires LinkFolded(p, r, up, down, m, nt) && m != []
    ensures down.begun < |p.bs| && m[0] == MsgFor(p, r, down.begun) && m[0].slot < 2
  {
    UnfoldLink(p, r, up, down, m, nt);
  }

  lemma MessageTaken(p: Plan, r: nat, up: Port, down: Port, m: seq<Msg>, nt: seq<nat>, next: Port)
    requires LinkFolded(p, r, up, down, m, nt) && m != [] && down.read == NoXfer
    requires next == down.(read := InFlight(m[0].slot, m[0].key, AllBytes(p.cap)), begun := down.begun + 1)
    ensures LinkFolded(p, r, up, next, m[1..], nt)
  {
    UnfoldLink(p, r, up, down, m, nt);
  }

  lemma BeginRank(p: Plan, r: nat, k: Rank)
    requires p.Valid() && 0 < r && RankInv(p, r, k) && AwaitsMeta(k) && k.port.begun < |p.bs|
    ensures RankInv(p, r, TakeMeta(p.cap, k, MsgFor(p, r - 1, k.port.begun))) && k.port.read == NoXfer
  {
    if k.v.pc == FirstMeta { FirstBegin(p, r, k.port, k.v); } else { NextBegin(p, r, k.port, k.v); }
  }

  lemma BeginLink(p: Plan, r: nat, up: Port, k: Rank, m: seq<Msg>, nt: seq<nat>)
    requires p.Valid() && 0 < r && RankFolded(p, r, k) && LinkFolded(p, r - 1, up, k.port, m, nt)
    requires AwaitsMeta(k) && m != []
    ensures RankFolded(p, r, TakeMeta(p.cap, k, m[0])) && m[0].slot < 2
    ensures LinkFolded(p, r - 1, up, TakeMeta(p.cap, k, m[0]).port, m[1..], nt)
  {
    NextMessage(p, r - 1, up, k.port, m, nt);
    UnfoldRank(p, r, k);
    BeginRank(p, r, k);
    MessageTaken(p, r - 1, up, k.port, m, nt, TakeMeta(p.cap, k, m[0]).port);
  }

  /** The buffer a read in flight takes its bytes from still holds the posted bucket. */
  lemma RemoteHolds(p: Plan, r: nat, up: Port, down: Port, m: seq<Msg>, nt: seq<nat>)
    requires PortShape(p.cap, up) && OpInv(p, r, up) && LinkFolded(p, r, up, down, m, nt) && down.read.InFlight?
    ensures 0 < down.begun == up.posted <= |p.bs|
    ensures up.op == Open(down.begun - 1, down.read.remote) && down.read.remote < 2
    ensures Holds(up.bufs[down.read.remote], p.bs[down.begun - 1]) && down.read.key == down.begun - 1 && nt == []
  {
    UnfoldLink(p, r, up, down, m, nt);
  }

  /** A byte that lands changes nothing a link speaks about. */
  lemma LandLink(p: Plan, r: nat, up: Port, down: Port, m: seq<Msg>, nt: seq<nat>, next: Port)
    requires LinkFolded(p, r, up, down, m, nt) && down.read.InFlight? && next.begun == down.begun
    requires next.read.InFlight? && next.read.remote == down.read.remote && next.read.key == down.read.key
    ensures LinkFolded(p, r, up, next, m, nt)
  {
    UnfoldLink(p, r, up, down, m, nt);
  }

  lemma CompleteLink(p: Plan, r: nat, up: Port, down: Port, m: seq<Msg>, nt: seq<nat>)
    requires PortShape(p.cap, up) && OpInv(p, r, up) && LinkFolded(p, r, up, down, m, nt) && down.read.InFlight?
    ensures LinkFolded(p, r, up, down.(read := Landed), m, nt + [down.read.key])
  {
    RemoteHolds(p, r, up, down, m, nt);
    UnfoldLink(p, r, up, down, m, nt);
  }

  /** The parts of a port that its two links speak about. */
  ghost predicate SameLinks(t: Port, u: Port) {
    && u.posted == t.posted && u.op == t.op && u.begun == t.begun && Fetched(u) == Fetched(t)
    && (u.read.InFlight? ==> u.read == t.read)
  }

  /** A program point at which `TakeLocal` runs. */
  predicate RunsLocal(k: Rank) {
    && !AwaitsAck(k) && !AwaitsMeta(k) && !Posts(k) && !Stopped(k) && (AwaitsRead(k) ==> k.port.read == Landed)
  }

  lemma LocalStep(p: Plan, r: nat, k: Rank)
    requires p.Valid() && RankFolded(p, r, k) && RunsLocal(k)
    ensures PortShape(p.cap, k.port) && (k.Sender? && k.s.pc == Fit ==> k.s.rest != [])
    ensures RankFolded(p, r, TakeLocal(p.cap, k)) && SameLinks(k.port, TakeLocal(p.cap, k).port)
  {
    UnfoldRank(p, r, k);
    match k
    case Sender(t, s) =>
      if s.pc == Next { NextStep(p, t, s); }
      else if s.pc == Fit { FitStep(p, t, s); }
      else { SendWaitStep(p, t, s); }
    case Receiver(t, v) =>
      if v.pc == FirstRead { FirstReadStep(p, r, t, v); }
      else if v.pc == Read { NextReadStep(p, r, t, v); }
      else if v.pc == Ack { AckedStep(p, r, t, v); }
      else {
        YieldOut(p, r, t, v);
        YieldStep(p, r, t, v);
      }
  }

  // ---------- One step of the chain ----------

  /** What one step changes: one rank, and at most the queues of the two links beside it. */
  ghost predicate Changes(s: State, t: State, r: nat) {
    && |t.ranks| == |s.ranks| && |t.msgs| == |s.msgs| && |t.notifs| == |s.notifs|
    && (forall q :: 0 <= q < |s.ranks| && q != r ==> t.ranks[q] == s.ranks[q])
    && (forall q :: 0 <= q < |s.msgs| && q != r && q + 1 != r ==> t.msgs[q] == s.msgs[q])
    && (forall q :: 0 <= q < |s.notifs| && q != r && q + 1 != r ==> t.notifs[q] == s.notifs[q])
  }

  lemma RankShaped(p: Plan, r: nat, k: Rank)
    requires RankFolded(p, r, k)
    ensures RankShape(p.n, p.cap, r, k)
  {
    UnfoldRank(p, r, k);
  }

  lemma SpliceRank(c: Config, s: State, t: State, r: nat, q: nat)
    requires Inv(c, s) && r < c.n && q < c.n && Changes(s, t, r) && RankAt(PlanOf(c), t, r)
    ensures RankAt(PlanOf(c), t, q) && RankShape(c.n, c.cap, q, t.ranks[q])
  {
    if q != r { assert RankAt(PlanOf(c), s, q); }
    assert RankAt(PlanOf(c), t, q);
    RankShaped(PlanOf(c), q, t.ranks[q]);
  }

  lemma SpliceLink(c: Config, s: State, t: State, r: nat, q: nat)
    requires Inv(c, s) && r < c.n && q + 1 < c.n && Changes(s, t, r) && q != r && q + 1 != r
    ensures LinkAt(PlanOf(c), t, q)
  {
    assert LinkAt(PlanOf(c), s, q);
  }

  lemma SpliceLinks(c: Config, s: State, t: State, r: nat)
    requires Inv(c, s) && r < c.n && Changes(s, t, r)
    requires r > 0 ==> LinkAt(PlanOf(c), t, r - 1)
    requires r + 1 < c.n ==> LinkAt(PlanOf(c), t, r)
    ensures forall q :: 0 <= q < c.n - 1 ==> LinkAt(PlanOf(c), t, q)
  {
    forall q | 0 <= q < c.n - 1 ensures LinkAt(PlanOf(c), t, q) {
      if q != r && q + 1 != r { SpliceLink(c, s, t, r, q); }
    }
  }

  lemma SpliceRanks(c: Config, s: State, t: State, r: nat)
    requires Inv(c, s) && r < c.n && Changes(s, t, r) && RankAt(PlanOf(c), t, r)
    ensures Shape(c, t) && forall q :: 0 <= q < c.n ==> RankAt(PlanOf(c), t, q)
  {
    forall q | 0 <= q < c.n ensures RankAt(PlanOf(c), t, q) && RankShape(c.n, c.cap, q, t.ranks[q]) {
      SpliceRank(c, s, t, r, q);
    }
  }

  lemma Splice(c: Config, s: State, t: State, r: nat)
    requires Inv(c, s) && r < c.n && Changes(s, t, r) && RankAt(PlanOf(c), t, r)
    requires r > 0 ==> LinkAt(PlanOf(c), t, r - 1)
    requires r + 1 < c.n ==> LinkAt(PlanOf(c), t, r)
    ensures Inv(c, t)
  {
    SpliceRanks(c, s, t, r);
    SpliceLinks(c, s, t, r);
  }

  /** The downstream link does not notice a step that leaves its rank's posts alone. */
  lemma DownLink(c: Config, s: State, t: State, r: nat)
    requires Inv(c, s) && r + 1 < c.n && Changes(s, t, r)
    requires t.msgs[r] == s.msgs[r] && t.notifs[r] == s.notifs[r]
    requires t.ranks[r].port.posted == s.ranks[r].port.posted && t.ranks[r].port.op == s.ranks[r].port.op
    ensures LinkAt(PlanOf(c), t, r)
  {
    assert LinkAt(PlanOf(c), s, r);
    UnfoldLink(PlanOf(c), r, s.ranks[r].port, s.ranks[r + 1].port, s.msgs[r], s.notifs[r]);
  }

  lemma Acknowledged(c: Config, s: State, t: State, r: nat)
    requires Inv(c, s) && r + 1 < c.n && AwaitsAck(s.ranks[r]) && s.notifs[r] != []
    requires t == State(s.ranks[r := TakeAck(s.ranks[r], s.notifs[r][0])], s.msgs, s.notifs[r := s.notifs[r][1..]])
    ensures RankAt(PlanOf(c), t, r) && LinkAt(PlanOf(c), t, r) && t.ranks[r].port == s.ranks[r].port.(op := NoOp)
  {
    var p := PlanOf(c);
    assert RankAt(p, s, r) && LinkAt(p, s, r);
    AckLink(p, r, s.ranks[r], s.ranks[r + 1].port, s.msgs[r], s.notifs[r]);
  }

  /** The upstream link does not notice a step that leaves its rank's reads alone. */
  lemma UpLink(c: Config, s: State, t: State, r: nat)
    requires Inv(c, s) && 0 < r < c.n && Changes(s, t, r)
    requires t.msgs[r - 1] == s.msgs[r - 1] && t.notifs[r - 1] == s.notifs[r - 1]
    requires t.ranks[r].port.begun == s.ranks[r].port.begun && Fetched(t.ranks[r].port) == Fetched(s.ranks[r].port)
    requires t.ranks[r].port.read.InFlight? ==> t.ranks[r].port.read == s.ranks[r].port.read
    ensures LinkAt(PlanOf(c), t, r - 1)
  {
    assert LinkAt(PlanOf(c), s, r - 1);
    UnfoldLink(PlanOf(c), r - 1, s.ranks[r - 1].port, s.ranks[r].port, s.msgs[r - 1], s.notifs[r - 1]);
  }

  lemma AckInv(c: Config, s: State, r: nat)
    requires Inv(c, s) && Enabled(c, s, Run(r)) && AwaitsAck(s.ranks[r])
    ensures Inv(c, Step(c, s, Run(r)))
  {
    var t := Step(c, s, Run(r));
    Acknowledged(c, s, t, r);
    if r > 0 { UpLink(c, s, t, r); }
    Splice(c, s, t, r);
  }

  lemma Begun(c: Config, s: State, t: State, r: nat)
    requires Inv(c, s) && 0 < r < c.n && AwaitsMeta(s.ranks[r]) && s.msgs[r - 1] != []
    requires t == State(s.ranks[r := TakeMeta(c.cap, s.ranks[r], s.msgs[r-1][0])], s.msgs[r-1 := s.msgs[r-1][1..]], s.notifs)
    ensures RankAt(PlanOf(c), t, r) && LinkAt(PlanOf(c), t, r - 1)
  {
    var p := PlanOf(c);
    PlanValid(c);
    assert RankAt(p, s, r) && LinkAt(p, s, r - 1);
    BeginLink(p, r, s.ranks[r - 1].port, s.ranks[r], s.msgs[r - 1], s.notifs[r - 1]);
  }

  lemma BeginInv(c: Config, s: State, r: nat)
    requires Inv(c, s) && Enabled(c, s, Run(r)) && AwaitsMeta(s.ranks[r])
    ensures Inv(c, Step(c, s, Run(r)))
  {
    var t := Step(c, s, Run(r));
    Begun(c, s, t, r);
    if r + 1 < c.n { DownLink(c, s, t, r); }
    Splice(c, s, t, r);
  }

  lemma Posted(c: Config, s: State, t: State, r: nat)
    requires Inv(c, s) && r + 1 < c.n && Posts(s.ranks[r])
    requires t == State(s.ranks[r := TakePost(s.ranks[r], true)], s.msgs[r := s.msgs[r] + [PostMsg(s.ranks[r])]], s.notifs)
    ensures RankAt(PlanOf(c), t, r) && LinkAt(PlanOf(c), t, r)
  {
    assert RankAt(PlanOf(c), s, r) && LinkAt(PlanOf(c), s, r);
    PostLink(PlanOf(c), r, s.ranks[r], s.ranks[r + 1].port, s.msgs[r], s.notifs[r]);
  }

  lemma PostedLast(c: Config, s: State, t: State, r: nat)
    requires Inv(c, s) && r + 1 == c.n && Posts(s.ranks[r])
    requires t == State(s.ranks[r := TakePost(s.ranks[r], false)], s.msgs, s.notifs)
    ensures RankAt(PlanOf(c), t, r)
  {
    assert RankAt(PlanOf(c), s, r);
    UnfoldRank(PlanOf(c), r, s.ranks[r]);
    ForwardStep(PlanOf(c), r, s.ranks[r].port, s.ranks[r].v);
  }

  /** A post does not touch what the upstream link speaks about. */
  lemma PostUpLink(c: Config, s: State, t: State, r: nat, hasNext: bool)
    requires Inv(c, s) && 0 < r < c.n && Posts(s.ranks[r]) && Changes(s, t, r)
    requires t.ranks[r] == TakePost(s.ranks[r], hasNext)
    requires t.msgs[r - 1] == s.msgs[r - 1] && t.notifs[r - 1] == s.notifs[r - 1]
    ensures LinkAt(PlanOf(c), t, r - 1)
  {
    UpLink(c, s, t, r);
  }

  lemma PostInvNext(c: Config, s: State, r: nat)
    requires Inv(c, s) && Enabled(c, s, Run(r)) && Posts(s.ranks[r]) && r + 1 < c.n
    ensures Inv(c, Step(c, s, Run(r)))
  {
    var t := Step(c, s, Run(r));
    Posted(c, s, t, r);
    if r > 0 { PostUpLink(c, s, t, r, true); }
    Splice(c, s, t, r);
  }

  lemma PostInvLast(c: Config, s: State, r: nat)
    requires Inv(c, s) && Enabled(c, s, Run(r)) && Posts(s.ranks[r]) && r + 1 == c.n
    ensures Inv(c, Step(c, s, Run(r)))
  {
    var t := Step(c, s, Run(r));
    PostedLast(c, s, t, r);
    PostUpLink(c, s, t, r, false);
    Splice(c, s, t, r);
  }

  lemma Moved(c: Config, s: State, t: State, r: nat)
    requires Inv(c, s) && r < c.n && RunsLocal(s.ranks[r])
    requires t == State(s.ranks[r := TakeLocal(c.cap, s.ranks[r])], s.msgs, s.notifs)
    ensures RankAt(PlanOf(c), t, r) && SameLinks(s.ranks[r].port, t.ranks[r].port)
  {
    PlanValid(c);
    assert RankAt(PlanOf(c), s, r);
    LocalStep(PlanOf(c), r, s.ranks[r]);
  }

  lemma LocalInv(c: Config, s: State, r: nat)
    requires Inv(c, s) && Enabled(c, s, Run(r)) && RunsLocal(s.ranks[r])
    ensures Inv(c, Step(c, s, Run(r)))
  {
    var t := Step(c, s, Run(r));
    Moved(c, s, t, r);
    if r > 0 { UpLink(c, s, t, r); }
    if r + 1 < c.n { DownLink(c, s, t, r); }
    Splice(c, s, t, r);
  }

  /** What a receiver with a read in flight reads from. */
  lemma RemoteAt(c: Config, s: State, r: nat)
    requires Inv(c, s) && 0 < r < c.n && s.ranks[r].port.read.InFlight?
    ensures var t, up := s.ranks[r].port, s.ranks[r - 1].port;
            && 0 < t.begun <= |PlanOf(c).bs| && t.read.remote < 2 && |up.bufs| == 2
            && up.op == Open(t.begun - 1, t.read.remote) && t.read.key == t.begun - 1
            && |up.bufs[t.read.remote]| == c.cap && Holds(up.bufs[t.read.remote], PlanOf(c).bs[t.begun - 1])
  {
    var p := PlanOf(c);
    assert RankAt(p, s, r - 1) && LinkAt(p, s, r - 1);
    Exposing(p, r - 1, s.ranks[r - 1]);
    RemoteHolds(p, r - 1, s.ranks[r - 1].port, s.ranks[r].port, s.msgs[r - 1], s.notifs[r - 1]);
  }

  lemma LandingRank(p: Plan, r: nat, k: Rank, src: seq<byte>, j: nat)
    requires RankFolded(p, r, k) && k.Receiver? && k.port.read.InFlight? && j in k.port.read.pending
    requires |src| == p.cap && 0 < k.port.begun <= |p.bs| && Holds(src, p.bs[k.port.begun - 1])
    ensures PortShape(p.cap, k.port) && RankFolded(p, r, Receiver(LandByte(k.port, src, j), k.v))
  {
    UnfoldRank(p, r, k);
    LandRank(p, r, k.port, k.v, src, j);
  }

  lemma Landing(c: Config, s: State, t: State, r: nat, j: nat)
    requires Inv(c, s) && 0 < r < c.n && s.ranks[r].Receiver? && s.ranks[r].port.read.InFlight?
    requires j in s.ranks[r].port.read.pending
    requires var k := s.ranks[r];
             var src := s.ranks[r-1].port.bufs[k.port.read.remote];
             t == State(s.ranks[r := Receiver(LandByte(k.port, src, j), k.v)], s.msgs, s.notifs)
    ensures RankAt(PlanOf(c), t, r) && LinkAt(PlanOf(c), t, r - 1)
  {
    var p, k := PlanOf(c), s.ranks[r];
    assert RankAt(p, s, r) && LinkAt(p, s, r - 1);
    RemoteAt(c, s, r);
    LandingRank(p, r, k, s.ranks[r - 1].port.bufs[k.port.read.remote], j);
    LandLink(p, r - 1, s.ranks[r - 1].port, k.port, s.msgs[r - 1], s.notifs[r - 1], t.ranks[r].port);
  }

  lemma LandInv(c: Config, s: State, r: nat, j: nat)
    requires Inv(c, s) && Enabled(c, s, Land(r, j))
    ensures Inv(c, Step(c, s, Land(r, j)))
  {
    var t := Step(c, s, Land(r, j));
    Landing(c, s, t, r, j);
    if r + 1 < c.n { DownLink(c, s, t, r); }
    Splice(c, s, t, r);
  }

  lemma CompletedRank(c: Config, s: State, t: State, r: nat)
    requires Inv(c, s) && 0 < r < c.n && |t.ranks| == c.n && s.ranks[r].Receiver?
    requires s.ranks[r].port.read.InFlight? && s.ranks[r].port.read.pending == {}
    requires t.ranks[r] == Receiver(s.ranks[r].port.(read := Landed), s.ranks[r].v)
    ensures RankAt(PlanOf(c), t, r)
  {
    assert RankAt(PlanOf(c), s, r);
    UnfoldRank(PlanOf(c), r, s.ranks[r]);
    CompleteRank(PlanOf(c), r, s.ranks[r].port, s.ranks[r].v);
  }

  lemma CompletedLink(c: Config, s: State, t: State, r: nat)
    requires Inv(c, s) && 0 < r < c.n && s.ranks[r].port.read.InFlight? && s.ranks[r].Receiver?
    requires t == State(s.ranks[r := Receiver(s.ranks[r].port.(read := Landed), s.ranks[r].v)], s.msgs,
                        s.notifs[r-1 := s.notifs[r-1] + [s.ranks[r].port.read.key]])
    ensures LinkAt(PlanOf(c), t, r - 1)
  {
    var p := PlanOf(c);
    assert RankAt(p, s, r - 1) && LinkAt(p, s, r - 1);
    Exposing(p, r - 1, s.ranks[r - 1]);
    CompleteLink(p, r - 1, s.ranks[r - 1].port, s.ranks[r].port, s.msgs[r - 1], s.notifs[r - 1]);
  }

  lemma CompleteInv(c: Config, s: State, r: nat)
    requires Inv(c, s) && Enabled(c, s, Complete(r))
    ensures Inv(c, Step(c, s, Complete(r)))
  {
    var t := Step(c, s, Complete(r));
    CompletedRank(c, s, t, r);
    CompletedLink(c, s, t, r);
    assert Changes(s, t, r);
    if r + 1 < c.n { DownLink(c, s, t, r); }
    Splice(c, s, t, r);
  }

  lemma StepInv(c: Config, s: State, a: Act)
    requires Inv(c, s) && Enabled(c, s, a)
    ensures Inv(c, Step(c, s, a))
  {
    match a {
      case Run(r) =>
        if AwaitsAck(s.ranks[r]) { AckInv(c, s, r); }
        else if AwaitsMeta(s.ranks[r]) { BeginInv(c, s, r); }
        else if Posts(s.ranks[r]) {
          if r + 1 < c.n { PostInvNext(c, s, r); } else { PostInvLast(c, s, r); }
        }
        else { LocalInv(c, s, r); }
      case Land(r, j) => LandInv(c, s, r, j);
      case Complete(r) => CompleteInv(c, s, r);
    }
  }

  lemma {:induction false} RunInv(c: Config, s: State, acts: seq<Act>, t: State)
    requires Inv(c, s) && IsRun(c, s, acts, t)
    ensures Inv(c, t)
    decreases |acts|
  {
    if acts != [] {
      StepInv(c, s, acts[0]);
      RunInv(c, Step(c, s, acts[0]), acts[1..], t);
    }
  }

  lemma ReachableInv(c: Config, s: State)
    requires c.Valid() && Reachable(c, s)
    ensures Inv(c, s)
  {
    var acts :| IsRun(c, Init(c), acts, s);
    InvInit(c);
    RunInv(c, Init(c), acts, s);
  }
}
