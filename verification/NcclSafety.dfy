/** The inductive invariant of the NCCL broadcasts. */
module NcclSafety {
  import opened Buckets
  import opened BucketViews
  import opened NcclBroadcast

  /** The buckets rank 0 will broadcast; `ok`: it gets to a last one. */
  datatype Plan = Plan(cap: nat, bs: seq<Bucket>, ok: bool) {
    ghost predicate Valid() { |bs| > 0 && forall k :: 0 <= k < |bs| ==> Fits(bs[k], cap) }

    ghost predicate LastAt(k: nat) { ok && k + 1 == |bs| }
  }

  ghost function PlanOf(c: Config): Plan {
    Plan(c.cap, Pack(c.ws, EMPTY, c.cap).0, Pack(c.ws, EMPTY, c.cap).1)
  }

  ghost function NoteFor(p: Plan, k: nat): Note
    requires k < |p.bs|
  {
    Note(p.bs[k].meta, p.LastAt(k))
  }

  // ---------- Rank 0 ----------

  ghost function Current(r: Root): Bucket
    requires r.send < |r.bufs| && r.offset <= |r.bufs[r.send]|
  {
    Bucket(r.meta, r.bufs[r.send][..r.offset])
  }

  /** What rank 0 will still broadcast, told from where it is in its loop. */
  ghost function Remaining(cap: nat, r: Root): (seq<Bucket>, bool)
    requires r.send < |r.bufs| && r.offset <= |r.bufs[r.send]| && (r.pc == Fit ==> r.rest != [])
  {
    match r.pc
    case Fit => Place(r.rest, Current(r), cap)
    case LastWait => ([], true)
    case Sent => ([], true)
    case TooLarge => ([], false)
    case _ => Pack(r.rest, Current(r), cap)
  }

  /** The buffer in flight holds the bucket being broadcast. */
  ghost predicate CastInv(p: Plan, r: Root)
    requires TwoBuffers(p.cap, r.bufs, r.send, r.recv)
  {
    r.op.Casting? ==>
      0 < r.started <= |p.bs| && r.op.k == r.started - 1 && r.op.slot == r.op.k % 2 &&
      r.op.note == NoteFor(p, r.op.k) && Holds(r.bufs[r.op.slot], p.bs[r.op.k])
  }

  ghost predicate RootPcInv(p: Plan, r: Root) {
    && (r.pc.Wait? && r.pc.last ==> r.rest == [])
    && (r.pc.Cast? && r.pc.last ==> r.rest == [])
    && (r.pc.Wait? && !r.pc.last ==> r.rest != [] && r.offset + |r.rest[0].data| > p.cap)
    && (r.pc.Cast? && !r.pc.last ==> r.rest != [] && r.offset + |r.rest[0].data| > p.cap)
    && (r.pc.Cast? || r.pc == Sent ==> r.op == NoOp)
    && (r.pc == LastWait ==> r.op.Casting?)
    && (r.pc == Next || r.pc == Fit ==> (r.op.Casting? <==> r.started > 0))
    && (r.pc != LastWait && r.pc != Sent ==> r.send == r.started % 2)
  }

  ghost predicate RootInv(p: Plan, r: Root) {
    && TwoBuffers(p.cap, r.bufs, r.send, r.recv) && (r.pc == Fit ==> r.rest != [])
    && r.started <= |p.bs| && r.offset <= p.cap && CastInv(p, r) && RootPcInv(p, r)
    && (p.bs[r.started..], p.ok) == Remaining(p.cap, r)
  }

  // ---------- A receiver ----------

  ghost function Cur(v: Recv): int { if v.op == Idle then v.begun - 1 else v.begun - 2 }

  /** The bucket being filled. */
  ghost predicate FillInv(p: Plan, v: Recv)
    requires TwoBuffers(p.cap, v.bufs, v.send, v.recv)
  {
    v.op != Idle ==>
      v.begun > 0 && v.op.slot == v.recv == v.begun % 2 &&
      (v.op.Filling? ==>
         v.begun <= |p.bs| && v.op.note == NoteFor(p, v.begun - 1) && (forall j :: j in v.op.pending ==> j < p.cap) &&
         HoldsBut(v.bufs[v.recv], p.bs[v.begun - 1], v.op.pending))
  }

  /** The bucket being yielded. */
  ghost predicate HeldInv(p: Plan, v: Recv)
    requires TwoBuffers(p.cap, v.bufs, v.send, v.recv)
  {
    var cur := Cur(v);
    0 <= cur < |p.bs| && v.send == (cur + 1) % 2 && v.meta == p.bs[cur].meta && v.isLast == p.LastAt(cur) &&
    Holds(v.bufs[v.send], p.bs[cur])
  }

  ghost predicate OutInv(p: Plan, v: Recv)
    requires 0 <= Cur(v) < |p.bs|
  {
    match v.pc
    case Loop => v.out == Yields(p.bs, Cur(v), 0)
    case Yield(i) => i <= |p.bs[Cur(v)].meta| && v.out == Yields(p.bs, Cur(v), i)
    case _ => v.out == Yields(p.bs, Cur(v) + 1, 0)
  }

  ghost predicate RecvPcInv(v: Recv) {
    && (v.pc == Start || v.pc == Loop || v.pc == Received ==> v.op == Idle)
    && (v.pc.Yield? ==> (v.isLast <==> v.op == Idle))
    && (v.pc == NextWait ==> !v.isLast)
    && (RecvWaits(v) ==> v.op != Idle)
    && (v.pc == Received ==> v.isLast)
  }

  ghost predicate Starting(v: Recv) { v.pc == Start || v.pc == FirstWait }

  ghost predicate RecvInv(p: Plan, v: Recv) {
    && TwoBuffers(p.cap, v.bufs, v.send, v.recv) && FillInv(p, v) && RecvPcInv(v)
    && (if Starting(v) then v.begun == (if v.pc == Start then 0 else 1) && v.recv == 1 && v.out == []
        else HeldInv(p, v) && OutInv(p, v))
  }

  // ---------- A link ----------

  ghost function PublishedBy(r: Root): int { if r.op.Casting? && !r.op.published then r.started - 1 else r.started }

  ghost function NotesTaken(v: Recv): int { if v.op.AwaitNote? then v.begun - 1 else v.begun }

  ghost predicate WireAt(p: Plan, wire: seq<map<nat, byte>>, k: nat)
    requires k < |wire| <= |p.bs|
  {
    forall j :: j in wire[k] && j < |p.bs[k].image| ==> wire[k][j] == p.bs[k].image[j]
  }

  ghost predicate NotesInv(p: Plan, published: int, taken: int, notes: seq<Note>) {
    0 <= taken <= published <= |p.bs| && |notes| == published - taken &&
    forall x :: 0 <= x < |notes| ==> notes[x] == NoteFor(p, taken + x)
  }

  /** Every byte of a finished broadcast has left. */
  ghost predicate FinishedLeft(p: Plan, r: Root, l: Link) {
    forall k :: 0 <= k < r.started && !(r.op.Casting? && k == r.started - 1) ==> AllLeft(p.cap, l, k)
  }

  ghost predicate WireInv(p: Plan, r: Root, l: Link) {
    |l.wire| == r.started <= |p.bs| && (forall k :: 0 <= k < |l.wire| ==> WireAt(p, l.wire, k)) && FinishedLeft(p, r, l)
  }

  ghost predicate LinkInv(p: Plan, r: Root, v: Recv, l: Link) {
    WireInv(p, r, l) && NotesInv(p, PublishedBy(r), NotesTaken(v), l.notes)
  }

  /** Keeps the invariant of a receiver and its link folded: it is looked into only where it is asked for. */
  datatype Fold = Fold

  ghost predicate PairFold(p: Plan, r: Root, v: Recv, l: Link, f: Fold) { RecvInv(p, v) && LinkInv(p, r, v, l) }

  ghost predicate PairFolded(p: Plan, r: Root, v: Recv, l: Link) { forall f: Fold :: PairFold(p, r, v, l, f) }

  lemma UnfoldPair(p: Plan, r: Root, v: Recv, l: Link)
    requires PairFolded(p, r, v, l)
    ensures RecvInv(p, v) && LinkInv(p, r, v, l)
  {
    assert PairFold(p, r, v, l, Fold);
  }

  ghost predicate At(p: Plan, s: State, i: nat)
    requires i < |s.recvs| && i < |s.links|
  {
    PairFolded(p, s.root, s.recvs[i], s.links[i])
  }

  lemma UnfoldAt(p: Plan, s: State, i: nat)
    requires i < |s.recvs| && i < |s.links| && At(p, s, i)
    ensures RecvInv(p, s.recvs[i]) && LinkInv(p, s.root, s.recvs[i], s.links[i])
  {
    UnfoldPair(p, s.root, s.recvs[i], s.links[i]);
  }

  ghost predicate Inv(c: Config, s: State) {
    c.Valid() && Shape(c, s) && RootInv(PlanOf(c), s.root) && forall i :: 0 <= i < c.n - 1 ==> At(PlanOf(c), s, i)
  }

  lemma PlanValid(c: Config)
    requires c.Valid()
    ensures PlanOf(c).Valid()
  {
    PackRoundTrip(c.ws, c.cap);
  }

  lemma InvInit(c: Config)
    requires c.Valid()
    ensures Inv(c, Init(c))
  {
    PlanValid(c);
    var s, p := Init(c), PlanOf(c);
    assert Current(s.root) == EMPTY;
    assert p.bs[0..] == p.bs;
    forall i | 0 <= i < c.n - 1 ensures At(p, s, i) {
      assert s.recvs[i] == InitRecv(c.cap) && s.links[i] == Link([], []);
    }
  }

  // ---------- Steps of rank 0 ----------

  lemma NextStep(p: Plan, r: Root)
    requires RootInv(p, r) && r.pc == Next
    ensures RootInv(p, TakeNext(p.cap, r))
  {
    assert Current(TakeNext(p.cap, r)) == Current(r);
  }

  lemma WaitStep(p: Plan, r: Root)
    requires RootInv(p, r) && (r.pc.Wait? || r.pc == LastWait)
    ensures RootInv(p, TakeWait(r))
  {
    assert Current(TakeWait(r)) == Current(r);
  }

  lemma FitStep(p: Plan, r: Root)
    requires RootInv(p, r) && r.pc == Fit
    ensures RootInv(p, TakeFit(p.cap, r))
  {
    var t, w := TakeFit(p.cap, r), r.rest[0];
    if r.offset + |w.data| <= p.cap {
      assert Current(t) == AddWeight(Current(r), w);
      if r.op.Casting? { assert r.op.slot != r.send; }
    }
  }

  lemma CastLast(p: Plan, r: Root)
    requires RootInv(p, r) && r.pc == Cast(true)
    ensures RootInv(p, TakeCast(r, true))
  {
    assert p.bs[r.started..] == [Current(r)];
    assert p.bs[r.started + 1..] == [];
    assert p.bs[r.started] == p.bs[r.started..][0];
    assert Holds(r.bufs[r.send], p.bs[r.started]);
  }

  lemma CastFull(p: Plan, r: Root)
    requires RootInv(p, r) && r.pc == Cast(false)
    ensures RootInv(p, TakeCast(r, false))
  {
    assert p.bs[r.started..] == [Current(r)] + Place(r.rest, EMPTY, p.cap).0;
    assert p.bs[r.started] == p.bs[r.started..][0];
    assert p.bs[r.started + 1..] == p.bs[r.started..][1..] == Place(r.rest, EMPTY, p.cap).0;
    assert Current(TakeCast(r, false)) == EMPTY;
    if p.ok { PackNonempty(r.rest[1..], AddWeight(EMPTY, r.rest[0]), p.cap); }
    assert Holds(r.bufs[r.send], p.bs[r.started]);
  }

  lemma RootStepInv(p: Plan, r: Root)
    requires RootInv(p, r) && !RootStopped(r)
    ensures RootInv(p, RootStep(p.cap, r)) && RootShape(p.cap, RootStep(p.cap, r))
    ensures r.pc.Cast? ==> r.op == NoOp && r.started < |p.bs|
  {
    match r.pc {
      case Next => NextStep(p, r);
      case Fit => FitStep(p, r);
      case Cast(last) => if last { CastLast(p, r); } else { CastFull(p, r); }
      case _ => WaitStep(p, r);
    }
  }

  /** What a step of rank 0 does to its op and its count. */
  lemma RootStepOp(p: Plan, r: Root)
    requires RootInv(p, r) && !RootStopped(r)
    ensures var t := RootStep(p.cap, r);
            t.started == (if r.pc.Cast? then r.started + 1 else r.started) &&
            (r.pc.Cast? ==> t.op == Casting(r.started, r.send, Note(r.meta, r.pc.last), false)) &&
            (!r.pc.Cast? ==> t.op == (if r.pc.Wait? || r.pc == LastWait then NoOp else r.op))
  {
  }

  // ---------- Steps of a receiver ----------

  lemma BeginStep(p: Plan, v: Recv)
    requires RecvInv(p, v) && (v.pc == Start || (v.pc == Loop && !v.isLast))
    ensures RecvInv(p, RecvStep(v))
  {
  }

  lemma LastLoopStep(p: Plan, v: Recv)
    requires RecvInv(p, v) && v.pc == Loop && v.isLast
    ensures RecvInv(p, RecvStep(v))
  {
  }

  lemma DoneStep(p: Plan, v: Recv)
    requires RecvInv(p, v) && RecvWaits(v) && OpDone(v)
    ensures RecvInv(p, RecvStep(v))
  {
    if v.pc == FirstWait { assert Yields(p.bs, 0, 0) == []; }
  }

  lemma YieldEntryOut(p: Plan, v: Recv)
    requires p.Valid() && TwoBuffers(p.cap, v.bufs, v.send, v.recv) && HeldInv(p, v) && OutInv(p, v)
    requires v.pc.Yield? && v.pc.i < |v.meta|
    ensures Cur(TakeYield(v)) == Cur(v) && OutInv(p, TakeYield(v))
  {
    var cur := Cur(v);
    assert Fits(p.bs[cur], p.cap);
    ExtractHeld(v.bufs[v.send], p.bs[cur], v.pc.i);
    YieldsNext(p.bs, cur, v.pc.i);
  }

  lemma YieldEndOut(p: Plan, v: Recv)
    requires TwoBuffers(p.cap, v.bufs, v.send, v.recv) && HeldInv(p, v) && OutInv(p, v) && v.pc == Yield(|v.meta|)
    ensures Cur(TakeYield(v)) == Cur(v) && OutInv(p, TakeYield(v))
  {
    YieldsBucket(p.bs, Cur(v));
  }

  lemma YieldOut(p: Plan, v: Recv)
    requires p.Valid() && RecvInv(p, v) && v.pc.Yield?
    ensures Cur(TakeYield(v)) == Cur(v) && OutInv(p, TakeYield(v))
  {
    if v.pc.i < |v.meta| { YieldEntryOut(p, v); } else { YieldEndOut(p, v); }
  }

  /** A step that leaves the held buffer and its metadata alone keeps the bucket held. */
  lemma StaysHeld(p: Plan, v: Recv, t: Recv)
    requires TwoBuffers(p.cap, v.bufs, v.send, v.recv) && TwoBuffers(p.cap, t.bufs, t.send, t.recv) && HeldInv(p, v)
    requires t.send == v.send && t.bufs[t.send] == v.bufs[v.send] && t.meta == v.meta && t.isLast == v.isLast
    requires Cur(t) == Cur(v)
    ensures HeldInv(p, t)
  {
  }

  lemma YieldPc(v: Recv)
    requires v.pc.Yield? && RecvPcInv(v) && v.send < |v.bufs|
    ensures var t := RecvStep(v);
            t == TakeYield(v) && t == v.(pc := t.pc, out := t.out) && RecvPcInv(t) && !Starting(t) && Cur(t) == Cur(v)
  {
  }

  /** A yield leaves everything else as it was. */
  lemma YieldStep(p: Plan, v: Recv, t: Recv)
    requires RecvInv(p, v) && v.pc.Yield? && t == v.(pc := t.pc, out := t.out)
    requires RecvPcInv(t) && !Starting(t) && Cur(t) == Cur(v) && OutInv(p, t)
    ensures RecvInv(p, t)
  {
    StaysHeld(p, v, t);
  }

  lemma RecvStepInv(p: Plan, v: Recv)
    requires p.Valid() && RecvInv(p, v) && v.pc != Received && (RecvWaits(v) ==> OpDone(v))
    ensures RecvInv(p, RecvStep(v)) && NotesTaken(RecvStep(v)) == NotesTaken(v)
  {
    if RecvWaits(v) { DoneStep(p, v); }
    else if v.pc.Yield? {
      YieldPc(v);
      YieldOut(p, v);
      YieldStep(p, v, RecvStep(v));
    }
    else if v.pc == Loop && v.isLast { LastLoopStep(p, v); }
    else { BeginStep(p, v); }
  }

  lemma NoteFills(p: Plan, v: Recv)
    requires p.Valid() && TwoBuffers(p.cap, v.bufs, v.send, v.recv) && FillInv(p, v) && v.op.AwaitNote?
    requires v.begun <= |p.bs|
    ensures FillInv(p, TakeNote(p.cap, v, NoteFor(p, v.begun - 1)))
  {
    assert Fits(p.bs[v.begun - 1], p.cap);
  }

  lemma NoteStep(p: Plan, v: Recv)
    requires p.Valid() && RecvInv(p, v) && v.op.AwaitNote? && v.begun <= |p.bs|
    ensures RecvInv(p, TakeNote(p.cap, v, NoteFor(p, v.begun - 1)))
  {
    var t := TakeNote(p.cap, v, NoteFor(p, v.begun - 1));
    NoteFills(p, v);
    if !Starting(v) { StaysHeld(p, v, t); }
  }

  lemma LandFills(p: Plan, v: Recv, j: nat, b: byte)
    requires TwoBuffers(p.cap, v.bufs, v.send, v.recv) && FillInv(p, v) && v.op.Filling? && j in v.op.pending
    requires j < |p.bs[v.begun - 1].image| ==> b == p.bs[v.begun - 1].image[j]
    ensures var t := LandByte(v, j, b); TwoBuffers(p.cap, t.bufs, t.send, t.recv) && FillInv(p, t)
  {
  }

  lemma LandStep(p: Plan, v: Recv, j: nat, b: byte)
    requires RecvInv(p, v) && v.op.Filling? && j in v.op.pending
    requires j < |p.bs[v.begun - 1].image| ==> b == p.bs[v.begun - 1].image[j]
    ensures RecvInv(p, LandByte(v, j, b))
  {
    var t := LandByte(v, j, b);
    LandFills(p, v, j, b);
    assert t.bufs[t.send] == v.bufs[v.send];
    if !Starting(v) { StaysHeld(p, v, t); }
  }

  lemma RecvShaped(p: Plan, v: Recv)
    requires RecvInv(p, v)
    ensures RecvShape(p.cap, v)
  {
  }

  // ---------- Steps seen from a link ----------

  lemma CastLink(p: Plan, r: Root, t: Root, l: Link)
    requires WireInv(p, r, l) && r.op == NoOp && r.started < |p.bs|
    requires t.started == r.started + 1 && t.op.Casting?
    ensures WireInv(p, t, NewWire(l))
  {
    var m := NewWire(l);
    forall k | 0 <= k < |m.wire| ensures WireAt(p, m.wire, k) {
      if k < r.started { assert WireAt(p, l.wire, k); }
    }
    forall k | 0 <= k < r.started ensures AllLeft(p.cap, m, k) { assert AllLeft(p.cap, l, k); }
  }

  lemma WaitLink(p: Plan, r: Root, t: Root, l: Link)
    requires WireInv(p, r, l) && t.started == r.started && t.op == NoOp
    requires r.op.Casting? ==> r.op.k == r.started - 1 && AllLeft(p.cap, l, r.op.k)
    ensures WireInv(p, t, l)
  {
  }

  lemma RootStepLink(p: Plan, r: Root, v: Recv, l: Link)
    requires RootInv(p, r) && !RootStopped(r) && LinkInv(p, r, v, l)
    requires RootWaits(r) ==> r.op.published && AllLeft(p.cap, l, r.op.k)
    ensures LinkInv(p, RootStep(p.cap, r), v, if r.pc.Cast? then NewWire(l) else l)
  {
    var t := RootStep(p.cap, r);
    RootStepInv(p, r);
    RootStepOp(p, r);
    if r.pc.Cast? {
      CastLink(p, r, t, l);
    } else if r.pc.Wait? || r.pc == LastWait {
      WaitLink(p, r, t, l);
    } else {
      SameOpLink(p, r, t, l);
    }
  }

  lemma SameOpLink(p: Plan, r: Root, t: Root, l: Link)
    requires WireInv(p, r, l) && t.started == r.started && t.op == r.op
    ensures WireInv(p, t, l)
  {
  }

  lemma PublishLink(p: Plan, r: Root, v: Recv, l: Link)
    requires RootInv(p, r) && LinkInv(p, r, v, l) && r.op.Casting? && !r.op.published
    ensures LinkInv(p, r.(op := r.op.(published := true)), v, Published(l, r.op.note))
  {
    var t, m := r.(op := r.op.(published := true)), Published(l, r.op.note);
    forall k | 0 <= k < |m.wire| ensures WireAt(p, m.wire, k) { assert WireAt(p, l.wire, k); }
    assert FinishedLeft(p, t, m) by {
      forall k | 0 <= k < r.started - 1 ensures AllLeft(p.cap, m, k) { assert AllLeft(p.cap, l, k); }
    }
  }

  lemma LeaveLink(p: Plan, r: Root, l: Link, j: nat, b: byte)
    requires RootInv(p, r) && WireInv(p, r, l) && r.op.Casting?
    requires j < |p.bs[r.op.k].image| ==> b == p.bs[r.op.k].image[j]
    ensures WireInv(p, r, Left(l, r.op.k, j, b))
  {
    var m := Left(l, r.op.k, j, b);
    forall k | 0 <= k < |m.wire| ensures WireAt(p, m.wire, k) { assert WireAt(p, l.wire, k); }
    forall k | 0 <= k < r.started - 1 ensures AllLeft(p.cap, m, k) { assert AllLeft(p.cap, l, k); }
  }

  lemma NotesTail(p: Plan, published: int, taken: int, notes: seq<Note>)
    requires NotesInv(p, published, taken, notes) && notes != []
    ensures NotesInv(p, published, taken + 1, notes[1..]) && taken < |p.bs| && notes[0] == NoteFor(p, taken)
  {
    forall x | 0 <= x < |notes| - 1 ensures notes[1..][x] == NoteFor(p, taken + 1 + x) {
      assert notes[x + 1] == NoteFor(p, taken + (x + 1));
    }
  }

  lemma NotesWire(p: Plan, r: Root, l: Link, notes: seq<Note>)
    requires WireInv(p, r, l)
    ensures WireInv(p, r, l.(notes := notes))
  {
    var m := l.(notes := notes);
    forall k | 0 <= k < |m.wire| ensures WireAt(p, m.wire, k) { assert WireAt(p, l.wire, k); }
    assert forall k :: AllLeft(p.cap, l, k) ==> AllLeft(p.cap, m, k);
  }

  // ---------- One step ----------

  lemma RunRootInv(c: Config, s: State)
    requires Inv(c, s) && Enabled(c, s, RunRoot)
    ensures Inv(c, Step(c, s, RunRoot))
  {
    var p, t := PlanOf(c), Step(c, s, RunRoot);
    RootStepInv(p, s.root);
    RootStepOp(p, s.root);
    forall i | 0 <= i < c.n - 1 ensures At(p, t, i) {
      UnfoldAt(p, s, i);
      RootStepLink(p, s.root, s.recvs[i], s.links[i]);
    }
  }

  lemma PublishInv(c: Config, s: State)
    requires Inv(c, s) && Enabled(c, s, Publish)
    ensures Inv(c, Step(c, s, Publish))
  {
    var p, t := PlanOf(c), Step(c, s, Publish);
    assert Current(t.root) == Current(s.root);
    forall i | 0 <= i < c.n - 1 ensures At(p, t, i) {
      UnfoldAt(p, s, i);
      PublishLink(p, s.root, s.recvs[i], s.links[i]);
    }
  }

  /** A step that touches only receiver i and its link. */
  ghost predicate OnlyAt(s: State, t: State, i: nat) {
    t.root == s.root && |t.recvs| == |s.recvs| && |t.links| == |s.links| &&
    (forall h :: 0 <= h < |s.recvs| && h != i ==> t.recvs[h] == s.recvs[h]) &&
    forall h :: 0 <= h < |s.links| && h != i ==> t.links[h] == s.links[h]
  }

  lemma SpliceAt(c: Config, s: State, t: State, i: nat, h: nat)
    requires Inv(c, s) && i < c.n - 1 && OnlyAt(s, t, i) && At(PlanOf(c), t, i) && h < c.n - 1
    ensures At(PlanOf(c), t, h) && RecvShape(c.cap, t.recvs[h]) && |t.links[h].wire| == t.root.started
  {
    if h != i { assert At(PlanOf(c), s, h); }
    UnfoldAt(PlanOf(c), t, h);
    RecvShaped(PlanOf(c), t.recvs[h]);
  }

  lemma Splice(c: Config, s: State, t: State, i: nat)
    requires Inv(c, s) && i < c.n - 1 && OnlyAt(s, t, i) && At(PlanOf(c), t, i)
    ensures Inv(c, t)
  {
    forall h | 0 <= h < c.n - 1
      ensures At(PlanOf(c), t, h) && RecvShape(c.cap, t.recvs[h]) && |t.links[h].wire| == t.root.started
    {
      SpliceAt(c, s, t, i, h);
    }
  }

  /** The byte that leaves is the byte of the bucket being broadcast. */
  lemma LeavingByte(p: Plan, r: Root, j: nat)
    requires RootInv(p, r) && r.op.Casting? && j < p.cap
    ensures r.op.k < |p.bs| && r.op.slot < 2 && j < |r.bufs[r.op.slot]|
    ensures j < |p.bs[r.op.k].image| ==> r.bufs[r.op.slot][j] == p.bs[r.op.k].image[j]
  {
  }

  lemma LeftAt(p: Plan, r: Root, v: Recv, l: Link, j: nat)
    requires RootInv(p, r) && LinkInv(p, r, v, l) && r.op.Casting? && j < p.cap
    ensures r.op.slot < 2 && j < |r.bufs[r.op.slot]| && LinkInv(p, r, v, Left(l, r.op.k, j, r.bufs[r.op.slot][j]))
  {
    LeavingByte(p, r, j);
    LeaveLink(p, r, l, j, r.bufs[r.op.slot][j]);
  }

  lemma LeaveInv(c: Config, s: State, i: nat, j: nat)
    requires Inv(c, s) && Enabled(c, s, Leave(i, j))
    ensures Inv(c, Step(c, s, Leave(i, j)))
  {
    var p, t := PlanOf(c), Step(c, s, Leave(i, j));
    UnfoldAt(p, s, i);
    LeftAt(p, s.root, s.recvs[i], s.links[i], j);
    assert At(p, t, i);
    Splice(c, s, t, i);
  }

  lemma RunRecvInv(c: Config, s: State, i: nat)
    requires Inv(c, s) && Enabled(c, s, RunRecv(i))
    ensures Inv(c, Step(c, s, RunRecv(i)))
  {
    var p, t := PlanOf(c), Step(c, s, RunRecv(i));
    PlanValid(c);
    UnfoldAt(p, s, i);
    RecvStepInv(p, s.recvs[i]);
    Splice(c, s, t, i);
  }

  lemma NotePair(p: Plan, r: Root, v: Recv, l: Link)
    requires p.Valid() && PairFolded(p, r, v, l) && v.op.AwaitNote? && l.notes != []
    ensures PairFolded(p, r, TakeNote(p.cap, v, l.notes[0]), l.(notes := l.notes[1..]))
  {
    UnfoldPair(p, r, v, l);
    NotesTail(p, PublishedBy(r), v.begun - 1, l.notes);
    NotesWire(p, r, l, l.notes[1..]);
    NoteStep(p, v);
  }

  lemma GetNoteInv(c: Config, s: State, i: nat)
    requires Inv(c, s) && Enabled(c, s, GetNote(i))
    ensures Inv(c, Step(c, s, GetNote(i)))
  {
    var t := Step(c, s, GetNote(i));
    PlanValid(c);
    assert At(PlanOf(c), s, i);
    NotePair(PlanOf(c), s.root, s.recvs[i], s.links[i]);
    Splice(c, s, t, i);
  }

  /** A byte that lands is the byte of the bucket that the receiver's broadcast is numbered for. */
  lemma LandedByte(c: Config, s: State, i: nat, j: nat)
    requires Inv(c, s) && Enabled(c, s, Land(i, j))
    ensures var v := s.recvs[i];
            v.begun <= |PlanOf(c).bs| && RecvInv(PlanOf(c), v) &&
            (j < |PlanOf(c).bs[v.begun - 1].image| ==>
               s.links[i].wire[v.begun - 1][j] == PlanOf(c).bs[v.begun - 1].image[j])
  {
    UnfoldAt(PlanOf(c), s, i);
    assert WireAt(PlanOf(c), s.links[i].wire, s.recvs[i].begun - 1);
  }

  lemma LandInv(c: Config, s: State, i: nat, j: nat)
    requires Inv(c, s) && Enabled(c, s, Land(i, j))
    ensures Inv(c, Step(c, s, Land(i, j)))
  {
    var p, t, v := PlanOf(c), Step(c, s, Land(i, j)), s.recvs[i];
    LandedByte(c, s, i, j);
    LandStep(p, v, j, s.links[i].wire[v.begun - 1][j]);
    UnfoldAt(p, s, i);
    Splice(c, s, t, i);
  }

  lemma StepInv(c: Config, s: State, a: Act)
    requires Inv(c, s) && Enabled(c, s, a)
    ensures Inv(c, Step(c, s, a))
  {
    match a {
      case RunRoot => RunRootInv(c, s);
      case Publish => PublishInv(c, s);
      case Leave(i, j) => LeaveInv(c, s, i, j);
      case RunRecv(i) => RunRecvInv(c, s, i);
      case GetNote(i) => GetNoteInv(c, s, i);
      case Land(i, j) => LandInv(c, s, i, j);
    }
  }

  lemma {:induction false} RunInv(c: Config, s: State, acts: seq<Act>, t: State)
    requires Inv(c, s) && IsRun(c, s, acts, t)
    ensures Inv(c, t)
    decreases |acts|
  {
    if acts != [] {
      StepInv(c, s, acts[0]);
      RunInv(c, Step(c, s, acts[0]), acts[1..], t);
    }
  }

  lemma ReachableInv(c: Config, s: State)
    requires c.Valid() && Reachable(c, s)
    ensures Inv(c, s)
  {
    var acts :| IsRun(c, Init(c), acts, s);
    InvInit(c);
    RunInv(c, Init(c), acts, s);
  }
}
