/** What the NCCL engine guarantees over every interleaving: delivery, protected buffers and progress. */
module NcclTheorems {
  import opened Arithmetic
  import opened Buckets
  import opened BucketViews
  import opened NcclBroadcast
  import opened NcclSafety

  // ---------- Delivery ----------

  lemma OutPrefix(p: Plan, v: Recv)
    requires RecvInv(p, v)
    ensures v.out <= Delivered(p.bs)
    ensures v.pc == Received ==> v.out == Delivered(p.bs) && p.ok
  {
    if v.pc == Loop {
      YieldsPrefix(p.bs, Cur(v), 0);
    } else if v.pc.Yield? {
      YieldsPrefix(p.bs, Cur(v), v.pc.i);
    } else if v.pc == NextWait || v.pc == Received {
      YieldsPrefix(p.bs, Cur(v) + 1, 0);
      if v.pc == Received { assert p.bs[..Cur(v) + 1] == p.bs; }
    }
  }

  /** Every receiver has at all times yielded a prefix of what the buckets unpack to, and with no name repeated in a
      bucket of the list handed to rank 0. One that finished has yielded exactly that list, in order, if and only if
      no bucket repeats a name, and can only finish when every weight fits a bucket. */
  lemma Delivery(c: Config, s: State, i: nat)
    requires c.Valid() && Reachable(c, s) && i < c.n - 1
    ensures |s.recvs| == c.n - 1
    ensures GroupsDistinct(SentGroups(c.ws, c.cap)) ==> s.recvs[i].out <= c.ws
    ensures NamesDistinct(c.ws) ==> s.recvs[i].out <= c.ws
    ensures s.recvs[i].pc == Received ==> AllFit(c.ws, c.cap)
    ensures s.recvs[i].pc == Received ==> (s.recvs[i].out == c.ws <==> GroupsDistinct(SentGroups(c.ws, c.cap)))
  {
    ReachableInv(c, s);
    UnfoldAt(PlanOf(c), s, i);
    OutPrefix(PlanOf(c), s.recvs[i]);
    PackRoundTrip(c.ws, c.cap);
  }

  // ---------- Protected buffers ----------

  ghost function BufsOf(s: State, rank: nat): seq<seq<byte>>
    requires rank <= |s.recvs|
  {
    if rank == 0 then s.root.bufs else s.recvs[rank - 1].bufs
  }

  /** Buffer b of the rank belongs to a broadcast it has started and not waited for. */
  ghost predicate InFlight(s: State, rank: nat, b: nat)
    requires rank <= |s.recvs|
  {
    if rank == 0 then s.root.op.Casting? && s.root.op.slot == b
    else s.recvs[rank - 1].op != Idle && s.recvs[rank - 1].op.slot == b
  }

  /** Buffer b is the one the program fills (rank 0) or yields from (the others) at this point. */
  ghost predicate Used(s: State, rank: nat, b: nat)
    requires rank <= |s.recvs|
  {
    if rank == 0 then s.root.pc == Fit && s.root.send == b
    else s.recvs[rank - 1].pc.Yield? && s.recvs[rank - 1].send == b
  }

  lemma RootApart(p: Plan, r: Root)
    requires RootInv(p, r) && r.op.Casting? && r.pc == Fit
    ensures r.op.slot != r.send
  {
  }

  lemma BuffersApart(p: Plan, v: Recv)
    requires RecvInv(p, v) && v.op != Idle
    ensures v.op.slot != v.send
  {
  }

  /** No rank fills or yields from the buffer of a broadcast in flight. */
  lemma NoClobber(c: Config, s: State, rank: nat, b: nat)
    requires c.Valid() && Reachable(c, s) && rank < c.n
    ensures |s.recvs| == c.n - 1
    ensures !(InFlight(s, rank, b) && Used(s, rank, b))
  {
    ReachableInv(c, s);
    if rank == 0 {
      if s.root.op.Casting? && s.root.pc == Fit { RootApart(PlanOf(c), s.root); }
    } else {
      UnfoldAt(PlanOf(c), s, rank - 1);
      if s.recvs[rank - 1].op != Idle { BuffersApart(PlanOf(c), s.recvs[rank - 1]); }
    }
  }

  /** What overlaps: a rank that yields a bucket has begun the broadcast of the next one, if there is one, and rank 0 fills
      a bucket while the one before it is on its way. */
  lemma Overlaps(c: Config, s: State, i: nat)
    requires c.Valid() && Reachable(c, s) && i + 1 < c.n
    ensures |s.recvs| == c.n - 1
    ensures s.recvs[i].pc.Yield? ==> (s.recvs[i].op != Idle <==> !s.recvs[i].isLast)
    ensures s.root.pc == Next || s.root.pc == Fit ==> (s.root.op.Casting? <==> s.root.started > 0)
  {
    ReachableInv(c, s);
    UnfoldAt(PlanOf(c), s, i);
  }

  /** Apart from rank 0's own fill, the only buffer that ever changes is the one a receiver gave to its broadcast. */
  lemma OnlyBroadcastsChange(c: Config, s: State, a: Act, rank: nat, b: nat)
    requires Shape(c, s) && Enabled(c, s, a) && rank < c.n && b < 2
    ensures |Step(c, s, a).recvs| == |s.recvs| && |BufsOf(Step(c, s, a), rank)| == |BufsOf(s, rank)| == 2
    ensures BufsOf(Step(c, s, a), rank)[b] != BufsOf(s, rank)[b] ==>
              if rank == 0 then a == RunRoot && Used(s, 0, b)
              else a.Land? && a.i == rank - 1 && InFlight(s, rank, b)
  {
    if rank > 0 { assert RecvShape(c.cap, s.recvs[rank - 1]); }
  }

  // ---------- Progress ----------

  ghost predicate Blocked(c: Config, s: State)
    requires Shape(c, s)
  {
    forall a :: !Enabled(c, s, a)
  }

  /** A blocked rank 0 is at its end: a broadcast in flight can always be published or lose another byte. */
  lemma RootEnds(c: Config, s: State)
    requires Inv(c, s) && Blocked(c, s)
    ensures RootStopped(s.root)
  {
    assert !Enabled(c, s, RunRoot);
    if !RootStopped(s.root) {
      assert !Enabled(c, s, Publish);
      var i :| 0 <= i < |s.links| && !AllLeft(c.cap, s.links[i], s.root.op.k);
      UnfoldAt(PlanOf(c), s, i);
      var j :| 0 <= j < c.cap && j !in s.links[i].wire[s.root.op.k];
      assert Enabled(c, s, Leave(i, j));
    }
  }

  /** With everything broadcast and gone out, a receiver that has not finished can move. */
  lemma ReceiverMoves(c: Config, s: State, i: nat)
    requires Inv(c, s) && i < c.n - 1 && PlanOf(c).ok && s.root.pc == Sent && s.recvs[i].pc != Received
    ensures exists a :: Enabled(c, s, a)
  {
    var p, v, l := PlanOf(c), s.recvs[i], s.links[i];
    UnfoldAt(p, s, i);
    assert s.root.started == |p.bs| by { assert |p.bs[s.root.started..]| == 0; }
    if v.op.AwaitNote? {
      PlanValid(c);
      assert v.begun <= |p.bs|;
      assert |l.notes| > 0;
      assert Enabled(c, s, GetNote(i));
    } else if RecvWaits(v) && v.op.pending != {} {
      var j :| j in v.op.pending;
      assert AllLeft(c.cap, l, v.begun - 1);
      assert Enabled(c, s, Land(i, j));
    } else {
      assert Enabled(c, s, RunRecv(i));
    }
  }

  /** The transfer never deadlocks: where nothing can move any more every rank has finished, unless some weight does
      not fit a bucket; then rank 0 has failed its size assertion and no receiver takes the transfer for complete. */
  lemma NoDeadlock(c: Config, s: State)
    requires c.Valid() && Reachable(c, s)
    ensures Shape(c, s)
    ensures Blocked(c, s) && AllFit(c.ws, c.cap) ==>
              s.root.pc == Sent && forall i :: 0 <= i < c.n - 1 ==> s.recvs[i].pc == Received
    ensures Blocked(c, s) && !AllFit(c.ws, c.cap) ==>
              s.root.pc == TooLarge && forall i :: 0 <= i < c.n - 1 ==> s.recvs[i].pc != Received
  {
    ReachableInv(c, s);
    PackRoundTrip(c.ws, c.cap);
    if Blocked(c, s) {
      RootEnds(c, s);
      forall i | 0 <= i < c.n - 1 ensures s.recvs[i].pc == Received <==> AllFit(c.ws, c.cap) {
        UnfoldAt(PlanOf(c), s, i);
        OutPrefix(PlanOf(c), s.recvs[i]);
        if AllFit(c.ws, c.cap) && s.recvs[i].pc != Received { ReceiverMoves(c, s, i); }
      }
    }
  }

  // ---------- Termination ----------

  ghost function RootWork(r: Root): int {
    8 * |r.rest| + match r.pc
                   case Next => 6
                   case Wait(_) => 5
                   case Cast(_) => 4
                   case Fit => 3
                   case LastWait => 2
                   case _ => 0
  }

  /** Steps left before the next broadcast is started, when no bucket has more than m entries. */
  ghost function PassWork(m: nat, v: Recv): int {
    match v.pc
    case FirstWait => m + 4
    case Loop => m + 3
    case Yield(i) => if v.isLast then m - i + 1 else m - i + m + 5
    case NextWait => m + 4
    case _ => 0
  }

  ghost function OpWork(cap: nat, v: Recv): nat {
    match v.op
    case Idle => 0
    case AwaitNote(_) => |AllBytes(cap)| + 1
    case Filling(_, _, pending) => |pending|
  }

  /** More than a pass through the loop can take. */
  ghost function PassBound(cap: nat, m: nat): nat { |AllBytes(cap)| + 2 * m + 10 }

  /** The bytes of one broadcast, of cap, that have not left. */
  ghost function Unsent(cap: nat, sent: map<nat, byte>): nat {
    if cap == 0 then 0 else Unsent(cap - 1, sent) + if cap - 1 in sent then 0 else 1
  }

  /** Bytes that have not left, over `buckets` broadcasts. */
  ghost function WireWork(cap: nat, buckets: int, wire: seq<map<nat, byte>>): nat {
    UnsentWork(cap, buckets - |wire|, Counts(cap, wire))
  }

  /** `left` broadcasts still to start, and these counts of the started ones. */
  ghost function UnsentWork(cap: nat, left: int, counts: seq<nat>): nat {
    Times(left, cap) + Total(counts, |counts|)
  }

  ghost function Counts(cap: nat, wire: seq<map<nat, byte>>): (r: seq<nat>)
    ensures |r| == |wire|
    ensures forall k :: 0 <= k < |wire| ==> r[k] == Unsent(cap, wire[k])
  {
    seq(|wire|, k requires 0 <= k < |wire| => Unsent(cap, wire[k]))
  }

  /** The first n counts together. */
  ghost function Total(counts: seq<nat>, n: nat): nat
    requires n <= |counts|
  {
    if n == 0 then 0 else Total(counts, n - 1) + counts[n - 1]
  }

  ghost function ReceiverWork(cap: nat, m: nat, buckets: nat, v: Recv): int {
    Times(buckets + 1 - v.begun, PassBound(cap, m)) + OpWork(cap, v) + PassWork(m, v)
  }

  ghost function PairWork(p: Plan, m: nat, v: Recv, l: Link): int {
    ReceiverWork(p.cap, m, |p.bs|, v) + WireWork(p.cap, |p.bs|, l.wire)
  }

  ghost function PairsWork(p: Plan, m: nat, recvs: seq<Recv>, links: seq<Link>): int
    requires |recvs| == |links|
  {
    if recvs == [] then 0 else PairWork(p, m, recvs[0], links[0]) + PairsWork(p, m, recvs[1..], links[1..])
  }

  ghost function Work(p: Plan, m: nat, s: State): int
    requires |s.recvs| == |s.links|
  {
    RootWork(s.root) + (|p.bs| - PublishedBy(s.root)) + PairsWork(p, m, s.recvs, s.links)
  }

  ghost predicate SmallBuckets(p: Plan, m: nat) { forall k :: 0 <= k < |p.bs| ==> |p.bs[k].meta| <= m }

  lemma {:induction false} PairsUpdate(p: Plan, m: nat, recvs: seq<Recv>, links: seq<Link>, i: nat, v: Recv, l: Link)
    requires i < |recvs| == |links|
    ensures PairsWork(p, m, recvs[i := v], links[i := l])
            == PairsWork(p, m, recvs, links) - PairWork(p, m, recvs[i], links[i]) + PairWork(p, m, v, l)
  {
    if i == 0 {
      assert recvs[0 := v][1..] == recvs[1..] && links[0 := l][1..] == links[1..];
    } else {
      assert recvs[i := v][1..] == recvs[1..][i - 1 := v] && links[i := l][1..] == links[1..][i - 1 := l];
      PairsUpdate(p, m, recvs[1..], links[1..], i - 1, v, l);
    }
  }

  /** Links that change without changing their work. */
  lemma {:induction false} PairsSame(p: Plan, m: nat, recvs: seq<Recv>, links: seq<Link>, others: seq<Link>)
    requires |recvs| == |links| == |others|
    requires forall i :: 0 <= i < |links| ==>
               WireWork(p.cap, |p.bs|, others[i].wire) == WireWork(p.cap, |p.bs|, links[i].wire)
    ensures PairsWork(p, m, recvs, others) == PairsWork(p, m, recvs, links)
  {
    if recvs != [] { PairsSame(p, m, recvs[1..], links[1..], others[1..]); }
  }

  lemma {:induction false} NothingSent(cap: nat, sent: map<nat, byte>)
    requires sent == map[]
    ensures Unsent(cap, sent) == cap
  {
    if cap > 0 { NothingSent(cap - 1, sent); }
  }

  lemma NewCounts(cap: nat, wire: seq<map<nat, byte>>)
    ensures Counts(cap, wire + [map[]]) == Counts(cap, wire) + [cap]
  {
    NothingSent(cap, map[]);
  }

  lemma NewWireWork(cap: nat, buckets: nat, l: Link)
    requires |l.wire| < buckets
    ensures WireWork(cap, buckets, NewWire(l).wire) == WireWork(cap, buckets, l.wire)
  {
    NewCounts(cap, l.wire);
    UnsentSame(cap, buckets - |l.wire|, Counts(cap, l.wire));
  }

  lemma UnsentSame(cap: nat, left: int, counts: seq<nat>)
    requires left > 0
    ensures UnsentWork(cap, left - 1, counts + [cap]) == UnsentWork(cap, left, counts)
  {
    TotalSnoc(counts, cap);
  }

  lemma {:induction false} TotalSame(a: seq<nat>, b: seq<nat>, n: nat)
    requires n <= |a| && n <= |b| && forall i :: 0 <= i < n ==> a[i] == b[i]
    ensures Total(a, n) == Total(b, n)
  {
    if n > 0 { TotalSame(a, b, n - 1); }
  }

  lemma TotalSnoc(counts: seq<nat>, n: nat)
    ensures Total(counts + [n], |counts| + 1) == Total(counts, |counts|) + n
  {
    TotalSame(counts + [n], counts, |counts|);
  }

  lemma {:induction false} LeftWork(cap: nat, sent: map<nat, byte>, j: nat, b: byte)
    requires j !in sent
    ensures Unsent(cap, sent[j := b]) == Unsent(cap, sent) - if j < cap then 1 else 0
  {
    if cap > 0 { LeftWork(cap - 1, sent, j, b); }
  }

  lemma {:induction false} TotalLess(counts: seq<nat>, k: nat, x: nat, n: nat)
    requires k < n <= |counts| && x < counts[k]
    ensures Total(counts[k := x], n) < Total(counts, n)
  {
    if k == n - 1 { TotalSame(counts[k := x], counts, n - 1); } else { TotalLess(counts, k, x, n - 1); }
  }

  lemma LeaveWork(cap: nat, buckets: nat, wire: seq<map<nat, byte>>, next: seq<map<nat, byte>>, k: nat, x: nat)
    requires k < |wire| == |next| && x < Counts(cap, wire)[k] && Counts(cap, next) == Counts(cap, wire)[k := x]
    ensures WireWork(cap, buckets, next) < WireWork(cap, buckets, wire)
  {
    UnsentLess(cap, buckets - |wire|, Counts(cap, wire), k, x);
  }

  lemma UnsentLess(cap: nat, left: int, counts: seq<nat>, k: nat, x: nat)
    requires k < |counts| && x < counts[k]
    ensures UnsentWork(cap, left, counts[k := x]) < UnsentWork(cap, left, counts)
  {
    TotalLess(counts, k, x, |counts|);
  }

  lemma LeftCounts(cap: nat, wire: seq<map<nat, byte>>, k: nat, sent: map<nat, byte>)
    requires k < |wire|
    ensures Counts(cap, wire[k := sent]) == Counts(cap, wire)[k := Unsent(cap, sent)]
  {
    var next := wire[k := sent];
    forall h | 0 <= h < |wire| ensures Counts(cap, next)[h] == Counts(cap, wire)[k := Unsent(cap, sent)][h] {
      assert next[h] == if h == k then sent else wire[h];
    }
  }

  lemma EntriesBounded(p: Plan, m: nat, v: Recv)
    requires RecvInv(p, v) && SmallBuckets(p, m)
    ensures v.pc.Yield? ==> v.pc.i <= |v.meta| <= m
  {
  }

  lemma BeginWork(cap: nat, m: nat, buckets: nat, v: Recv)
    requires v.op == Idle && v.begun <= buckets && (v.pc == Start || (v.pc == Loop && !v.isLast))
    ensures v.send < |v.bufs| ==> ReceiverWork(cap, m, buckets, RecvStep(v)) < ReceiverWork(cap, m, buckets, v)
  {
  }

  lemma StayWork(cap: nat, m: nat, buckets: nat, v: Recv)
    requires v.send < |v.bufs| && v.pc != Start && v.pc != Received && !(v.pc == Loop && !v.isLast)
    requires (RecvWaits(v) ==> OpDone(v)) && (v.pc.Yield? ==> v.pc.i <= |v.meta| <= m)
    ensures ReceiverWork(cap, m, buckets, RecvStep(v)) < ReceiverWork(cap, m, buckets, v)
  {
  }

  lemma RecvStepWork(p: Plan, m: nat, v: Recv)
    requires RecvInv(p, v) && SmallBuckets(p, m) && v.pc != Received && (RecvWaits(v) ==> OpDone(v))
    ensures ReceiverWork(p.cap, m, |p.bs|, RecvStep(v)) < ReceiverWork(p.cap, m, |p.bs|, v)
  {
    EntriesBounded(p, m, v);
    if v.pc == Start || (v.pc == Loop && !v.isLast) {
      BeginWork(p.cap, m, |p.bs|, v);
    } else {
      StayWork(p.cap, m, |p.bs|, v);
    }
  }

  lemma RootStepWork(p: Plan, r: Root)
    requires RootInv(p, r) && !RootStopped(r) && (RootWaits(r) ==> r.op.published)
    ensures RootWork(RootStep(p.cap, r)) < RootWork(r) && PublishedBy(RootStep(p.cap, r)) == PublishedBy(r)
  {
    RootStepOp(p, r);
  }

  lemma RunRootWork(c: Config, s: State, m: nat)
    requires Inv(c, s) && Enabled(c, s, RunRoot)
    ensures Work(PlanOf(c), m, Step(c, s, RunRoot)) < Work(PlanOf(c), m, s)
  {
    var p, t := PlanOf(c), Step(c, s, RunRoot);
    RootStepWork(p, s.root);
    RootStepInv(p, s.root);
    forall i | 0 <= i < |s.links|
      ensures WireWork(p.cap, |p.bs|, t.links[i].wire) == WireWork(p.cap, |p.bs|, s.links[i].wire)
    {
      if s.root.pc.Cast? { NewWireWork(p.cap, |p.bs|, s.links[i]); }
    }
    PairsSame(p, m, s.recvs, s.links, t.links);
  }

  lemma PublishWork(c: Config, s: State, m: nat)
    requires Inv(c, s) && Enabled(c, s, Publish)
    ensures Work(PlanOf(c), m, Step(c, s, Publish)) < Work(PlanOf(c), m, s)
  {
    PairsSame(PlanOf(c), m, s.recvs, s.links, Step(c, s, Publish).links);
  }

  lemma LeaveLinkWork(cap: nat, buckets: nat, l: Link, k: nat, j: nat, b: byte)
    requires k < |l.wire| && j < cap && j !in l.wire[k]
    ensures WireWork(cap, buckets, Left(l, k, j, b).wire) < WireWork(cap, buckets, l.wire)
  {
    var sent: map<nat, byte> := l.wire[k][j := b];
    LeftWork(cap, l.wire[k], j, b);
    LeftCounts(cap, l.wire, k, sent);
    LeaveWork(cap, buckets, l.wire, l.wire[k := sent], k, Unsent(cap, sent));
  }

  lemma LeaveStepWork(c: Config, s: State, m: nat, i: nat, j: nat)
    requires Inv(c, s) && Enabled(c, s, Leave(i, j))
    ensures Work(PlanOf(c), m, Step(c, s, Leave(i, j))) < Work(PlanOf(c), m, s)
  {
    var p, t := PlanOf(c), Step(c, s, Leave(i, j));
    LeaveLinkWork(p.cap, |p.bs|, s.links[i], s.root.op.k, j, s.root.bufs[s.root.op.slot][j]);
    PairsUpdate(p, m, s.recvs, s.links, i, s.recvs[i], t.links[i]);
    assert s.recvs == s.recvs[i := s.recvs[i]];
  }

  lemma PairsLess(p: Plan, m: nat, recvs: seq<Recv>, links: seq<Link>, i: nat, v: Recv, l: Link)
    requires i < |recvs| == |links| && PairWork(p, m, v, l) < PairWork(p, m, recvs[i], links[i])
    ensures PairsWork(p, m, recvs[i := v], links[i := l]) < PairsWork(p, m, recvs, links)
  {
    PairsUpdate(p, m, recvs, links, i, v, l);
  }

  lemma OnlyUpdates(s: State, t: State, i: nat)
    requires OnlyAt(s, t, i) && i < |s.recvs| == |s.links|
    ensures t.recvs == s.recvs[i := t.recvs[i]] && t.links == s.links[i := t.links[i]]
  {
  }

  /** The steps of receiver i: its work shrinks, and its wire stays. */
  lemma ReceiverStepWork(c: Config, s: State, m: nat, t: State, i: nat)
    requires |s.recvs| == |s.links| && i < |s.recvs| && OnlyAt(s, t, i)
    requires ReceiverWork(c.cap, m, |PlanOf(c).bs|, t.recvs[i]) < ReceiverWork(c.cap, m, |PlanOf(c).bs|, s.recvs[i])
    requires t.links[i].wire == s.links[i].wire
    ensures Work(PlanOf(c), m, t) < Work(PlanOf(c), m, s)
  {
    OnlyUpdates(s, t, i);
    PairsLess(PlanOf(c), m, s.recvs, s.links, i, t.recvs[i], t.links[i]);
  }

  lemma RunRecvWork(c: Config, s: State, m: nat, i: nat)
    requires Inv(c, s) && SmallBuckets(PlanOf(c), m) && Enabled(c, s, RunRecv(i))
    ensures Work(PlanOf(c), m, Step(c, s, RunRecv(i))) < Work(PlanOf(c), m, s)
  {
    var t := Step(c, s, RunRecv(i));
    UnfoldAt(PlanOf(c), s, i);
    RecvStepWork(PlanOf(c), m, s.recvs[i]);
    ReceiverStepWork(c, s, m, t, i);
  }

  lemma GetNoteWork(c: Config, s: State, m: nat, i: nat)
    requires Inv(c, s) && Enabled(c, s, GetNote(i))
    ensures Work(PlanOf(c), m, Step(c, s, GetNote(i))) < Work(PlanOf(c), m, s)
  {
    ReceiverStepWork(c, s, m, Step(c, s, GetNote(i)), i);
  }

  lemma LandByteWork(cap: nat, m: nat, buckets: nat, v: Recv, j: nat, b: byte)
    requires v.op.Filling? && v.op.slot < |v.bufs| && j < |v.bufs[v.op.slot]| && j in v.op.pending
    ensures ReceiverWork(cap, m, buckets, LandByte(v, j, b)) < ReceiverWork(cap, m, buckets, v)
  {
  }

  lemma LandStepWork(c: Config, s: State, m: nat, i: nat, j: nat)
    requires Inv(c, s) && Enabled(c, s, Land(i, j))
    ensures Work(PlanOf(c), m, Step(c, s, Land(i, j))) < Work(PlanOf(c), m, s)
  {
    var t, v := Step(c, s, Land(i, j)), s.recvs[i];
    assert RecvShape(c.cap, v);
    LandByteWork(c.cap, m, |PlanOf(c).bs|, v, j, s.links[i].wire[v.begun - 1][j]);
    ReceiverStepWork(c, s, m, t, i);
  }

  /** Every step makes the remaining work smaller. */
  lemma StepWork(c: Config, s: State, m: nat, a: Act)
    requires Inv(c, s) && SmallBuckets(PlanOf(c), m) && Enabled(c, s, a)
    ensures Work(PlanOf(c), m, Step(c, s, a)) < Work(PlanOf(c), m, s)
  {
    match a
    case RunRoot => RunRootWork(c, s, m);
    case Publish => PublishWork(c, s, m);
    case Leave(i, j) => LeaveStepWork(c, s, m, i, j);
    case RunRecv(i) => RunRecvWork(c, s, m, i);
    case GetNote(i) => GetNoteWork(c, s, m, i);
    case Land(i, j) => LandStepWork(c, s, m, i, j);
  }

  lemma PairNonNegative(p: Plan, m: nat, r: Root, v: Recv, l: Link)
    requires RecvInv(p, v) && LinkInv(p, r, v, l) && SmallBuckets(p, m)
    ensures PairWork(p, m, v, l) >= 0
  {
    EntriesBounded(p, m, v);
    assert PassWork(m, v) >= 0;
  }

  lemma {:induction false} PairsNonNegative(p: Plan, m: nat, recvs: seq<Recv>, links: seq<Link>)
    requires |recvs| == |links| && forall i :: 0 <= i < |recvs| ==> PairWork(p, m, recvs[i], links[i]) >= 0
    ensures PairsWork(p, m, recvs, links) >= 0
  {
    if recvs != [] { PairsNonNegative(p, m, recvs[1..], links[1..]); }
  }

  lemma WorkNonNegative(c: Config, s: State, m: nat)
    requires Inv(c, s) && SmallBuckets(PlanOf(c), m)
    ensures Work(PlanOf(c), m, s) >= 0
  {
    var p := PlanOf(c);
    forall i | 0 <= i < |s.recvs| ensures PairWork(p, m, s.recvs[i], s.links[i]) >= 0 {
      UnfoldAt(p, s, i);
      PairNonNegative(p, m, s.root, s.recvs[i], s.links[i]);
    }
    PairsNonNegative(p, m, s.recvs, s.links);
  }

  lemma {:induction false} RunWork(c: Config, s: State, m: nat, acts: seq<Act>, t: State)
    requires Inv(c, s) && SmallBuckets(PlanOf(c), m) && IsRun(c, s, acts, t) && |t.recvs| == |t.links|
    ensures Work(PlanOf(c), m, t) + |acts| <= Work(PlanOf(c), m, s)
    decreases |acts|
  {
    if acts != [] {
      StepWork(c, s, m, acts[0]);
      StepInv(c, s, acts[0]);
      RunWork(c, Step(c, s, acts[0]), m, acts[1..], t);
    }
  }

  /** Every run is finite: the work measured at the start bounds its length, whatever the schedule. */
  lemma Terminates(c: Config, acts: seq<Act>, s: State)
    requires c.Valid() && IsRun(c, Init(c), acts, s)
    ensures |acts| <= Work(PlanOf(c), |c.ws|, Init(c))
  {
    InvInit(c);
    PackRoundTrip(c.ws, c.cap);
    RunInv(c, Init(c), acts, s);
    RunWork(c, Init(c), |c.ws|, acts, s);
    WorkNonNegative(c, s, |c.ws|);
  }

  /** A run that cannot be continued has handed each receiver the sender's list, complete and in order, if and only if
      every weight fits a bucket and no bucket repeats a name. */
  lemma CompleteRunsDeliver(c: Config, acts: seq<Act>, s: State, i: nat)
    requires c.Valid() && IsRun(c, Init(c), acts, s) && i < c.n - 1
    ensures Shape(c, s)
    ensures Blocked(c, s) ==> (s.recvs[i].pc == Received && s.recvs[i].out == c.ws <==>
                                 AllFit(c.ws, c.cap) && GroupsDistinct(SentGroups(c.ws, c.cap)))
  {
    NoDeadlock(c, s);
    Delivery(c, s, i);
  }
}
