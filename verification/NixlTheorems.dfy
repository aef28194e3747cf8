/** What the chain guarantees over every interleaving: delivery, protected buffers, progress and termination. */
module NixlTheorems {
  import opened Arithmetic
  import opened Buckets
  import opened BucketViews
  import opened NixlChain
  import opened NixlSafety

  // ---------- Delivery ----------

  /** What a receiver has yielded is always a prefix of the unpacked buckets, and all of them once it finishes. */
  lemma CyclePrefix(p: Plan, t: Port, v: Recv)
    requires 0 <= Cur(t, v) < |p.bs| && OutInv(p, t, v) && v.isLast == p.LastAt(Cur(t, v))
    requires v.pc == Received ==> v.isLast
    ensures v.out <= Delivered(p.bs)
    ensures v.pc == Received ==> v.out == Delivered(p.bs) && p.ok
  {
    var cur := Cur(t, v);
    if v.pc.Yield? {
      YieldsPrefix(p.bs, cur, v.pc.i);
    } else {
      YieldsPrefix(p.bs, cur, 0);
      YieldsPrefix(p.bs, cur + 1, 0);
    }
    if v.pc == Received { assert p.bs[..cur + 1] == p.bs; }
  }

  lemma OutPrefix(p: Plan, r: nat, k: Rank)
    requires 0 < r && RankFolded(p, r, k)
    ensures k.Receiver? && k.v.out <= Delivered(p.bs)
    ensures k.v.pc == Received ==> k.v.out == Delivered(p.bs) && p.ok
  {
    UnfoldRank(p, r, k);
    if k.v.pc != FirstMeta && k.v.pc != FirstRead { CyclePrefix(p, k.port, k.v); }
  }

  /** End-to-end delivery, in every reachable state of every interleaving: with no name repeated in a bucket a
      receiver has yielded a prefix of the weights handed to rank 0. A receiver that finished yielded them all,
      in order, exactly when no bucket repeats a name; and it can only finish when every weight fits a bucket. */
  lemma Delivery(c: Config, s: State, r: nat)
    requires c.Valid() && Reachable(c, s) && 0 < r < c.n
    ensures |s.ranks| == c.n && s.ranks[r].Receiver?
    ensures GroupsDistinct(SentGroups(c.ws, c.cap)) ==> s.ranks[r].v.out <= c.ws
    ensures NamesDistinct(c.ws) ==> s.ranks[r].v.out <= c.ws
    ensures Finished(s.ranks[r]) ==> AllFit(c.ws, c.cap)
    ensures Finished(s.ranks[r]) ==> (s.ranks[r].v.out == c.ws <==> GroupsDistinct(SentGroups(c.ws, c.cap)))
    ensures Finished(s.ranks[r]) && NamesDistinct(c.ws) ==> s.ranks[r].v.out == c.ws
  {
    ReachableInv(c, s);
    var p := PlanOf(c);
    assert RankAt(p, s, r);
    OutPrefix(p, r, s.ranks[r]);
    PackRoundTrip(c.ws, c.cap);
  }

  // ---------- Buffers ----------

  /** Buffer b of rank r belongs to a readable operation that has not been waited for. */
  predicate Exposed(s: State, r: nat, b: nat)
    requires r < |s.ranks|
  {
    s.ranks[r].port.op.Open? && s.ranks[r].port.op.slot == b
  }

  /** Buffer b of rank r backs the tensors being yielded. */
  predicate Viewed(s: State, r: nat, b: nat)
    requires r < |s.ranks|
  {
    s.ranks[r].Receiver? && s.ranks[r].v.pc.Yield? && s.ranks[r].port.send == b
  }

  /** The two ways a step writes to buffer b of rank r: rank 0 copying a weight in, or a byte of a read landing. */
  predicate Writes(s: State, a: Act, r: nat, b: nat)
    requires r < |s.ranks|
  {
    var k := s.ranks[r];
    match a
    case Run(q) => q == r && k.Sender? && k.s.pc == Fit && k.port.send == b
    case Land(q, _) => q == r && k.port.recv == b
    case Complete(_) => false
  }

  /** `Writes` misses no write: any other step leaves the buffer as it is. */
  lemma OnlyWritesChange(c: Config, s: State, a: Act, r: nat, b: nat)
    requires Shape(c, s) && Enabled(c, s, a) && r < c.n && b < 2 && !Writes(s, a, r, b)
    ensures var t := Step(c, s, a);
            |t.ranks| == c.n && |t.ranks[r].port.bufs| == 2 && t.ranks[r].port.bufs[b] == s.ranks[r].port.bufs[b]
  {
    if a.r == r { assert RankShape(c.n, c.cap, r, s.ranks[r]); }
  }

  lemma SafeBuffer(p: Plan, s: State, a: Act, r: nat, b: nat)
    requires r < |s.ranks| && RankAt(p, s, r) && Writes(s, a, r, b)
    requires a.Land? ==> s.ranks[r].port.read.InFlight?
    ensures !Exposed(s, r, b) && !Viewed(s, r, b)
  {
    UnfoldRank(p, r, s.ranks[r]);
    var t := s.ranks[r].port;
    if t.op.Open? {
      match s.ranks[r]
      case Sender(_, _) => SlotFlips(0, t.op.key);
      case Receiver(_, v) => if v.pc != FirstRead { assert t.op.key == Cur(t, v); }
    }
  }

  /** No rank ever writes a buffer that a peer may still read or that it is yielding from. */
  lemma NoClobber(c: Config, s: State, a: Act, r: nat, b: nat)
    requires c.Valid() && Reachable(c, s) && r < c.n
    ensures Shape(c, s)
    ensures Enabled(c, s, a) && Writes(s, a, r, b) ==> !Exposed(s, r, b) && !Viewed(s, r, b)
  {
    ReachableInv(c, s);
    assert RankAt(PlanOf(c), s, r);
    if Enabled(c, s, a) && Writes(s, a, r, b) { SafeBuffer(PlanOf(c), s, a, r, b); }
  }

  ghost predicate Overlapping(n: nat, r: nat, k: Rank) {
    match k
    case Receiver(t, v) => v.pc.Yield? ==>
      && (t.op.Open? <==> r + 1 < n) && (t.op.Open? ==> t.op.slot == t.send)
      && (t.read != NoXfer <==> !v.isLast)
    case Sender(t, x) => x.pc == Next || x.pc == Fit ==> (t.op.Open? <==> t.posted > 0)
  }

  lemma RankOverlaps(p: Plan, r: nat, k: Rank)
    requires RankFolded(p, r, k)
    ensures Overlapping(p.n, r, k)
  {
    UnfoldRank(p, r, k);
  }

  /** The three things that overlap: a rank that yields a bucket has posted it from the same buffer, if there is a next
      rank, and has begun to read the next one, if there is one; and rank 0 fills a bucket while the one before it may
      still be read. */
  lemma Overlaps(c: Config, s: State, r: nat)
    requires c.Valid() && Reachable(c, s) && r < c.n
    ensures |s.ranks| == c.n
    ensures Overlapping(c.n, r, s.ranks[r])
  {
    ReachableInv(c, s);
    assert RankAt(PlanOf(c), s, r);
    RankOverlaps(PlanOf(c), r, s.ranks[r]);
  }

  /** A read in flight only ever takes bytes from a buffer that is exposed for exactly that read. */
  lemma ReadsExposed(c: Config, s: State, r: nat)
    requires c.Valid() && Reachable(c, s) && 0 < r < c.n
    ensures |s.ranks| == c.n
    ensures s.ranks[r].port.read.InFlight? ==>
              Exposed(s, r - 1, s.ranks[r].port.read.remote) && s.ranks[r - 1].port.op.key == s.ranks[r].port.read.key
  {
    ReachableInv(c, s);
    if s.ranks[r].port.read.InFlight? { RemoteAt(c, s, r); }
  }

  /** What is on a link, told from the port upstream. */
  lemma LinkLoad(p: Plan, r: nat, k: Rank, down: Port, m: seq<Msg>, nt: seq<nat>)
    requires RankFolded(p, r, k) && LinkFolded(p, r, k.port, down, m, nt)
    ensures |m| + (if down.read.InFlight? then 1 else 0) + |nt| <= (if k.port.op.Open? then 1 else 0)
    ensures nt != [] ==> k.port.op.Open? && nt[0] == k.port.op.key
  {
    Exposing(p, r, k);
    UnfoldLink(p, r, k.port, down, m, nt);
  }

  lemma NotCrashed(p: Plan, r: nat, k: Rank)
    requires RankFolded(p, r, k)
    ensures !Crashed(k)
  {
    UnfoldRank(p, r, k);
  }

  /** A link carries at most one bucket: queued, in flight or waiting to be acknowledged; the notification that
      arrives is the one of the open operation, so the notify-key assertion never fails. */
  lemma OneOutstanding(c: Config, s: State, r: nat)
    requires c.Valid() && Reachable(c, s) && r + 1 < c.n
    ensures |s.ranks| == c.n && |s.msgs| == |s.notifs| == c.n - 1
    ensures |s.msgs[r]| + (if s.ranks[r + 1].port.read.InFlight? then 1 else 0) + |s.notifs[r]|
         <= (if s.ranks[r].port.op.Open? then 1 else 0)
    ensures s.notifs[r] != [] ==> s.notifs[r][0] == s.ranks[r].port.op.key
    ensures !Crashed(s.ranks[r]) && !Crashed(s.ranks[r + 1])
  {
    ReachableInv(c, s);
    var p := PlanOf(c);
    assert RankAt(p, s, r) && RankAt(p, s, r + 1) && LinkAt(p, s, r);
    LinkLoad(p, r, s.ranks[r], s.ranks[r + 1].port, s.msgs[r], s.notifs[r]);
    NotCrashed(p, r, s.ranks[r]);
    NotCrashed(p, r + 1, s.ranks[r + 1]);
  }

  // ---------- Progress ----------

  ghost predicate Blocked(c: Config, s: State)
    requires Shape(c, s)
  {
    forall a :: !Enabled(c, s, a)
  }

  /** A bucket that is neither acknowledged nor being read has not been picked up: its message is queued. */
  lemma Queued(p: Plan, r: nat, k: Rank, down: Port, m: seq<Msg>, nt: seq<nat>)
    requires RankFolded(p, r, k) && LinkFolded(p, r, k.port, down, m, nt)
    requires k.port.op.Open? && nt == [] && !down.read.InFlight?
    ensures m != [] && m[0].slot < 2 && down.begun < |p.bs|
  {
    Exposing(p, r, k);
    UnfoldLink(p, r, k.port, down, m, nt);
  }

  /** A rank that has not read every bucket is not at its end nor waiting for a read that is over. */
  lemma ReaderBusy(p: Plan, r: nat, k: Rank)
    requires 0 < r && RankFolded(p, r, k) && k.port.begun < |p.bs| && !k.port.read.InFlight?
    ensures !Stopped(k) && (AwaitsRead(k) ==> k.port.read == Landed)
  {
    UnfoldRank(p, r, k);
  }

  lemma ReaderBusyAt(c: Config, s: State, r: nat)
    requires Inv(c, s) && r + 1 < c.n && s.ranks[r].port.op.Open? && s.notifs[r] == [] &&
             !s.ranks[r + 1].port.read.InFlight?
    ensures var k := s.ranks[r + 1];
            s.msgs[r] != [] && s.msgs[r][0].slot < 2 && !Stopped(k) && (AwaitsRead(k) ==> k.port.read == Landed)
  {
    var p := PlanOf(c);
    assert RankAt(p, s, r) && RankAt(p, s, r + 1) && LinkAt(p, s, r);
    Queued(p, r, s.ranks[r], s.ranks[r + 1].port, s.msgs[r], s.notifs[r]);
    ReaderBusy(p, r + 1, s.ranks[r + 1]);
  }

  lemma NothingInFlight(c: Config, s: State, r: nat)
    requires Shape(c, s) && Blocked(c, s) && r < c.n
    ensures !s.ranks[r].port.read.InFlight?
  {
    var read := s.ranks[r].port.read;
    forall j: nat ensures !(read.InFlight? && j in read.pending) { assert !Enabled(c, s, Land(r, j)); }
    assert read.InFlight? ==> read.pending == {};
    assert !Enabled(c, s, Complete(r));
  }

  /** A posted bucket that nobody picked up or acknowledged leaves the next rank something to do. */
  lemma DownstreamActs(c: Config, s: State, r: nat)
    requires Inv(c, s) && Blocked(c, s) && r + 1 < c.n && s.ranks[r].port.op.Open? && s.notifs[r] == []
    ensures AwaitsAck(s.ranks[r + 1])
  {
    NothingInFlight(c, s, r + 1);
    ReaderBusyAt(c, s, r);
    assert !Enabled(c, s, Run(r + 1));
  }

  /** No rank of a blocked chain waits for an acknowledgement: the rank after it would have to wait too, and the
      last rank never does. */
  lemma {:induction false} NobodyWaits(c: Config, s: State, r: nat)
    requires Inv(c, s) && Blocked(c, s) && r < c.n
    ensures !AwaitsAck(s.ranks[r])
    decreases c.n - r
  {
    if AwaitsAck(s.ranks[r]) {
      assert RankShape(c.n, c.cap, r, s.ranks[r]) && !Enabled(c, s, Run(r));
      NobodyWaits(c, s, r + 1);
      DownstreamActs(c, s, r);
    }
  }

  /** Nothing for the rank itself to do. */
  ghost predicate Idle(k: Rank) {
    Stopped(k) || AwaitsMeta(k) || (AwaitsRead(k) && !k.port.read.InFlight? && k.port.read != Landed)
  }

  lemma BlockedIdle(c: Config, s: State, r: nat)
    requires Inv(c, s) && Blocked(c, s) && r < c.n
    ensures Idle(s.ranks[r]) && !s.ranks[r].port.read.InFlight?
  {
    NobodyWaits(c, s, r);
    NothingInFlight(c, s, r);
    assert !Enabled(c, s, Run(r));
  }

  lemma IdleFinished(p: Plan, r: nat, k: Rank)
    requires p.Valid() && p.ok && RankFolded(p, r, k) && Idle(k) && (r > 0 ==> !AwaitsMeta(k))
    ensures Finished(k) && k.port.op == NoOp && (r + 1 < p.n ==> k.port.posted == |p.bs|)
  {
    UnfoldRank(p, r, k);
  }

  /** A rank that waits for metadata has not read every bucket. */
  lemma MetaLeft(p: Plan, r: nat, k: Rank)
    requires p.Valid() && p.ok && RankFolded(p, r, k) && AwaitsMeta(k)
    ensures k.port.begun < |p.bs| && k.port.read == NoXfer
  {
    UnfoldRank(p, r, k);
  }

  /** Behind a rank that posted every bucket everything has been picked up, or is still queued. */
  lemma AllPickedUp(p: Plan, r: nat, up: Port, down: Port, m: seq<Msg>, nt: seq<nat>)
    requires LinkFolded(p, r, up, down, m, nt) && up.op == NoOp && up.posted == |p.bs|
    ensures down.begun == |p.bs|
  {
    UnfoldLink(p, r, up, down, m, nt);
  }

  /** Behind a rank that posted every bucket a blocked rank does not wait for another. */
  lemma NoMoreMeta(p: Plan, r: nat, up: Port, k: Rank, m: seq<Msg>, nt: seq<nat>)
    requires p.Valid() && p.ok && 0 < r && RankFolded(p, r, k) && LinkFolded(p, r - 1, up, k.port, m, nt)
    requires up.op == NoOp && up.posted == |p.bs|
    ensures !AwaitsMeta(k)
  {
    AllPickedUp(p, r - 1, up, k.port, m, nt);
    if AwaitsMeta(k) { MetaLeft(p, r, k); }
  }

  /** Behind finished ranks a blocked rank has finished too. */
  lemma {:induction false} FinishedAlong(c: Config, s: State, r: nat)
    requires Inv(c, s) && Blocked(c, s) && r < c.n && PlanOf(c).ok
    ensures Finished(s.ranks[r]) && s.ranks[r].port.op == NoOp
    ensures r + 1 < c.n ==> s.ranks[r].port.posted == |PlanOf(c).bs|
  {
    var p, k := PlanOf(c), s.ranks[r];
    PlanValid(c);
    BlockedIdle(c, s, r);
    assert RankAt(p, s, r);
    if r > 0 {
      FinishedAlong(c, s, r - 1);
      assert LinkAt(p, s, r - 1);
      NoMoreMeta(p, r, s.ranks[r - 1].port, k, s.msgs[r - 1], s.notifs[r - 1]);
    }
    IdleFinished(p, r, k);
  }

  /** The chain never deadlocks: where nothing can move any more every rank has finished, unless some weight does
      not fit a bucket; then rank 0 has failed its size assertion and no receiver takes the transfer for complete. */
  lemma NoDeadlock(c: Config, s: State)
    requires c.Valid() && Reachable(c, s)
    ensures Shape(c, s)
    ensures Blocked(c, s) && AllFit(c.ws, c.cap) ==> forall r :: 0 <= r < c.n ==> Finished(s.ranks[r])
    ensures Blocked(c, s) && !AllFit(c.ws, c.cap) ==>
              s.ranks[0].Sender? && s.ranks[0].s.pc == TooLarge && forall r :: 0 < r < c.n ==> !Finished(s.ranks[r])
  {
    ReachableInv(c, s);
    PackRoundTrip(c.ws, c.cap);
    if Blocked(c, s) && AllFit(c.ws, c.cap) {
      forall r | 0 <= r < c.n ensures Finished(s.ranks[r]) { FinishedAlong(c, s, r); }
    } else if Blocked(c, s) {
      NobodyWaits(c, s, 0);
      assert RankAt(PlanOf(c), s, 0) && !Enabled(c, s, Run(0));
      UnfoldRank(PlanOf(c), 0, s.ranks[0]);
      forall r | 0 < r < c.n ensures !Finished(s.ranks[r]) {
        assert RankAt(PlanOf(c), s, r);
        if Finished(s.ranks[r]) { OutPrefix(PlanOf(c), r, s.ranks[r]); }
      }
    }
  }

  // ---------- Termination ----------

  ghost function SendWork(s: Send): int {
    8 * |s.rest| + match s.pc
                   case Next => 6
                   case Wait(_) => 5
                   case Post(_) => 4
                   case Fit => 3
                   case LastAck => 2
                   case _ => 0
  }

  /** Steps left before the next read is started, when no bucket has more than m entries. */
  ghost function PassWork(m: nat, v: Recv): int {
    match v.pc
    case FirstRead => m + 6
    case Forward => m + 5
    case Meta => 1
    case Yield(i) => if v.isLast then m - i + 3 else m - i + m + 8
    case Ack => if v.isLast then 2 else m + 7
    case Read => m + 6
    case _ => 0
  }

  ghost function ReadWork(t: Port): nat { if t.read.InFlight? then |t.read.pending| + 1 else 0 }

  /** More than a pass through the loop can take. */
  ghost function PassBound(cap: nat, m: nat): nat { |AllBytes(cap)| + 2 * m + 12 }

  ghost function RecvWork(cap: nat, m: nat, buckets: nat, t: Port, v: Recv): int {
    Times(buckets - t.begun, PassBound(cap, m)) + ReadWork(t) + PassWork(m, v)
  }

  ghost function RankWork(p: Plan, m: nat, k: Rank): int {
    match k
    case Sender(_, s) => SendWork(s)
    case Receiver(t, v) => RecvWork(p.cap, m, |p.bs|, t, v)
  }

  ghost function Work(p: Plan, m: nat, ranks: seq<Rank>): int {
    if ranks == [] then 0 else RankWork(p, m, ranks[0]) + Work(p, m, ranks[1..])
  }

  lemma {:induction false} WorkUpdate(p: Plan, m: nat, ranks: seq<Rank>, r: nat, k: Rank)
    requires r < |ranks|
    ensures Work(p, m, ranks[r := k]) == Work(p, m, ranks) - RankWork(p, m, ranks[r]) + RankWork(p, m, k)
  {
    if r == 0 {
      assert ranks[0 := k][1..] == ranks[1..];
    } else {
      assert ranks[r := k][1..] == ranks[1..][r - 1 := k];
      WorkUpdate(p, m, ranks[1..], r - 1, k);
    }
  }

  ghost predicate SmallBuckets(p: Plan, m: nat) { forall k :: 0 <= k < |p.bs| ==> |p.bs[k].meta| <= m }

  lemma EntriesBounded(p: Plan, m: nat, r: nat, t: Port, v: Recv)
    requires 0 < r < p.n && ReceiverInv(p, r, t, v) && SmallBuckets(p, m)
    ensures v.pc.Yield? ==> v.pc.i <= |v.meta| <= m
    ensures t.begun <= |p.bs|
  {
  }

  lemma RankWorkNonNegative(p: Plan, m: nat, r: nat, k: Rank)
    requires RankFolded(p, r, k) && SmallBuckets(p, m)
    ensures RankWork(p, m, k) >= 0
  {
    UnfoldRank(p, r, k);
    if k.Receiver? {
      EntriesBounded(p, m, r, k.port, k.v);
      assert PassWork(m, k.v) >= 0;
    }
  }

  lemma {:induction false} WorkNonNegative(p: Plan, m: nat, ranks: seq<Rank>)
    requires forall q :: 0 <= q < |ranks| ==> RankWork(p, m, ranks[q]) >= 0
    ensures Work(p, m, ranks) >= 0
  {
    if ranks != [] { WorkNonNegative(p, m, ranks[1..]); }
  }

  lemma BeginWork(p: Plan, m: nat, r: nat, k: Rank, msg: Msg)
    requires 0 < r < p.n && RankFolded(p, r, k) && AwaitsMeta(k) && SmallBuckets(p, m) && k.port.begun < |p.bs|
    ensures RankWork(p, m, TakeMeta(p.cap, k, msg)) < RankWork(p, m, k)
  {
    UnfoldRank(p, r, k);
  }

  lemma LocalSendWork(cap: nat, t: Port, s: Send)
    requires PortShape(cap, t) && RunsLocal(Sender(t, s)) && (s.pc == Fit ==> s.rest != [])
    ensures TakeLocal(cap, Sender(t, s)).Sender? && SendWork(TakeLocal(cap, Sender(t, s)).s) < SendWork(s)
  {
  }

  lemma LocalRecvWork(cap: nat, m: nat, t: Port, v: Recv)
    requires PortShape(cap, t) && RunsLocal(Receiver(t, v)) && (v.pc.Yield? ==> v.pc.i <= |v.meta| <= m)
    requires v.isLast ==> v.pc != Read
    ensures var k := TakeLocal(cap, Receiver(t, v));
            k.Receiver? && k.port.begun == t.begun && ReadWork(k.port) <= ReadWork(t) && PassWork(m, k.v) < PassWork(m, v)
  {
  }

  /** What the work of a local step depends on. */
  ghost predicate LocalOk(cap: nat, m: nat, k: Rank) {
    PortShape(cap, k.port) && RunsLocal(k) &&
    match k
    case Sender(t, s) => s.pc == Fit ==> s.rest != []
    case Receiver(t, v) => (v.pc.Yield? ==> v.pc.i <= |v.meta| <= m) && (v.isLast ==> v.pc != Read)
  }

  lemma LocalFacts(p: Plan, m: nat, r: nat, k: Rank)
    requires RankFolded(p, r, k) && RunsLocal(k) && SmallBuckets(p, m)
    ensures LocalOk(p.cap, m, k)
  {
    UnfoldRank(p, r, k);
    if k.Receiver? { EntriesBounded(p, m, r, k.port, k.v); }
  }

  lemma LocalWork(p: Plan, m: nat, k: Rank)
    requires LocalOk(p.cap, m, k)
    ensures RankWork(p, m, TakeLocal(p.cap, k)) < RankWork(p, m, k)
  {
    match k
    case Sender(t, s) => LocalSendWork(p.cap, t, s);
    case Receiver(t, v) => LocalRecvWork(p.cap, m, t, v);
  }

  lemma PostSendWork(t: Port, s: Send, hasNext: bool)
    requires s.pc.Post?
    ensures var k := TakePost(Sender(t, s), hasNext); k.Sender? && SendWork(k.s) < SendWork(s)
  {
  }

  lemma PostRecvWork(cap: nat, m: nat, buckets: nat, t: Port, v: Recv, hasNext: bool)
    requires v.pc == Forward
    ensures var k := TakePost(Receiver(t, v), hasNext);
            k.Receiver? && RecvWork(cap, m, buckets, k.port, k.v) < RecvWork(cap, m, buckets, t, v)
  {
    var k := TakePost(Receiver(t, v), hasNext);
    assert ReadWork(k.port) == ReadWork(t) && k.port.begun == t.begun;
  }

  lemma PostWork(p: Plan, m: nat, k: Rank, hasNext: bool)
    requires Posts(k)
    ensures RankWork(p, m, TakePost(k, hasNext)) < RankWork(p, m, k)
  {
    match k
    case Sender(t, s) => PostSendWork(t, s, hasNext);
    case Receiver(t, v) => PostRecvWork(p.cap, m, |p.bs|, t, v, hasNext);
  }

  lemma AckSendWork(t: Port, s: Send, key: nat)
    requires AwaitsAck(Sender(t, s))
    ensures TakeAck(Sender(t, s), key).Sender? && SendWork(TakeAck(Sender(t, s), key).s) < SendWork(s)
  {
  }

  lemma AckRecvWork(cap: nat, m: nat, buckets: nat, t: Port, v: Recv, key: nat)
    requires AwaitsAck(Receiver(t, v))
    ensures var k := TakeAck(Receiver(t, v), key);
            k.Receiver? && RecvWork(cap, m, buckets, k.port, k.v) < RecvWork(cap, m, buckets, t, v)
  {
  }

  lemma AckWork(p: Plan, m: nat, k: Rank, key: nat)
    requires AwaitsAck(k)
    ensures RankWork(p, m, TakeAck(k, key)) < RankWork(p, m, k)
  {
    match k
    case Sender(t, s) => AckSendWork(t, s, key);
    case Receiver(t, v) => AckRecvWork(p.cap, m, |p.bs|, t, v, key);
  }

  lemma LandWork(p: Plan, m: nat, t: Port, v: Recv, src: seq<byte>, j: nat)
    requires PortShape(p.cap, t) && t.read.InFlight? && j in t.read.pending && |src| == p.cap
    ensures RankWork(p, m, Receiver(LandByte(t, src, j), v)) < RankWork(p, m, Receiver(t, v))
  {
  }

  lemma CompleteWork(p: Plan, m: nat, t: Port, v: Recv)
    requires t.read.InFlight?
    ensures RankWork(p, m, Receiver(t.(read := Landed), v)) < RankWork(p, m, Receiver(t, v))
  {
  }

  lemma BeginStepWork(c: Config, s: State, r: nat)
    requires Inv(c, s) && Enabled(c, s, Run(r)) && AwaitsMeta(s.ranks[r])
    ensures RankWork(PlanOf(c), |c.ws|, Step(c, s, Run(r)).ranks[r]) < RankWork(PlanOf(c), |c.ws|, s.ranks[r])
  {
    PlanValid(c);
    assert RankAt(PlanOf(c), s, r) && LinkAt(PlanOf(c), s, r - 1);
    NextMessage(PlanOf(c), r - 1, s.ranks[r - 1].port, s.ranks[r].port, s.msgs[r - 1], s.notifs[r - 1]);
    BeginWork(PlanOf(c), |c.ws|, r, s.ranks[r], s.msgs[r - 1][0]);
  }

  lemma LocalStepWork(c: Config, s: State, r: nat)
    requires Inv(c, s) && Enabled(c, s, Run(r)) && RunsLocal(s.ranks[r])
    ensures RankWork(PlanOf(c), |c.ws|, Step(c, s, Run(r)).ranks[r]) < RankWork(PlanOf(c), |c.ws|, s.ranks[r])
  {
    PlanValid(c);
    assert RankAt(PlanOf(c), s, r);
    LocalFacts(PlanOf(c), |c.ws|, r, s.ranks[r]);
    LocalWork(PlanOf(c), |c.ws|, s.ranks[r]);
  }

  lemma RunStepWork(c: Config, s: State, r: nat)
    requires Inv(c, s) && Enabled(c, s, Run(r))
    ensures RankWork(PlanOf(c), |c.ws|, Step(c, s, Run(r)).ranks[r]) < RankWork(PlanOf(c), |c.ws|, s.ranks[r])
  {
    var p, m, k := PlanOf(c), |c.ws|, s.ranks[r];
    if AwaitsAck(k) {
      AckWork(p, m, k, s.notifs[r][0]);
    } else if AwaitsMeta(k) {
      BeginStepWork(c, s, r);
    } else if Posts(k) {
      PostWork(p, m, k, r + 1 < c.n);
    } else {
      LocalStepWork(c, s, r);
    }
  }

  lemma ActWork(c: Config, s: State, a: Act)
    requires Inv(c, s) && Enabled(c, s, a)
    ensures RankWork(PlanOf(c), |c.ws|, Step(c, s, a).ranks[a.r]) < RankWork(PlanOf(c), |c.ws|, s.ranks[a.r])
  {
    var p, m, r, k := PlanOf(c), |c.ws|, a.r, s.ranks[a.r];
    match a
    case Run(_) => RunStepWork(c, s, r);
    case Land(_, j) => LandWork(p, m, k.port, k.v, s.ranks[r - 1].port.bufs[k.port.read.remote], j);
    case Complete(_) => CompleteWork(p, m, k.port, k.v);
  }

  lemma OneRankSteps(c: Config, s: State, a: Act)
    requires Shape(c, s) && Enabled(c, s, a)
    ensures a.r < |Step(c, s, a).ranks| && Step(c, s, a).ranks == s.ranks[a.r := Step(c, s, a).ranks[a.r]]
  {
  }

  /** Every step of every reachable state makes the remaining work smaller. */
  lemma StepWork(c: Config, s: State, a: Act)
    requires Inv(c, s) && Enabled(c, s, a)
    ensures Work(PlanOf(c), |c.ws|, Step(c, s, a).ranks) < Work(PlanOf(c), |c.ws|, s.ranks)
  {
    OneRankSteps(c, s, a);
    WorkUpdate(PlanOf(c), |c.ws|, s.ranks, a.r, Step(c, s, a).ranks[a.r]);
    ActWork(c, s, a);
  }

  lemma {:induction false} RunWork(c: Config, s: State, acts: seq<Act>, t: State)
    requires Inv(c, s) && IsRun(c, s, acts, t)
    ensures Work(PlanOf(c), |c.ws|, t.ranks) + |acts| <= Work(PlanOf(c), |c.ws|, s.ranks)
    decreases |acts|
  {
    if acts != [] {
      StepWork(c, s, acts[0]);
      StepInv(c, s, acts[0]);
      RunWork(c, Step(c, s, acts[0]), acts[1..], t);
    }
  }

  /** Every run is finite: the work measured at the start bounds its length, whatever the schedule. */
  lemma Terminates(c: Config, acts: seq<Act>, s: State)
    requires c.Valid() && IsRun(c, Init(c), acts, s)
    ensures |acts| <= Work(PlanOf(c), |c.ws|, Init(c).ranks)
  {
    InvInit(c);
    RunInv(c, Init(c), acts, s);
    RunWork(c, Init(c), acts, s);
    PlanValid(c);
    forall q | 0 <= q < c.n ensures RankWork(PlanOf(c), |c.ws|, s.ranks[q]) >= 0 {
      assert RankAt(PlanOf(c), s, q);
      RankWorkNonNegative(PlanOf(c), |c.ws|, q, s.ranks[q]);
    }
    WorkNonNegative(PlanOf(c), |c.ws|, s.ranks);
  }

  /** A run that cannot be continued has handed each receiver the sender's list, complete and in order, if and only if
      every weight fits a bucket and no bucket repeats a name. */
  lemma CompleteRunsDeliver(c: Config, acts: seq<Act>, s: State, r: nat)
    requires c.Valid() && IsRun(c, Init(c), acts, s) && 0 < r < c.n
    ensures Shape(c, s)
    ensures Blocked(c, s) ==> (Finished(s.ranks[r]) && s.ranks[r].v.out == c.ws <==>
                                 AllFit(c.ws, c.cap) && GroupsDistinct(SentGroups(c.ws, c.cap)))
  {
    NoDeadlock(c, s);
    Delivery(c, s, r);
  }
}
