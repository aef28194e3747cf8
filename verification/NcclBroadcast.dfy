/** The NCCL engine as a step relation: rank 0 runs `send_weights`, every other rank `receive_weights`, each with one
    broadcast at a time running in a thread of its own. The k-th broadcast of every rank is one collective: the bytes of
    rank 0's k-th bucket leave its buffer one by one, in any order, and land in the buffer that each receiver gave to
    its own k-th broadcast, as late as they like. Rank 0 may finish a broadcast before a receiver has started it. */
module NcclBroadcast {
  import opened Buckets
  import opened BucketViews

  datatype Config = Config(n: nat, cap: nat, ws: seq<Weight>) {
    ghost predicate Valid() { n >= 2 && AllValid(ws) }
  }

  /** What the PUB socket carries for one bucket. */
  datatype Note = Note(meta: seq<TensorMeta>, isLast: bool)

  /** Rank 0's `broadcast_op` while it has not been waited for; its thread publishes the metadata first. */
  datatype RootOp = NoOp | Casting(k: nat, slot: nat, note: Note, published: bool)

  datatype RootPc =
    | Next              // head of the loop over the weights
    | Wait(last: bool)  // wait_for_complete of the previous broadcast, if there is one
    | Cast(last: bool)  // start the broadcast; a full bucket also swaps the buffers
    | Fit               // fit assertion, metadata entry, copy into send_buf
    | LastWait          // wait for the last broadcast
    | Sent
    | TooLarge          // the fit assertion failed

  datatype Root = Root(bufs: seq<seq<byte>>, send: nat, recv: nat, op: RootOp, started: nat,
                       pc: RootPc, meta: seq<TensorMeta>, rest: seq<Weight>, offset: nat)

  /** A receiver's `broadcast_op`: waiting for the metadata, then for the bytes that have not landed. */
  datatype RecvOp = Idle | AwaitNote(slot: nat) | Filling(slot: nat, note: Note, pending: set<nat>)

  datatype RecvPc =
    | Start             // the first broadcast
    | FirstWait
    | Loop              // while not is_last: 1. the next broadcast
    | Yield(i: nat)     // 2. next entry to yield; also the part after the loop
    | NextWait          // 3. wait, 4. swap
    | Received

  datatype Recv = Recv(bufs: seq<seq<byte>>, send: nat, recv: nat, op: RecvOp, begun: nat,
                       pc: RecvPc, meta: seq<TensorMeta>, isLast: bool, out: seq<Weight>)

  /** What is on its way to one receiver: published metadata, and for each broadcast the bytes that have left. */
  datatype Link = Link(notes: seq<Note>, wire: seq<map<nat, byte>>)

  datatype State = State(root: Root, recvs: seq<Recv>, links: seq<Link>)

  /** A scheduling choice. Receiver and link i belong to rank i + 1. */
  datatype Act = RunRoot | Publish | Leave(i: nat, j: nat) | RunRecv(i: nat) | GetNote(i: nat) | Land(i: nat, j: nat)

  function InitRoot(c: Config): Root { Root([Zeros(c.cap), Zeros(c.cap)], 0, 1, NoOp, 0, Next, [], c.ws, 0) }

  function InitRecv(cap: nat): Recv { Recv([Zeros(cap), Zeros(cap)], 0, 1, Idle, 0, Start, [], false, []) }

  function Init(c: Config): State
    requires c.n >= 2
  {
    State(InitRoot(c), seq(c.n - 1, _ => InitRecv(c.cap)), seq(c.n - 1, _ => Link([], [])))
  }

  // ---------- Rank 0 ----------

  ghost predicate TwoBuffers(cap: nat, bufs: seq<seq<byte>>, send: nat, recv: nat) {
    |bufs| == 2 && |bufs[0]| == cap && |bufs[1]| == cap && send < 2 && recv == 1 - send
  }

  ghost predicate RootShape(cap: nat, r: Root) {
    TwoBuffers(cap, r.bufs, r.send, r.recv) && (r.pc == Fit ==> r.rest != []) &&
    (r.op.Casting? ==> r.op.k < r.started && r.op.slot < 2)
  }

  predicate RootStopped(r: Root) { r.pc == Sent || r.pc == TooLarge }

  predicate RootWaits(r: Root) { r.op.Casting? && (r.pc.Wait? || r.pc == LastWait) }

  function TakeNext(cap: nat, r: Root): Root {
    if r.rest == [] then r.(pc := Wait(true))
    else if r.offset + |r.rest[0].data| > cap then r.(pc := Wait(false))
    else r.(pc := Fit)
  }

  function TakeFit(cap: nat, r: Root): Root
    requires r.rest != [] && r.send < |r.bufs| && |r.bufs[r.send]| == cap
  {
    var w := r.rest[0];
    if r.offset + |w.data| > cap then r.(pc := TooLarge)
    else r.(bufs := r.bufs[r.send := Overwrite(r.bufs[r.send], r.offset, w.data)], pc := Next,
            meta := PutMeta(r.meta, MetaOf(w, r.offset)), rest := r.rest[1..], offset := r.offset + |w.data|)
  }

  function TakeCast(r: Root, last: bool): Root {
    var r1 := r.(op := Casting(r.started, r.send, Note(r.meta, last), false), started := r.started + 1);
    if last then r1.(pc := LastWait)
    else r1.(send := r.recv, recv := r.send, meta := [], offset := 0, pc := Fit)
  }

  function TakeWait(r: Root): Root { r.(op := NoOp, pc := if r.pc.Wait? then Cast(r.pc.last) else Sent) }

  function RootStep(cap: nat, r: Root): Root
    requires TwoBuffers(cap, r.bufs, r.send, r.recv) && (r.pc == Fit ==> r.rest != [])
  {
    match r.pc
    case Next => TakeNext(cap, r)
    case Fit => TakeFit(cap, r)
    case Cast(last) => TakeCast(r, last)
    case _ => TakeWait(r)
  }

  // ---------- A receiver ----------

  ghost predicate RecvShape(cap: nat, v: Recv) {
    TwoBuffers(cap, v.bufs, v.send, v.recv) &&
    (v.op != Idle ==> v.op.slot < 2 && v.begun > 0) && (v.op.Filling? ==> forall j :: j in v.op.pending ==> j < cap)
  }

  predicate RecvWaits(v: Recv) { v.pc == FirstWait || v.pc == NextWait }

  predicate OpDone(v: Recv) { v.op.Filling? && v.op.pending == {} }

  /** `BroadcastOperation(bucket=recv_buf, ...)` */
  function Begin(v: Recv, pc: RecvPc): Recv { v.(op := AwaitNote(v.recv), begun := v.begun + 1, pc := pc) }

  /** After `wait_for_complete`: adopt the metadata and swap. */
  function TakeDone(v: Recv): Recv
    requires v.op.Filling?
  {
    v.(op := Idle, meta := v.op.note.meta, isLast := v.op.note.isLast, send := v.recv, recv := v.send, pc := Loop)
  }

  function TakeYield(v: Recv): Recv
    requires v.pc.Yield? && v.send < |v.bufs|
  {
    if v.pc.i < |v.meta| then v.(pc := Yield(v.pc.i + 1), out := v.out + [Extract(v.bufs[v.send], v.meta[v.pc.i])])
    else v.(pc := if v.isLast then Received else NextWait)
  }

  function RecvStep(v: Recv): Recv
    requires v.send < |v.bufs| && (RecvWaits(v) ==> v.op.Filling?)
  {
    match v.pc
    case Start => Begin(v, FirstWait)
    case Loop => if v.isLast then v.(pc := Yield(0)) else Begin(v, Yield(0))
    case Yield(_) => TakeYield(v)
    case Received => v
    case _ => TakeDone(v)
  }

  function TakeNote(cap: nat, v: Recv, note: Note): Recv
    requires v.op.AwaitNote?
  {
    v.(op := Filling(v.op.slot, note, AllBytes(cap)))
  }

  function LandByte(v: Recv, j: nat, b: byte): Recv
    requires v.op.Filling? && v.op.slot < |v.bufs| && j < |v.bufs[v.op.slot]|
  {
    v.(bufs := v.bufs[v.op.slot := v.bufs[v.op.slot][j := b]], op := v.op.(pending := v.op.pending - {j}))
  }

  // ---------- All ranks ----------

  ghost predicate Shape(c: Config, s: State) {
    && c.n >= 2 && |s.recvs| == |s.links| == c.n - 1 && RootShape(c.cap, s.root)
    && (forall i :: 0 <= i < |s.recvs| ==> RecvShape(c.cap, s.recvs[i]))
    && (forall i :: 0 <= i < |s.links| ==> |s.links[i].wire| == s.root.started)
  }

  /** All bytes of rank 0's broadcast k have left towards receiver i. */
  ghost predicate AllLeft(cap: nat, l: Link, k: nat) {
    k < |l.wire| && forall j :: 0 <= j < cap ==> j in l.wire[k]
  }

  ghost predicate CastDone(c: Config, s: State)
    requires s.root.op.Casting?
  {
    s.root.op.published && forall i :: 0 <= i < |s.links| ==> AllLeft(c.cap, s.links[i], s.root.op.k)
  }

  ghost predicate Enabled(c: Config, s: State, a: Act)
    requires Shape(c, s)
  {
    match a
    case RunRoot => !RootStopped(s.root) && (RootWaits(s.root) ==> CastDone(c, s))
    case Publish => s.root.op.Casting? && !s.root.op.published
    case Leave(i, j) =>
      i < |s.links| && j < c.cap && s.root.op.Casting? && s.root.op.published && j !in s.links[i].wire[s.root.op.k]
    case RunRecv(i) =>
      i < |s.recvs| && s.recvs[i].pc != Received && (RecvWaits(s.recvs[i]) ==> OpDone(s.recvs[i]))
    case GetNote(i) => i < |s.recvs| && s.recvs[i].op.AwaitNote? && s.links[i].notes != []
    case Land(i, j) =>
      i < |s.recvs| && s.recvs[i].op.Filling? && j in s.recvs[i].op.pending &&
      s.recvs[i].begun <= |s.links[i].wire| && j in s.links[i].wire[s.recvs[i].begun - 1]
  }

  function NewWire(l: Link): Link { l.(wire := l.wire + [map[]]) }

  function Published(l: Link, note: Note): Link { l.(notes := l.notes + [note]) }

  function Left(l: Link, k: nat, j: nat, b: byte): Link
    requires k < |l.wire|
  {
    var sent: map<nat, byte> := l.wire[k][j := b];
    l.(wire := l.wire[k := sent])
  }

  function EachLink(links: seq<Link>, f: Link -> Link): (r: seq<Link>)
    ensures |r| == |links|
    ensures forall i :: 0 <= i < |links| ==> r[i] == f(links[i])
  {
    seq(|links|, i requires 0 <= i < |links| => f(links[i]))
  }

  ghost function Step(c: Config, s: State, a: Act): State
    requires Shape(c, s) && Enabled(c, s, a)
  {
    match a
    case RunRoot =>
      var root := RootStep(c.cap, s.root);
      State(root, s.recvs, if s.root.pc.Cast? then EachLink(s.links, NewWire) else s.links)
    case Publish =>
      var note := s.root.op.note;
      State(s.root.(op := s.root.op.(published := true)), s.recvs, EachLink(s.links, l => Published(l, note)))
    case Leave(i, j) =>
      var op := s.root.op;
      State(s.root, s.recvs, s.links[i := Left(s.links[i], op.k, j, s.root.bufs[op.slot][j])])
    case RunRecv(i) => State(s.root, s.recvs[i := RecvStep(s.recvs[i])], s.links)
    case GetNote(i) =>
      State(s.root, s.recvs[i := TakeNote(c.cap, s.recvs[i], s.links[i].notes[0])],
            s.links[i := s.links[i].(notes := s.links[i].notes[1..])])
    case Land(i, j) =>
      State(s.root, s.recvs[i := LandByte(s.recvs[i], j, s.links[i].wire[s.recvs[i].begun - 1][j])], s.links)
  }

  ghost predicate IsRun(c: Config, s: State, acts: seq<Act>, t: State)
    decreases |acts|
  {
    if acts == [] then s == t
    else Shape(c, s) && Enabled(c, s, acts[0]) && IsRun(c, Step(c, s, acts[0]), acts[1..], t)
  }

  ghost predicate Reachable(c: Config, s: State) {
    c.n >= 2 && exists acts :: IsRun(c, Init(c), acts, s)
  }
}
