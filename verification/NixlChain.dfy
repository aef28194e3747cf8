/** The NIXL weight-transfer chain as a step relation over its ranks: rank 0 runs `send_weights`, every later
    rank runs `receive_weights`. A link carries a FIFO of posted messages downstream and a FIFO of read
    notifications upstream; a started read lands byte by byte, in any order, while both ranks keep running. */
module NixlChain {
  import opened Buckets
  import opened BucketViews

  /** Number of ranks, bucket size and the weights handed to rank 0. */
  datatype Config = Config(n: nat, cap: nat, ws: seq<Weight>) {
    ghost predicate Valid() { n >= 2 && AllValid(ws) }
  }

  /** What `ReadableOperation` sends: its key, the descriptor of the exposed buffer and the metadata. */
  datatype Msg = Msg(key: nat, slot: nat, meta: seq<TensorMeta>, isLast: bool)

  /** A `ReadOperation`: `pending` are the byte positions that have not landed yet. */
  datatype Xfer = NoXfer | InFlight(remote: nat, key: nat, pending: set<nat>) | Landed

  /** `readable_op` while it has not been waited for: its notify_key and the buffer it exposes. */
  datatype ReadableOp = NoOp | Open(key: nat, slot: nat)

  /** The communication state common to all ranks. Slots 0 and 1 are the buffers that start as send_buf and
      recv_buf; `send` and `recv` are the local variables that get swapped. `posted` and `begun` count the posts
      and the started reads so far; the next notify_key is drawn from `posted`. */
  datatype Port = Port(bufs: seq<seq<byte>>, send: nat, recv: nat, op: ReadableOp, posted: nat, begun: nat, read: Xfer)

  datatype SendPc =
    | Next              // head of the loop over the weights
    | Wait(last: bool)  // wait_for_complete of the previous bucket, if there is one
    | Post(last: bool)  // post the bucket; a full one also swaps the buffers
    | Fit               // fit assertion, metadata entry, copy into send_buf
    | LastAck           // wait for the last bucket
    | Sent
    | TooLarge          // the fit assertion failed
    | SendCrashed       // the notify-key assertion failed

  datatype Send = Send(pc: SendPc, meta: seq<TensorMeta>, rest: seq<Weight>, offset: nat)

  /** The loop body and the part after the loop run through the same points; `isLast` tells them apart. */
  datatype RecvPc =
    | FirstMeta         // read_metadata and begin_read of the first bucket
    | FirstRead         // wait for it
    | Forward           // 1. send bucket to next agent
    | Meta              // 2. read_metadata, begin_read
    | Yield(i: nat)     // 3. next entry to yield
    | Ack               // 4. wait for the next agent
    | Read              // 4. wait for the own read, 5. swap
    | Received
    | RecvCrashed       // the notify-key assertion failed

  datatype Recv = Recv(pc: RecvPc, meta: seq<TensorMeta>, isLast: bool,
                       nextMeta: seq<TensorMeta>, nextLast: bool, out: seq<Weight>)

  datatype Rank = Sender(port: Port, s: Send) | Receiver(port: Port, v: Recv)

  /** Link r joins rank r to rank r + 1. */
  datatype State = State(ranks: seq<Rank>, msgs: seq<seq<Msg>>, notifs: seq<seq<nat>>)

  /** A scheduling choice: one program step, one byte landing, or the end of a transfer. */
  datatype Act = Run(r: nat) | Land(r: nat, j: nat) | Complete(r: nat)

  function InitPort(cap: nat): Port { Port([Zeros(cap), Zeros(cap)], 0, 1, NoOp, 0, 0, NoXfer) }

  function InitRank(c: Config, r: nat): Rank {
    if r == 0 then Sender(InitPort(c.cap), Send(Next, [], c.ws, 0))
    else Receiver(InitPort(c.cap), Recv(FirstMeta, [], false, [], false, []))
  }

  function Init(c: Config): State
    requires c.n >= 2
  {
    State(seq(c.n, r requires 0 <= r < c.n => InitRank(c, r)), seq(c.n - 1, _ => []), seq(c.n - 1, _ => []))
  }

  // ---------- Which step a rank is at ----------

  /** At a `wait_for_complete` of an open readable operation. */
  predicate AwaitsAck(k: Rank) {
    k.port.op.Open? && match k
                       case Sender(_, s) => s.pc.Wait? || s.pc == LastAck
                       case Receiver(_, v) => v.pc == Ack
  }

  predicate AwaitsMeta(k: Rank) { k.Receiver? && (k.v.pc == FirstMeta || k.v.pc == Meta) }

  predicate AwaitsRead(k: Rank) { k.Receiver? && (k.v.pc == FirstRead || k.v.pc == Read) }

  predicate Posts(k: Rank) {
    match k
    case Sender(_, s) => s.pc.Post?
    case Receiver(_, v) => v.pc == Forward
  }

  predicate Finished(k: Rank) {
    match k
    case Sender(_, s) => s.pc == Sent
    case Receiver(_, v) => v.pc == Received
  }

  predicate Crashed(k: Rank) {
    match k
    case Sender(_, s) => s.pc == SendCrashed
    case Receiver(_, v) => v.pc == RecvCrashed
  }

  predicate Stopped(k: Rank) { Finished(k) || Crashed(k) || (k.Sender? && k.s.pc == TooLarge) }

  // ---------- The steps ----------

  /** The message of `ReadableOperation(...)`. */
  function PostMsg(k: Rank): Msg {
    match k
    case Sender(t, s) => Msg(t.posted, t.send, s.meta, s.pc == Post(true))
    case Receiver(t, v) => Msg(t.posted, t.send, v.meta, v.isLast)
  }

  function OpenOp(t: Port): Port { t.(op := Open(t.posted, t.send), posted := t.posted + 1) }

  function Swap(t: Port): Port { t.(send := t.recv, recv := t.send) }

  /** The post and what follows it. The last rank has no next agent and only moves on. */
  function TakePost(k: Rank, hasNext: bool): Rank {
    match k
    case Sender(t, s) =>
      if s.pc == Post(true) then Sender(OpenOp(t), s.(pc := LastAck))
      else Sender(Swap(OpenOp(t)), s.(pc := Fit, meta := [], offset := 0))
    case Receiver(t, v) =>
      Receiver(if hasNext then OpenOp(t) else t, v.(pc := if v.isLast then Yield(0) else Meta))
  }

  function AfterWait(s: Send): Send { s.(pc := if s.pc.Wait? then Post(s.pc.last) else Sent) }

  function AfterAck(v: Recv): Recv { v.(pc := if v.isLast then Received else Read) }

  /** `wait_for_complete` of a readable operation, with its notify-key assertion. */
  function TakeAck(k: Rank, key: nat): Rank {
    match k
    case Sender(t, s) =>
      if t.op.Open? && t.op.key == key then Sender(t.(op := NoOp), AfterWait(s)) else Sender(t, s.(pc := SendCrashed))
    case Receiver(t, v) =>
      if t.op.Open? && t.op.key == key then Receiver(t.(op := NoOp), AfterAck(v)) else Receiver(t, v.(pc := RecvCrashed))
  }

  /** `read_metadata` followed by `begin_read` into recv_buf. */
  function TakeMeta(cap: nat, k: Rank, m: Msg): Rank
    requires k.Receiver?
  {
    Receiver(k.port.(read := InFlight(m.slot, m.key, AllBytes(cap)), begun := k.port.begun + 1),
             k.v.(pc := if k.v.pc == FirstMeta then FirstRead else Yield(0), nextMeta := m.meta, nextLast := m.isLast))
  }

  /** After a completed read: swap and adopt its metadata. */
  function TakeRead(k: Rank): Rank
    requires k.Receiver?
  {
    Receiver(Swap(k.port).(read := NoXfer), k.v.(pc := Forward, meta := k.v.nextMeta, isLast := k.v.nextLast))
  }

  function TakeFit(cap: nat, t: Port, s: Send): Rank
    requires s.rest != [] && t.send < |t.bufs| && |t.bufs[t.send]| == cap
  {
    var w := s.rest[0];
    if s.offset + |w.data| > cap then Sender(t, s.(pc := TooLarge))
    else Sender(t.(bufs := t.bufs[t.send := Overwrite(t.bufs[t.send], s.offset, w.data)]),
                Send(Next, PutMeta(s.meta, MetaOf(w, s.offset)), s.rest[1..], s.offset + |w.data|))
  }

  function TakeNext(cap: nat, s: Send): Send {
    if s.rest == [] then s.(pc := Wait(true))
    else if s.offset + |s.rest[0].data| > cap then s.(pc := Wait(false))
    else s.(pc := Fit)
  }

  /** One `yield name, tensor`, the tensor viewing send_buf. */
  function TakeYield(t: Port, v: Recv): Recv
    requires v.pc.Yield? && t.send < |t.bufs|
  {
    if v.pc.i < |v.meta| then v.(pc := Yield(v.pc.i + 1), out := v.out + [Extract(t.bufs[t.send], v.meta[v.pc.i])])
    else v.(pc := Ack)
  }

  /** The steps that touch no queue. A wait without an open operation falls through. */
  function TakeLocal(cap: nat, k: Rank): Rank
    requires PortShape(cap, k.port)
    requires k.Sender? && k.s.pc == Fit ==> k.s.rest != []
  {
    match k
    case Sender(t, s) =>
      if s.pc == Fit then TakeFit(cap, t, s)
      else Sender(t, if s.pc == Next then TakeNext(cap, s) else AfterWait(s))
    case Receiver(t, v) =>
      if AwaitsRead(k) then TakeRead(k)
      else Receiver(t, if v.pc.Yield? then TakeYield(t, v) else AfterAck(v))
  }

  /** One byte of the remote buffer, as it is at this moment, arrives in recv_buf. */
  function LandByte(t: Port, src: seq<byte>, j: nat): Port
    requires t.recv < |t.bufs| && t.read.InFlight? && j < |src| && j < |t.bufs[t.recv]|
  {
    t.(bufs := t.bufs[t.recv := t.bufs[t.recv][j := src[j]]], read := t.read.(pending := t.read.pending - {j}))
  }

  // ---------- The whole chain ----------

  /** Two buffers of the bucket size, named by the two local variables. */
  ghost predicate PortShape(cap: nat, t: Port) {
    && |t.bufs| == 2 && |t.bufs[0]| == cap && |t.bufs[1]| == cap
    && t.send < 2 && t.recv < 2 && t.send != t.recv
    && (t.read.InFlight? ==> t.read.remote < 2 && forall j :: j in t.read.pending ==> j < cap)
  }

  ghost predicate RankShape(n: nat, cap: nat, r: nat, k: Rank) {
    && PortShape(cap, k.port)
    && (k.Sender? <==> r == 0)
    && (k.Sender? && k.s.pc == Fit ==> k.s.rest != [])
    && (k.Sender? ==> k.port.read == NoXfer)
    && (k.port.op.Open? ==> r + 1 < n)
  }

  ghost predicate Shape(c: Config, s: State) {
    && c.n >= 2 && |s.ranks| == c.n && |s.msgs| == c.n - 1 && |s.notifs| == c.n - 1
    && forall r :: 0 <= r < c.n ==> RankShape(c.n, c.cap, r, s.ranks[r])
  }

  ghost predicate Enabled(c: Config, s: State, a: Act)
    requires Shape(c, s)
  {
    a.r < c.n &&
    var k := s.ranks[a.r];
    match a
    case Run(r) =>
      if AwaitsAck(k) then s.notifs[r] != []
      else if AwaitsMeta(k) then s.msgs[r - 1] != [] && s.msgs[r - 1][0].slot < 2
      else if AwaitsRead(k) then k.port.read == Landed
      else !Stopped(k)
    case Land(r, j) => k.port.read.InFlight? && j in k.port.read.pending
    case Complete(r) => k.port.read.InFlight? && k.port.read.pending == {}
  }

  ghost function Step(c: Config, s: State, a: Act): State
    requires Shape(c, s) && Enabled(c, s, a)
  {
    var k := s.ranks[a.r];
    match a
    case Run(r) =>
      if AwaitsAck(k) then
        State(s.ranks[r := TakeAck(k, s.notifs[r][0])], s.msgs, s.notifs[r := s.notifs[r][1..]])
      else if AwaitsMeta(k) then
        State(s.ranks[r := TakeMeta(c.cap, k, s.msgs[r-1][0])], s.msgs[r-1 := s.msgs[r-1][1..]], s.notifs)
      else if !Posts(k) then
        State(s.ranks[r := TakeLocal(c.cap, k)], s.msgs, s.notifs)
      else if r + 1 < c.n then
        State(s.ranks[r := TakePost(k, true)], s.msgs[r := s.msgs[r] + [PostMsg(k)]], s.notifs)
      else
        State(s.ranks[r := TakePost(k, false)], s.msgs, s.notifs)
    case Land(r, j) =>
      State(s.ranks[r := Receiver(LandByte(k.port, s.ranks[r-1].port.bufs[k.port.read.remote], j), k.v)], s.msgs, s.notifs)
    case Complete(r) =>
      State(s.ranks[r := Receiver(k.port.(read := Landed), k.v)], s.msgs, s.notifs[r-1 := s.notifs[r-1] + [k.port.read.key]])
  }

  /** `acts` leads from s to t: every action is enabled where it is taken. */
  ghost predicate IsRun(c: Config, s: State, acts: seq<Act>, t: State)
    decreases |acts|
  {
    if acts == [] then s == t
    else Shape(c, s) && Enabled(c, s, acts[0]) && IsRun(c, Step(c, s, acts[0]), acts[1..], t)
  }

  ghost predicate Reachable(c: Config, s: State) {
    c.n >= 2 && exists acts :: IsRun(c, Init(c), acts, s)
  }
}
