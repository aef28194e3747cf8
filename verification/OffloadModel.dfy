/** The activation offload handler on values: its state, what each call does to it, and the three streams. */
module OffloadModel {
  import opened Wrappers
  import opened Shapes

  /** The storage address and dtype that `_get_unique_tensor_key` combines; a reload allocates a storage of its own. */
  datatype Key = At(address: nat, dtype: string) | ReloadOf(group: int, of: Key)

  /** A device tensor: its key, its shape and its elements in row-major order. */
  datatype Tensor = Tensor(key: Key, shape: seq<nat>, data: seq<int>)

  datatype Tag = Tag(group: int, index: nat)

  /** An entry of `tensor_tag_to_state`: the tensor, or the (key, shape) it was replaced by. */
  datatype Slot = OnDevice(t: Tensor) | Packed(key: Key, shape: seq<nat>)

  datatype Entry = Entry(tag: Tag, slot: Slot)

  datatype Error = AssertionFailed | KeyMissing | ViewFailed

  /** Progress of the compute, d2h and h2d streams: operations issued on each, and how many operations of another
      stream each has waited for. Waiting for a stream also waits for what that stream has waited for. */
  datatype Streams = Streams(cOps: nat, dOps: nat, hOps: nat,
                             cSawD: nat, cSawH: nat, dSawC: nat, hSawD: nat)

  /** `group_offload_mapping[g]`: host copies by key, how many compute operations the d2h stream had waited for when they
      were issued, and how far it is once they are made. */
  datatype Offloaded = Offloaded(copies: map<Key, seq<int>>, after: nat, madeAt: nat)

  /** A group's reload: how many d2h operations the h2d stream had waited for when it was issued, and how far it is once
      the reload is complete. */
  datatype Reload = Reload(after: nat, madeAt: nat)

  /** The fields of the handler. The dict `tensor_tag_to_state` is its entries in insertion order. `reloads` records the
      last reload of every group. */
  datatype Handler = Handler(
    numOffload: nat, window: map<int, int>, current: int, count: nat, entries: seq<Entry>,
    buf: map<Tag, Option<Tensor>>, done: int, mapping: map<int, Offloaded>, streams: Streams, reloads: map<int, Reload>)

  // ---------- Streams ----------

  function Max(a: nat, b: nat): nat { if a >= b then a else b }

  /** `d2h_stream.wait_stream(current_stream())` */
  function D2hWaitsCompute(s: Streams): Streams { s.(dSawC := s.cOps) }

  /** `current_stream().wait_stream(d2h_stream)` */
  function ComputeWaitsD2h(s: Streams): Streams { s.(cSawD := s.dOps) }

  /** `h2d_stream.wait_stream(current_stream())` */
  function H2dWaitsCompute(s: Streams): Streams { s.(hSawD := Max(s.hSawD, s.cSawD)) }

  /** `current_stream().wait_stream(h2d_stream)` */
  function ComputeWaitsH2d(s: Streams): Streams { s.(cSawH := s.hOps, cSawD := Max(s.cSawD, s.hSawD)) }

  // ---------- tensor_push, tensor_pop ----------

  predicate HasTag(entries: seq<Entry>, tag: Tag) { exists i :: 0 <= i < |entries| && entries[i].tag == tag }

  /** For a tensor that needs offloading; any other is handed back as its own tag. */
  function Push(h: Handler, t: Tensor): Result<(Handler, Tag), Error> {
    var tag := Tag(h.current, h.count);
    if HasTag(h.entries, tag) then Err(AssertionFailed)
    else Ok((h.(count := h.count + 1, entries := h.entries + [Entry(tag, OnDevice(t))],
                buf := if h.current < h.numOffload then h.buf[tag := Some(t)] else h.buf,
                streams := h.streams.(cOps := h.streams.cOps + 1)), tag))
  }

  function Find(entries: seq<Entry>, tag: Tag): (r: nat)
    ensures r <= |entries|
    ensures r < |entries| ==> entries[r].tag == tag
    ensures forall i :: 0 <= i < r ==> entries[i].tag != tag
  {
    if entries == [] || entries[0].tag == tag then 0 else 1 + Find(entries[1..], tag)
  }

  function Pop(h: Handler, tag: Tag): Result<(Handler, Tensor), Error> {
    var i := Find(h.entries, tag);
    if i == |h.entries| || h.entries[i].slot.Packed? then Err(AssertionFailed)
    else Ok((h.(entries := h.entries[..i] + h.entries[i+1..], buf := h.buf - {tag}), h.entries[i].slot.t))
  }

  // ---------- bulk_offload_group ----------

  predicate InGroup(e: Entry, g: int) { e.tag.group == g }

  /** The first loop's `offload_mapping`: the first tensor of the group with each key, over the first n entries. */
  function Collect(entries: seq<Entry>, g: int, n: nat): map<Key, seq<int>>
    requires n <= |entries|
  {
    if n == 0 then map[]
    else
      var m, e := Collect(entries, g, n - 1), entries[n - 1];
      if InGroup(e, g) && e.slot.OnDevice? && e.slot.t.key !in m then m[e.slot.t.key := e.slot.t.data] else m
  }

  function PackEntry(e: Entry, g: int): Entry {
    if InGroup(e, g) && e.slot.OnDevice? then Entry(e.tag, Packed(e.slot.t.key, e.slot.t.shape)) else e
  }

  function PackGroup(entries: seq<Entry>, g: int): (r: seq<Entry>)
    ensures |r| == |entries|
  {
    seq(|entries|, i requires 0 <= i < |entries| => PackEntry(entries[i], g))
  }

  predicate AnyPacked(entries: seq<Entry>, g: int) {
    exists i :: 0 <= i < |entries| && InGroup(entries[i], g) && entries[i].slot.Packed?
  }

  function BulkOffload(h: Handler, g: int): Result<Handler, Error> {
    if AnyPacked(h.entries, g) then Err(AssertionFailed)
    else
      var m := Collect(h.entries, g, |h.entries|);
      var at := h.streams.dOps + |m|;
      Ok(h.(entries := PackGroup(h.entries, g), mapping := h.mapping[g := Offloaded(m, h.streams.dSawC, at)],
            streams := h.streams.(dOps := at)))
  }

  // ---------- on_group_commit_forward ----------

  function DropGroup(buf: map<Tag, Option<Tensor>>, g: int): map<Tag, Option<Tensor>> {
    map tag | tag in buf :: if tag.group == g then None else buf[tag]
  }

  /** Both streams wait for each other, then the copied group's device references are dropped. */
  function Released(h: Handler): Handler {
    h.(streams := ComputeWaitsD2h(D2hWaitsCompute(h.streams)), buf := DropGroup(h.buf, h.done))
  }

  /** The branch taken when the window of the offload in progress is reached. */
  function AtWindow(h: Handler): Result<Handler, Error> {
    var h1 := Released(h);
    if h.done < h.numOffload - 1 then
      var r := BulkOffload(h1, h.done + 1);
      if r.Err? then r else Ok(r.value.(done := h.done + 1))
    else Ok(h1.(done := h.done + 1))
  }

  /** The first group's offload is kicked off at its own commit. */
  function Kicked(h: Handler, current: int): Result<Handler, Error> {
    if current == 0 then BulkOffload(h.(streams := D2hWaitsCompute(h.streams)), current) else Ok(h)
  }

  function SynchronizeForward(h: Handler, current: int): Result<Handler, Error> {
    var r := Kicked(h, current);
    if r.Err? then r
    else if r.value.done !in h.window then Err(KeyMissing)
    else if h.window[r.value.done] == current then AtWindow(r.value)
    else r
  }

  function CommitForward(h: Handler): Result<Handler, Error> {
    var r := SynchronizeForward(h, h.current);
    if r.Err? then r else Ok(r.value.(current := r.value.current + 1, count := 0))
  }

  // ---------- bulk_reload_group, on_group_commit_backward ----------

  /** `offload_mapping[key].view(shape)` has something to view. */
  predicate Viewable(e: Entry, copies: map<Key, seq<int>>)
    requires e.slot.Packed?
  {
    e.slot.key in copies && |copies[e.slot.key]| == Numel(e.slot.shape)
  }

  function ReloadEntry(e: Entry, g: int, copies: map<Key, seq<int>>): Entry {
    if InGroup(e, g) && e.slot.Packed? && Viewable(e, copies)
    then Entry(e.tag, OnDevice(Tensor(ReloadOf(g, e.slot.key), e.slot.shape, copies[e.slot.key])))
    else e
  }

  function ReloadGroup(entries: seq<Entry>, g: int, copies: map<Key, seq<int>>): (r: seq<Entry>)
    ensures |r| == |entries|
  {
    seq(|entries|, i requires 0 <= i < |entries| => ReloadEntry(entries[i], g, copies))
  }

  /** The index of the first entry of the group that cannot be recovered, or the length. */
  function FirstStuck(entries: seq<Entry>, g: int, copies: map<Key, seq<int>>): (r: nat)
    ensures r <= |entries|
    ensures r < |entries| ==> InGroup(entries[r], g) && entries[r].slot.Packed? && !Viewable(entries[r], copies)
    ensures forall i :: 0 <= i < r && InGroup(entries[i], g) && entries[i].slot.Packed? ==> Viewable(entries[i], copies)
  {
    if entries == [] then 0
    else if InGroup(entries[0], g) && entries[0].slot.Packed? && !Viewable(entries[0], copies) then 0
    else 1 + FirstStuck(entries[1..], g, copies)
  }

  function BulkReload(h: Handler, g: int): Result<Handler, Error> {
    if g >= h.numOffload then Err(AssertionFailed)
    else if g !in h.mapping then Err(KeyMissing)
    else
      var copies := h.mapping[g].copies;
      var stuck := FirstStuck(h.entries, g, copies);
      if stuck < |h.entries| then
        Err(if h.entries[stuck].slot.key in copies then ViewFailed else KeyMissing)
      else
        var at := h.streams.hOps + |copies|;
        Ok(h.(entries := ReloadGroup(h.entries, g, copies), mapping := h.mapping - {g},
              streams := h.streams.(hOps := at), reloads := h.reloads[g := Reload(h.streams.hSawD, at)]))
  }

  /** The last group's computation waits for all reloads. */
  function AtFirstGroup(h: Handler): Handler {
    if h.current == 0 then h.(streams := ComputeWaitsH2d(h.streams), done := 0) else h
  }

  function CommitBackward(h: Handler): Result<Handler, Error> {
    var h1 := h.(current := h.current - 1);
    if h1.current < 0 then Err(AssertionFailed)
    else if h.done - 1 !in h.window then Err(KeyMissing)
    else if h.window[h.done - 1] == h1.current then
      var h2 := h1.(streams := ComputeWaitsH2d(H2dWaitsCompute(h1.streams)));
      var r := BulkReload(h2, h.done - 1);
      if r.Err? then r
      else Ok(AtFirstGroup(r.value.(done := if h.done > 1 then h.done - 1 else h.done)))
    else Ok(AtFirstGroup(h1))
  }
}
