/** Runs of the offload handler: the order in which a forward and a backward pass call it, and the invariant that
    ties its maps to the tensors pushed. */
module OffloadRuns {
  import opened Wrappers
  import opened Shapes
  import opened OffloadModel

  datatype Phase = Forward(c: nat) | Backward(c: nat)

  /** A handler inside a run over l layers. `ws` lists its windows, `pushed[g]` the tensors saved by layer g in this
      pass and `popped` the tags already taken back. */
  datatype World = World(l: nat, ws: seq<int>, h: Handler, phase: Phase, pushed: seq<seq<Tensor>>, popped: set<Tag>)

  datatype Op = PushT(t: Tensor) | CommitF | CommitB | PopT(tag: Tag) | NextPass

  /** What the constructor's window map satisfies when there are no more groups than layers. */
  ghost predicate Windows(ws: seq<int>, l: nat) {
    && 1 <= |ws| <= l
    && (forall i, j :: 0 <= i < j < |ws| ==> ws[i] < ws[j])
    && (forall i :: 0 <= i < |ws| ==> i <= ws[i] < l)
    && ws[|ws| - 1] == l - 1
  }

  /** Group g is complete when its offload is issued: group 0 at its own commit, group g at window g-1. */
  predicate Offloads(ws: seq<int>, g: int) {
    0 <= g < |ws| && (g == 0 || ws[g - 1] >= g)
  }

  /** The offload of group g has been issued before commit c. */
  predicate Started(ws: seq<int>, c: int, g: int) {
    0 <= g < |ws| && (if g == 0 then c > 0 else ws[g - 1] < c)
  }

  /** The position of the first tensor that shares the key of tensor j. */
  function Source(ts: seq<Tensor>, j: nat): (i: nat)
    requires j < |ts|
    ensures i <= j && ts[i].key == ts[j].key
    ensures forall k :: 0 <= k < i ==> ts[k].key != ts[j].key
  {
    SourceFrom(ts, j, 0)
  }

  function SourceFrom(ts: seq<Tensor>, j: nat, k: nat): (i: nat)
    requires k <= j < |ts| && forall x :: 0 <= x < k ==> ts[x].key != ts[j].key
    ensures i <= j && ts[i].key == ts[j].key
    ensures forall x :: 0 <= x < i ==> ts[x].key != ts[j].key
    decreases j - k
  {
    if ts[k].key == ts[j].key then k else SourceFrom(ts, j, k + 1)
  }

  ghost predicate ValidTag(pushed: seq<seq<Tensor>>, tag: Tag) {
    0 <= tag.group < |pushed| && tag.index < |pushed[tag.group]|
  }

  /** What comes back for a tensor of an offloaded group: its own shape over the contents of the first tensor
      pushed with its key. */
  function Restored(ts: seq<Tensor>, g: int, j: nat): Tensor
    requires j < |ts|
  {
    Tensor(ReloadOf(g, ts[j].key), ts[j].shape, ts[Source(ts, j)].data)
  }

  function SlotOf(ws: seq<int>, phase: Phase, ts: seq<Tensor>, g: int, j: nat): Slot
    requires j < |ts|
  {
    if !Offloads(ws, g) then OnDevice(ts[j])
    else match phase
         case Forward(c) => if Started(ws, c, g) then Packed(ts[j].key, ts[j].shape) else OnDevice(ts[j])
         case Backward(c) => if ws[g] >= c then OnDevice(Restored(ts, g, j)) else Packed(ts[j].key, ts[j].shape)
  }

  // ---------- The run ----------

  /** Pushes come in the forward pass, each group's before its commit; L forward commits are followed by L backward
      commits; a tensor is taken back at most once, in its group's backward turn or after it; a new pass starts
      when all were taken back. Tensors of one group that share a key have the same number of elements. */
  ghost predicate Legal(w: World, op: Op) {
    match op
    case PushT(t) =>
      && w.phase.Forward? && w.phase.c < w.l && |w.pushed| == w.l && |t.data| == Numel(t.shape)
      && (w.phase.c < |w.ws| ==> forall j :: 0 <= j < |w.pushed[w.phase.c]| && w.pushed[w.phase.c][j].key == t.key ==>
            |w.pushed[w.phase.c][j].data| == |t.data|)
    case CommitF => w.phase.Forward? && w.phase.c < w.l
    case CommitB => w.phase.c > 0 && (w.phase == Forward(w.l) || w.phase.Backward?)
    case PopT(tag) => w.phase.Backward? && tag.group >= w.phase.c && ValidTag(w.pushed, tag) && tag !in w.popped
    case NextPass => w.phase == Backward(0) && forall tag :: ValidTag(w.pushed, tag) ==> tag in w.popped
  }

  function NoTensors(l: nat): (r: seq<seq<Tensor>>)
    ensures |r| == l && forall g :: 0 <= g < l ==> r[g] == []
  {
    seq(l, _ => [])
  }

  /** The world after one call, or the exception it raises. */
  ghost function Step(w: World, op: Op): Result<World, Error>
    requires Legal(w, op)
  {
    match op
    case PushT(t) =>
      var r := Push(w.h, t);
      if r.Err? then Err(r.error)
      else Ok(w.(h := r.value.0, pushed := w.pushed[w.phase.c := w.pushed[w.phase.c] + [t]]))
    case CommitF =>
      var r := CommitForward(w.h);
      if r.Err? then Err(r.error) else Ok(w.(h := r.value, phase := Forward(w.phase.c + 1)))
    case CommitB =>
      var r := CommitBackward(w.h);
      if r.Err? then Err(r.error) else Ok(w.(h := r.value, phase := Backward(w.phase.c - 1)))
    case PopT(tag) =>
      var r := Pop(w.h, tag);
      if r.Err? then Err(r.error) else Ok(w.(h := r.value.0, popped := w.popped + {tag}))
    case NextPass => Ok(w.(phase := Forward(0), pushed := NoTensors(w.l), popped := {}))
  }

  // ---------- The invariant ----------

  ghost predicate TagLess(a: Tag, b: Tag) { a.group < b.group || (a.group == b.group && a.index < b.index) }

  ghost predicate SlotRight(ws: seq<int>, phase: Phase, pushed: seq<seq<Tensor>>, popped: set<Tag>, e: Entry) {
    && ValidTag(pushed, e.tag) && e.tag !in popped
    && e.slot == SlotOf(ws, phase, pushed[e.tag.group], e.tag.group, e.tag.index)
  }

  ghost predicate Ordered(entries: seq<Entry>) {
    forall i, j :: 0 <= i < j < |entries| ==> TagLess(entries[i].tag, entries[j].tag)
  }

  /** `tensor_tag_to_state` holds exactly the tags that are out, in tag order, each with the right slot. */
  ghost predicate EntriesInv(ws: seq<int>, phase: Phase, pushed: seq<seq<Tensor>>, popped: set<Tag>,
                             entries: seq<Entry>) {
    && (forall i :: 0 <= i < |entries| ==> SlotRight(ws, phase, pushed, popped, entries[i]))
    && Ordered(entries)
    && (forall tag :: ValidTag(pushed, tag) && tag !in popped ==> HasTag(entries, tag))
  }

  /** The host copies hold the first tensor of every key. */
  ghost predicate CopiesOf(ts: seq<Tensor>, copies: map<Key, seq<int>>) {
    forall j :: 0 <= j < |ts| ==> ts[j].key in copies && copies[ts[j].key] == ts[Source(ts, j)].data
  }

  ghost predicate InMapping(ws: seq<int>, phase: Phase, g: int) {
    match phase
    case Forward(c) => Started(ws, c, g)
    case Backward(c) => 0 <= g < |ws| && ws[g] < c
  }

  ghost predicate MappingInv(ws: seq<int>, phase: Phase, pushed: seq<seq<Tensor>>, mapping: map<int, Offloaded>) {
    && (forall g :: g in mapping <==> InMapping(ws, phase, g))
    && (forall g :: g in mapping && Offloads(ws, g) && g < |pushed| ==> CopiesOf(pushed[g], mapping[g].copies))
  }

  ghost predicate DoneInv(ws: seq<int>, phase: Phase, done: int) {
    match phase
    case Forward(c) =>
      && 0 <= done <= |ws|
      && (forall i :: 0 <= i < done ==> ws[i] < c) && (forall i :: done <= i < |ws| ==> ws[i] >= c)
    case Backward(c) =>
      if c == 0 then done == 0
      else
        && 1 <= done <= |ws|
        && ((forall i :: 0 <= i < done ==> ws[i] < c) || done == 1) && (forall i :: done <= i < |ws| ==> ws[i] >= c)
  }

  /** `tensor_tag_to_buf` keeps a tensor of an offload group until its copy has been waited for. */
  ghost predicate BufAt(ws: seq<int>, phase: Phase, pushed: seq<seq<Tensor>>, popped: set<Tag>,
                        buf: map<Tag, Option<Tensor>>, done: int, tag: Tag) {
    && (tag in buf ==> ValidTag(pushed, tag) && tag.group < |ws| && tag !in popped
                       && buf[tag] == if phase.Forward? && done <= tag.group then Some(pushed[tag.group][tag.index]) else None)
    && (phase.Forward? && ValidTag(pushed, tag) && tag.group < |ws| ==> tag in buf)
  }

  ghost predicate BufInv(ws: seq<int>, phase: Phase, pushed: seq<seq<Tensor>>, popped: set<Tag>,
                         buf: map<Tag, Option<Tensor>>, done: int) {
    forall tag :: BufAt(ws, phase, pushed, popped, buf, done, tag)
  }

  ghost predicate StreamInv(ws: seq<int>, phase: Phase, mapping: map<int, Offloaded>, reloads: map<int, Reload>,
                            done: int, s: Streams) {
    && s.cSawD <= s.dOps && s.hSawD <= s.dOps && s.cSawH <= s.hOps
    && (forall g :: g in mapping ==> mapping[g].madeAt <= s.dOps)
    && (forall g :: g in mapping && (phase.Backward? || g < done) ==> mapping[g].madeAt <= s.cSawD)
    && (phase.Backward? ==> forall g :: 0 <= g < |ws| && ws[g] >= phase.c ==>
          g in reloads && reloads[g].madeAt <= s.hOps
          && (Offloads(ws, g) && (if g == 0 then phase.c == 0 else phase.c <= ws[g - 1]) ==> reloads[g].madeAt <= s.cSawH))
  }

  ghost predicate TensorsInv(l: nat, ws: seq<int>, phase: Phase, pushed: seq<seq<Tensor>>, popped: set<Tag>) {
    && |pushed| == l
    && (forall g, j :: 0 <= g < l && 0 <= j < |pushed[g]| ==> |pushed[g][j].data| == Numel(pushed[g][j].shape))
    && (forall g, i, j :: 0 <= g < |ws| <= l && 0 <= i < |pushed[g]| && 0 <= j < |pushed[g]| && pushed[g][i].key == pushed[g][j].key ==>
          |pushed[g][i].data| == |pushed[g][j].data|)
    && (phase.Forward? ==> popped == {} && phase.c <= l && forall g :: phase.c < g < l ==> pushed[g] == [])
    && (phase.Backward? ==> phase.c < l)
  }

  ghost predicate CountersInv(w: World) {
    && w.h.numOffload == |w.ws|
    && (forall i :: i in w.h.window <==> 0 <= i < |w.ws|) && (forall i :: 0 <= i < |w.ws| ==> w.h.window[i] == w.ws[i])
    && w.h.current == w.phase.c
    && w.h.count == (if w.phase.Forward? && w.phase.c < w.l && w.phase.c < |w.pushed| then |w.pushed[w.phase.c]| else 0)
  }

  datatype Part = Shape | Entries | Mapping | Counter | Buffers | Progress

  ghost predicate Holds(w: World, part: Part) {
    match part
    case Shape => Windows(w.ws, w.l) && TensorsInv(w.l, w.ws, w.phase, w.pushed, w.popped) && CountersInv(w)
    case Entries => EntriesInv(w.ws, w.phase, w.pushed, w.popped, w.h.entries)
    case Mapping => MappingInv(w.ws, w.phase, w.pushed, w.h.mapping)
    case Counter => DoneInv(w.ws, w.phase, w.h.done)
    case Buffers => BufInv(w.ws, w.phase, w.pushed, w.popped, w.h.buf, w.h.done)
    case Progress => StreamInv(w.ws, w.phase, w.h.mapping, w.h.reloads, w.h.done, w.h.streams)
  }

  ghost predicate Inv(w: World) { forall part :: Holds(w, part) }

  lemma Parts(w: World)
    requires Inv(w)
    ensures Windows(w.ws, w.l) && TensorsInv(w.l, w.ws, w.phase, w.pushed, w.popped) && CountersInv(w)
    ensures EntriesInv(w.ws, w.phase, w.pushed, w.popped, w.h.entries) &&
            MappingInv(w.ws, w.phase, w.pushed, w.h.mapping)
    ensures DoneInv(w.ws, w.phase, w.h.done) && BufInv(w.ws, w.phase, w.pushed, w.popped, w.h.buf, w.h.done)
    ensures StreamInv(w.ws, w.phase, w.h.mapping, w.h.reloads, w.h.done, w.h.streams)
  {
    assert Holds(w, Shape) && Holds(w, Entries) && Holds(w, Mapping);
    assert Holds(w, Counter) && Holds(w, Buffers) && Holds(w, Progress);
  }

  lemma Whole(w: World)
    requires Windows(w.ws, w.l) && TensorsInv(w.l, w.ws, w.phase, w.pushed, w.popped) && CountersInv(w)
    requires EntriesInv(w.ws, w.phase, w.pushed, w.popped, w.h.entries) &&
             MappingInv(w.ws, w.phase, w.pushed, w.h.mapping)
    requires DoneInv(w.ws, w.phase, w.h.done) && BufInv(w.ws, w.phase, w.pushed, w.popped, w.h.buf, w.h.done)
    requires StreamInv(w.ws, w.phase, w.h.mapping, w.h.reloads, w.h.done, w.h.streams)
    ensures Inv(w)
  {
    forall part ensures Holds(w, part) {
      match part
      case Shape =>
      case Entries =>
      case Mapping =>
      case Counter =>
      case Buffers =>
      case Progress =>
    }
  }

  // ---------- The start ----------

  function InitHandler(ws: seq<int>): Handler {
    Handler(|ws|, map i: int | 0 <= i < |ws| :: ws[i], 0, 0, [], map[], 0, map[], Streams(0, 0, 0, 0, 0, 0, 0), map[])
  }

  function InitWorld(l: nat, ws: seq<int>): World { World(l, ws, InitHandler(ws), Forward(0), NoTensors(l), {}) }

  lemma InitInv(l: nat, ws: seq<int>)
    requires Windows(ws, l)
    ensures Inv(InitWorld(l, ws))
  {
    var w := InitWorld(l, ws);
    forall tag ensures BufAt(ws, w.phase, w.pushed, {}, w.h.buf, 0, tag) {
    }
    Whole(w);
  }
}
