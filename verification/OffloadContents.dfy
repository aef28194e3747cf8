/** What deduplication by storage address gives back: tensors as views of storages, and when the contents of one view
    are those of another view with the same key. */
module OffloadContents {
  import opened Wrappers
  import opened Shapes
  import opened OffloadModel
  import opened OffloadRuns
  import opened OffloadForward
  import opened OffloadTheorems
  import WindowMap

  // ---------- Views ----------

  /** An untyped storage: its address, and its elements when read as one dtype. */
  datatype Storage = Storage(address: nat, dtype: string, itemsize: nat, elements: seq<int>)

  /** Row and column of position p in rows of n. */
  function Row(p: nat, n: nat): nat
    requires n > 0
  {
    p / n
  }

  function Column(p: nat, n: nat): (c: nat)
    requires n > 0
    ensures c < n && Row(p, n) * n + c == p
  {
    p % n
  }

  function Times(a: nat, b: nat): (r: nat)
    ensures r > 0 ==> b > 0
  {
    a * b
  }

  /** Where element p, in row-major order, of a strided view lies behind the view's offset. */
  function StridedAt(shape: seq<nat>, strides: seq<nat>, p: nat): nat
    requires |shape| == |strides| && p < Numel(shape)
  {
    if shape == [] then 0
    else
      assert Numel(shape) == Times(shape[0], Numel(shape[1..]));
      var n := Numel(shape[1..]);
      Times(Row(p, n), strides[0]) + StridedAt(shape[1..], strides[1..], Column(p, n))
  }

  function ContiguousStrides(shape: seq<nat>): (r: seq<nat>)
    ensures |r| == |shape|
  {
    if shape == [] then [] else [Numel(shape[1..])] + ContiguousStrides(shape[1..])
  }

  lemma {:induction false} ContiguousAt(shape: seq<nat>, p: nat)
    requires p < Numel(shape)
    ensures StridedAt(shape, ContiguousStrides(shape), p) == p
  {
    if shape != [] {
      assert Numel(shape) == Times(shape[0], Numel(shape[1..]));
      var n := Numel(shape[1..]);
      ContiguousAt(shape[1..], Column(p, n));
      assert ContiguousStrides(shape)[1..] == ContiguousStrides(shape[1..]);
    }
  }

  function ElementAt(s: Storage, i: nat): int { if i < |s.elements| then s.elements[i] else 0 }

  /** A view of a storage as the handler sees it. The key adds the offset, counted in elements, to the address. */
  function ViewOf(s: Storage, offset: nat, shape: seq<nat>, strides: seq<nat>): Tensor
    requires |shape| == |strides|
  {
    Tensor(At(s.address + offset, s.dtype), shape,
           seq(Numel(shape), p requires 0 <= p < Numel(shape) => ElementAt(s, offset + StridedAt(shape, strides, p))))
  }

  ghost predicate IsContiguous(t: Tensor, s: Storage, offset: nat) {
    offset + Numel(t.shape) <= |s.elements| && t == ViewOf(s, offset, t.shape, ContiguousStrides(t.shape))
  }

  lemma ContiguousElement(s: Storage, offset: nat, shape: seq<nat>, p: nat)
    requires p < Numel(shape)
    ensures ViewOf(s, offset, shape, ContiguousStrides(shape)).data[p] == ElementAt(s, offset + p)
  {
    ContiguousAt(shape, p);
  }

  /** Contiguous views of one place with equally many elements have one key and the same contents, whatever their
      shapes. */
  lemma ContiguousAgree(s: Storage, offset: nat, a: seq<nat>, b: seq<nat>)
    requires Numel(a) == Numel(b)
    ensures var t, u := ViewOf(s, offset, a, ContiguousStrides(a)), ViewOf(s, offset, b, ContiguousStrides(b));
            t.key == u.key && t.data == u.data
  {
    forall p | 0 <= p < Numel(a)
      ensures ViewOf(s, offset, a, ContiguousStrides(a)).data[p] == ViewOf(s, offset, b, ContiguousStrides(b)).data[p]
    {
      ContiguousElement(s, offset, a, p);
      ContiguousElement(s, offset, b, p);
    }
  }

  // ---------- Keys ----------

  function End(s: Storage): nat { s.address + |s.elements| * s.itemsize }

  /** Allocations do not overlap; one of them may be read as several dtypes. */
  ghost predicate Disjoint(ss: set<Storage>) {
    && (forall s :: s in ss ==> s.itemsize > 0)
    && forall s, t :: s in ss && t in ss && s.dtype == t.dtype && s != t ==> End(s) <= t.address || End(t) <= s.address
  }

  lemma Reaches(n: nat, itemsize: nat)
    requires itemsize > 0
    ensures n <= n * itemsize
  {
  }

  /** Although it adds an offset in elements to an address in bytes, the key tells apart any two places of live
      storages. */
  lemma KeyIsPlace(ss: set<Storage>, s: Storage, i: nat, t: Storage, j: nat)
    requires Disjoint(ss) && s in ss && t in ss && i < |s.elements| && j < |t.elements|
    requires At(s.address + i, s.dtype) == At(t.address + j, t.dtype)
    ensures s == t && i == j
  {
    Reaches(|s.elements|, s.itemsize);
    Reaches(|t.elements|, t.itemsize);
  }

  // ---------- What comes back ----------

  /** Every tensor pushed for group g is a contiguous view of a live storage. */
  ghost predicate AllContiguous(ts: seq<Tensor>, ss: set<Storage>) {
    forall j :: 0 <= j < |ts| ==> exists s, offset :: s in ss && IsContiguous(ts[j], s, offset)
  }

  lemma SameKeyAgree(ss: set<Storage>, t: Tensor, u: Tensor)
    requires Disjoint(ss) && t.key == u.key && |t.data| == |u.data|
    requires exists s, offset :: s in ss && IsContiguous(t, s, offset)
    requires exists s, offset :: s in ss && IsContiguous(u, s, offset)
    ensures t.data == u.data
  {
    var s, i :| s in ss && IsContiguous(t, s, i);
    var r, j :| r in ss && IsContiguous(u, r, j);
    if |t.data| > 0 {
      KeyIsPlace(ss, s, i, r, j);
      ContiguousAgree(s, i, t.shape, u.shape);
    }
  }

  /** When the tensors saved by a layer are contiguous views, every pop gives back exactly what was pushed, however often
      deduplication copied one storage for several of them. */
  lemma ContiguousReturns(g: nat, l: nat, w: World, tag: Tag, ss: set<Storage>)
    requires Reachable(g, l, w) && Legal(w, PopT(tag)) && Disjoint(ss) && AllContiguous(w.pushed[tag.group], ss)
    ensures Pop(w.h, tag).Ok?
    ensures Pop(w.h, tag).value.1.shape == w.pushed[tag.group][tag.index].shape
    ensures Pop(w.h, tag).value.1.data == w.pushed[tag.group][tag.index].data
  {
    PopReturns(g, l, w, tag);
    ReachableInv(g, l, w);
    assert Holds(w, OffloadRuns.Shape);
    var ts := w.pushed[tag.group];
    if Offloads(w.ws, tag.group) { SameKeyAgree(ss, ts[Source(ts, tag.index)], ts[tag.index]); }
  }

  lemma OnePush(w: World, saved: seq<Tensor>, t: Tensor) returns (v: World)
    requires Reachable(1, 2, w) && w.l == 2 && w.phase == Forward(0) && w.pushed == [saved, []] && w.popped == {}
    requires |t.data| == Numel(t.shape) && forall j :: 0 <= j < |saved| ==> |saved[j].data| == |t.data|
    ensures Reachable(1, 2, v) && v.l == 2 && v.phase == Forward(0) && v.pushed == [saved + [t], []] && v.popped == {}
  {
    assert w.pushed[0] == saved;
    ReachableStep(1, 2, w, PushT(t));
    v := Step(w, PushT(t)).value;
    assert v.pushed == [saved, []][0 := saved + [t]];
  }

  lemma TwoPushed(t: Tensor, u: Tensor) returns (w: World)
    requires |t.data| == |u.data| && |t.data| == Numel(t.shape) && |u.data| == Numel(u.shape)
    ensures Reachable(1, 2, w) && w.l == 2 && w.phase == Forward(0) && w.pushed == [[t, u], []] && w.popped == {}
  {
    w := InitWorld(2, WindowMap.WindowSeq(1, 2));
    ReachableStart(1, 2);
    assert w.pushed == [[], []];
    w := OnePush(w, [], t);
    w := OnePush(w, [] + [t], u);
    assert [] + [t] + [u] == [t, u];
  }

  lemma OneCommit(w: World, op: Op) returns (v: World)
    requires Reachable(1, 2, w) && Legal(w, op) && (op == CommitF || op == CommitB)
    ensures Reachable(1, 2, v) && v.l == w.l && v.pushed == w.pushed && v.popped == w.popped
    ensures v.phase == if op == CommitF then Forward(w.phase.c + 1) else Backward(w.phase.c - 1)
  {
    ReachableStep(1, 2, w, op);
    v := Step(w, op).value;
  }

  lemma CommittedTwice(w: World) returns (v: World)
    requires Reachable(1, 2, w) && w.l == 2 && w.phase == Forward(0)
    ensures Reachable(1, 2, v) && v.phase == Backward(0) && v.pushed == w.pushed && v.popped == w.popped
  {
    v := OneCommit(w, CommitF);
    v := OneCommit(v, CommitF);
    v := OneCommit(v, CommitB);
    v := OneCommit(v, CommitB);
  }

  /** A layer saves two tensors with one key, and both passes run to their ends. */
  lemma AliasRun(t: Tensor, u: Tensor) returns (w: World)
    requires t.key == u.key && |t.data| == |u.data| && |t.data| == Numel(t.shape) && |u.data| == Numel(u.shape)
    ensures Reachable(1, 2, w) && w.phase == Backward(0) && w.pushed == [[t, u], []] && w.popped == {}
  {
    w := TwoPushed(t, u);
    w := CommittedTwice(w);
  }

  lemma AliasPops(t: Tensor, u: Tensor, w: World)
    requires t.key == u.key && Reachable(1, 2, w) && w.phase == Backward(0) && w.popped == {}
    requires w.pushed == [[t, u], []]
    ensures Legal(w, PopT(Tag(0, 1))) && Pop(w.h, Tag(0, 1)).Ok? && Pop(w.h, Tag(0, 1)).value.1.data == t.data
  {
    assert ValidTag(w.pushed, Tag(0, 1));
    PopReturns(1, 2, w, Tag(0, 1));
    ReachableInv(1, 2, w);
    assert Offloads(w.ws, 0);
    assert Source([t, u], 1) == 0;
  }

  /** The matrix [[1, 2], [3, 4]] and its transpose: one storage, one offset, hence one key. */
  function TwoRows(strides: seq<nat>): Tensor
    requires |strides| == 2
  {
    ViewOf(Storage(0, "float32", 4, [1, 2, 3, 4]), 0, [2, 2], strides)
  }

  lemma TwoRowsAt(rowStride: nat, columnStride: nat, p: nat)
    requires p < 4
    ensures Numel([2, 2]) == 4
    ensures StridedAt([2, 2], [rowStride, columnStride], p) == p / 2 * rowStride + p % 2 * columnStride
  {
    assert [2, 2][1..] == [2] && [2][1..] == [];
    assert [rowStride, columnStride][1..] == [columnStride] && [columnStride][1..] == [];
    assert Numel([2]) == 2 && Numel([2, 2]) == Times(2, 2);
    assert StridedAt([2], [columnStride], p % 2) == Times(p % 2, columnStride);
  }

  lemma TransposeData()
    ensures TwoRows([2, 1]).data == [1, 2, 3, 4] && TwoRows([1, 2]).data == [1, 3, 2, 4]
    ensures Numel([2, 2]) == 4
  {
    forall p: nat | p < 4
      ensures Numel([2, 2]) == 4
      ensures StridedAt([2, 2], [2, 1], p) == p && StridedAt([2, 2], [1, 2], p) == p / 2 + p % 2 * 2
    {
      TwoRowsAt(2, 1, p);
      TwoRowsAt(1, 2, p);
    }
    TwoRowsAt(2, 1, 0);
  }

  /** Contiguity is needed: a layer saves a matrix and its transpose, and the transpose comes back as the matrix. */
  lemma TransposeDiffers() returns (w: World)
    ensures Reachable(1, 2, w) && Legal(w, PopT(Tag(0, 1))) && w.pushed[0][1] == TwoRows([1, 2])
    ensures Pop(w.h, Tag(0, 1)).Ok? && Pop(w.h, Tag(0, 1)).value.1.data != w.pushed[0][1].data
  {
    TransposeData();
    w := AliasRun(TwoRows([2, 1]), TwoRows([1, 2]));
    AliasPops(TwoRows([2, 1]), TwoRows([1, 2]), w);
  }

  // ---------- Equal sizes ----------

  lemma {:induction false} CollectHolds(es: seq<Entry>, g: int, n: nat, i: nat)
    requires i < n <= |es| && InGroup(es[i], g) && es[i].slot.OnDevice?
    ensures es[i].slot.t.key in Collect(es, g, n)
  {
    if i < n - 1 { CollectHolds(es, g, n - 1, i); }
  }

  lemma {:induction false} CollectedFrom(es: seq<Entry>, g: int, n: nat, key: Key) returns (i: nat)
    requires n <= |es| && key in Collect(es, g, n)
    ensures i < n && InGroup(es[i], g) && es[i].slot.OnDevice? && es[i].slot.t.key == key
    ensures Collect(es, g, n)[key] == es[i].slot.t.data
  {
    if key in Collect(es, g, n - 1) { i := CollectedFrom(es, g, n - 1, key); } else { i := n - 1; }
  }

  /** Two tensors of the group that share a key have equally many elements. */
  ghost predicate EqualSizes(es: seq<Entry>, g: int) {
    forall i, j :: 0 <= i < |es| && 0 <= j < |es| && InGroup(es[i], g) && InGroup(es[j], g) &&
                   es[i].slot.OnDevice? && es[j].slot.OnDevice? && es[i].slot.t.key == es[j].slot.t.key ==>
                     |es[i].slot.t.data| == |es[j].slot.t.data|
  }

  /** The mapped copy of each tensor's key has as many elements as the tensor. */
  ghost predicate SizesMapped(es: seq<Entry>, g: int, m: map<Key, seq<int>>) {
    forall i :: 0 <= i < |es| && InGroup(es[i], g) && es[i].slot.OnDevice? ==>
      es[i].slot.t.key in m && |m[es[i].slot.t.key]| == |es[i].slot.t.data|
  }

  lemma MappedWhenEqual(es: seq<Entry>, g: int)
    ensures EqualSizes(es, g) <==> SizesMapped(es, g, Collect(es, g, |es|))
  {
    var m := Collect(es, g, |es|);
    if EqualSizes(es, g) {
      forall i | 0 <= i < |es| && InGroup(es[i], g) && es[i].slot.OnDevice?
        ensures es[i].slot.t.key in m && |m[es[i].slot.t.key]| == |es[i].slot.t.data|
      {
        CollectHolds(es, g, |es|, i);
        var j := CollectedFrom(es, g, |es|, es[i].slot.t.key);
      }
    }
  }

  lemma ReloadsWhenMapped(h: Handler, g: int)
    requires 0 <= g < h.numOffload && !AnyPacked(h.entries, g)
    requires forall i :: 0 <= i < |h.entries| && InGroup(h.entries[i], g) ==>
               |h.entries[i].slot.t.data| == Numel(h.entries[i].slot.t.shape)
    ensures BulkOffload(h, g).Ok?
    ensures BulkReload(BulkOffload(h, g).value, g).Ok? <==>
              SizesMapped(h.entries, g, Collect(h.entries, g, |h.entries|))
  {
    var m, es := Collect(h.entries, g, |h.entries|), h.entries;
    var v := BulkOffload(h, g).value;
    forall i | 0 <= i < |es| && InGroup(es[i], g)
      ensures v.entries[i] == Entry(es[i].tag, Packed(es[i].slot.t.key, es[i].slot.t.shape))
      ensures Viewable(v.entries[i], m) <==> es[i].slot.t.key in m && |m[es[i].slot.t.key]| == |es[i].slot.t.data|
    {
      assert !es[i].slot.Packed?;
    }
    var stuck := FirstStuck(v.entries, g, m);
    if stuck < |es| { assert InGroup(es[stuck], g); }
  }

  /** Offloading and reloading a group succeeds exactly when tensors of the group that share a key have equally many
      elements: the condition under which pushes are legal is needed. */
  lemma ReloadNeedsEqualSizes(h: Handler, g: int)
    requires 0 <= g < h.numOffload && !AnyPacked(h.entries, g)
    requires forall i :: 0 <= i < |h.entries| && InGroup(h.entries[i], g) ==>
               |h.entries[i].slot.t.data| == Numel(h.entries[i].slot.t.shape)
    ensures BulkOffload(h, g).Ok?
    ensures BulkReload(BulkOffload(h, g).value, g).Ok? <==> EqualSizes(h.entries, g)
  {
    ReloadsWhenMapped(h, g);
    MappedWhenEqual(h.entries, g);
  }
}
