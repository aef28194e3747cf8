/** Packing of named weights into fixed-size buckets, shared by both checkpoint engines:
    the fill loop of `send_weights` and the unpacking half of `receive_weights`. */
module Buckets {
  import opened Arithmetic
  import opened Shapes

  newtype byte = x: int | 0 <= x < 256

  /** A torch dtype, reduced to what the engines use: its identity and its item size. */
  datatype DType = DType(tag: string, itemsize: nat)

  /** One (name, tensor) pair as it enters `send_weights` and as `receive_weights` yields it. */
  datatype Weight = Weight(name: string, shape: seq<nat>, dtype: DType, data: seq<byte>) {
    /** A tensor holds itemsize * numel bytes. */
    ghost predicate Valid() { |data| == dtype.itemsize * Numel(shape) }
  }

  datatype TensorMeta = TensorMeta(name: string, shape: seq<nat>, dtype: DType, offset: nat) {
    function Size(): nat { dtype.itemsize * Numel(shape) }
  }

  /** A bucket as posted: its ordered `bucket_meta` dict and the meaningful bytes of its buffer. */
  datatype Bucket = Bucket(meta: seq<TensorMeta>, image: seq<byte>)

  const EMPTY := Bucket([], [])

  /** `bucket_meta[m.name] = m` on an insertion-ordered dict: an existing key keeps its position. */
  function PutMeta(ms: seq<TensorMeta>, m: TensorMeta): seq<TensorMeta> {
    if ms == [] then [m]
    else if ms[0].name == m.name then [m] + ms[1..]
    else [ms[0]] + PutMeta(ms[1..], m)
  }

  function MetaOf(w: Weight, offset: nat): TensorMeta {
    TensorMeta(w.name, w.shape, w.dtype, offset)
  }

  function AddWeight(b: Bucket, w: Weight): Bucket {
    Bucket(PutMeta(b.meta, MetaOf(w, |b.image|)), b.image + w.data)
  }

  /** The buckets the sender posts from here on, and whether it gets to the last one
      (false: the assertion that every weight fits a bucket fires first). */
  function Pack(ws: seq<Weight>, b: Bucket, cap: nat): (seq<Bucket>, bool)
    decreases |ws|, 1
  {
    if ws == [] then ([b], true)
    else if |b.image| + |ws[0].data| > cap then
      var rest := Place(ws, EMPTY, cap);
      ([b] + rest.0, rest.1)
    else Place(ws, b, cap)
  }

  /** The same from the fit assertion onwards, with the first weight of `ws` in hand. */
  function Place(ws: seq<Weight>, b: Bucket, cap: nat): (seq<Bucket>, bool)
    requires ws != []
    decreases |ws|, 0
  {
    if |b.image| + |ws[0].data| > cap then ([], false)
    else Pack(ws[1..], AddWeight(b, ws[0]), cap)
  }

  /** `buf[offset : offset + size]`, clamped as Python slices are. */
  function Slice(buf: seq<byte>, lo: nat, hi: nat): seq<byte> {
    var h := if hi <= |buf| then hi else |buf|;
    var l := if lo <= h then lo else h;
    buf[l..h]
  }

  /** One yielded tensor. */
  function Extract(buf: seq<byte>, m: TensorMeta): Weight {
    Weight(m.name, m.shape, m.dtype, Slice(buf, m.offset, m.offset + m.Size()))
  }

  /** The yields of the loop over `bucket_meta.items()`, up to entry `n`. */
  function UnpackTo(buf: seq<byte>, meta: seq<TensorMeta>, n: nat): (r: seq<Weight>)
    requires n <= |meta|
    ensures |r| == n
  {
    seq(n, i requires 0 <= i < n => Extract(buf, meta[i]))
  }

  function Unpack(b: Bucket): seq<Weight> { UnpackTo(b.image, b.meta, |b.meta|) }

  function Delivered(bs: seq<Bucket>): seq<Weight> {
    if bs == [] then [] else Unpack(bs[0]) + Delivered(bs[1..])
  }

  ghost predicate Fits(b: Bucket, cap: nat) {
    && |b.image| <= cap
    && forall i :: 0 <= i < |b.meta| ==> b.meta[i].offset + b.meta[i].Size() <= |b.image|
  }

  ghost predicate AllValid(ws: seq<Weight>) { forall i :: 0 <= i < |ws| ==> ws[i].Valid() }

  ghost predicate AllFit(ws: seq<Weight>, cap: nat) { forall i :: 0 <= i < |ws| ==> |ws[i].data| <= cap }

  ghost predicate NamesDistinct(ws: seq<Weight>) {
    forall i, j :: 0 <= i < j < |ws| ==> ws[i].name != ws[j].name
  }

  // ---------- How the weight list is cut into groups ----------

  /** The consecutive runs of weights that share a bucket. */
  ghost function Groups(ws: seq<Weight>, cur: seq<Weight>, size: nat, cap: nat): seq<seq<Weight>> {
    if ws == [] then [cur]
    else if size + |ws[0].data| <= cap then Groups(ws[1..], cur + [ws[0]], size + |ws[0].data|, cap)
    else if |ws[0].data| <= cap then [cur] + Groups(ws[1..], [ws[0]], |ws[0].data|, cap)
    else [cur]
  }

  ghost function BucketOf(g: seq<Weight>): Bucket {
    if g == [] then EMPTY else AddWeight(BucketOf(g[..|g|-1]), g[|g|-1])
  }

  ghost function Flatten(gs: seq<seq<Weight>>): seq<Weight> {
    if gs == [] then [] else gs[0] + Flatten(gs[1..])
  }

  lemma BucketOfSnoc(g: seq<Weight>, w: Weight)
    ensures BucketOf(g + [w]) == AddWeight(BucketOf(g), w)
  {
    assert (g + [w])[..|g|] == g;
  }

  ghost function Fill(gs: seq<seq<Weight>>): seq<Bucket> {
    seq(|gs|, i requires 0 <= i < |gs| => BucketOf(gs[i]))
  }

  lemma FillCons(g: seq<Weight>, gs: seq<seq<Weight>>)
    ensures Fill([g] + gs) == [BucketOf(g)] + Fill(gs)
  {
  }

  lemma BucketOfOne(w: Weight)
    ensures BucketOf([w]) == AddWeight(EMPTY, w)
  {
    assert [] + [w] == [w];
    BucketOfSnoc([], w);
  }

  lemma {:induction false} PackGroups(ws: seq<Weight>, cur: seq<Weight>, cap: nat)
    requires |BucketOf(cur).image| <= cap
    ensures Pack(ws, BucketOf(cur), cap).0 == Fill(Groups(ws, cur, |BucketOf(cur).image|, cap))
    decreases |ws|
  {
    if ws == [] {
      FillCons(cur, []);
    } else if |BucketOf(cur).image| + |ws[0].data| <= cap {
      BucketOfSnoc(cur, ws[0]);
      PackGroups(ws[1..], cur + [ws[0]], cap);
    } else if |ws[0].data| <= cap {
      BucketOfOne(ws[0]);
      PackGroups(ws[1..], [ws[0]], cap);
      FillCons(cur, Groups(ws[1..], [ws[0]], |ws[0].data|, cap));
    } else {
      FillCons(cur, []);
    }
  }

  lemma {:induction false} PackGetsThrough(ws: seq<Weight>, b: Bucket, cap: nat)
    requires |b.image| <= cap
    ensures Pack(ws, b, cap).1 <==> AllFit(ws, cap)
    decreases |ws|
  {
    if ws != [] {
      assert AllFit(ws, cap) <==> |ws[0].data| <= cap && AllFit(ws[1..], cap) by {
        assert ws == [ws[0]] + ws[1..];
      }
      if |ws[0].data| <= cap {
        PackGetsThrough(ws[1..], AddWeight(if |b.image| + |ws[0].data| <= cap then b else EMPTY, ws[0]), cap);
      }
    }
  }

  /** Packing is grouping followed by filling one bucket per group. */
  lemma PackIsGrouped(ws: seq<Weight>, cur: seq<Weight>, cap: nat)
    requires |BucketOf(cur).image| <= cap
    ensures var gs := Groups(ws, cur, |BucketOf(cur).image|, cap);
            Pack(ws, BucketOf(cur), cap).0 == seq(|gs|, i requires 0 <= i < |gs| => BucketOf(gs[i]))
    ensures Pack(ws, BucketOf(cur), cap).1 <==> AllFit(ws, cap)
  {
    PackGroups(ws, cur, cap);
    PackGetsThrough(ws, BucketOf(cur), cap);
  }

  /** No weight is lost or reordered by the grouping. */
  lemma {:induction false} GroupsFlatten(ws: seq<Weight>, cur: seq<Weight>, size: nat, cap: nat)
    ensures |Groups(ws, cur, size, cap)| > 0
    ensures Flatten(Groups(ws, cur, size, cap)) <= cur + ws
    ensures AllFit(ws, cap) ==> Flatten(Groups(ws, cur, size, cap)) == cur + ws
    decreases |ws|
  {
    if ws != [] {
      assert ws == [ws[0]] + ws[1..];
      if size + |ws[0].data| <= cap {
        GroupsFlatten(ws[1..], cur + [ws[0]], size + |ws[0].data|, cap);
        assert cur + [ws[0]] + ws[1..] == cur + ws;
      } else if |ws[0].data| <= cap {
        GroupsFlatten(ws[1..], [ws[0]], |ws[0].data|, cap);
      } else {
        assert Flatten([cur]) == cur + [];
      }
    }
  }

  // ---------- One bucket ----------

  /** `name in bucket_meta` */
  ghost predicate HasName(ms: seq<TensorMeta>, name: string) {
    ms != [] && (ms[0].name == name || HasName(ms[1..], name))
  }

  /** A put of a new key appends; a put of a known key adds no entry. */
  lemma {:induction false} PutMetaSize(ms: seq<TensorMeta>, m: TensorMeta)
    ensures HasName(ms, m.name) ==> |PutMeta(ms, m)| == |ms|
    ensures !HasName(ms, m.name) ==> PutMeta(ms, m) == ms + [m]
  {
    if ms != [] { PutMetaSize(ms[1..], m); }
  }

  lemma {:induction false} PutMetaNames(ms: seq<TensorMeta>, m: TensorMeta, name: string)
    ensures HasName(PutMeta(ms, m), name) <==> HasName(ms, name) || name == m.name
  {
    if ms != [] && ms[0].name != m.name { PutMetaNames(ms[1..], m, name); }
  }

  lemma {:induction false} PutMetaEntry(ms: seq<TensorMeta>, m: TensorMeta, i: nat)
    requires i < |PutMeta(ms, m)|
    ensures PutMeta(ms, m)[i] == m || (i < |ms| && PutMeta(ms, m)[i] == ms[i])
  {
    if ms != [] && ms[0].name != m.name && i > 0 { PutMetaEntry(ms[1..], m, i - 1); }
  }

  lemma {:induction false} BucketFits(g: seq<Weight>, cap: nat)
    requires AllValid(g) && |BucketOf(g).image| <= cap
    ensures Fits(BucketOf(g), cap)
  {
    if g != [] {
      var h, w := g[..|g|-1], g[|g|-1];
      var b, c := BucketOf(h), BucketOf(g);
      BucketFits(h, cap);
      assert w.Valid();
      forall i | 0 <= i < |c.meta| ensures c.meta[i].offset + c.meta[i].Size() <= |c.image| {
        PutMetaEntry(b.meta, MetaOf(w, |b.image|), i);
      }
    }
  }

  /** Entries are laid out back to back from offset 0, in the order of the weights. */
  ghost predicate Contiguous(b: Bucket) {
    && (|b.meta| > 0 ==> b.meta[0].offset == 0)
    && (forall i :: 0 < i < |b.meta| ==> b.meta[i].offset == b.meta[i-1].offset + b.meta[i-1].Size())
    && |b.image| == (if |b.meta| == 0 then 0 else b.meta[|b.meta|-1].offset + b.meta[|b.meta|-1].Size())
  }

  ghost predicate Named(g: seq<Weight>, name: string) { exists i :: 0 <= i < |g| && g[i].name == name }

  lemma {:induction false} BucketNames(g: seq<Weight>, name: string)
    ensures HasName(BucketOf(g).meta, name) <==> Named(g, name)
  {
    if g != [] {
      var h, w := g[..|g|-1], g[|g|-1];
      BucketNames(h, name);
      PutMetaNames(BucketOf(h).meta, MetaOf(w, |BucketOf(h).image|), name);
      if Named(h, name) {
        var i :| 0 <= i < |h| && h[i].name == name;
        assert g[i].name == name;
      }
      if w.name == name { assert g[|g|-1].name == name; }
      if Named(g, name) && w.name != name {
        var i :| 0 <= i < |g| && g[i].name == name;
        assert h[i].name == name;
      }
    }
  }

  /** More bytes behind it do not change a tensor that is all there. */
  lemma ExtractKept(image: seq<byte>, more: seq<byte>, m: TensorMeta)
    requires m.offset + m.Size() <= |image|
    ensures Extract(image + more, m) == Extract(image, m)
  {
    assert Slice(image + more, m.offset, m.offset + m.Size()) == Slice(image, m.offset, m.offset + m.Size());
  }

  lemma ExtractNew(image: seq<byte>, w: Weight)
    requires w.Valid()
    ensures Extract(image + w.data, MetaOf(w, |image|)) == w
  {
    assert Slice(image + w.data, |image|, |image| + |w.data|) == w.data;
  }

  lemma ContiguousAdd(b: Bucket, w: Weight)
    requires w.Valid() && !HasName(b.meta, w.name) && Contiguous(b)
    ensures Contiguous(AddWeight(b, w))
  {
    PutMetaSize(b.meta, MetaOf(w, |b.image|));
    assert AddWeight(b, w).meta == b.meta + [MetaOf(w, |b.image|)];
  }

  /** Appending a weight with a fresh name appends its tensor to what the bucket unpacks to. */
  lemma UnpackAdd(b: Bucket, w: Weight)
    requires Fits(b, |b.image|) && w.Valid() && !HasName(b.meta, w.name)
    ensures Unpack(AddWeight(b, w)) == Unpack(b) + [w]
  {
    PutMetaSize(b.meta, MetaOf(w, |b.image|));
    var c := AddWeight(b, w);
    assert c.meta == b.meta + [MetaOf(w, |b.image|)];
    forall i | 0 <= i < |b.meta| ensures Unpack(c)[i] == Unpack(b)[i] { ExtractKept(b.image, w.data, b.meta[i]); }
    ExtractNew(b.image, w);
  }

  /** A bucket filled with distinctly named weights unpacks to exactly those weights. */
  lemma {:induction false} UnpackDistinct(g: seq<Weight>)
    requires AllValid(g) && NamesDistinct(g)
    ensures Unpack(BucketOf(g)) == g
    ensures Contiguous(BucketOf(g))
  {
    if g != [] {
      var h, w := g[..|g|-1], g[|g|-1];
      UnpackDistinct(h);
      BucketFits(h, |BucketOf(h).image|);
      BucketNames(h, w.name);
      UnpackAdd(BucketOf(h), w);
      ContiguousAdd(BucketOf(h), w);
      assert g == h + [w];
    }
  }

  /** A name repeated inside a bucket loses an entry. */
  lemma {:induction false} UnpackRepeated(g: seq<Weight>)
    ensures |BucketOf(g).meta| <= |g|
    ensures !NamesDistinct(g) ==> |BucketOf(g).meta| < |g|
  {
    if g != [] {
      var h, w := g[..|g|-1], g[|g|-1];
      UnpackRepeated(h);
      BucketNames(h, w.name);
      PutMetaSize(BucketOf(h).meta, MetaOf(w, |BucketOf(h).image|));
      if !NamesDistinct(g) && NamesDistinct(h) {
        var i, j :| 0 <= i < j < |g| && g[i].name == g[j].name;
        assert j == |h|;
        assert h[i].name == w.name;
      }
    }
  }

  // ---------- All buckets ----------

  ghost predicate GroupsDistinct(gs: seq<seq<Weight>>) {
    forall i :: 0 <= i < |gs| ==> NamesDistinct(gs[i])
  }

  lemma GroupsDistinctCons(gs: seq<seq<Weight>>)
    requires gs != []
    ensures GroupsDistinct(gs) <==> NamesDistinct(gs[0]) && GroupsDistinct(gs[1..])
  {
    assert forall i :: 0 < i < |gs| ==> gs[i] == gs[1..][i - 1];
  }

  lemma {:induction false} DeliveredOfGroups(gs: seq<seq<Weight>>)
    requires forall i :: 0 <= i < |gs| ==> AllValid(gs[i])
    ensures GroupsDistinct(gs) ==> Delivered(Fill(gs)) == Flatten(gs)
    ensures |Delivered(Fill(gs))| <= |Flatten(gs)|
    ensures !GroupsDistinct(gs) ==> |Delivered(Fill(gs))| < |Flatten(gs)|
  {
    if gs != [] {
      assert Fill(gs)[1..] == Fill(gs[1..]);
      DeliveredOfGroups(gs[1..]);
      UnpackRepeated(gs[0]);
      if NamesDistinct(gs[0]) { UnpackDistinct(gs[0]); }
      assert Fill(gs)[0] == BucketOf(gs[0]);
      assert |Unpack(BucketOf(gs[0]))| == |BucketOf(gs[0]).meta|;
      GroupsDistinctCons(gs);
    }
  }

  ghost predicate GroupOk(g: seq<Weight>, cap: nat) { AllValid(g) && |BucketOf(g).image| <= cap }

  lemma GroupGrows(g: seq<Weight>, w: Weight, cap: nat)
    requires AllValid(g) && w.Valid() && |BucketOf(g).image| + |w.data| <= cap
    ensures GroupOk(g + [w], cap) && |BucketOf(g + [w]).image| == |BucketOf(g).image| + |w.data|
  {
    BucketOfSnoc(g, w);
  }

  ghost predicate GroupsOk(gs: seq<seq<Weight>>, cap: nat) { forall i :: 0 <= i < |gs| ==> GroupOk(gs[i], cap) }

  lemma GroupsOkCons(g: seq<Weight>, gs: seq<seq<Weight>>, cap: nat)
    requires GroupOk(g, cap) && GroupsOk(gs, cap)
    ensures GroupsOk([g] + gs, cap)
  {
  }

  lemma OneGroupOk(w: Weight, cap: nat)
    requires w.Valid() && |w.data| <= cap
    ensures GroupOk([w], cap) && |BucketOf([w]).image| == |w.data|
  {
    BucketOfOne(w);
  }

  lemma {:induction false} GroupsValid(ws: seq<Weight>, cur: seq<Weight>, size: nat, cap: nat)
    requires AllValid(ws) && GroupOk(cur, cap) && size == |BucketOf(cur).image|
    ensures GroupsOk(Groups(ws, cur, size, cap), cap)
    decreases |ws|
  {
    if ws != [] {
      var w := ws[0];
      if size + |w.data| <= cap {
        GroupGrows(cur, w, cap);
        GroupsValid(ws[1..], cur + [w], size + |w.data|, cap);
      } else if |w.data| <= cap {
        OneGroupOk(w, cap);
        GroupsValid(ws[1..], [w], |w.data|, cap);
        GroupsOkCons(cur, Groups(ws[1..], [w], |w.data|, cap), cap);
      }
    }
  }

  lemma {:induction false} NamesDistinctInGroups(gs: seq<seq<Weight>>)
    requires NamesDistinct(Flatten(gs))
    ensures GroupsDistinct(gs)
  {
    if gs != [] {
      assert forall i :: 0 <= i < |gs[0]| ==> Flatten(gs)[i] == gs[0][i];
      assert forall i :: 0 <= i < |Flatten(gs[1..])| ==> Flatten(gs)[|gs[0]| + i] == Flatten(gs[1..])[i];
      NamesDistinctInGroups(gs[1..]);
      assert forall i :: 0 < i < |gs| ==> gs[i] == gs[1..][i - 1];
    }
  }

  ghost function SentGroups(ws: seq<Weight>, cap: nat): seq<seq<Weight>> { Groups(ws, [], 0, cap) }

  /** Round trip of the packing, with its exact conditions: all weights are posted exactly when each fits
      a bucket, and then they unpack to the original list exactly when no bucket repeats a name. */
  lemma PackRoundTrip(ws: seq<Weight>, cap: nat)
    requires AllValid(ws)
    ensures var (bs, ok) := Pack(ws, EMPTY, cap);
            && (ok <==> AllFit(ws, cap))
            && (ok ==> (Delivered(bs) == ws <==> GroupsDistinct(SentGroups(ws, cap))))
            && (GroupsDistinct(SentGroups(ws, cap)) ==> Delivered(bs) <= ws)
            && (NamesDistinct(ws) ==> Delivered(bs) <= ws && (ok <==> AllFit(ws, cap) && Delivered(bs) == ws))
            && |bs| > 0
            && (forall k :: 0 <= k < |bs| ==> Fits(bs[k], cap) && |bs[k].meta| <= |ws|)
  {
    var gs := SentGroups(ws, cap);
    SentFacts(ws, cap);
    assert forall i :: 0 <= i < |gs| ==> GroupOk(gs[i], cap);
    DeliveredOfGroups(gs);
    if NamesDistinct(ws) { DistinctSent(ws, cap); }
    BucketsFit(gs, cap, |ws|);
  }

  lemma SentFacts(ws: seq<Weight>, cap: nat)
    requires AllValid(ws)
    ensures var gs := SentGroups(ws, cap);
            && Pack(ws, EMPTY, cap) == (Fill(gs), AllFit(ws, cap)) && |gs| > 0 && GroupsOk(gs, cap)
            && Flatten(gs) <= ws && (AllFit(ws, cap) ==> Flatten(gs) == ws)
  {
    assert BucketOf([]) == EMPTY;
    PackGroups(ws, [], cap);
    PackGetsThrough(ws, EMPTY, cap);
    GroupsFlatten(ws, [], 0, cap);
    assert [] + ws == ws;
    GroupsValid(ws, [], 0, cap);
  }

  lemma DistinctSent(ws: seq<Weight>, cap: nat)
    requires AllValid(ws) && NamesDistinct(ws)
    ensures GroupsDistinct(SentGroups(ws, cap))
  {
    SentFacts(ws, cap);
    assert NamesDistinct(Flatten(SentGroups(ws, cap)));
    NamesDistinctInGroups(SentGroups(ws, cap));
  }

  lemma BucketsFit(gs: seq<seq<Weight>>, cap: nat, n: nat)
    requires GroupsOk(gs, cap) && |Flatten(gs)| <= n
    ensures forall k :: 0 <= k < |gs| ==> Fits(Fill(gs)[k], cap) && |Fill(gs)[k].meta| <= n
  {
    forall k | 0 <= k < |gs| ensures Fits(Fill(gs)[k], cap) && |Fill(gs)[k].meta| <= n {
      assert GroupOk(gs[k], cap);
      BucketFits(gs[k], cap);
      UnpackRepeated(gs[k]);
      GroupShorter(gs, k);
    }
  }

  lemma {:induction false} GroupShorter(gs: seq<seq<Weight>>, k: nat)
    requires k < |gs|
    ensures |gs[k]| <= |Flatten(gs)|
  {
    if k > 0 { GroupShorter(gs[1..], k - 1); }
  }

  // ---------- Alignment ----------

  /** `.view(dtype)` on a byte slice needs an offset that is a multiple of the item size. */
  ghost predicate Aligned(b: Bucket, itemsize: nat)
    requires itemsize > 0
  {
    && |b.image| % itemsize == 0
    && forall i :: 0 <= i < |b.meta| ==> b.meta[i].dtype.itemsize == itemsize && b.meta[i].offset % itemsize == 0
  }

  lemma MultipleAdded(a: nat, d: nat, n: nat)
    requires d > 0 && a % d == 0
    ensures (a + d * n) % d == 0
  {
    var q := a / d;
    assert a == d * q;
    assert a + d * n == d * (q + n);
    MultipleOf(d, q + n);
  }

  /** After the cast to one rollout dtype every tensor in every bucket starts on an item boundary. */
  lemma {:induction false} OffsetsAligned(g: seq<Weight>, itemsize: nat)
    requires itemsize > 0 && AllValid(g) && forall i :: 0 <= i < |g| ==> g[i].dtype.itemsize == itemsize
    ensures Aligned(BucketOf(g), itemsize)
  {
    if g != [] {
      var h, w := g[..|g|-1], g[|g|-1];
      OffsetsAligned(h, itemsize);
      var b := BucketOf(h);
      assert w.Valid();
      MultipleAdded(|b.image|, itemsize, Numel(w.shape));
      var c := BucketOf(g);
      forall i | 0 <= i < |c.meta|
        ensures c.meta[i].dtype.itemsize == itemsize && c.meta[i].offset % itemsize == 0
      {
        PutMetaEntry(b.meta, MetaOf(w, |b.image|), i);
      }
    }
  }

  // ---------- The fill loop on its two buffers ----------

  /** `send_buf[offset : offset + nbytes].copy_(...)` */
  method CopyInto(buf: array<byte>, offset: nat, data: seq<byte>)
    requires offset + |data| <= buf.Length
    modifies buf
    ensures buf[..] == old(buf[..offset]) + data + old(buf[offset + |data|..])
  {
    for i := 0 to |data|
      invariant buf[..offset] == old(buf[..offset])
      invariant buf[offset..offset + i] == data[..i]
      invariant buf[offset + |data|..] == old(buf[offset + |data|..])
    {
      buf[offset + i] := data[i];
    }
    assert buf[..] == buf[..offset] + buf[offset..offset + |data|] + buf[offset + |data|..];
  }

  /** At the head of the loop: `posted` is posted, `rest` still to come and `b` the bucket being filled. */
  ghost predicate AtHead(ws: seq<Weight>, cap: nat, posted: seq<Bucket>, rest: seq<Weight>, b: Bucket) {
    Pack(ws, EMPTY, cap) == (posted + Pack(rest, b, cap).0, Pack(rest, b, cap).1)
  }

  /** The same at the fit assertion. */
  ghost predicate AtFit(ws: seq<Weight>, cap: nat, posted: seq<Bucket>, rest: seq<Weight>, b: Bucket) {
    rest != [] && Pack(ws, EMPTY, cap) == (posted + Place(rest, b, cap).0, Place(rest, b, cap).1)
  }

  lemma HeadStarts(ws: seq<Weight>, cap: nat)
    ensures AtHead(ws, cap, [], ws, EMPTY)
  {
    assert [] + Pack(ws, EMPTY, cap).0 == Pack(ws, EMPTY, cap).0;
  }

  lemma HeadToFit(ws: seq<Weight>, cap: nat, posted: seq<Bucket>, rest: seq<Weight>, b: Bucket)
    requires AtHead(ws, cap, posted, rest, b) && rest != []
    ensures if |b.image| + |rest[0].data| > cap then AtFit(ws, cap, posted + [b], rest, EMPTY)
            else AtFit(ws, cap, posted, rest, b)
  {
    if |b.image| + |rest[0].data| > cap {
      var more := Place(rest, EMPTY, cap).0;
      assert posted + ([b] + more) == posted + [b] + more;
    }
  }

  lemma FitToHead(ws: seq<Weight>, cap: nat, posted: seq<Bucket>, rest: seq<Weight>, b: Bucket)
    requires AtFit(ws, cap, posted, rest, b)
    ensures if |b.image| + |rest[0].data| > cap then Pack(ws, EMPTY, cap) == (posted, false)
            else AtHead(ws, cap, posted, rest[1..], AddWeight(b, rest[0]))
  {
    assert posted + [] == posted;
  }

  lemma HeadEnds(ws: seq<Weight>, cap: nat, posted: seq<Bucket>, b: Bucket)
    requires AtHead(ws, cap, posted, [], b)
    ensures Pack(ws, EMPTY, cap) == (posted + [b], true)
  {
  }

  /** The bytes of the last post are still in its buffer. */
  ghost predicate Kept(posted: seq<Bucket>, buf: seq<byte>) {
    posted != [] ==> var img := posted[|posted| - 1].image; |img| <= |buf| && buf[..|img|] == img
  }

  /** The loop of `send_weights` over its two physical buffers, each post recorded as the metadata and the
      bytes that the posted buffer holds. The buffer of the last post is left untouched while the other fills. */
  method FillBuckets(ws: seq<Weight>, cap: nat, bufA: array<byte>, bufB: array<byte>)
    returns (posted: seq<Bucket>, ok: bool)
    requires bufA != bufB && bufA.Length == bufB.Length == cap
    modifies bufA, bufB
    ensures (posted, ok) == Pack(ws, EMPTY, cap)
    ensures ok ==> posted != [] && |posted[|posted|-1].image| <= cap
    ensures ok ==> (if |posted| % 2 == 1 then bufA else bufB)[..|posted[|posted|-1].image|] == posted[|posted|-1].image
  {
    posted, ok := [], true;
    var send, recv := bufA, bufB;
    var meta: seq<TensorMeta>, offset := [], 0;
    HeadStarts(ws, cap);
    assert Bucket(meta, send[..offset]) == EMPTY && ws[0..] == ws;
    var i := 0;
    while i < |ws|
      invariant 0 <= i <= |ws| && offset <= cap
      invariant {send, recv} == {bufA, bufB} && (send == bufA <==> |posted| % 2 == 0)
      invariant AtHead(ws, cap, posted, ws[i..], Bucket(meta, send[..offset]))
      invariant Kept(posted, recv[..])
    {
      var w := ws[i];
      HeadToFit(ws, cap, posted, ws[i..], Bucket(meta, send[..offset]));
      if offset + |w.data| > cap {
        posted := posted + [Bucket(meta, send[..offset])];
        send, recv := recv, send;
        meta, offset := [], 0;
        assert Bucket(meta, send[..offset]) == EMPTY;
      }
      FitToHead(ws, cap, posted, ws[i..], Bucket(meta, send[..offset]));
      if offset + |w.data| > cap { return posted, false; }
      ghost var b := Bucket(meta, send[..offset]);
      meta := PutMeta(meta, MetaOf(w, offset));
      CopyInto(send, offset, w.data);
      offset := offset + |w.data|;
      assert Bucket(meta, send[..offset]) == AddWeight(b, w) && ws[i..][1..] == ws[i + 1..];
      i := i + 1;
    }
    assert ws[i..] == [];
    HeadEnds(ws, cap, posted, Bucket(meta, send[..offset]));
    posted := posted + [Bucket(meta, send[..offset])];
  }
}
