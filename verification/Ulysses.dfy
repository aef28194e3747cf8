/** Sequence-parallel re-sharding. A list holds one tensor per rank of the group; a collective maps the list of
    inputs to the list of outputs. */
module Ulysses {
  import opened Wrappers
  import opened Arithmetic
  import opened Tensors

  datatype Error = ShapeMismatch | AssertionFailed

  predicate HasDims<T>(xs: seq<Tensor<T>>, a: nat, b: nat) {
    |xs| > 0 && forall r :: 0 <= r < |xs| ==> a < |xs[r].shape| && b < |xs[r].shape|
  }

  // ---------- all_to_all_tensor ----------

  /** The shape of the chunk that rank `from` sends to rank `to`. */
  function SentShape<T>(xs: seq<Tensor<T>>, d: nat, from: nat, to: nat): seq<nat>
    requires HasDims(xs, d, d) && from < |xs| && to < |xs|
  {
    Chunk(xs[from], |xs|, d, to).shape
  }

  /** Every receive buffer has the shape of its rank's own first chunk, and must fit what arrives in it. */
  predicate Matched<T>(xs: seq<Tensor<T>>, d: nat)
    requires HasDims(xs, d, d)
  {
    forall r, s :: 0 <= r < |xs| && 0 <= s < |xs| ==> SentShape(xs, d, s, r) == SentShape(xs, d, r, 0)
  }

  /** `output_list` of rank r: the r-th chunk of every rank. */
  function Received<T>(xs: seq<Tensor<T>>, d: nat, r: nat): (ys: seq<Tensor<T>>)
    requires HasDims(xs, d, d) && Matched(xs, d) && r < |xs|
    ensures |ys| == |xs| && SameShapes(ys) && ys[0].shape == SentShape(xs, d, r, 0)
    ensures |ys[0].shape| == |xs[r].shape|
  {
    var ys := seq(|xs|, s requires 0 <= s < |xs| => Chunk(xs[s], |xs|, d, r));
    assert forall s :: 0 <= s < |xs| ==> ys[s].shape == SentShape(xs, d, s, r);
    ys
  }

  function AllToAll<T>(xs: seq<Tensor<T>>, scatterDim: nat, gatherDim: nat): (r: Result<seq<Tensor<T>>, Error>)
    requires HasDims(xs, scatterDim, gatherDim)
    ensures r.Ok? <==> Matched(xs, scatterDim)
  {
    if !Matched(xs, scatterDim) then Err(ShapeMismatch)
    else Ok(seq(|xs|, r requires 0 <= r < |xs| => Cat(Received(xs, scatterDim, r), gatherDim)))
  }

  /** The exchange goes through exactly when all ranks hold the same shape and its scattered dimension divides
      evenly. */
  lemma MatchedExactly<T>(xs: seq<Tensor<T>>, d: nat)
    requires HasDims(xs, d, d)
    ensures Matched(xs, d) <==> SameShapes(xs) && xs[0].shape[d] % |xs| == 0
  {
    var n := |xs|;
    if SameShapes(xs) && xs[0].shape[d] % n == 0 {
      forall r, s | 0 <= r < n && 0 <= s < n ensures SentShape(xs, d, s, r) == SentShape(xs, d, r, 0) {
        ChunkStartBounds(xs[s].shape[d], n, r);
        ChunkStartBounds(xs[r].shape[d], n, 0);
      }
    }
    if Matched(xs, d) {
      forall r | 0 <= r < n ensures xs[r].shape == xs[0].shape && xs[r].shape[d] % n == 0 {
        EvenlySplit(xs, d, r);
        EvenlySplit(xs, d, 0);
        assert SentShape(xs, d, r, 0) == SentShape(xs, d, 0, 0);
        UnevenPart(xs[r], xs[0], n, d);
      }
    }
  }

  /** One rank's dimension divides evenly when its own first and last chunk agree. */
  lemma EvenlySplit<T>(xs: seq<Tensor<T>>, d: nat, r: nat)
    requires HasDims(xs, d, d) && Matched(xs, d) && r < |xs|
    ensures xs[r].shape[d] % |xs| == 0
  {
    var n := |xs|;
    assert SentShape(xs, d, r, n - 1) == SentShape(xs, d, n - 1, 0) == SentShape(xs, d, 0, 0);
    assert SentShape(xs, d, r, 0) == SentShape(xs, d, 0, 0);
    ChunkStartBounds(xs[r].shape[d], n, 0);
    ChunkStartBounds(xs[r].shape[d], n, n - 1);
    assert SentShape(xs, d, r, 0)[d] == SentShape(xs, d, r, n - 1)[d];
  }

  lemma UnevenPart<T>(a: Tensor<T>, b: Tensor<T>, n: nat, d: nat)
    requires n > 0 && d < |a.shape| && d < |b.shape| && a.shape[d] % n == 0 && b.shape[d] % n == 0
    requires Chunk(a, n, d, 0).shape == Chunk(b, n, d, 0).shape
    ensures a.shape == b.shape
  {
    ChunkStartBounds(a.shape[d], n, 0);
    ChunkStartBounds(b.shape[d], n, 0);
    var c := Chunk(a, n, d, 0).shape;
    assert c == a.shape[d := a.shape[d] / n] == b.shape[d := b.shape[d] / n];
    assert c[d] == a.shape[d] / n == b.shape[d] / n;
    assert a.shape[d] == b.shape[d];
    forall j | 0 <= j < |a.shape| ensures a.shape[j] == b.shape[j] {
      if j != d { assert c[j] == a.shape[j] == b.shape[j]; }
    }
  }

  /** The shape every rank holds after the exchange. */
  function Resharded(shape: seq<nat>, n: nat, scatterDim: nat, gatherDim: nat): (r: seq<nat>)
    requires n > 0 && scatterDim < |shape| && gatherDim < |shape|
    ensures |r| == |shape|
  {
    var part := shape[scatterDim := shape[scatterDim] / n];
    part[gatherDim := n * part[gatherDim]]
  }

  /** Where the element at idx of rank r comes from: which rank, and where in it. */
  function SourceRank(shape: seq<nat>, n: nat, scatterDim: nat, gatherDim: nat, idx: Index): int
    requires n > 0 && scatterDim < |shape| && gatherDim < |shape| == |idx|
  {
    var g := shape[scatterDim := shape[scatterDim] / n][gatherDim];
    if g == 0 then 0 else idx[gatherDim] / g
  }

  function SourceIndex(shape: seq<nat>, n: nat, scatterDim: nat, gatherDim: nat, r: nat, idx: Index): Index
    requires n > 0 && scatterDim < |shape| && gatherDim < |shape| == |idx|
  {
    var g := shape[scatterDim := shape[scatterDim] / n][gatherDim];
    if g == 0 then idx
    else Shift(idx[gatherDim := idx[gatherDim] % g], scatterDim, r * (shape[scatterDim] / n))
  }

  /** What the exchange does to every element of every rank. */
  lemma AllToAllAt<T>(xs: seq<Tensor<T>>, sd: nat, gd: nat, r: nat, idx: Index)
    requires HasDims(xs, sd, gd) && Matched(xs, sd) && r < |xs|
    requires SameShapes(xs) && xs[0].shape[sd] % |xs| == 0
    ensures var y := AllToAll(xs, sd, gd).value[r];
            var shape := xs[0].shape;
            y.shape == Resharded(shape, |xs|, sd, gd) &&
            (InShape(idx, y.shape) ==>
              var from := SourceRank(shape, |xs|, sd, gd, idx);
              0 <= from < |xs| && y.at(idx) == xs[from].at(SourceIndex(shape, |xs|, sd, gd, r, idx)))
  {
    var n, shape := |xs|, xs[0].shape;
    var ys := Received(xs, sd, r);
    ChunkStartBounds(shape[sd], n, 0);
    ChunkStartBounds(shape[sd], n, r);
    assert xs[r].shape == shape;
    var g := ys[0].shape[gd];
    assert ys[0].shape == shape[sd := shape[sd] / n];
    if InShape(idx, AllToAll(xs, sd, gd).value[r].shape) {
      DivBelow(idx[gd], n, g);
      var s := idx[gd] / g;
      assert ys[s] == Chunk(xs[s], n, sd, r);
      assert xs[s].shape == shape;
    }
  }

  lemma ShapeBack(shape: seq<nat>, n: nat, sd: nat, gd: nat)
    requires n > 0 && sd < |shape| && gd < |shape| && shape[sd] % n == 0
    ensures var out := Resharded(shape, n, sd, gd);
            out[gd] % n == 0 && Resharded(out, n, gd, sd) == shape
  {
    var out := Resharded(shape, n, sd, gd);
    MultipleOf(n, shape[sd := shape[sd] / n][gd]);
    assert n * (shape[sd] / n) == shape[sd];
  }

  /** Following an element back through the second exchange and then the first leads to where it started. */
  lemma IndexBack(shape: seq<nat>, n: nat, sd: nat, gd: nat, r: nat, idx: Index)
    requires r < n && sd < |shape| && gd < |shape| && shape[sd] % n == 0 && InShape(idx, shape)
    ensures var out := Resharded(shape, n, sd, gd);
            var s, j := SourceRank(out, n, gd, sd, idx), SourceIndex(out, n, gd, sd, r, idx);
            0 <= s < n && InShape(j, out) &&
            SourceRank(shape, n, sd, gd, j) == r && SourceIndex(shape, n, sd, gd, s, j) == idx
  {
    if sd == gd { IndexBackSame(shape, n, sd, r, idx); } else { IndexBackApart(shape, n, sd, gd, r, idx); }
  }

  lemma IndexBackSame(shape: seq<nat>, n: nat, d: nat, r: nat, idx: Index)
    requires r < n && d < |shape| && shape[d] % n == 0 && InShape(idx, shape)
    ensures var out := Resharded(shape, n, d, d);
            var s, j := SourceRank(out, n, d, d, idx), SourceIndex(out, n, d, d, r, idx);
            0 <= s < n && InShape(j, out) &&
            SourceRank(shape, n, d, d, j) == r && SourceIndex(shape, n, d, d, s, j) == idx
  {
    var g := shape[d] / n;
    assert Resharded(shape, n, d, d)[d] == n * g == shape[d];
    BlockBack(n, g, r, idx[d]);
    IndexIs(shape, n, d, r, idx, g);
    IndexIs(shape, n, d, idx[d] / g, idx[d := idx[d] % g + r * g], g);
  }

  lemma BlockBack(n: nat, g: nat, r: nat, x: int)
    requires r < n && 0 <= x < n * g
    ensures g > 0 && 0 <= x / g < n && 0 <= x % g < g && x % g + (x / g) * g == x
    ensures 0 <= x % g + r * g < n * g && (x % g + r * g) / g == r && (x % g + r * g) % g == x % g
  {
    OnlyZeroBetween(n, g);
    DivBelow(x, n, g);
    BlockBelow(r, n, g, x % g);
    DivMod(r, g, x % g);
  }

  lemma IndexIs(shape: seq<nat>, n: nat, d: nat, r: nat, idx: Index, g: nat)
    requires n > 0 && d < |shape| == |idx| && shape[d] / n == g > 0 && Resharded(shape, n, d, d)[d] == shape[d]
    ensures SourceIndex(shape, n, d, d, r, idx) == idx[d := idx[d] % g + r * g]
    ensures SourceIndex(Resharded(shape, n, d, d), n, d, d, r, idx) == idx[d := idx[d] % g + r * g]
    ensures SourceRank(shape, n, d, d, idx) == SourceRank(Resharded(shape, n, d, d), n, d, d, idx) == idx[d] / g
  {
  }

  lemma IndexBackApart(shape: seq<nat>, n: nat, sd: nat, gd: nat, r: nat, idx: Index)
    requires r < n && sd < |shape| && gd < |shape| && sd != gd && shape[sd] % n == 0 && InShape(idx, shape)
    ensures var out := Resharded(shape, n, sd, gd);
            var s, j := SourceRank(out, n, gd, sd, idx), SourceIndex(out, n, gd, sd, r, idx);
            0 <= s < n && InShape(j, out) &&
            SourceRank(shape, n, sd, gd, j) == r && SourceIndex(shape, n, sd, gd, s, j) == idx
  {
    var p, g := shape[sd] / n, shape[gd];
    var out := Resharded(shape, n, sd, gd);
    assert out == shape[sd := p][gd := n * g];
    MultipleOf(n, g);
    assert n * p == shape[sd];
    DivBelow(idx[sd], n, p);
    var s, o := idx[sd] / p, idx[sd] % p;
    var j := SourceIndex(out, n, gd, sd, r, idx);
    assert j == idx[sd := o][gd := idx[gd] + r * g];
    BlockBelow(r, n, g, idx[gd]);
    DivMod(r, g, idx[gd]);
    assert SourceIndex(shape, n, sd, gd, s, j) == idx[sd := o][gd := idx[gd]][sd := o + s * p];
  }

  /** `all_to_all_tensor` with scatter and gather dimensions swapped undoes itself, on every rank, for every shape it
      accepts and whichever two dimensions are chosen. */
  lemma AllToAllUndone<T(!new)>(xs: seq<Tensor<T>>, sd: nat, gd: nat)
    requires HasDims(xs, sd, gd) && AllToAll(xs, sd, gd).Ok?
    ensures var ys := AllToAll(xs, sd, gd).value;
            HasDims(ys, gd, sd) && |ys| == |xs| && SameShapes(ys) && AllToAll(ys, gd, sd).Ok? &&
            |AllToAll(ys, gd, sd).value| == |xs| &&
            forall r :: 0 <= r < |xs| ==> Same(AllToAll(ys, gd, sd).value[r], xs[r])
  {
    MatchedExactly(xs, sd);
    var n, shape, ys := |xs|, xs[0].shape, AllToAll(xs, sd, gd).value;
    var out := Resharded(shape, n, sd, gd);
    forall r | 0 <= r < n ensures ys[r].shape == out { AllToAllAt(xs, sd, gd, r, []); }
    ShapeBack(shape, n, sd, gd);
    MatchedExactly(ys, gd);
    forall r | 0 <= r < n ensures Same(AllToAll(ys, gd, sd).value[r], xs[r]) {
      RankBack(xs, ys, sd, gd, r);
    }
  }

  lemma RankBack<T(!new)>(xs: seq<Tensor<T>>, ys: seq<Tensor<T>>, sd: nat, gd: nat, r: nat)
    requires HasDims(xs, sd, gd) && Matched(xs, sd) && SameShapes(xs) && xs[0].shape[sd] % |xs| == 0 && r < |xs|
    requires ys == AllToAll(xs, sd, gd).value && |ys| == |xs|
    requires SameShapes(ys) && ys[0].shape == Resharded(xs[0].shape, |xs|, sd, gd)
    requires HasDims(ys, gd, sd) && Matched(ys, gd) && ys[0].shape[gd] % |ys| == 0
    ensures Same(AllToAll(ys, gd, sd).value[r], xs[r])
  {
    var n, shape, out := |xs|, xs[0].shape, ys[0].shape;
    var z := AllToAll(ys, gd, sd).value[r];
    AllToAllAt(ys, gd, sd, r, []);
    ShapeBack(shape, n, sd, gd);
    assert xs[r].shape == shape;
    forall idx | InShape(idx, shape) ensures z.at(idx) == xs[r].at(idx) {
      AllToAllAt(ys, gd, sd, r, idx);
      IndexBack(shape, n, sd, gd, r, idx);
      var s, j := SourceRank(out, n, gd, sd, idx), SourceIndex(out, n, gd, sd, r, idx);
      AllToAllAt(xs, sd, gd, s, j);
    }
  }

  /** Along two different dimensions the exchange gives rank r the r-th slice of all tensors put together. */
  lemma ExchangeIsSlice<T(!new)>(xs: seq<Tensor<T>>, sd: nat, gd: nat, r: nat)
    requires HasDims(xs, sd, gd) && sd != gd && AllToAll(xs, sd, gd).Ok? && r < |xs|
    ensures SameShapes(xs) && xs[0].shape[sd] % |xs| == 0
    ensures Same(AllToAll(xs, sd, gd).value[r], Chunk(Cat(xs, gd), |xs|, sd, r))
  {
    MatchedExactly(xs, sd);
    var n, shape, y := |xs|, xs[0].shape, AllToAll(xs, sd, gd).value[r];
    var all := Cat(xs, gd);
    AllToAllAt(xs, sd, gd, r, []);
    ChunkStartBounds(all.shape[sd], n, r);
    assert Chunk(all, n, sd, r).shape == y.shape;
    forall idx | InShape(idx, y.shape) ensures y.at(idx) == Chunk(all, n, sd, r).at(idx) {
      AllToAllAt(xs, sd, gd, r, idx);
      SliceOfCat(xs, sd, gd, r, idx);
    }
  }

  lemma SliceOfCat<T(!new)>(xs: seq<Tensor<T>>, sd: nat, gd: nat, r: nat, idx: Index)
    requires HasDims(xs, sd, gd) && sd != gd && SameShapes(xs) && xs[0].shape[sd] % |xs| == 0 && r < |xs|
    requires InShape(idx, Resharded(xs[0].shape, |xs|, sd, gd))
    ensures var from := SourceRank(xs[0].shape, |xs|, sd, gd, idx);
            0 <= from < |xs| &&
            Chunk(Cat(xs, gd), |xs|, sd, r).at(idx) == xs[from].at(SourceIndex(xs[0].shape, |xs|, sd, gd, r, idx))
  {
    var n, shape := |xs|, xs[0].shape;
    var g := shape[gd];
    assert 0 <= idx[gd] < n * g;
    OnlyZeroBetween(n, g);
    DivBelow(idx[gd], n, g);
    ChunkStartBounds(shape[sd], n, r);
    var at := Shift(idx, sd, r * (shape[sd] / n));
    assert at[gd := at[gd] % g] == SourceIndex(shape, n, sd, gd, r, idx);
  }

  // ---------- gather_seq_scatter_heads, gather_heads_scatter_seq ----------

  /** How many rows complete the last shard. */
  function PadSize(size: nat, n: nat): (p: nat)
    requires n > 0
    ensures p < n && (size + p) % n == 0 && (p == 0 <==> size % n == 0)
  {
    if size % n == 0 then 0
    else
      UpToMultiple(size, n);
      n - size % n
  }

  lemma UpToMultiple(size: nat, n: nat)
    requires n > 0
    ensures (size + (n - size % n)) % n == 0
  {
    assert size + (n - size % n) == (size / n + 1) * n + 0;
    DivMod(size / n + 1, n, 0);
  }

  function Zeros<T>(zero: T): Index -> T { idx => zero }

  function PadToMultiple<T>(x: Tensor<T>, d: nat, n: nat, zero: T): Tensor<T>
    requires n > 0 && d < |x.shape|
  {
    if x.shape[d] % n == 0 then x else PadWith(x, d, PadSize(x.shape[d], n), Zeros(zero))
  }

  function CutTo<T>(x: Tensor<T>, d: nat, unpadded: nat, n: nat): Tensor<T>
    requires n > 0 && d < |x.shape|
  {
    if unpadded > 0 && unpadded % n != 0 then Unpad(x, d, x.shape[d] - unpadded) else x
  }

  function GatherSeqScatterHeads<T>(xs: seq<Tensor<T>>, seqDim: nat, headDim: nat,
                                    unpadded: nat): Result<seq<Tensor<T>>, Error>
    requires HasDims(xs, headDim, seqDim)
  {
    var ys := AllToAll(xs, headDim, seqDim);
    if ys.Err? then ys
    else
      KeepsDims(xs, headDim, seqDim);
      Ok(seq(|xs|, r requires 0 <= r < |xs| => CutTo(ys.value[r], seqDim, unpadded, |xs|)))
  }

  function PaddedInputs<T>(xs: seq<Tensor<T>>, d: nat, zero: T): (ys: seq<Tensor<T>>)
    requires HasDims(xs, d, d)
    ensures |ys| == |xs| && forall r :: 0 <= r < |xs| ==> |ys[r].shape| == |xs[r].shape|
  {
    seq(|xs|, r requires 0 <= r < |xs| => PadToMultiple(xs[r], d, |xs|, zero))
  }

  function GatherHeadsScatterSeq<T>(xs: seq<Tensor<T>>, headDim: nat, seqDim: nat, zero: T): Result<seq<Tensor<T>>, Error>
    requires HasDims(xs, seqDim, headDim)
  {
    AllToAll(PaddedInputs(xs, seqDim, zero), seqDim, headDim)
  }

  lemma KeepsDims<T>(xs: seq<Tensor<T>>, sd: nat, gd: nat)
    requires HasDims(xs, sd, gd) && AllToAll(xs, sd, gd).Ok?
    ensures var ys := AllToAll(xs, sd, gd).value;
            SameShapes(xs) && xs[0].shape[sd] % |xs| == 0 && |ys| == |xs| && HasDims(ys, gd, sd) &&
            forall r :: 0 <= r < |xs| ==> ys[r].shape == Resharded(xs[0].shape, |xs|, sd, gd)
  {
    MatchedExactly(xs, sd);
    forall r | 0 <= r < |xs| ensures AllToAll(xs, sd, gd).value[r].shape == Resharded(xs[0].shape, |xs|, sd, gd) {
      AllToAllAt(xs, sd, gd, r, []);
    }
  }

  /** The rows of n shards, or the row that shard n starts at. */
  function RowsOf(n: nat, shard: nat): nat { n * shard }

  /** z is x with every row from `rows` on replaced by zeros, x being the shard that starts at row `start`. */
  ghost predicate Blanked<T(!new)>(z: Tensor<T>, x: Tensor<T>, d: nat, start: nat, rows: nat, zero: T)
    requires d < |x.shape|
  {
    z.shape == x.shape &&
    forall idx :: InShape(idx, x.shape) ==> z.at(idx) == if start + idx[d] < rows then x.at(idx) else zero
  }

  /** What attention works on: rank r holds the real rows of the whole sequence for its own slice of the heads. */
  lemma SeqGathered<T(!new)>(xs: seq<Tensor<T>>, seqDim: nat, headDim: nat, unpadded: nat, r: nat)
    requires HasDims(xs, headDim, seqDim) && headDim != seqDim && AllToAll(xs, headDim, seqDim).Ok? && r < |xs|
    requires unpadded > 0 ==> RowsOf(|xs|, xs[0].shape[seqDim]) == unpadded + PadSize(unpadded, |xs|)
    ensures SameShapes(xs)
    ensures var ys, all := GatherSeqScatterHeads(xs, seqDim, headDim, unpadded), Cat(xs, seqDim);
            var heads, rows := xs[0].shape[headDim] / |xs|, if unpadded > 0 then unpadded else all.shape[seqDim];
            ys.Ok? && r < |ys.value| && ys.value[r].shape == all.shape[seqDim := rows][headDim := heads] &&
            forall idx :: InShape(idx, ys.value[r].shape) ==> ys.value[r].at(idx) == all.at(Shift(idx, headDim, r * heads))
  {
    ExchangeIsSlice(xs, headDim, seqDim, r);
    var y, all := AllToAll(xs, headDim, seqDim).value[r], Cat(xs, seqDim);
    ChunkStartBounds(all.shape[headDim], |xs|, r);
    var z := CutTo(y, seqDim, unpadded, |xs|);
    assert z.shape[headDim] == y.shape[headDim];
    forall idx | InShape(idx, z.shape) ensures z.at(idx) == all.at(Shift(idx, headDim, r * (xs[0].shape[headDim] / |xs|))) {
      assert Shift(idx, seqDim, 0) == idx;
      assert InShape(idx, y.shape);
    }
  }

  /** And back: rank r holds its own slice of the padded rows for all heads. */
  lemma HeadsGathered<T(!new)>(ys: seq<Tensor<T>>, headDim: nat, seqDim: nat, zero: T, r: nat)
    requires HasDims(ys, seqDim, headDim) && headDim != seqDim && r < |ys|
    requires GatherHeadsScatterSeq(ys, headDim, seqDim, zero).Ok?
    ensures var zs, ps := GatherHeadsScatterSeq(ys, headDim, seqDim, zero).value, PaddedInputs(ys, seqDim, zero);
            r < |zs| && SameShapes(ps) && Same(zs[r], Chunk(Cat(ps, headDim), |ys|, seqDim, r))
  {
    ExchangeIsSlice(PaddedInputs(ys, seqDim, zero), seqDim, headDim, r);
  }

  /** Attention's way there and back. Each of n ranks holds its shard of a sequence of `rows` rows padded to a
      multiple of n. Gathering the sequence and cutting it to the real rows, then padding it again and scattering it,
      returns every rank's shard: real rows are unchanged and rows of padding are zero. */
  lemma SeqGatherUndone<T(!new)>(xs: seq<Tensor<T>>, seqDim: nat, headDim: nat, unpadded: nat, zero: T)
    requires HasDims(xs, headDim, seqDim) && headDim != seqDim && AllToAll(xs, headDim, seqDim).Ok?
    requires unpadded > 0 ==> RowsOf(|xs|, xs[0].shape[seqDim]) == unpadded + PadSize(unpadded, |xs|)
    ensures var ys := GatherSeqScatterHeads(xs, seqDim, headDim, unpadded);
            ys.Ok? && HasDims(ys.value, seqDim, headDim) &&
            var zs, shard := GatherHeadsScatterSeq(ys.value, headDim, seqDim, zero), xs[0].shape[seqDim];
            var rows := if unpadded > 0 then unpadded else RowsOf(|xs|, shard);
            (forall r :: 0 <= r < |xs| ==> ys.value[r].shape[seqDim] == rows) &&
            zs.Ok? && |zs.value| == |xs| &&
            forall r :: 0 <= r < |xs| ==> Blanked(zs.value[r], xs[r], seqDim, RowsOf(r, shard), rows, zero)
  {
    var n, shard := |xs|, xs[0].shape[seqDim];
    var ys := AllToAll(xs, headDim, seqDim).value;
    KeepsDims(xs, headDim, seqDim);
    MultipleOf(n, shard);
    var cut := GatherSeqScatterHeads(xs, seqDim, headDim, unpadded).value;
    PaddedShards(ys, cut, seqDim, unpadded, zero);
    ExchangedBack(xs, ys, PaddedInputs(cut, seqDim, zero), seqDim, headDim,
                  if unpadded > 0 then unpadded else RowsOf(n, shard), zero);
  }

  /** Blanking rows between an exchange and the reverse exchange blanks the same rows of the sequence. */
  lemma ExchangedBack<T(!new)>(xs: seq<Tensor<T>>, ys: seq<Tensor<T>>, ps: seq<Tensor<T>>, sd: nat, gd: nat,
                               rows: nat, zero: T)
    requires HasDims(xs, gd, sd) && sd != gd && AllToAll(xs, gd, sd) == Ok(ys)
    requires HasDims(ps, sd, gd) && HasDims(ys, sd, sd) && |ps| == |ys| == |xs|
    requires forall r :: 0 <= r < |ys| ==> Blanked(ps[r], ys[r], sd, 0, rows, zero)
    ensures var zs := AllToAll(ps, sd, gd);
            zs.Ok? && |zs.value| == |xs| &&
            forall r :: 0 <= r < |xs| ==> Blanked(zs.value[r], xs[r], sd, RowsOf(r, xs[0].shape[sd]), rows, zero)
  {
    KeepsDims(xs, gd, sd);
    AllToAllUndone(xs, gd, sd);
    MatchedExactly(ys, sd);
    MatchedExactly(ps, sd);
    forall r | 0 <= r < |xs|
      ensures Blanked(AllToAll(ps, sd, gd).value[r], xs[r], sd, RowsOf(r, xs[0].shape[sd]), rows, zero)
    {
      SameExchange(xs, ys, ps, sd, gd, rows, zero, r);
    }
  }

  lemma PaddedShards<T(!new)>(ys: seq<Tensor<T>>, cut: seq<Tensor<T>>, d: nat, unpadded: nat, zero: T)
    requires |ys| > 0 && HasDims(ys, d, d) && SameShapes(ys) && ys[0].shape[d] % |ys| == 0
    requires unpadded > 0 ==> ys[0].shape[d] == unpadded + PadSize(unpadded, |ys|)
    requires cut == seq(|ys|, r requires 0 <= r < |ys| => CutTo(ys[r], d, unpadded, |ys|))
    ensures HasDims(cut, d, d)
    ensures var rows, ps := if unpadded > 0 then unpadded else ys[0].shape[d], PaddedInputs(cut, d, zero);
            forall r :: 0 <= r < |ys| ==>
              cut[r].shape == ys[0].shape[d := rows] && Blanked(ps[r], ys[r], d, 0, rows, zero)
  {
    var n, out := |ys|, ys[0].shape;
    var rows, ps := if unpadded > 0 then unpadded else out[d], PaddedInputs(cut, d, zero);
    forall r | 0 <= r < n ensures cut[r].shape == out[d := rows] && Blanked(ps[r], ys[r], d, 0, rows, zero) {
      assert cut[r] == CutTo(ys[r], d, unpadded, n);
      assert ps[r] == PadToMultiple(cut[r], d, n, zero);
      assert out[d := out[d]] == out;
      PaddedCut(ys[r], cut[r], d, unpadded, n, zero);
    }
  }

  /** Cutting to the real rows and padding again blanks the rest. */
  lemma PaddedCut<T(!new)>(y: Tensor<T>, cut: Tensor<T>, d: nat, unpadded: nat, n: nat, zero: T)
    requires n > 0 && d < |y.shape| && y.shape[d] % n == 0 && cut == CutTo(y, d, unpadded, n)
    requires unpadded > 0 ==> y.shape[d] == unpadded + PadSize(unpadded, n)
    ensures var rows := if unpadded > 0 then unpadded else y.shape[d];
            Blanked(PadToMultiple(cut, d, n, zero), y, d, 0, rows, zero)
  {
    var p := PadToMultiple(cut, d, n, zero);
    if unpadded > 0 && unpadded % n != 0 {
      assert cut.shape[d] == unpadded;
      assert p.shape == y.shape[d := unpadded][d := y.shape[d]] == y.shape;
      forall idx | InShape(idx, y.shape) ensures p.at(idx) == if idx[d] < unpadded then y.at(idx) else zero {
        assert Shift(idx, d, 0) == idx;
      }
    }
  }

  lemma SameExchange<T(!new)>(xs: seq<Tensor<T>>, ys: seq<Tensor<T>>, ps: seq<Tensor<T>>, sd: nat, gd: nat,
                              rows: nat, zero: T, r: nat)
    requires HasDims(xs, gd, sd) && sd != gd && SameShapes(xs) && r < |xs| == |ys| == |ps|
    requires HasDims(ys, sd, gd) && SameShapes(ys) && Matched(ys, sd) && ys[0].shape[sd] % |ys| == 0
    requires HasDims(ps, sd, gd) && SameShapes(ps) && Matched(ps, sd) && ps[0].shape == ys[0].shape
    requires ys[0].shape == Resharded(xs[0].shape, |xs|, gd, sd) && xs[0].shape[gd] % |xs| == 0
    requires Same(AllToAll(ys, sd, gd).value[r], xs[r])
    requires forall s :: 0 <= s < |xs| ==> Blanked(ps[s], ys[s], sd, 0, rows, zero)
    ensures Blanked(AllToAll(ps, sd, gd).value[r], xs[r], sd, RowsOf(r, xs[0].shape[sd]), rows, zero)
  {
    var n, shape, out := |xs|, xs[0].shape, ys[0].shape;
    var z, y := AllToAll(ps, sd, gd).value[r], AllToAll(ys, sd, gd).value[r];
    AllToAllAt(ps, sd, gd, r, []);
    AllToAllAt(ys, sd, gd, r, []);
    ShapeBack(shape, n, gd, sd);
    MultipleOf(n, shape[sd]);
    forall idx | InShape(idx, xs[r].shape)
      ensures z.at(idx) == if r * shape[sd] + idx[sd] < rows then xs[r].at(idx) else zero
    {
      AllToAllAt(ps, sd, gd, r, idx);
      AllToAllAt(ys, sd, gd, r, idx);
      IndexBack(shape, n, gd, sd, r, idx);
      assert SourceIndex(out, n, sd, gd, r, idx)[sd] == idx[sd] + r * shape[sd];
    }
  }

  /** The other way there and back: for any number of rows, scattering the sequence and gathering it again with its
      size given returns every rank's tensor, padding and all heads included. */
  lemma HeadsGatherUndone<T(!new)>(ys: seq<Tensor<T>>, seqDim: nat, headDim: nat, zero: T)
    requires HasDims(ys, seqDim, headDim) && headDim != seqDim && SameShapes(ys)
    ensures var zs := GatherHeadsScatterSeq(ys, headDim, seqDim, zero);
            zs.Ok? && HasDims(zs.value, headDim, seqDim) &&
            var back := GatherSeqScatterHeads(zs.value, seqDim, headDim, ys[0].shape[seqDim]);
            back.Ok? && |back.value| == |ys| && forall r :: 0 <= r < |ys| ==> Same(back.value[r], ys[r])
  {
    var n, u := |ys|, ys[0].shape[seqDim];
    var ps := PaddedInputs(ys, seqDim, zero);
    forall r | 0 <= r < n ensures ps[r].shape == ys[0].shape[seqDim := u + PadSize(u, n)] {
      assert ps[r] == PadToMultiple(ys[r], seqDim, n, zero);
      assert ys[r].shape == ys[0].shape;
    }
    MatchedExactly(ps, seqDim);
    KeepsDims(ps, seqDim, headDim);
    AllToAllUndone(ps, seqDim, headDim);
    var zs := AllToAll(ps, seqDim, headDim).value;
    var ws := AllToAll(zs, headDim, seqDim).value;
    var back := GatherSeqScatterHeads(zs, seqDim, headDim, u).value;
    forall r | 0 <= r < n ensures Same(back[r], ys[r]) {
      assert Same(ws[r], ps[r]);
      assert ps[r] == PadToMultiple(ys[r], seqDim, n, zero);
      assert ys[r].shape == ys[0].shape;
      CutPadded(ws[r], ys[r], seqDim, n, zero);
    }
  }

  lemma CutPadded<T(!new)>(w: Tensor<T>, y: Tensor<T>, d: nat, n: nat, zero: T)
    requires n > 0 && d < |y.shape| == |w.shape| && Same(w, PadToMultiple(y, d, n, zero))
    ensures Same(CutTo(w, d, y.shape[d], n), y)
  {
    var u := y.shape[d];
    if u > 0 && u % n != 0 { UnpadPadded(w, y, d, PadSize(u, n), Zeros(zero)); }
  }

  lemma UnpadPadded<T(!new)>(w: Tensor<T>, y: Tensor<T>, d: nat, p: nat, fill: Index -> T)
    requires p > 0 && d < |y.shape| == |w.shape| && Same(w, PadWith(y, d, p, fill))
    ensures Same(Unpad(w, d, p), y)
  {
    assert y.shape[d := y.shape[d] + p][d := y.shape[d]] == y.shape;
    forall idx | InShape(idx, y.shape) ensures Unpad(w, d, p).at(idx) == y.at(idx) {
      assert Shift(idx, d, 0) == idx;
      assert InShape(idx, w.shape);
    }
  }

  // ---------- slice_input_tensor, gather_outputs_and_unpad ----------

  function SliceInput<T>(x: Tensor<T>, d: nat, n: nat, rank: nat, padding: bool, zero: T): Tensor<T>
    requires rank < n && d < |x.shape|
  {
    var y := if padding then PadToMultiple(x, d, n, zero) else x;
    var parts := y.shape[d] / n;
    SliceFits(y.shape[d], n, rank);
    Slice(y, d, rank * parts, (rank + 1) * parts)
  }

  lemma SliceFits(size: nat, n: nat, rank: nat)
    requires rank < n
    ensures 0 <= rank * (size / n) <= (rank + 1) * (size / n) <= size
    ensures (rank + 1) * (size / n) - rank * (size / n) == size / n
  {
    StepsBelow(rank, n, size / n);
    assert size == n * (size / n) + size % n;
  }

  /** `Gather`: the group's tensors are stacked along dimension 0, split again, and concatenated along `d`. */
  function Gathered<T>(xs: seq<Tensor<T>>, d: nat): Tensor<T>
    requires |xs| > 0 && SameShapes(xs) && d < |xs[0].shape| && (xs[0].shape[0] > 0 || d == 0)
  {
    var size := xs[0].shape[0];
    var stacked := Cat(xs, 0);
    Cat(seq(|xs|, i requires 0 <= i < |xs| => Piece(stacked, i, size, |xs|)), d)
  }

  function Piece<T>(stacked: Tensor<T>, i: nat, size: nat, n: nat): Tensor<T>
    requires i < n && |stacked.shape| > 0 && stacked.shape[0] == n * size
  {
    StepsBelow(i, n, size);
    Slice(stacked, 0, i * size, (i + 1) * size)
  }

  lemma PieceIsInput<T(!new)>(xs: seq<Tensor<T>>, i: nat)
    requires i < |xs| && SameShapes(xs) && |xs[0].shape| > 0
    ensures Same(Piece(Cat(xs, 0), i, xs[0].shape[0], |xs|), xs[i])
  {
    var size, y := xs[0].shape[0], Cat(xs, 0);
    var piece := Piece(y, i, size, |xs|);
    StepsBelow(i, |xs|, size);
    assert xs[i].shape == xs[0].shape == xs[0].shape[0 := |xs| * size][0 := size];
    forall idx | InShape(idx, xs[i].shape) ensures piece.at(idx) == xs[i].at(idx) {
      var j := Shift(idx, 0, i * size);
      DivMod(i, size, idx[0]);
      assert j[0 := idx[0]] == idx;
    }
  }

  /** Stacking and splitting again changes nothing, so the gather is a concatenation in rank order. */
  lemma GatheredIsCat<T(!new)>(xs: seq<Tensor<T>>, d: nat)
    requires |xs| > 0 && SameShapes(xs) && d < |xs[0].shape| && (xs[0].shape[0] > 0 || d == 0)
    ensures Same(Gathered(xs, d), Cat(xs, d))
  {
    var n, g, size: nat := |xs|, xs[0].shape[d], xs[0].shape[0];
    var ps := seq(n, i requires 0 <= i < n => Piece(Cat(xs, 0), i, size, n));
    forall i | 0 <= i < n ensures Same(ps[i], xs[i]) { PieceIsInput(xs, i); }
    assert Gathered(xs, d) == Cat(ps, d);
    forall idx: Index | InShape(idx, Cat(xs, d).shape) ensures Cat(ps, d).at(idx) == Cat(xs, d).at(idx) {
      DivBelow(idx[d], n, g);
      var s := idx[d] / g;
      assert Same(ps[s], xs[s]) && xs[s].shape == xs[0].shape;
      assert InShape(idx[d := idx[d] % g], xs[s].shape);
    }
  }

  function GatherOutputsAndUnpad<T>(xs: seq<Tensor<T>>, d: nat, unpadDim: Option<nat>, padding: int): Tensor<T>
    requires |xs| > 0 && SameShapes(xs) && d < |xs[0].shape| && (xs[0].shape[0] > 0 || d == 0)
    requires unpadDim.Some? ==> unpadDim.value < |xs[0].shape|
  {
    var x := Gathered(xs, d);
    if unpadDim.None? || padding == 0 then x else Unpad(x, unpadDim.value, padding)
  }

  /** A per-element function, standing for what each rank computes of its own shard. */
  function Map<T, U>(f: T -> U, x: Tensor<T>): Tensor<U> { Tensor(x.shape, idx => f(x.at(idx))) }

  function Shards<T, U>(f: T -> U, x: Tensor<T>, d: nat, n: nat, padding: bool, zero: T): seq<Tensor<U>>
    requires n > 0 && d < |x.shape|
  {
    seq(n, r requires 0 <= r < n => Map(f, SliceInput(x, d, n, r, padding, zero)))
  }

  lemma ShardShapes<T, U>(f: T -> U, x: Tensor<T>, d: nat, n: nat, padding: bool, zero: T)
    requires n > 0 && d < |x.shape|
    ensures var y := if padding then PadToMultiple(x, d, n, zero) else x;
            var shards := Shards(f, x, d, n, padding, zero);
            SameShapes(shards) && shards[0].shape == x.shape[d := y.shape[d] / n]
  {
    var y := if padding then PadToMultiple(x, d, n, zero) else x;
    var shards := Shards(f, x, d, n, padding, zero);
    forall r | 0 <= r < n ensures shards[r].shape == x.shape[d := y.shape[d] / n] {
      ShardShape(f, x, d, n, r, padding, zero);
    }
  }

  lemma ShardShape<T, U>(f: T -> U, x: Tensor<T>, d: nat, n: nat, r: nat, padding: bool, zero: T)
    requires r < n && d < |x.shape|
    ensures var y := if padding then PadToMultiple(x, d, n, zero) else x;
            Map(f, SliceInput(x, d, n, r, padding, zero)).shape == x.shape[d := y.shape[d] / n]
  {
    var y := if padding then PadToMultiple(x, d, n, zero) else x;
    SliceFits(y.shape[d], n, r);
    assert x.shape[d := y.shape[d]][d := y.shape[d] / n] == x.shape[d := y.shape[d] / n];
  }

  /** Shards of an evenly divided tensor concatenate to the whole. */
  lemma ShardsJoin<T(!new), U(!new)>(f: T -> U, x: Tensor<T>, d: nat, n: nat, zero: T)
    requires n > 0 && d < |x.shape| && x.shape[d] % n == 0
    ensures var shards := Shards(f, x, d, n, false, zero);
            SameShapes(shards) && Same(Cat(shards, d), Map(f, x))
  {
    var g, shards := x.shape[d] / n, Shards(f, x, d, n, false, zero);
    ShardShapes(f, x, d, n, false, zero);
    assert n * g == x.shape[d];
    forall idx | InShape(idx, x.shape) ensures Cat(shards, d).at(idx) == Map(f, x).at(idx) {
      DivBelow(idx[d], n, g);
      var s := idx[d] / g;
      assert shards[s] == Map(f, SliceInput(x, d, n, s, false, zero));
      assert Shift(idx[d := idx[d] % g], d, s * g) == idx;
    }
  }

  lemma SameTransitive<T(!new)>(a: Tensor<T>, b: Tensor<T>, c: Tensor<T>)
    requires Same(a, b) && Same(b, c)
    ensures Same(a, c)
  {
  }

  /** Pad, slice, apply any per-element function on each rank, gather and unpad: the same as applying the function to
      the whole, for any dimension and any size. */
  lemma SliceGatherUndone<T(!new), U(!new)>(f: T -> U, x: Tensor<T>, d: nat, n: nat, zero: T)
    requires n > 0 && d < |x.shape| && (d == 0 || x.shape[0] > 0)
    ensures var shards := Shards(f, x, d, n, true, zero);
            SameShapes(shards) && shards[0].shape == x.shape[d := (x.shape[d] + PadSize(x.shape[d], n)) / n] &&
            Same(GatherOutputsAndUnpad(shards, d, Some(d), PadSize(x.shape[d], n)), Map(f, x))
  {
    var y := PadToMultiple(x, d, n, zero);
    JoinUnpadded(f, x, y, d, n, zero, Zeros(zero));
    forall r | 0 <= r < n ensures Shards(f, x, d, n, true, zero)[r] == Shards(f, y, d, n, false, zero)[r] {
      assert SliceInput(x, d, n, r, true, zero) == SliceInput(y, d, n, r, false, zero);
    }
    assert Shards(f, x, d, n, true, zero) == Shards(f, y, d, n, false, zero);
  }

  /** With the padding done beforehand by the caller, with any fill. */
  lemma JoinUnpadded<T(!new), U(!new)>(f: T -> U, x: Tensor<T>, y: Tensor<T>, d: nat, n: nat, zero: T, fill: Index -> T)
    requires n > 0 && d < |x.shape| && (d == 0 || x.shape[0] > 0)
    requires y == if x.shape[d] % n == 0 then x else PadWith(x, d, PadSize(x.shape[d], n), fill)
    ensures var shards := Shards(f, y, d, n, false, zero);
            SameShapes(shards) && shards[0].shape == x.shape[d := y.shape[d] / n] &&
            Same(GatherOutputsAndUnpad(shards, d, Some(d), PadSize(x.shape[d], n)), Map(f, x))
  {
    var p, shards := PadSize(x.shape[d], n), Shards(f, y, d, n, false, zero);
    ShardsJoin(f, y, d, n, zero);
    ShardShapes(f, y, d, n, false, zero);
    assert y.shape[d := y.shape[d] / n] == x.shape[d := y.shape[d] / n];
    GatheredIsCat(shards, d);
    SameTransitive(Gathered(shards, d), Cat(shards, d), Map(f, y));
    if p > 0 { UnpadMapped(f, Gathered(shards, d), x, d, p, fill); }
  }

  lemma UnpadMapped<T(!new), U(!new)>(f: T -> U, w: Tensor<U>, x: Tensor<T>, d: nat, p: nat, fill: Index -> T)
    requires p > 0 && d < |x.shape| == |w.shape| && Same(w, Map(f, PadWith(x, d, p, fill)))
    ensures Same(Unpad(w, d, p), Map(f, x))
  {
    assert x.shape[d := x.shape[d] + p][d := x.shape[d]] == x.shape;
    forall idx | InShape(idx, x.shape) ensures Unpad(w, d, p).at(idx) == f(x.at(idx)) {
      assert Shift(idx, d, 0) == idx;
      assert InShape(idx, w.shape);
    }
  }

  /** Cutting what was padded gives the tensor back exactly when there was padding to cut: a stop of -0 keeps
      nothing, which is why callers skip the cut then. */
  lemma UnpadExactly<T(!new)>(x: Tensor<T>, d: nat, p: nat, fill: Index -> T)
    requires d < |x.shape|
    ensures Same(Unpad(PadWith(x, d, p, fill), d, p), x) <==> p > 0 || x.shape[d] == 0
  {
    var w := PadWith(x, d, p, fill);
    if p > 0 {
      UnpadPadded(w, x, d, p, fill);
    } else if x.shape[d] == 0 {
      assert w.shape[d := 0] == x.shape;
    } else {
      assert Unpad(w, d, p).shape[d] == 0;
    }
  }

  // ---------- ulysses_pad, ulysses_pad_and_slice_inputs ----------

  /** `torch.arange(pad_size)` along the last dimension. */
  function Restart(total: nat): Index -> int {
    idx => if |idx| > 0 then idx[|idx| - 1] - total else 0
  }

  function Const(v: int): Index -> int { idx => v }

  datatype PadResult = PadResult(ids: Tensor<int>, pos: Option<Tensor<int>>, size: nat)

  predicate PositionsFit(ids: Tensor<int>, pos: Option<Tensor<int>>)
    requires |ids.shape| == 2 && (pos.Some? ==> |pos.value.shape| >= 2)
  {
    pos.Some? ==> var s := pos.value.shape; s[|s| - 2] == 1 && s[|s| - 1] == ids.shape[1]
  }

  function UlyssesPad(ids: Tensor<int>, pos: Option<Tensor<int>>, sp: int, padValue: int): (r: Result<PadResult, Error>)
    requires |ids.shape| == 2 && (pos.Some? ==> 2 <= |pos.value.shape| <= 3)
    ensures r.Ok? <==> PositionsFit(ids, pos)
    ensures r.Ok? ==> (r.value.pos.Some? <==> pos.Some?)
  {
    if !PositionsFit(ids, pos) then Err(AssertionFailed)
    else if sp <= 1 then Ok(PadResult(ids, pos, 0))
    else
      var total := ids.shape[1];
      var p := (sp - total % sp) % sp;
      if p > 0 then
        Ok(PadResult(PadWith(ids, 1, p, Const(padValue)),
                     if pos.Some? then Some(PadWith(pos.value, |pos.value.shape| - 1, p, Restart(total))) else None, p))
      else Ok(PadResult(ids, pos, p))
  }

  lemma PadSizeAgrees(total: nat, sp: nat)
    requires sp > 1
    ensures (sp - total % sp) % sp == PadSize(total, sp)
  {
    SmallRemainder(total % sp, sp);
  }

  lemma SmallRemainder(r: nat, sp: nat)
    requires r < sp
    ensures (sp - r) % sp == if r == 0 then 0 else sp - r
  {
    DivMod(if r == 0 then 1 else 0, sp, if r == 0 then 0 else sp - r);
  }

  /** Each rank's token ids and position ids, both sliced along dimension 1. */
  function PadAndSlice(ids: Tensor<int>, pos: Option<Tensor<int>>, sp: nat, padValue: int, rank: nat): Result<PadResult, Error>
    requires |ids.shape| == 2 && (pos.Some? ==> 2 <= |pos.value.shape| <= 3) && rank < sp
  {
    var r := UlyssesPad(ids, pos, sp, padValue);
    if r.Err? then r
    else
      var v := r.value;
      Ok(PadResult(SliceInput(v.ids, 1, sp, rank, false, 0),
                   if v.pos.Some? then Some(SliceInput(v.pos.value, 1, sp, rank, false, 0)) else None, v.size))
  }

  function IdShards<U>(f: int -> U, ids: Tensor<int>, pos: Option<Tensor<int>>, sp: nat, padValue: int): seq<Tensor<U>>
    requires |ids.shape| == 2 && (pos.Some? ==> 2 <= |pos.value.shape| <= 3) && PositionsFit(ids, pos)
  {
    seq(sp, r requires 0 <= r < sp => Map(f, PadAndSlice(ids, pos, sp, padValue, r).value.ids))
  }

  function PositionShards(ids: Tensor<int>, pos: Tensor<int>, sp: nat, padValue: int): seq<Tensor<int>>
    requires |ids.shape| == 2 && 2 <= |pos.shape| <= 3 && PositionsFit(ids, Some(pos))
  {
    seq(sp, r requires 0 <= r < sp => PadAndSlice(ids, Some(pos), sp, padValue, r).value.pos.value)
  }

  function Identity(v: int): int { v }

  /** The training step's use of the pair: pad and slice the token ids, let every rank compute any per-token output,
      gather along the sequence and drop the reported padding. The result is that output for every original token. */
  lemma PadSliceGatherUndone<U(!new)>(f: int -> U, ids: Tensor<int>, pos: Option<Tensor<int>>, sp: nat, padValue: int)
    requires |ids.shape| == 2 && ids.shape[0] > 0 && sp >= 1
    requires (pos.Some? ==> 2 <= |pos.value.shape| <= 3) && PositionsFit(ids, pos)
    ensures var shards := IdShards(f, ids, pos, sp, padValue);
            SameShapes(shards) && |shards[0].shape| == 2 && shards[0].shape[0] > 0 &&
            Same(GatherOutputsAndUnpad(shards, 1, Some(1), UlyssesPad(ids, pos, sp, padValue).value.size), Map(f, ids))
  {
    var v := UlyssesPad(ids, pos, sp, padValue).value;
    if sp > 1 { PadSizeAgrees(ids.shape[1], sp); }
    IdShardsAre(f, ids, pos, sp, padValue);
    JoinUnpadded(f, ids, v.ids, 1, sp, 0, Const(padValue));
  }

  /** What the padding holds: the ranks' slices of the token ids join to the original ids followed by the pad value, up to
      the next multiple of the group size. */
  lemma IdsJoin(ids: Tensor<int>, pos: Option<Tensor<int>>, sp: nat, padValue: int)
    requires |ids.shape| == 2 && sp >= 1 && (pos.Some? ==> 2 <= |pos.value.shape| <= 3) && PositionsFit(ids, pos)
    ensures var shards, p := IdShards(Identity, ids, pos, sp, padValue), PadSize(ids.shape[1], sp);
            SameShapes(shards) && |shards[0].shape| == 2 && UlyssesPad(ids, pos, sp, padValue).value.size == p &&
            var all := Cat(shards, 1);
            all.shape == [ids.shape[0], ids.shape[1] + p] &&
            forall i, j :: 0 <= i < ids.shape[0] && 0 <= j < ids.shape[1] + p ==>
              all.at([i, j]) == if j < ids.shape[1] then ids.at([i, j]) else padValue
  {
    var v := UlyssesPad(ids, pos, sp, padValue).value;
    PaddedIds(ids, pos, sp, padValue);
    IdShardsAre(Identity, ids, pos, sp, padValue);
    JoinedIds(v.ids, sp);
    ShardShapes(Identity, v.ids, 1, sp, false, 0);
  }

  lemma PaddedIds(ids: Tensor<int>, pos: Option<Tensor<int>>, sp: nat, padValue: int)
    requires |ids.shape| == 2 && sp >= 1 && (pos.Some? ==> 2 <= |pos.value.shape| <= 3) && PositionsFit(ids, pos)
    ensures var v, total := UlyssesPad(ids, pos, sp, padValue).value, ids.shape[1];
            v.size == PadSize(total, sp) && v.ids.shape == [ids.shape[0], total + v.size] &&
            forall i, j :: 0 <= i < ids.shape[0] && 0 <= j < total + v.size ==>
              v.ids.at([i, j]) == if j < total then ids.at([i, j]) else padValue
  {
    if sp > 1 { PadSizeAgrees(ids.shape[1], sp); }
  }

  lemma JoinedIds(x: Tensor<int>, sp: nat)
    requires |x.shape| == 2 && sp >= 1 && x.shape[1] % sp == 0
    ensures var shards := Shards(Identity, x, 1, sp, false, 0);
            SameShapes(shards) && |shards[0].shape| == 2 && Cat(shards, 1).shape == x.shape &&
            forall i, j :: 0 <= i < x.shape[0] && 0 <= j < x.shape[1] ==> Cat(shards, 1).at([i, j]) == x.at([i, j])
  {
    var shards := Shards(Identity, x, 1, sp, false, 0);
    ShardsJoin(Identity, x, 1, sp, 0);
    forall i, j | 0 <= i < x.shape[0] && 0 <= j < x.shape[1] ensures Cat(shards, 1).at([i, j]) == x.at([i, j]) {
      assert InShape([i, j], x.shape);
      assert Cat(shards, 1).at([i, j]) == Map(Identity, x).at([i, j]);
    }
  }

  lemma IdShardsAre<U>(f: int -> U, ids: Tensor<int>, pos: Option<Tensor<int>>, sp: nat, padValue: int)
    requires |ids.shape| == 2 && sp >= 1 && (pos.Some? ==> 2 <= |pos.value.shape| <= 3) && PositionsFit(ids, pos)
    ensures IdShards(f, ids, pos, sp, padValue)
            == Shards(f, UlyssesPad(ids, pos, sp, padValue).value.ids, 1, sp, false, 0)
  {
    var v := UlyssesPad(ids, pos, sp, padValue).value;
    forall r | 0 <= r < sp ensures IdShards(f, ids, pos, sp, padValue)[r] == Shards(f, v.ids, 1, sp, false, 0)[r] {
      assert PadAndSlice(ids, pos, sp, padValue, r).value.ids == SliceInput(v.ids, 1, sp, r, false, 0);
    }
  }

  /** The positions that are padded, of shape [1, total] or [k, 1, total]: every row restarts at 0 for the padding. */
  lemma PositionsRestart(ids: Tensor<int>, pos: Tensor<int>, sp: nat, padValue: int)
    requires |ids.shape| == 2 && 2 <= |pos.shape| <= 3 && PositionsFit(ids, Some(pos)) && sp >= 1
    ensures var padded, d, total := UlyssesPad(ids, Some(pos), sp, padValue).value.pos, |pos.shape| - 1, ids.shape[1];
            padded.Some? && padded.value.shape == pos.shape[d := total + PadSize(total, sp)] &&
            forall idx :: InShape(idx, padded.value.shape) ==>
              padded.value.at(idx) == if idx[d] < total then pos.at(idx) else idx[d] - total
  {
    if sp > 1 { PadSizeAgrees(ids.shape[1], sp); }
    assert pos.shape[|pos.shape| - 1 := ids.shape[1]] == pos.shape;
  }

  /** Position ids of shape [1, total]: the ranks' slices join to the original positions followed by 0, 1, ... for the
      padding, which so forms a sequence of its own. */
  lemma PositionsJoin(ids: Tensor<int>, pos: Tensor<int>, sp: nat, padValue: int)
    requires |ids.shape| == 2 && |pos.shape| == 2 && PositionsFit(ids, Some(pos)) && sp > 1
    ensures var shards, p := PositionShards(ids, pos, sp, padValue), PadSize(ids.shape[1], sp);
            SameShapes(shards) && |shards[0].shape| == 2 &&
            var all := Cat(shards, 1);
            all.shape == [1, ids.shape[1] + p] &&
            forall i :: 0 <= i < ids.shape[1] + p ==>
              all.at([0, i]) == if i < ids.shape[1] then pos.at([0, i]) else i - ids.shape[1]
  {
    var v, total := UlyssesPad(ids, Some(pos), sp, padValue).value, ids.shape[1];
    PadSizeAgrees(total, sp);
    var shards := PositionShards(ids, pos, sp, padValue);
    var mapped := Shards(Identity, v.pos.value, 1, sp, false, 0);
    ShardsJoin(Identity, v.pos.value, 1, sp, 0);
    forall r | 0 <= r < sp
      ensures shards[r].shape == mapped[r].shape && (forall idx: Index :: shards[r].at(idx) == mapped[r].at(idx))
    {
      assert shards[r] == SliceInput(v.pos.value, 1, sp, r, false, 0);
    }
    assert SameShapes(shards) by { assert shards[0].shape == mapped[0].shape; }
    forall i | 0 <= i < total + v.size
      ensures Cat(shards, 1).at([0, i]) == if i < total then pos.at([0, i]) else i - total
    {
      assert InShape([0, i], v.pos.value.shape);
      assert Cat(mapped, 1).at([0, i]) == v.pos.value.at([0, i]);
    }
  }

  /** Multimodal position ids of shape [k, 1, total] are sliced along the wrong dimension: every rank gets none. */
  lemma ThreeDimPositionsLost(ids: Tensor<int>, pos: Tensor<int>, sp: nat, padValue: int, rank: nat)
    requires |ids.shape| == 2 && |pos.shape| == 3 && PositionsFit(ids, Some(pos)) && rank < sp
    ensures PadAndSlice(ids, Some(pos), sp, padValue, rank).value.pos.value.shape[1] == if sp == 1 then 1 else 0
  {
    SliceFits(1, sp, rank);
  }
}
