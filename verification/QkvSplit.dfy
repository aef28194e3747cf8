/** De-interleaving a fused QKV weight into separate q, k and v weights. A weight is the list of its rows. The fused
    weight holds one block per key/value head: the rows of that group's query heads, then its k rows, then its v rows. */
module QkvSplit {
  import opened Wrappers
  import opened Arithmetic
  import opened Sums

  datatype Error = AssertionFailed | SizeMismatch | NoChunks | DivisionByZero

  datatype Qkv<T> = Qkv(q: seq<T>, k: seq<T>, v: seq<T>)

  // ---------- What a de-interleaver computes ----------

  function Block<T>(x: seq<T>, size: nat, i: nat): (r: seq<T>)
    requires (i + 1) * size <= |x|
    ensures |r| == size
  {
    assert (i + 1) * size == i * size + size;
    x[i * size..i * size + size]
  }

  lemma BlockFits(n: nat, size: nat, length: nat, i: nat)
    requires i < n && n * size <= length
    ensures (i + 1) * size <= length
  {
    StepsBelow(i, n, size);
  }

  /** The first n blocks of `size` rows. */
  function Blocks<T>(x: seq<T>, n: nat, size: nat): (r: seq<seq<T>>)
    requires n * size <= |x|
    ensures |r| == n && AllSized(r, size)
  {
    seq(n, i requires 0 <= i < n => BlockFits(n, size, |x|, i); Block(x, size, i))
  }

  predicate AllSized<T>(bs: seq<seq<T>>, size: nat) { forall i :: 0 <= i < |bs| ==> |bs[i]| == size }

  /** Rows lo to hi of every block, in order. */
  function Take<T>(bs: seq<seq<T>>, size: nat, lo: nat, hi: nat): seq<T>
    requires AllSized(bs, size) && lo <= hi <= size
  {
    if bs == [] then [] else Take(bs[..|bs| - 1], size, lo, hi) + bs[|bs| - 1][lo..hi]
  }

  /** The split of groups of `a` query rows and `b` rows each of k and v. */
  function Split<T>(bs: seq<seq<T>>, a: nat, b: nat): Qkv<T>
    requires AllSized(bs, a + 2 * b)
  {
    var size := a + 2 * b;
    Qkv(Take(bs, size, 0, a), Take(bs, size, a, a + b), Take(bs, size, a + b, size))
  }

  /** The fused weight of n groups, split. */
  function SplitRows<T>(x: seq<T>, n: nat, a: nat, b: nat): Qkv<T>
    requires n * (a + 2 * b) <= |x|
  {
    Split(Blocks(x, n, a + 2 * b), a, b)
  }

  function Join<T>(s: Qkv<T>, t: Qkv<T>): Qkv<T> { Qkv(s.q + t.q, s.k + t.k, s.v + t.v) }

  lemma {:induction false} TakeJoin<T>(bs: seq<seq<T>>, cs: seq<seq<T>>, size: nat, lo: nat, hi: nat)
    requires AllSized(bs, size) && AllSized(cs, size) && lo <= hi <= size
    ensures Take(bs + cs, size, lo, hi) == Take(bs, size, lo, hi) + Take(cs, size, lo, hi)
  {
    if cs == [] {
      assert bs + cs == bs;
    } else {
      var init, last := cs[..|cs| - 1], cs[|cs| - 1];
      TakeJoin(bs, init, size, lo, hi);
      assert (bs + cs)[..|bs + cs| - 1] == bs + init && (bs + cs)[|bs + cs| - 1] == last;
      Associates(Take(bs, size, lo, hi), Take(init, size, lo, hi), last[lo..hi]);
    }
  }

  lemma SplitJoin<T>(bs: seq<seq<T>>, cs: seq<seq<T>>, a: nat, b: nat)
    requires AllSized(bs, a + 2 * b) && AllSized(cs, a + 2 * b)
    ensures Split(bs + cs, a, b) == Join(Split(bs, a, b), Split(cs, a, b))
  {
    var size := a + 2 * b;
    assert AllSized(bs + cs, size);
    assert Split(bs + cs, a, b).q == Split(bs, a, b).q + Split(cs, a, b).q by { TakeJoin(bs, cs, size, 0, a); }
    assert Split(bs + cs, a, b).k == Split(bs, a, b).k + Split(cs, a, b).k by { TakeJoin(bs, cs, size, a, a + b); }
    assert Split(bs + cs, a, b).v == Split(bs, a, b).v + Split(cs, a, b).v by { TakeJoin(bs, cs, size, a + b, size); }
  }

  /** Blocks of a concatenation of whole blocks. */
  lemma BlocksJoin<T>(x: seq<T>, y: seq<T>, n: nat, m: nat, size: nat)
    requires n * size == |x| && m * size <= |y|
    ensures (n + m) * size <= |x + y| && Blocks(x + y, n + m, size) == Blocks(x, n, size) + Blocks(y, m, size)
  {
    assert (n + m) * size == n * size + m * size;
    forall i | 0 <= i < n + m
      ensures Blocks(x + y, n + m, size)[i] == (Blocks(x, n, size) + Blocks(y, m, size))[i]
    {
      BlockFits(n + m, size, |x + y|, i);
      if i < n { FrontBlock(x, y, n, size, i); } else { BackBlock(x, y, n, m, size, i - n); }
    }
  }

  lemma FrontBlock<T>(x: seq<T>, y: seq<T>, n: nat, size: nat, i: nat)
    requires n * size == |x| && i < n
    ensures (i + 1) * size <= |x| && Block(x + y, size, i) == Block(x, size, i)
  {
    StepsBelow(i, n, size);
  }

  lemma BackBlock<T>(x: seq<T>, y: seq<T>, n: nat, m: nat, size: nat, i: nat)
    requires n * size == |x| && m * size <= |y| && i < m
    ensures (n + i + 1) * size <= |x + y| && (i + 1) * size <= |y|
    ensures Block(x + y, size, n + i) == Block(y, size, i)
  {
    StepsBelow(i, m, size);
    assert (n + i) * size == n * size + i * size;
    assert (n + i + 1) * size == (n + i) * size + size;
  }

  lemma {:induction false} TakeLength<T>(bs: seq<seq<T>>, size: nat, lo: nat, hi: nat)
    requires AllSized(bs, size) && lo <= hi <= size
    ensures |Take(bs, size, lo, hi)| == |bs| * (hi - lo)
  {
    if bs != [] {
      TakeLength(bs[..|bs| - 1], size, lo, hi);
      StepsBelow(|bs| - 1, |bs|, hi - lo);
    }
  }

  lemma {:induction false} TakeAt<T>(bs: seq<seq<T>>, size: nat, lo: nat, hi: nat, g: nat, r: nat)
    requires AllSized(bs, size) && lo <= hi <= size && g < |bs| && r < hi - lo
    ensures var k := g * (hi - lo) + r;
            0 <= k < |Take(bs, size, lo, hi)| && Take(bs, size, lo, hi)[k] == bs[g][lo + r]
  {
    var n := |bs| - 1;
    TakeLength(bs[..n], size, lo, hi);
    if g < n { TakeAt(bs[..n], size, lo, hi, g, r); }
  }

  /** Every row of the fused weight lands in exactly one of q, k and v. */
  lemma EachRowOnce<T>(x: seq<T>, n: nat, a: nat, b: nat)
    requires |x| == n * (a + 2 * b)
    ensures var s := SplitRows(x, n, a, b);
            multiset(s.q) + multiset(s.k) + multiset(s.v) == multiset(x)
  {
    var size := a + 2 * b;
    OnceInBlocks(Blocks(x, n, size), a, b);
    WholeBlocks(x, n, size);
  }

  lemma {:induction false} WholeBlocks<T>(x: seq<T>, n: nat, size: nat)
    requires |x| == n * size
    ensures Take(Blocks(x, n, size), size, 0, size) == x
  {
    if n > 0 {
      StepsBelow(n - 1, n, size);
      var x0, y := x[..(n - 1) * size], x[(n - 1) * size..];
      WholeBlocks(x0, n - 1, size);
      assert x == x0 + y;
      BlocksJoin(x0, y, n - 1, 1, size);
      assert Block(y, size, 0) == y;
      assert Blocks(y, 1, size) == [y];
    }
  }

  /** All rows of these blocks. */
  function Whole<T>(bs: seq<seq<T>>, size: nat): seq<T>
    requires AllSized(bs, size)
  {
    Take(bs, size, 0, size)
  }

  lemma {:induction false} OnceInBlocks<T>(bs: seq<seq<T>>, a: nat, b: nat)
    requires AllSized(bs, a + 2 * b)
    ensures Once(Split(bs, a, b), Whole(bs, a + 2 * b))
  {
    if bs != [] {
      var init, y := bs[..|bs| - 1], bs[|bs| - 1];
      OnceInBlocks(init, a, b);
      NextBlock(bs, a, b);
      JoinOnce(Split(init, a, b), Whole(init, a + 2 * b), y[0..a], y[a..a + b], y[a + b..a + 2 * b]);
    }
  }

  predicate Once<T(==)>(s: Qkv<T>, whole: seq<T>) {
    multiset(s.q) + multiset(s.k) + multiset(s.v) == multiset(whole)
  }

  lemma NextBlock<T>(bs: seq<seq<T>>, a: nat, b: nat)
    requires bs != [] && AllSized(bs, a + 2 * b)
    ensures var init, y := bs[..|bs| - 1], bs[|bs| - 1];
            var s := Split(init, a, b);
            Split(bs, a, b) == Qkv(s.q + y[0..a], s.k + y[a..a + b], s.v + y[a + b..a + 2 * b]) &&
            Whole(bs, a + 2 * b) == Whole(init, a + 2 * b) + (y[0..a] + y[a..a + b] + y[a + b..a + 2 * b])
  {
    var y := bs[|bs| - 1];
    assert y[0..a + 2 * b] == y[0..a] + y[a..a + b] + y[a + b..a + 2 * b];
  }

  lemma JoinOnce<T>(s: Qkv<T>, whole: seq<T>, q: seq<T>, k: seq<T>, v: seq<T>)
    requires Once(s, whole)
    ensures Once(Qkv(s.q + q, s.k + k, s.v + v), whole + (q + k + v))
  {
    MultisetJoin(s.q, q);
    MultisetJoin(s.k, k);
    MultisetJoin(s.v, v);
    MultisetJoin(q, k);
    MultisetJoin(q + k, v);
    MultisetJoin(whole, q + k + v);
  }

  /** Heads keep their order. With a = perGroup * headDim query rows a group, row r of query head i * perGroup + o
      is that row of the o-th head in group i, and row r of k and v head g is in group g. */
  lemma HeadOrder<T>(bs: seq<seq<T>>, a: nat, perGroup: nat, headDim: nat, i: nat, o: nat, g: nat, r: nat)
    requires a == perGroup * headDim && AllSized(bs, a + 2 * headDim)
    requires i < |bs| && g < |bs| && o < perGroup && r < headDim
    ensures QueryRow(bs, a, perGroup, headDim, i, o, r)
    ensures KeyValueRow(bs, a, headDim, g, r)
  {
    QueryPlace(perGroup, headDim, i, o, r);
    TakeAt(bs, a + 2 * headDim, 0, a, i, o * headDim + r);
    KeyValueAt(bs, a, headDim, g, r);
  }

  predicate QueryRow<T(==)>(bs: seq<seq<T>>, a: nat, perGroup: nat, headDim: nat, i: nat, o: nat, r: nat)
    requires AllSized(bs, a + 2 * headDim) && i < |bs|
  {
    var q := Split(bs, a, headDim).q;
    (i * perGroup + o) * headDim + r < |q| && o * headDim + r < a &&
    q[(i * perGroup + o) * headDim + r] == bs[i][o * headDim + r]
  }

  predicate KeyValueRow<T(==)>(bs: seq<seq<T>>, a: nat, headDim: nat, g: nat, r: nat)
    requires AllSized(bs, a + 2 * headDim) && g < |bs| && r < headDim
  {
    var s := Split(bs, a, headDim);
    g * headDim + r < |s.k| && g * headDim + r < |s.v| &&
    s.k[g * headDim + r] == bs[g][a + r] && s.v[g * headDim + r] == bs[g][a + headDim + r]
  }

  lemma KeyValueAt<T>(bs: seq<seq<T>>, a: nat, headDim: nat, g: nat, r: nat)
    requires AllSized(bs, a + 2 * headDim) && g < |bs| && r < headDim
    ensures KeyValueRow(bs, a, headDim, g, r)
  {
    TakeAt(bs, a + 2 * headDim, a, a + headDim, g, r);
    TakeAt(bs, a + 2 * headDim, a + headDim, a + 2 * headDim, g, r);
  }

  lemma QueryPlace(perGroup: nat, headDim: nat, i: nat, o: nat, r: nat)
    requires o < perGroup && r < headDim
    ensures 0 <= o * headDim + r < perGroup * headDim
    ensures (i * perGroup + o) * headDim + r == i * (perGroup * headDim) + (o * headDim + r)
  {
    BlockBelow(o, perGroup, headDim, r);
  }

  // ---------- The shards of a tensor-parallel group ----------

  /** Each shard split into n groups, the results joined in rank order. */
  function AcrossShards<T>(shards: seq<seq<T>>, n: nat, a: nat, b: nat): Qkv<T>
    requires AllSized(shards, n * (a + 2 * b))
  {
    if shards == [] then Qkv([], [], [])
    else Join(AcrossShards(shards[..|shards| - 1], n, a, b), SplitRows(shards[|shards| - 1], n, a, b))
  }

  /** s is x taken as n groups of a query rows and b rows each of k and v. */
  predicate IsSplitBy<T(==)>(s: Qkv<T>, x: seq<T>, n: nat, a: nat, b: nat) {
    n * (a + 2 * b) == |x| && s == SplitRows(x, n, a, b)
  }

  /** Splitting shard by shard is splitting the whole weight, however many shards it is held in. */
  lemma {:induction false} ShardsAgree<T>(shards: seq<seq<T>>, n: nat, a: nat, b: nat)
    requires AllSized(shards, n * (a + 2 * b))
    ensures IsSplitBy(AcrossShards(shards, n, a, b), Concat(shards), |shards| * n, a, b)
  {
    if shards != [] {
      var m, last := |shards| - 1, shards[|shards| - 1];
      ShardsAgree(shards[..m], n, a, b);
      LastShard(shards);
      OneMoreShard(AcrossShards(shards[..m], n, a, b), Concat(shards[..m]), last, m, n, a, b);
    }
  }

  lemma LastShard<T>(shards: seq<seq<T>>)
    requires shards != []
    ensures Concat(shards) == Concat(shards[..|shards| - 1]) + shards[|shards| - 1]
  {
    var init, last := shards[..|shards| - 1], shards[|shards| - 1];
    assert shards == init + [last];
    ConcatAppend(init, [last]);
    assert Concat([last]) == last;
  }

  lemma OneMoreShard<T>(s: Qkv<T>, x: seq<T>, last: seq<T>, m: nat, n: nat, a: nat, b: nat)
    requires IsSplitBy(s, x, m * n, a, b) && |last| == n * (a + 2 * b)
    ensures IsSplitBy(Join(s, SplitRows(last, n, a, b)), x + last, (m + 1) * n, a, b)
  {
    var k := m * n;
    assert (m + 1) * n == k + n;
    MoreGroups(s, x, last, k, n, a, b);
  }

  lemma MoreGroups<T>(s: Qkv<T>, x: seq<T>, y: seq<T>, k: nat, n: nat, a: nat, b: nat)
    requires IsSplitBy(s, x, k, a, b) && |y| == n * (a + 2 * b)
    ensures IsSplitBy(Join(s, SplitRows(y, n, a, b)), x + y, k + n, a, b)
  {
    var size := a + 2 * b;
    assert (k + n) * size == k * size + n * size;
    BlocksJoin(x, y, k, n, size);
    SplitJoin(Blocks(x, k, size), Blocks(y, n, size), a, b);
  }

  // ---------- torch.chunk, torch.split ----------

  /** The size of all chunks but possibly the last. */
  function ChunkSize(length: nat, n: nat): nat
    requires n > 0
  {
    (length + n - 1) / n
  }

  function OneChunk<T>(x: seq<T>, c: nat, i: nat): seq<T> {
    var lo, hi := Min(i * c, |x|), Min(i * c + c, |x|);
    x[lo..hi]
  }

  /** `x.chunk(n)`, which may give fewer than n chunks. */
  function Chunks<T>(x: seq<T>, n: nat): seq<seq<T>>
    requires n > 0
  {
    var c := ChunkSize(|x|, n);
    if c == 0 then seq(n, _ => []) else seq(ChunkSize(|x|, c), i requires i >= 0 => OneChunk(x, c, i))
  }

  lemma RoundUpExact(n: nat, c: nat)
    requires n > 0
    ensures (n * c + n - 1) / n == c
  {
    DivMod(c, n, n - 1);
  }

  lemma ChunksEven<T>(x: seq<T>, n: nat, size: nat)
    requires n > 0 && |x| == n * size
    ensures Chunks(x, n) == Blocks(x, n, size)
  {
    RoundUpExact(n, size);
    var cs := Chunks(x, n);
    if size > 0 {
      RoundUpExact(size, n);
      assert |x| + size - 1 == size * n + size - 1;
    }
    assert |cs| == n;
    forall i | 0 <= i < n ensures cs[i] == Blocks(x, n, size)[i] {
      BlockFits(n, size, |x|, i);
      assert (i + 1) * size == i * size + size;
    }
  }

  lemma SomeChunk<T>(x: seq<T>, n: nat)
    requires n > 0 && |x| > 0
    ensures |Chunks(x, n)| > 0 && |Chunks(x, n)[0]| == ChunkSize(|x|, n)
  {
    var c := ChunkSize(|x|, n);
    assert |x| + n - 1 == c * n + (|x| + n - 1) % n;
    assert c >= 1 && c <= |x| by { ChunkSizeBounds(|x|, n); }
    ChunkSizeBounds(|x|, c);
    assert 0 * c == 0;
  }

  lemma ChunkSizeBounds(length: nat, n: nat)
    requires n > 0 && length > 0
    ensures 1 <= ChunkSize(length, n) <= length && ChunkSize(length, n) * n >= length
  {
    var c := ChunkSize(length, n);
    assert length + n - 1 == c * n + (length + n - 1) % n;
    OnlyZeroBetween(c - length, n);
    assert c * n == length * n + (c - length) * n;
    LengthTimes(length, n);
    assert c == 0 ==> c * n == 0;
  }

  lemma LengthTimes(length: nat, n: nat)
    requires n > 0
    ensures length * n >= length
  {
  }

  // ---------- The three de-interleavers ----------

  /** `for chunk in x.chunk(n): q, k, v = chunk.split([a, b, b])`, shared by the two that use `split`. */
  method SplitChunks<T>(x: seq<T>, n: nat, a: nat, b: nat) returns (r: Result<Qkv<T>, Error>)
    requires n > 0
    ensures r.Ok? <==> AllSized(Chunks(x, n), a + 2 * b)
    ensures r.Ok? ==> r.value == Split(Chunks(x, n), a, b)
    ensures r.Err? ==> r.error == SizeMismatch
  {
    var chunks := Chunks(x, n);
    var q, k, v := [], [], [];
    for i := 0 to |chunks|
      invariant AllSized(chunks[..i], a + 2 * b) && Qkv(q, k, v) == Split(chunks[..i], a, b)
    {
      var chunk := chunks[i];
      if |chunk| != a + b + b { return Err(SizeMismatch); }
      assert chunks[..i + 1] == chunks[..i] + [chunk];
      assert chunks[..i + 1][..i] == chunks[..i];
      q, k, v := q + chunk[..a], k + chunk[a..a + b], v + chunk[a + b..];
    }
    assert chunks[..|chunks|] == chunks;
    return Ok(Qkv(q, k, v));
  }

  /** The sizes handed to `split` fit every chunk exactly when the groups divide the k rows evenly. */
  lemma SizesFit<T>(x: seq<T>, n: nat, kvSize: nat, perGroup: nat, a: nat, b: nat)
    requires n > 0 && |x| == kvSize * (perGroup + 2) && a == kvSize * perGroup / n && b == kvSize / n
    ensures AllSized(Chunks(x, n), a + 2 * b) <==> kvSize % n == 0
    ensures kvSize % n == 0 ==> InGroups(x, n, perGroup, a, b)
  {
    if kvSize % n == 0 { EvenFit(x, n, kvSize, perGroup, a, b); } else { UnevenFit(x, n, kvSize, perGroup, a, b); }
  }

  /** x is n groups of a query rows, being perGroup heads of b rows, and b rows each of k and v. */
  predicate InGroups<T(==)>(x: seq<T>, n: nat, perGroup: nat, a: nat, b: nat)
    requires n > 0
  {
    a == perGroup * b && n * (a + 2 * b) == |x| && Chunks(x, n) == Blocks(x, n, a + 2 * b)
  }

  lemma EvenFit<T>(x: seq<T>, n: nat, kvSize: nat, perGroup: nat, a: nat, b: nat)
    requires n > 0 && |x| == kvSize * (perGroup + 2) && a == kvSize * perGroup / n && b == kvSize / n
    requires kvSize % n == 0
    ensures InGroups(x, n, perGroup, a, b)
  {
    assert kvSize == n * b;
    EvenSizes(n, b, perGroup);
    ChunksEven(x, n, a + 2 * b);
  }

  lemma UnevenFit<T>(x: seq<T>, n: nat, kvSize: nat, perGroup: nat, a: nat, b: nat)
    requires n > 0 && |x| == kvSize * (perGroup + 2) && a == kvSize * perGroup / n && b == kvSize / n
    requires kvSize % n != 0
    ensures !AllSized(Chunks(x, n), a + 2 * b)
  {
    Distribute(kvSize, perGroup, 2);
    UnevenSizes(kvSize, n, kvSize * perGroup, |x|);
    SomeChunk(x, n);
  }

  lemma EvenSizes(n: nat, b: nat, perGroup: nat)
    requires n > 0
    ensures n * b * perGroup / n == perGroup * b && n * (perGroup * b + 2 * b) == n * b * (perGroup + 2)
  {
    assert n * b * perGroup == n * (perGroup * b);
    MultipleOf(n, perGroup * b);
  }

  lemma UnevenSizes(kvSize: nat, n: nat, u: nat, length: nat)
    requires n > 0 && kvSize % n != 0 && length == u + 2 * kvSize
    ensures length > 0 && u / n + 2 * (kvSize / n) < ChunkSize(length, n)
  {
    var f := FloorOf(u, n);
    var g := FloorUnder(kvSize, n);
    ChunkSizeBounds(length, n);
    FloorsBelow(f, g, ChunkSize(length, n), n, u, kvSize);
  }

  lemma FloorOf(u: nat, n: nat) returns (f: nat)
    requires n > 0
    ensures f == u / n && f * n <= u
  {
    f := u / n;
  }

  lemma FloorUnder(u: nat, n: nat) returns (f: nat)
    requires n > 0 && u % n != 0
    ensures f == u / n && f * n < u
  {
    f := u / n;
    assert u == f * n + u % n;
  }

  lemma FloorsBelow(f: nat, g: nat, c: nat, n: nat, u: nat, w: nat)
    requires n > 0 && f * n <= u && g * n < w && c * n >= u + 2 * w
    ensures f + 2 * g < c
  {
    OnlyZeroBetween(f + 2 * g - c, n);
    assert (f + 2 * g - c) * n == f * n + 2 * (g * n) - c * n;
  }

  /** What all three return: x taken as n groups, each perGroup query heads and one k and one v head of b rows. */
  predicate IsSplit<T(==)>(s: Qkv<T>, x: seq<T>, n: nat, perGroup: nat, b: nat) {
    IsSplitBy(s, x, n, perGroup * b, b)
  }

  predicate Divides(n: nat, k: nat) { n > 0 && k % n == 0 }

  /** The assertions on the sizes. */
  predicate SizesAsserted(length: nat, heads: nat, kvHeads: nat)
    requires kvHeads > 0
  {
    heads % kvHeads == 0 && length % (heads / kvHeads + 2) == 0
  }

  function KvSize(length: nat, heads: nat, kvHeads: nat): nat
    requires kvHeads > 0
  {
    length / (heads / kvHeads + 2)
  }

  lemma KvSizeExact(length: nat, heads: nat, kvHeads: nat)
    requires kvHeads > 0 && SizesAsserted(length, heads, kvHeads)
    ensures length == KvSize(length, heads, kvHeads) * (heads / kvHeads + 2)
  {
  }

  /** `_split_tensors`, its qkv branch: one tensor holding every group. */
  method SplitTensors<T>(tensor: seq<T>, heads: nat, kvHeads: nat) returns (r: Result<Qkv<T>, Error>)
    requires kvHeads > 0
    ensures r.Ok? <==> SizesAsserted(|tensor|, heads, kvHeads) && Divides(kvHeads, KvSize(|tensor|, heads, kvHeads))
    ensures r == Err(AssertionFailed) <==> !SizesAsserted(|tensor|, heads, kvHeads)
    ensures r.Ok? ==>
              IsSplit(r.value, tensor, kvHeads, heads / kvHeads, KvSize(|tensor|, heads, kvHeads) / kvHeads)
  {
    if heads % kvHeads != 0 { return Err(AssertionFailed); }
    var perGroup := heads / kvHeads;
    if |tensor| % (perGroup + 2) != 0 { return Err(AssertionFailed); }
    var kvSize := |tensor| / (perGroup + 2);
    KvSizeExact(|tensor|, heads, kvHeads);
    var a, b := kvSize * perGroup / kvHeads, kvSize / kvHeads;
    SizesFit(tensor, kvHeads, kvSize, perGroup, a, b);
    r := SplitChunks(tensor, kvHeads, a, b);
  }

  /** `default_tp_concat_fn`, its qkv branch: the gathered shards of a tensor-parallel group, all of one size. */
  method ConcatAcrossTp<T>(shards: seq<seq<T>>, heads: nat, kvHeads: nat, tp: nat) returns (r: Result<Qkv<T>, Error>)
    requires |shards| > 0 && AllSized(shards, |shards[0]|) && kvHeads > 0 && tp > 0
    ensures r.Ok? <==> SizesAsserted(|shards[0]|, heads, kvHeads) &&
                       Divides(kvHeads / tp, KvSize(|shards[0]|, heads, kvHeads))
    ensures r == Err(AssertionFailed) <==> !SizesAsserted(|shards[0]|, heads, kvHeads)
    ensures r.Ok? ==> IsSplit(r.value, Concat(shards), |shards| * (kvHeads / tp), heads / kvHeads,
                              KvSize(|shards[0]|, heads, kvHeads) / (kvHeads / tp))
  {
    if heads % kvHeads != 0 { return Err(AssertionFailed); }
    if |shards[0]| % (heads / kvHeads + 2) != 0 { return Err(AssertionFailed); }
    var kvSize := KvSize(|shards[0]|, heads, kvHeads);
    if kvHeads / tp == 0 { return Err(NoChunks); }
    r := SplitShards(shards, kvHeads / tp, heads, kvHeads, kvSize);
  }

  /** Its loop over the shards. */
  method SplitShards<T>(shards: seq<seq<T>>, n: nat, heads: nat, kvHeads: nat, kvSize: nat)
    returns (r: Result<Qkv<T>, Error>)
    requires |shards| > 0 && n > 0 && kvHeads > 0 && AllSized(shards, |shards[0]|)
    requires SizesAsserted(|shards[0]|, heads, kvHeads) && kvSize == KvSize(|shards[0]|, heads, kvHeads)
    ensures r.Ok? <==> Divides(n, kvSize)
    ensures r.Err? ==> r.error == SizeMismatch
    ensures r.Ok? ==> IsSplit(r.value, Concat(shards), |shards| * n, heads / kvHeads, kvSize / n)
  {
    var perGroup := heads / kvHeads;
    KvSizeExact(|shards[0]|, heads, kvHeads);
    r := SplitEach(shards, n, perGroup, kvSize, kvSize * perGroup / n, kvSize / n, |shards[0]|);
    if r.Ok? { EvenShards(shards, n, perGroup, kvSize * perGroup / n, kvSize / n, r.value); }
  }

  method SplitEach<T>(shards: seq<seq<T>>, n: nat, perGroup: nat, kvSize: nat, a: nat, b: nat, ghost length: nat)
    returns (r: Result<Qkv<T>, Error>)
    requires |shards| > 0 && n > 0 && AllSized(shards, length) && length == kvSize * (perGroup + 2)
    requires a == kvSize * perGroup / n && b == kvSize / n
    ensures r.Ok? <==> Divides(n, kvSize)
    ensures r.Err? ==> r.error == SizeMismatch
    ensures r.Ok? ==> a == perGroup * b && SplitSoFar(shards, n, a, b, r.value)
  {
    var q, k, v := [], [], [];
    for i := 0 to |shards|
      invariant i > 0 ==> Divides(n, kvSize) && a == perGroup * b
      invariant SplitSoFar(shards[..i], n, a, b, Qkv(q, k, v))
    {
      SizesFit(shards[i], n, kvSize, perGroup, a, b);
      var s := SplitChunks(shards[i], n, a, b);
      if s.Err? { return s; }
      OneMoreSplit(shards, i, n, perGroup, a, b, Qkv(q, k, v), s.value);
      q, k, v := q + s.value.q, k + s.value.k, v + s.value.v;
    }
    assert shards[..|shards|] == shards;
    return Ok(Qkv(q, k, v));
  }

  lemma OneMoreSplit<T>(shards: seq<seq<T>>, i: nat, n: nat, perGroup: nat, a: nat, b: nat, so: Qkv<T>, s: Qkv<T>)
    requires n > 0 && i < |shards| && SplitSoFar(shards[..i], n, a, b, so)
    requires InGroups(shards[i], n, perGroup, a, b) && s == Split(Chunks(shards[i], n), a, b)
    ensures SplitSoFar(shards[..i + 1], n, a, b, Join(so, s))
  {
    assert shards[..i + 1][..i] == shards[..i];
  }

  lemma EvenShards<T>(shards: seq<seq<T>>, n: nat, perGroup: nat, a: nat, b: nat, s: Qkv<T>)
    requires a == perGroup * b && SplitSoFar(shards, n, a, b, s)
    ensures IsSplit(s, Concat(shards), |shards| * n, perGroup, b)
  {
    ShardsAgree(shards, n, a, b);
  }

  predicate SplitSoFar<T(==)>(shards: seq<seq<T>>, n: nat, a: nat, b: nat, s: Qkv<T>) {
    AllSized(shards, n * (a + 2 * b)) && s == AcrossShards(shards, n, a, b)
  }

  /** Python's slice x[lo:hi] for bounds that are not negative. */
  function Clip<T>(x: seq<T>, lo: nat, hi: nat): seq<T> {
    if lo <= hi then x[Min(lo, |x|)..Min(hi, |x|)] else []
  }

  /** Plain slices of every chunk: qc query rows, kc key rows, and what is left. */
  function CutChunk<T>(chunk: seq<T>, qc: nat, kc: nat): Qkv<T> {
    Qkv(Clip(chunk, 0, qc), Clip(chunk, qc, qc + kc), chunk[Min(qc + kc, |chunk|)..])
  }

  function CutAll<T>(chunks: seq<seq<T>>, qc: nat, kc: nat): Qkv<T> {
    if chunks == [] then Qkv([], [], [])
    else Join(CutAll(chunks[..|chunks| - 1], qc, kc), CutChunk(chunks[|chunks| - 1], qc, kc))
  }

  /** Shard i of `total` rows, as far as there are rows. */
  function ShardRows<T>(x: seq<T>, total: nat, i: nat): seq<T> {
    ShardBounds(total, i);
    Clip(x, i * total, (i + 1) * total)
  }

  lemma ShardBounds(total: nat, i: nat)
    ensures 0 <= i * total <= (i + 1) * total
  {
  }

  /** Python's `//` on sizes. */
  function Quotient(rows: nat, n: nat): nat
    requires n > 0
  {
    rows / n
  }

  /** The chunks of the first i shards of `total` rows, n to a shard, in the order they are cut. */
  function ShardChunks<T>(x: seq<T>, total: nat, n: nat, i: nat): seq<seq<T>>
    requires n > 0
  {
    if i == 0 then [] else ShardChunks(x, total, n, i - 1) + Chunks(ShardRows(x, total, i - 1), n)
  }

  /** `convert_qkv_shard` for any sizes: rows of one shard, chunks per shard, and rows cut off each chunk. */
  function Converted<T>(x: seq<T>, qSizeTp: nat, kvSizeTp: nat, n: nat, tp: nat): Qkv<T>
    requires n > 0
  {
    CutAll(ShardChunks(x, qSizeTp + 2 * kvSizeTp, n, tp), Quotient(qSizeTp, n), Quotient(kvSizeTp, n))
  }

  /** The layout that the conversion expects: shards of whole groups, as many per shard as it looks for. */
  predicate Laid(length: nat, headDim: nat, heads: nat, kvHeads: nat, tp: nat, queryGroups: nat) {
    && tp > 0 && kvHeads > 0 && kvHeads % tp == 0 && heads % kvHeads == 0 && queryGroups / tp == kvHeads / tp
    && length == kvHeads * ((heads / kvHeads) * headDim + 2 * headDim)
  }

  /** `convert_qkv_shard` with at least as many key/value heads as shards: the full tensor, cut into the shards it was
      gathered from. */
  method ConvertQkvShard<T>(fullTensor: seq<T>, headDim: nat, heads: nat, kvHeads: nat, tp: nat, queryGroups: nat)
    returns (r: Result<Qkv<T>, Error>)
    requires kvHeads >= tp
    ensures r.Err? <==> tp == 0 || Quotient(queryGroups, tp) == 0
    ensures r.Ok? ==> r.value == Converted(fullTensor, Quotient(headDim * heads, tp), Quotient(headDim * kvHeads, tp),
                                           Quotient(queryGroups, tp), tp)
    ensures r.Ok? && Laid(|fullTensor|, headDim, heads, kvHeads, tp, queryGroups) ==>
              IsSplit(r.value, fullTensor, kvHeads, heads / kvHeads, headDim)
  {
    if tp == 0 { return Err(DivisionByZero); }
    var qSizeTp, kvSizeTp := Quotient(headDim * heads, tp), Quotient(headDim * kvHeads, tp);
    var groupsPerPartition := Quotient(queryGroups, tp);
    if groupsPerPartition == 0 { return Err(DivisionByZero); }
    var cut := CutShards(fullTensor, tp, qSizeTp, kvSizeTp, groupsPerPartition);
    LaidSplits(fullTensor, headDim, heads, kvHeads, tp, queryGroups);
    return Ok(cut);
  }

  lemma LaidSplits<T>(x: seq<T>, headDim: nat, heads: nat, kvHeads: nat, tp: nat, queryGroups: nat)
    requires tp > 0 && Quotient(queryGroups, tp) > 0
    ensures Laid(|x|, headDim, heads, kvHeads, tp, queryGroups) ==>
              IsSplit(Converted(x, Quotient(headDim * heads, tp), Quotient(headDim * kvHeads, tp),
                                Quotient(queryGroups, tp), tp), x, kvHeads, heads / kvHeads, headDim)
  {
    if Laid(|x|, headDim, heads, kvHeads, tp, queryGroups) {
      var perGroup, n := heads / kvHeads, kvHeads / tp;
      ShardSizes(headDim, heads, kvHeads, perGroup, n, tp);
      EvenlyConverted(x, Quotient(headDim * heads, tp), Quotient(headDim * kvHeads, tp), n, tp, perGroup * headDim, headDim);
    }
  }

  lemma EvenlyConverted<T>(x: seq<T>, q: nat, kv: nat, n: nat, tp: nat, a: nat, b: nat)
    requires n > 0 && Quotient(q, n) == a && Quotient(kv, n) == b && q + 2 * kv == n * (a + 2 * b)
    requires |x| == (tp * n) * (a + 2 * b)
    ensures Converted(x, q, kv, n, tp) == SplitRows(x, tp * n, a, b)
  {
    Regroup(tp, n, a + 2 * b);
    EvenChunks(x, q + 2 * kv, n, a + 2 * b, tp, tp);
    SlicesSplit(Blocks(x, tp * n, a + 2 * b), a, b);
  }

  /** The loop over the shards. */
  method CutShards<T>(fullTensor: seq<T>, tp: nat, qSizeTp: nat, kvSizeTp: nat, n: nat) returns (r: Qkv<T>)
    requires n > 0
    ensures r == Converted(fullTensor, qSizeTp, kvSizeTp, n, tp)
  {
    var totalSize := qSizeTp + 2 * kvSizeTp;
    var qSizeChunk, kvSizeChunk := Quotient(qSizeTp, n), Quotient(kvSizeTp, n);
    r := Qkv([], [], []);
    for i := 0 to tp
      invariant r == CutAll(ShardChunks(fullTensor, totalSize, n, i), qSizeChunk, kvSizeChunk)
    {
      r := CutChunks(ShardRows(fullTensor, totalSize, i), n, qSizeChunk, kvSizeChunk,
                     ShardChunks(fullTensor, totalSize, n, i), r);
    }
  }

  /** Shard i of whole shards. */
  lemma WholeShard<T>(x: seq<T>, total: nat, tp: nat, i: nat)
    requires i < tp && tp * total == |x|
    ensures 0 <= i * total <= i * total + total <= |x|
    ensures ShardRows(x, total, i) == x[i * total..i * total + total]
  {
    StepsBelow(i, tp, total);
  }

  /** Its groups are the next groups of the whole. */
  lemma ShardBlock<T>(x: seq<T>, part: seq<T>, start: nat, n: nat, size: nat, m: nat, g: nat)
    requires start + |part| <= |x| && part == x[start..start + |part|]
    requires start == m * size && |part| == n * size && g < n
    ensures (m + g + 1) * size <= |x| && (g + 1) * size <= |part|
    ensures Block(x, size, m + g) == Block(part, size, g)
  {
    StepsBelow(g, n, size);
    Scaled(m, g, size);
    Scaled(m + g, 1, size);
    SliceOfSlice(x, start, start + |part|, g * size, g * size + size);
  }

  lemma SliceOfSlice<T>(x: seq<T>, lo: nat, hi: nat, a: nat, b: nat)
    requires lo <= hi <= |x| && a <= b <= hi - lo
    ensures x[lo..hi][a..b] == x[lo + a..lo + b]
  {
    var y := x[lo..hi];
    forall k | 0 <= k < b - a ensures y[a..b][k] == x[lo + a..lo + b][k] {
      assert y[a..b][k] == y[a + k] == x[lo + a + k];
    }
    assert |y[a..b]| == |x[lo + a..lo + b]|;
    assert y[a..b] == x[lo + a..lo + b];
  }

  lemma Scaled(a: nat, b: nat, k: nat)
    ensures (a + b) * k == a * k + b * k
  {
  }

  lemma NextBlocks<T>(x: seq<T>, part: seq<T>, start: nat, n: nat, size: nat, m: nat)
    requires start + |part| <= |x| && part == x[start..start + |part|]
    requires start == m * size && |part| == n * size
    ensures m * size <= |x| && (m + n) * size <= |x|
    ensures Blocks(x, m + n, size) == Blocks(x, m, size) + Blocks(part, n, size)
  {
    Scaled(m, n, size);
    forall g | 0 <= g < m + n ensures Blocks(x, m + n, size)[g] == (Blocks(x, m, size) + Blocks(part, n, size))[g] {
      BlockFits(m + n, size, |x|, g);
      if g >= m { ShardBlock(x, part, start, n, size, m, g - m); }
    }
  }

  lemma NextShard<T>(x: seq<T>, total: nat, n: nat, size: nat, tp: nat, i: nat)
    requires n > 0 && total == n * size && i < tp && tp * total == |x|
    ensures 0 <= (i * n) * size <= |x| && 0 <= ((i + 1) * n) * size <= |x|
    ensures Blocks(x, (i + 1) * n, size) == Blocks(x, i * n, size) + Chunks(ShardRows(x, total, i), n)
  {
    WholeShard(x, total, tp, i);
    ChunksEven(ShardRows(x, total, i), n, size);
    Regroup(i, n, size);
    Scaled(i, 1, n);
    NextBlocks(x, ShardRows(x, total, i), i * total, n, size, i * n);
  }

  /** On shards of whole groups the chunks are the groups. */
  lemma {:induction false} EvenChunks<T>(x: seq<T>, total: nat, n: nat, size: nat, tp: nat, i: nat)
    requires n > 0 && total == n * size && i <= tp && tp * total == |x|
    ensures 0 <= (i * n) * size <= |x| && ShardChunks(x, total, n, i) == Blocks(x, i * n, size)
    decreases i
  {
    if i == 0 {
      assert (0 * n) * size == 0;
    } else {
      EvenChunks(x, total, n, size, tp, i - 1);
      NextShard(x, total, n, size, tp, i - 1);
    }
  }

  lemma {:induction false} SlicesSplit<T>(chunks: seq<seq<T>>, a: nat, b: nat)
    requires AllSized(chunks, a + 2 * b)
    ensures CutAll(chunks, a, b) == Split(chunks, a, b)
  {
    if chunks != [] { SlicesSplit(chunks[..|chunks| - 1], a, b); }
  }

  lemma Regroup(x: nat, y: nat, z: nat)
    ensures x * (y * z) == (x * y) * z
  {
  }

  lemma ShardSizes(headDim: nat, heads: nat, kvHeads: nat, perGroup: nat, n: nat, tp: nat)
    requires tp > 0 && n > 0 && kvHeads == tp * n && heads == perGroup * kvHeads
    ensures var a, q, kv := perGroup * headDim, headDim * heads / tp, headDim * kvHeads / tp;
            q / n == a && kv / n == headDim && q + 2 * kv == n * (a + 2 * headDim)
  {
    var a := perGroup * headDim;
    Regroup(headDim, perGroup, kvHeads);
    Regroup(a, tp, n);
    assert headDim * heads == a * kvHeads == (a * tp) * n;
    Regroup(tp, a, n);
    Regroup(tp, headDim, n);
    Regroup(headDim, tp, n);
    MultipleOf(tp, a * n);
    MultipleOf(tp, headDim * n);
    MultipleOf(n, a);
    MultipleOf(n, headDim);
  }

  /** `for qkv_part_chunk in qkv_part.chunk(n): ...`: plain slices appended to what earlier chunks gave. */
  method CutChunks<T>(part: seq<T>, n: nat, qc: nat, kc: nat, ghost before: seq<seq<T>>, so: Qkv<T>)
    returns (r: Qkv<T>)
    requires n > 0 && so == CutAll(before, qc, kc)
    ensures r == CutAll(before + Chunks(part, n), qc, kc)
  {
    var chunks := Chunks(part, n);
    r := so;
    assert before + chunks[..0] == before;
    for i := 0 to |chunks|
      invariant r == CutAll(before + chunks[..i], qc, kc)
    {
      var chunk := chunks[i];
      CutNext(before, chunks, i, qc, kc);
      r := Qkv(r.q + Clip(chunk, 0, qc), r.k + Clip(chunk, qc, qc + kc), r.v + chunk[Min(qc + kc, |chunk|)..]);
    }
    assert chunks[..|chunks|] == chunks;
  }

  lemma CutNext<T>(before: seq<seq<T>>, chunks: seq<seq<T>>, i: nat, qc: nat, kc: nat)
    requires i < |chunks|
    ensures CutAll(before + chunks[..i + 1], qc, kc) == Join(CutAll(before + chunks[..i], qc, kc), CutChunk(chunks[i], qc, kc))
  {
    var cs := before + chunks[..i + 1];
    assert cs[..|cs| - 1] == before + chunks[..i] && cs[|cs| - 1] == chunks[i];
  }

  /** All three agree: whatever shards the weight was gathered from, two results for the same weight, groups and heads
      per group are the same, the rows per head being fixed by the number of rows. */
  lemma AllAgree<T>(s: Qkv<T>, t: Qkv<T>, x: seq<T>, n: nat, perGroup: nat, b: nat, c: nat)
    requires n > 0 && IsSplit(s, x, n, perGroup, b) && IsSplit(t, x, n, perGroup, c)
    ensures b == c && s == t
  {
    if b < c { MoreRows(n, perGroup, b, c); }
    if c < b { MoreRows(n, perGroup, c, b); }
  }

  lemma MoreRows(n: nat, perGroup: nat, b: nat, c: nat)
    requires n > 0 && b < c
    ensures n * (perGroup * b + 2 * b) < n * (perGroup * c + 2 * c)
  {
    var u, w := perGroup * b + 2 * b, perGroup * c + 2 * c;
    assert w - u == (c - b) * (perGroup + 2);
    OnlyZeroBetween(c - b, perGroup + 2);
    OnlyZeroBetween(w - u, n);
    assert n * w == n * u + (w - u) * n;
  }
}
