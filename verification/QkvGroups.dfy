/** How many query groups `convert_qkv_shard` has to look for: as many per shard as the shard holds. */
module QkvGroups {
  import opened Arithmetic
  import opened Sums
  import opened QkvSplit

  ghost predicate Distinct<T>(x: seq<T>) { forall i, j :: 0 <= i < j < |x| ==> x[i] != x[j] }

  // ---------- What the first chunk contributes ----------

  lemma {:induction false} FirstChunkLeads<T>(chunks: seq<seq<T>>, qc: nat, kc: nat)
    requires chunks != []
    ensures CutChunk(chunks[0], qc, kc).k <= CutAll(chunks, qc, kc).k
    ensures CutChunk(chunks[0], qc, kc).v <= CutAll(chunks, qc, kc).v
  {
    if |chunks| == 1 {
      assert chunks[..0] == [];
    } else {
      FirstChunkLeads(chunks[..|chunks| - 1], qc, kc);
    }
  }

  lemma {:induction false} FirstOfShards<T>(x: seq<T>, total: nat, n: nat, i: nat)
    requires n > 0 && i > 0
    ensures Chunks(ShardRows(x, total, 0), n) <= ShardChunks(x, total, n, i)
  {
    if i > 1 { FirstOfShards(x, total, n, i - 1); }
  }

  lemma {:induction false} NoKeys<T>(chunks: seq<seq<T>>, qc: nat)
    ensures CutAll(chunks, qc, 0).k == []
  {
    if chunks != [] { NoKeys(chunks[..|chunks| - 1], qc); }
  }

  /** The first chunk of the first shard is the first c rows. */
  lemma FirstChunk<T>(x: seq<T>, total: nat, n: nat)
    requires n > 0 && 0 < total <= |x|
    ensures 0 < ChunkSize(total, n) <= total
    ensures var cs := Chunks(ShardRows(x, total, 0), n); cs != [] && cs[0] == x[..ChunkSize(total, n)]
  {
    ChunkSizeBounds(total, n);
    var c := ChunkSize(total, n);
    ChunkSizeBounds(total, c);
    ShardZero(x, total);
    assert OneChunk(x[..total], c, 0) == x[..c];
  }

  lemma ShardZero<T>(x: seq<T>, total: nat)
    requires total <= |x|
    ensures ShardRows(x, total, 0) == x[..total]
  {
    assert 0 * total == 0 && (0 + 1) * total == total;
  }

  // ---------- What a right split starts with ----------

  lemma RightStart<T>(x: seq<T>, n: nat, a: nat, b: nat)
    requires n > 0 && b > 0 && n * (a + 2 * b) == |x|
    ensures a + 2 * b <= |x| && |SplitRows(x, n, a, b).k| == n * b && n * b >= 1
    ensures SplitRows(x, n, a, b).k[0] == x[a]
    ensures |SplitRows(x, n, a, b).v| == n * b && SplitRows(x, n, a, b).v[0] == x[a + b]
  {
    var size := a + 2 * b;
    var bs := Blocks(x, n, size);
    BlockFits(n, size, |x|, 0);
    OnlyZeroBetween(n, b);
    TakeLength(bs, size, a, a + b);
    TakeLength(bs, size, a + b, size);
    TakeAt(bs, size, a, a + b, 0, 0);
    TakeAt(bs, size, a + b, size, 0, 0);
    assert 0 * size == 0 && bs[0] == x[..size];
  }

  /** The second group's values follow the first group's. */
  lemma RightSecond<T>(x: seq<T>, n: nat, a: nat, b: nat)
    requires n > 1 && b > 0 && n * (a + 2 * b) == |x|
    ensures |SplitRows(x, n, a, b).v| > b && 2 * (a + 2 * b) <= |x|
    ensures SplitRows(x, n, a, b).v[b] == x[(a + 2 * b) + a + b]
  {
    var size := a + 2 * b;
    var bs := Blocks(x, n, size);
    BlockFits(n, size, |x|, 1);
    StepsBelow(1, n, b);
    TakeLength(bs, size, a + b, size);
    TakeAt(bs, size, a + b, size, 1, 0);
    assert 1 * size == size && 1 * b == b && bs[1] == x[size..size + size];
  }

  // ---------- Other group counts ----------

  /** A chunk has room for its query, key and value rows. */
  lemma PartsFit(u: nat, w: nat, m: nat, c: nat, qc: nat, kc: nat)
    requires m > 0 && qc * m <= u && kc * m <= w && u + 2 * w <= c * m
    ensures qc + 2 * kc <= c
  {
    assert (qc + 2 * kc) * m == qc * m + 2 * (kc * m);
    Cover(qc + 2 * kc, c, m);
  }

  /** With n groups of a + 2b rows in a shard and m looked for: the rows of a chunk, and of its query and key parts. */
  lemma ChunkParts(n: nat, m: nat, a: nat, b: nat, c: nat, qc: nat, kc: nat)
    requires n > 0 && m > 0 && a > 0 && c == ChunkSize(n * a + 2 * (n * b), m)
    requires qc == Quotient(n * a, m) && kc == Quotient(n * b, m)
    ensures qc + 2 * kc <= c
    ensures m < n ==> qc >= a && kc >= b && c > a + 2 * b
    ensures m > n ==> qc < a
  {
    var u, w := n * a, n * b;
    OnlyZeroBetween(n, a);
    ChunkSizeBounds(u + 2 * w, m);
    FloorBounds(u, m, qc);
    FloorBounds(w, m, kc);
    PartsFit(u, w, m, c, qc, kc);
    if m < n {
      MoreThan(n, m, a, qc);
      MoreThan(n, m, b, kc);
      Distribute(n, a, 2 * b);
      StrictlyMore(n, m, a + 2 * b, c);
    } else if m > n {
      LessThan(n, m, a, qc);
    }
  }

  lemma FloorBounds(u: nat, m: nat, f: nat)
    requires m > 0 && f == u / m
    ensures f * m <= u < f * m + m
  {
  }

  lemma Cover(u: nat, c: nat, m: nat)
    requires m > 0
    ensures u * m <= c * m ==> u <= c
  {
    OnlyZeroBetween(u - c, m);
    assert (u - c) * m == u * m - c * m;
  }

  lemma MoreThan(n: nat, m: nat, a: nat, qc: nat)
    requires 0 < m < n && n * a < qc * m + m
    ensures qc >= a
  {
    ProductNonNegative(n - m, a);
    assert (n - m) * a == n * a - m * a;
    OnlyZeroBetween(a - qc, m);
    assert (a - qc) * m == m * a - qc * m;
  }

  lemma StrictlyMore(n: nat, m: nat, size: nat, c: nat)
    requires 0 < m < n && n * size <= c * m && size > 0
    ensures c > size
  {
    OnlyZeroBetween(n - m, size);
    assert (n - m) * size == n * size - m * size;
    OnlyZeroBetween(c - size, m);
    assert (c - size) * m == c * m - m * size;
  }

  lemma LessThan(n: nat, m: nat, a: nat, qc: nat)
    requires 0 < n < m && a > 0 && qc * m <= n * a
    ensures qc < a
  {
    OnlyZeroBetween(m - n, a);
    assert (m - n) * a == m * a - n * a;
    OnlyZeroBetween(qc - a, m);
    assert (qc - a) * m == qc * m - m * a;
    assert (qc - a) * m < 0;
  }

  /** The result starts with the first chunk's rows. */
  lemma Starts<T>(x: seq<T>, r: Qkv<T>, c: nat, qc: nat, kc: nat)
    requires c <= |x| && kc > 0 && qc + 2 * kc <= c
    requires CutChunk(x[..c], qc, kc).k <= r.k && CutChunk(x[..c], qc, kc).v <= r.v
    ensures |r.k| > 0 && r.k[0] == x[qc]
    ensures |r.v| >= c - qc - kc && forall i :: 0 <= i < c - qc - kc ==> r.v[i] == x[qc + kc + i]
  {
    var s := CutChunk(x[..c], qc, kc);
    assert |s.k| == kc && s.k[0] == x[qc];
    assert |s.v| == c - qc - kc && forall i :: 0 <= i < |s.v| ==> s.v[i] == x[qc + kc + i];
  }

  lemma FewerGroups(tp: nat, n: nat, size: nat)
    requires tp > 0
    ensures tp * n >= n && n * size <= (tp * n) * size
  {
    ProductNonNegative(tp - 1, n);
    assert (tp - 1) * n == tp * n - n;
    ProductNonNegative(tp * n - n, size);
    assert (tp * n - n) * size == (tp * n) * size - n * size;
  }

  lemma ShardInside(tp: nat, n: nat, size: nat, a: nat, b: nat, length: nat)
    requires tp > 0 && n > 0 && size == a + 2 * b > 0 && length == (tp * n) * size
    ensures 0 < n * a + 2 * (n * b) <= length
  {
    FewerGroups(tp, n, size);
    Distribute(n, a, 2 * b);
    OnlyZeroBetween(n, size);
  }

  lemma ConvertedStarts<T>(x: seq<T>, total: nat, qc: nat, kc: nat, m: nat, tp: nat)
    requires tp > 0 && m > 0 && 0 < total <= |x| && qc + 2 * kc <= ChunkSize(total, m) && kc > 0
    ensures var r, c := CutAll(ShardChunks(x, total, m, tp), qc, kc), ChunkSize(total, m);
            && c <= |x| && |r.k| > 0 && r.k[0] == x[qc]
            && |r.v| >= c - qc - kc && forall i :: 0 <= i < c - qc - kc ==> r.v[i] == x[qc + kc + i]
  {
    FirstChunk(x, total, m);
    FirstOfShards(x, total, m, tp);
    var chunks := ShardChunks(x, total, m, tp);
    assert chunks[0] == x[..ChunkSize(total, m)];
    FirstChunkLeads(chunks, qc, kc);
    Starts(x, CutAll(chunks, qc, kc), ChunkSize(total, m), qc, kc);
  }

  /** Too few groups: the second group's rows slip into the first group's values. */
  lemma TooFewGroups<T>(x: seq<T>, r: Qkv<T>, n: nat, a: nat, b: nat, c: nat, qc: nat, kc: nat)
    requires n > 1 && b > 0 && n * (a + 2 * b) == |x| && Distinct(x)
    requires a <= qc && b <= kc && a + 2 * b < c <= |x| && qc + 2 * kc <= c
    requires |r.k| > 0 && r.k[0] == x[qc]
    requires |r.v| >= c - qc - kc && forall i :: 0 <= i < c - qc - kc ==> r.v[i] == x[qc + kc + i]
    ensures r != SplitRows(x, n, a, b)
  {
    RightStart(x, n, a, b);
    RightSecond(x, n, a, b);
    assert r.v[0] == x[qc + kc + 0];
    if qc == a && kc == b { assert r.v[b] == x[a + b + b]; }
  }

  lemma TooManyGroups<T>(x: seq<T>, r: Qkv<T>, n: nat, a: nat, b: nat, qc: nat)
    requires n > 0 && b > 0 && n * (a + 2 * b) == |x| && Distinct(x) && qc < a
    requires r.k == [] || (qc < |x| && r.k[0] == x[qc])
    ensures r != SplitRows(x, n, a, b)
  {
    RightStart(x, n, a, b);
  }

  lemma MixedUp<T>(x: seq<T>, total: nat, m: nat, qc: nat, kc: nat, tp: nat, n: nat, a: nat, b: nat)
    requires tp > 0 && m > 0 && n > 0 && b > 0 && n * (a + 2 * b) == |x| && Distinct(x) && 0 < total <= |x|
    requires qc + 2 * kc <= ChunkSize(total, m)
    requires qc < a || (n > 1 && a <= qc && b <= kc && a + 2 * b < ChunkSize(total, m))
    ensures CutAll(ShardChunks(x, total, m, tp), qc, kc) != SplitRows(x, n, a, b)
  {
    var r := CutAll(ShardChunks(x, total, m, tp), qc, kc);
    if kc > 0 { ConvertedStarts(x, total, qc, kc, m, tp); } else { NoKeys(ShardChunks(x, total, m, tp), qc); }
    if qc < a { TooManyGroups(x, r, n, a, b, qc); } else { TooFewGroups(x, r, n, a, b, ChunkSize(total, m), qc, kc); }
  }

  /** On rows that all differ, looking for another number of groups than a shard holds goes wrong. */
  lemma OtherGroupsMix<T>(x: seq<T>, tp: nat, n: nat, m: nat, a: nat, b: nat)
    requires tp > 0 && n > 0 && m > 0 && m != n && a > 0 && b > 0 && Distinct(x) && |x| == (tp * n) * (a + 2 * b)
    ensures Converted(x, n * a, n * b, m, tp) != SplitRows(x, tp * n, a, b)
  {
    OtherParts(tp, n, m, a, b, |x|, n * a, n * b);
    MixedUp(x, n * a + 2 * (n * b), m, Quotient(n * a, m), Quotient(n * b, m), tp, tp * n, a, b);
  }

  lemma OtherParts(tp: nat, n: nat, m: nat, a: nat, b: nat, length: nat, q: nat, k: nat)
    requires tp > 0 && n > 0 && m > 0 && m != n && a > 0 && b > 0 && length == (tp * n) * (a + 2 * b)
    requires q == n * a && k == n * b
    ensures tp * n > 0 && 0 < q + 2 * k <= length
    ensures Quotient(q, m) + 2 * Quotient(k, m) <= ChunkSize(q + 2 * k, m)
    ensures || Quotient(q, m) < a
            || (tp * n > 1 && a <= Quotient(q, m) && b <= Quotient(k, m) && a + 2 * b < ChunkSize(q + 2 * k, m))
  {
    ShardInside(tp, n, a + 2 * b, a, b, length);
    ChunkParts(n, m, a, b, ChunkSize(q + 2 * k, m), Quotient(q, m), Quotient(k, m));
    FewerGroups(tp, n, a + 2 * b);
  }

  lemma SizesPerShard(headDim: nat, perGroup: nat, n: nat, tp: nat)
    requires tp > 0
    ensures Quotient(headDim * (perGroup * (tp * n)), tp) == n * (perGroup * headDim)
    ensures Quotient(headDim * (tp * n), tp) == n * headDim
  {
    var a := perGroup * headDim;
    Regroup(headDim, perGroup, tp * n);
    assert headDim * perGroup == a;
    MoveOut(a, tp, n);
    MoveOut(headDim, tp, n);
    MultipleOf(tp, n * a);
    MultipleOf(tp, n * headDim);
  }

  lemma MoveOut(a: nat, tp: nat, n: nat)
    ensures a * (tp * n) == tp * (n * a)
  {
    Regroup(tp, n, a);
    assert (tp * n) * a == a * (tp * n);
  }

  lemma GroupsMatter<T>(x: seq<T>, tp: nat, n: nat, m: nat, a: nat, b: nat)
    requires tp > 0 && n > 0 && m > 0 && a > 0 && b > 0 && Distinct(x) && |x| == (tp * n) * (a + 2 * b)
    ensures IsSplitBy(Converted(x, n * a, n * b, m, tp), x, tp * n, a, b) <==> m == n
  {
    if m == n {
      MultipleOf(n, a);
      MultipleOf(n, b);
      Distribute(n, a, 2 * b);
      assert n * a + 2 * (n * b) == n * (a + 2 * b);
      EvenlyConverted(x, n * a, n * b, n, tp, a, b);
    } else {
      OtherGroupsMix(x, tp, n, m, a, b);
    }
  }

  /** For a weight whose rows all differ, cut into shards of whole groups, the conversion is right if and only if it
      looks for as many query groups per shard as there are key/value heads per shard. */
  lemma GroupsExactly<T>(x: seq<T>, headDim: nat, perGroup: nat, n: nat, tp: nat, queryGroups: nat)
    requires tp > 0 && n > 0 && perGroup > 0 && headDim > 0 && Quotient(queryGroups, tp) > 0 && Distinct(x)
    requires |x| == (tp * n) * (perGroup * headDim + 2 * headDim)
    ensures var kvHeads, heads := tp * n, perGroup * (tp * n);
            IsSplit(Converted(x, Quotient(headDim * heads, tp), Quotient(headDim * kvHeads, tp),
                              Quotient(queryGroups, tp), tp), x, kvHeads, perGroup, headDim)
            <==> Quotient(queryGroups, tp) == n
  {
    OnlyZeroBetween(perGroup, headDim);
    SizesPerShard(headDim, perGroup, n, tp);
    GroupsMatter(x, tp, n, Quotient(queryGroups, tp), perGroup * headDim, headDim);
  }
}
