/** When `max_token_len` is the maximum per micro-batch that its documentation says it is. It is not in general; a batch
    with room to spare keeps it, a crowded one breaks it, and for rows of similar length both conditions meet. */
module TokenLimit {
  import opened Wrappers
  import opened Arithmetic
  import opened Sums
  import opened KarmarkarKarp
  import opened Partitioning
  import opened Balancing
  import opened MicroBatches

  predicate WithinLimit(lens: seq<int>, maxTokenLen: int, ps: seq<seq<nat>>) {
    forall i :: 0 <= i < |ps| ==> Load(lens, ps[i]) <= maxTokenLen
  }

  lemma WithinPermuted(lens: seq<int>, maxTokenLen: int, ps: seq<seq<nat>>, qs: seq<seq<nat>>)
    requires multiset(ps) == multiset(qs) && WithinLimit(lens, maxTokenLen, ps)
    ensures WithinLimit(lens, maxTokenLen, qs)
  {
    forall i | 0 <= i < |qs| ensures Load(lens, qs[i]) <= maxTokenLen {
      assert qs[i] in multiset(ps);
    }
  }

  // ---------- Room to spare ----------

  /** One micro-batch, one row each, or a limit that leaves room for k - 1 k-ths of the heaviest row's workload. */
  predicate Roomy(lens: seq<int>, maxTokenLen: int, k: nat)
    requires lens != []
  {
    || k == 1
    || k == |lens|
    || Sum(Workloads(lens)) + (k - 1) * MaxOf(Workloads(lens)) <= 24576 * k * maxTokenLen
  }

  lemma {:induction false} AllSingles(ps: seq<seq<nat>>)
    requires |Concat(ps)| <= |ps| && forall i :: 0 <= i < |ps| ==> ps[i] != []
    ensures forall i :: 0 <= i < |ps| ==> |ps[i]| == 1
  {
    if ps != [] {
      AtLeastOneEach(ps[1..]);
      AllSingles(ps[1..]);
      assert forall i :: 0 < i < |ps| ==> ps[i] == ps[1..][i - 1];
    }
  }

  lemma {:induction false} AtLeastOneEach(ps: seq<seq<nat>>)
    requires forall i :: 0 <= i < |ps| ==> ps[i] != []
    ensures |ps| <= |Concat(ps)|
  {
    if ps != [] { AtLeastOneEach(ps[1..]); }
  }

  lemma SingleLoad(lens: seq<int>, p: seq<nat>)
    requires |p| == 1 && p[0] < |lens|
    ensures Load(lens, p) == lens[p[0]]
  {
    assert Load(lens, p) == lens[p[0]] + Load(lens, p[1..]);
  }

  lemma OneBatch(lens: seq<int>, ps: seq<seq<nat>>)
    requires |ps| == 1 && IsPartition(ps, |lens|)
    ensures Load(lens, ps[0]) == Sum(lens)
  {
    PartitionTotal(lens, ps);
    assert Loads(lens, ps) == [Load(lens, ps[0])];
    assert Sum([Load(lens, ps[0])]) == Load(lens, ps[0]);
  }

  lemma OneRowEach(lens: seq<int>, maxTokenLen: int, ps: seq<seq<nat>>)
    requires IsPartition(ps, |lens|) && |ps| == |lens| && forall i :: 0 <= i < |ps| ==> ps[i] != []
    requires forall j :: 0 <= j < |lens| ==> lens[j] <= maxTokenLen
    ensures WithinLimit(lens, maxTokenLen, ps)
  {
    assert |multiset(Concat(ps))| == |Concat(ps)| && |multiset(Range(|lens|))| == |lens|;
    AllSingles(ps);
    forall i | 0 <= i < |ps| ensures Load(lens, ps[i]) <= maxTokenLen {
      PartBounds(ps, |lens|, i);
      SingleLoad(lens, ps[i]);
    }
  }

  lemma Cancel(k: nat, t: int, w: int, m: int)
    requires k > 0 && 24576 * t <= w && k * w <= 24576 * k * m
    ensures t <= m
  {
    RaiseFactor(24576 * t, w, k);
    assert w * k == k * w && (24576 * t) * k == t * (24576 * k) && 24576 * k * m == m * (24576 * k);
    LessMultiple(24576 * k, t, m);
  }

  /** Sufficient: a batch with room to spare is split within the limit. */
  lemma LimitKept(lens: seq<int>, maxTokenLen: int, k: nat, ps: seq<seq<nat>>)
    requires lens != [] && 0 < k <= |lens| && Sum(lens) <= k * maxTokenLen && Roomy(lens, maxTokenLen, k)
    requires forall j :: 0 <= j < |lens| ==> 0 <= lens[j] <= maxTokenLen
    requires Balanced(Workloads(lens), k, false, ps)
    ensures WithinLimit(lens, maxTokenLen, ps)
  {
    BalancedParts(lens, k, ps);
    if k == 1 {
      OneBatch(lens, ps);
    } else if k == |lens| {
      OneRowEach(lens, maxTokenLen, ps);
    } else {
      forall i | 0 <= i < k ensures Load(lens, ps[i]) <= maxTokenLen { RoomyLoad(lens, maxTokenLen, k, ps, i); }
    }
  }

  lemma BalancedParts(lens: seq<int>, k: nat, ps: seq<seq<nat>>)
    requires 0 < k <= |lens| && Balanced(Workloads(lens), k, false, ps)
    ensures |ps| == k && IsPartition(ps, |lens|) && forall i :: 0 <= i < k ==> ps[i] != []
  {
  }

  lemma RoomyLoad(lens: seq<int>, maxTokenLen: int, k: nat, ps: seq<seq<nat>>, i: nat)
    requires lens != [] && AllNonNegative(lens) && i < k && Balanced(Workloads(lens), k, false, ps)
    requires Sum(Workloads(lens)) + (k - 1) * MaxOf(Workloads(lens)) <= 24576 * k * maxTokenLen
    ensures Load(lens, ps[i]) <= maxTokenLen
  {
    WorkloadsNonNegative(lens);
    LoadBound(Workloads(lens), k, false, ps, i);
    TokensBelowWork(lens, ps[i]);
    Cancel(k, Load(lens, ps[i]), Load(Workloads(lens), ps[i]), maxTokenLen);
  }

  // ---------- Crowded ----------

  /** 1 for each row of which j + 1 never fit together, else 0. */
  function Long(lens: seq<int>, maxTokenLen: int, j: nat): (r: seq<int>)
    ensures |r| == |lens|
  {
    seq(|lens|, i requires 0 <= i < |lens| => if (j + 1) * lens[i] > maxTokenLen then 1 else 0)
  }

  /** More rows of which j + 1 never fit together than k micro-batches can take j of. */
  predicate Crowded(lens: seq<int>, maxTokenLen: int, k: nat, j: nat) {
    Sum(Long(lens, maxTokenLen, j)) > k * j
  }

  lemma LongRow(len: int, j: nat, maxTokenLen: int, rest: int)
    requires len >= 0 && maxTokenLen >= 0
    ensures (j + 1) * (len + rest) >= (if (j + 1) * len > maxTokenLen then maxTokenLen + 1 else 0) + (j + 1) * rest
  {
    assert (j + 1) * (len + rest) == (j + 1) * len + (j + 1) * rest;
    ProductNonNegative(j + 1, len);
  }

  lemma {:induction false} LongLoad(lens: seq<int>, maxTokenLen: int, j: nat, idx: seq<nat>)
    requires AllNonNegative(lens) && maxTokenLen >= 0
    ensures (j + 1) * Load(lens, idx) >= (maxTokenLen + 1) * Load(Long(lens, maxTokenLen, j), idx)
  {
    if idx != [] {
      LongLoad(lens, maxTokenLen, j, idx[1..]);
      var x, h := idx[0], Long(lens, maxTokenLen, j);
      if x < |lens| {
        LongRow(lens[x], j, maxTokenLen, Load(lens, idx[1..]));
        assert (maxTokenLen + 1) * (h[x] + Load(h, idx[1..])) ==
               (maxTokenLen + 1) * h[x] + (maxTokenLen + 1) * Load(h, idx[1..]);
      }
    }
  }

  lemma ManyLong(j: nat, load: int, long: int, m: int)
    requires m >= 0 && (j + 1) * load >= (m + 1) * long && long >= j + 1
    ensures load > m
  {
    RaiseFactor(j + 1, long, m + 1);
    assert long * (m + 1) == (m + 1) * long && (j + 1) * (m + 1) == (m + 1) * (j + 1);
    assert (j + 1) * load == load * (j + 1);
    LessMultiple(j + 1, m + 1, load);
  }

  /** Necessary: however a crowded batch is cut into k lists, one of them is over the limit. */
  lemma LimitBroken(lens: seq<int>, maxTokenLen: int, k: nat, ps: seq<seq<nat>>, j: nat)
    requires AllNonNegative(lens) && maxTokenLen >= 0 && |ps| == k && IsPartition(ps, |lens|)
    requires Crowded(lens, maxTokenLen, k, j)
    ensures !WithinLimit(lens, maxTokenLen, ps)
  {
    var h := Long(lens, maxTokenLen, j);
    PartitionTotal(h, ps);
    if WithinLimit(lens, maxTokenLen, ps) {
      forall i | 0 <= i < k ensures Loads(h, ps)[i] <= j {
        LongLoad(lens, maxTokenLen, j, ps[i]);
        if Load(h, ps[i]) >= j + 1 { ManyLong(j, Load(lens, ps[i]), Load(h, ps[i]), maxTokenLen); }
      }
      AllBelow(Loads(h, ps), j);
    }
  }

  // ---------- Rows of similar length ----------

  ghost predicate Between(s: seq<int>, lo: int, hi: int) { forall j :: 0 <= j < |s| ==> lo <= s[j] <= hi }

  /** Rows between lo and hi tokens, of which j always fit together and j + 1 never do. The last condition says the same
      of the workloads; for rows of one length it is no condition. */
  ghost predicate Similar(lens: seq<int>, maxTokenLen: int, j: nat, lo: int, hi: int) {
    && 0 < lo && Between(lens, lo, hi)
    && j * hi <= maxTokenLen < (j + 1) * lo
    && j * Work(hi) < (j + 1) * Work(lo)
  }

  lemma {:induction false} LoadBetween(s: seq<int>, lo: int, hi: int, idx: seq<nat>)
    requires Between(s, lo, hi) && forall j :: 0 <= j < |idx| ==> idx[j] < |s|
    ensures |idx| * lo <= Load(s, idx) <= |idx| * hi
  {
    if idx != [] {
      LoadBetween(s, lo, hi, idx[1..]);
      assert |idx| * lo == lo + (|idx| - 1) * lo && |idx| * hi == hi + (|idx| - 1) * hi;
    }
  }

  lemma WorkRises(a: int, b: int)
    requires 0 <= a <= b
    ensures Work(a) <= Work(b)
  {
    RaiseFactor(a, b, a);
    RaiseFactor(a, b, b);
    assert a * b == b * a;
  }

  lemma WorksBetween(lens: seq<int>, lo: int, hi: int)
    requires 0 <= lo && Between(lens, lo, hi)
    ensures Between(Workloads(lens), Work(lo), Work(hi))
  {
    forall j | 0 <= j < |lens| ensures Work(lo) <= Workloads(lens)[j] <= Work(hi) {
      WorkRises(lo, lens[j]);
      WorkRises(lens[j], hi);
    }
  }

  function Ones(n: nat): (r: seq<int>)
    ensures |r| == n && forall i :: 0 <= i < n ==> r[i] == 1
  {
    seq(n, _ => 1)
  }

  lemma SumOnes(n: nat)
    ensures Sum(Ones(n)) == n
  {
    AllAbove(Ones(n), 1);
    AllBelow(Ones(n), 1);
  }

  /** A list of more than j rows leaves some list with fewer than j. */
  lemma SomeFew(ps: seq<seq<nat>>, n: nat, i: nat, j: nat) returns (x: nat)
    requires IsPartition(ps, n) && i < |ps| && |ps[i]| > j && n <= |ps| * j
    ensures x < |ps| && |ps[x]| < j
  {
    var counts := Loads(Ones(n), ps);
    forall y | 0 <= y < |ps| ensures counts[y] == |ps[y]| {
      PartBounds(ps, n, y);
      LoadBetween(Ones(n), 1, 1, ps[y]);
    }
    PartitionTotal(Ones(n), ps);
    SumOnes(n);
    SumRemove(counts, i);
    assert |ps| * j == j + (|ps| - 1) * j;
    if forall y :: 0 <= y < |ps| ==> |ps[y]| >= j { AllAbove(counts[..i] + counts[i+1..], j); }
    x :| 0 <= x < |ps| && |ps[x]| < j;
  }

  lemma TooFarApart(j: nat, a: nat, b: nat, wa: int, wb: int, lo: int, hi: int)
    requires a > j > b && a * lo <= wa && wb <= b * hi && 0 <= lo && 0 <= hi && j * hi < (j + 1) * lo
    ensures wa - wb > hi
  {
    RaiseFactor(j + 1, a, lo);
    RaiseFactor(b, j - 1, hi);
    assert (j - 1) * hi == j * hi - hi;
  }

  /** Rows of similar length are dealt out evenly. */
  lemma EvenlyDealt(lens: seq<int>, maxTokenLen: int, k: nat, ps: seq<seq<nat>>, i: nat, j: nat, lo: int, hi: int)
    requires lens != [] && k > 0 && Similar(lens, maxTokenLen, j, lo, hi) && i < k && |lens| <= k * j
    requires Balanced(Workloads(lens), k, false, ps)
    ensures |ps[i]| <= j
  {
    var works := Workloads(lens);
    WorksBetween(lens, lo, hi);
    if |ps[i]| > j {
      var x := SomeFew(ps, |lens|, i, j);
      PartBounds(ps, |lens|, i);
      PartBounds(ps, |lens|, x);
      LoadBetween(works, Work(lo), Work(hi), ps[i]);
      LoadBetween(works, Work(lo), Work(hi), ps[x]);
      WorkRises(0, lo);
      WorkRises(0, hi);
      TooFarApart(j, |ps[i]|, |ps[x]|, Load(works, ps[i]), Load(works, ps[x]), Work(lo), Work(hi));
      assert false;
    }
  }

  lemma AllLong(lens: seq<int>, maxTokenLen: int, j: nat, lo: int, hi: int)
    requires Between(lens, lo, hi) && (j + 1) * lo > maxTokenLen
    ensures Sum(Long(lens, maxTokenLen, j)) == |lens|
  {
    forall i | 0 <= i < |lens| ensures Long(lens, maxTokenLen, j)[i] == 1 { RaiseFactor(lo, lens[i], j + 1); }
    AllAbove(Long(lens, maxTokenLen, j), 1);
    AllBelow(Long(lens, maxTokenLen, j), 1);
  }

  /** Exact for rows of similar length: the limit is kept if and only if j rows to each of the k micro-batches are
      enough for the batch. */
  lemma SimilarExactly(lens: seq<int>, maxTokenLen: int, k: nat, ps: seq<seq<nat>>, j: nat, lo: int, hi: int)
    requires lens != [] && k > 0 && maxTokenLen >= 0 && Similar(lens, maxTokenLen, j, lo, hi)
    requires Balanced(Workloads(lens), k, false, ps)
    ensures WithinLimit(lens, maxTokenLen, ps) <==> |lens| <= k * j
  {
    if |lens| <= k * j {
      forall i | 0 <= i < k ensures Load(lens, ps[i]) <= maxTokenLen {
        EvenlyDealt(lens, maxTokenLen, k, ps, i, j, lo, hi);
        PartBounds(ps, |lens|, i);
        LoadBetween(lens, lo, hi, ps[i]);
        RaiseFactor(|ps[i]|, j, hi);
      }
    } else {
      AllLong(lens, maxTokenLen, j, lo, hi);
      LimitBroken(lens, maxTokenLen, k, ps, j);
    }
  }

  lemma FitsUpTo(m: int, c: int)
    requires 0 < c <= m
    ensures m / c >= 0 && (m / c) * c <= m < (m / c + 1) * c
  {
    assert (m / c + 1) * c == (m / c) * c + c;
  }

  /** Rows of one length c > 0 are similar: the limit is kept if and only if k micro-batches of floor(limit / c) rows
      hold the batch. */
  lemma UniformExactly(lens: seq<int>, c: int, maxTokenLen: int, k: nat, ps: seq<seq<nat>>)
    requires lens != [] && k > 0 && 0 < c <= maxTokenLen && Between(lens, c, c)
    requires Balanced(Workloads(lens), k, false, ps)
    ensures WithinLimit(lens, maxTokenLen, ps) <==> |lens| <= k * (maxTokenLen / c)
  {
    UniformIsSimilar(lens, c, maxTokenLen);
    SimilarExactly(lens, maxTokenLen, k, ps, maxTokenLen / c, c, c);
  }

  lemma UniformIsSimilar(lens: seq<int>, c: int, maxTokenLen: int)
    requires 0 < c <= maxTokenLen && Between(lens, c, c)
    ensures maxTokenLen / c >= 0 && Similar(lens, maxTokenLen, maxTokenLen / c, c, c)
  {
    FitsUpTo(maxTokenLen, c);
    SquareNonNegative(c);
    OneMoreTime(maxTokenLen / c, Work(c));
  }

  lemma OneMoreTime(j: int, w: int)
    ensures (j + 1) * w == j * w + w
  {
  }

  // ---------- Between the two ----------

  /** a and b are the two largest of m, and t is m with their difference instead. */
  ghost predicate Differs(m: multiset<int>, a: int, b: int, t: multiset<int>) {
    IsLargest(m, a) && IsLargest(m - multiset{a}, b) && t == m - multiset{a} - multiset{b} + multiset{a - b}
  }

  lemma DifferencingStep(m: multiset<int>, a: int, b: int, t: multiset<int>, d: int)
    requires Differs(m, a, b, t) && |t| > 0 && Differencing(t) == d
    ensures |m| > 0 && Differencing(m) == d
  {
    DifferenceTwoAs(m, a, m - multiset{a}, b, t);
  }

  lemma FirstDiffers(w: int, v: int)
    requires 0 < v < w
    ensures Differs(multiset{w, w, v, v, v}, w, w, multiset{0, v, v, v})
  {
    assert multiset{w, w, v, v, v} - multiset{w} == multiset{w, v, v, v};
  }

  lemma SecondDiffers(v: int)
    requires 0 < v
    ensures Differs(multiset{0, v, v, v}, v, v, multiset{0, 0, v})
  {
    assert multiset{0, v, v, v} - multiset{v} == multiset{0, v, v};
  }

  lemma LastDiffers(v: int)
    requires 0 < v
    ensures Differs(multiset{0, 0, v}, v, 0, multiset{0, v}) && Differs(multiset{0, v}, v, 0, multiset{v})
  {
    assert multiset{0, 0, v} - multiset{v} == multiset{0, 0};
  }

  lemma {:induction false} MissedChain(m0: multiset<int>, w: int, m1: multiset<int>, m2: multiset<int>,
                                       m3: multiset<int>, m4: multiset<int>, v: int)
    requires Differs(m0, w, w, m1) && Differs(m1, v, v, m2) && Differs(m2, v, 0, m3) && Differs(m3, v, 0, m4)
    requires IsLargest(m4, v) && |m4| == 1
    ensures |m0| > 0 && Differencing(m0) == v
  {
    LargestIs(m4, v);
    DifferencingStep(m3, v, 0, m4, v);
    DifferencingStep(m2, v, 0, m3, v);
    DifferencingStep(m1, v, v, m2, v);
    DifferencingStep(m0, w, w, m1, v);
  }

  lemma MissedDifference(w: int, v: int)
    requires 0 < v < w
    ensures |multiset{w, w, v, v, v}| > 0 && Differencing(multiset{w, w, v, v, v}) == v
  {
    FirstDiffers(w, v);
    SecondDiffers(v);
    LastDiffers(v);
    MissedChain(multiset{w, w, v, v, v}, w, multiset{0, v, v, v}, multiset{0, 0, v}, multiset{0, v}, multiset{v}, v);
  }

  lemma TwoLists(s: seq<int>, ps: seq<seq<nat>>)
    requires |ps| == 2 && IsPartition(ps, |s|)
    ensures Load(s, ps[0]) + Load(s, ps[1]) == Sum(s)
  {
    PartitionTotal(s, ps);
    assert Loads(s, ps) == [Load(s, ps[0])] + [Load(s, ps[1])];
    SumAppend([Load(s, ps[0])], [Load(s, ps[1])]);
  }

  lemma MissedWorks()
    ensures Workloads([3, 3, 2, 2, 2]) == [73737, 73737, 49156, 49156, 49156]
  {
  }

  lemma MissedCount(lens: seq<int>)
    requires |lens| == 5 && Sum(lens) == 12
    ensures MicroBatchCount(lens, 3, 6, None, [], None) == Ok(2)
  {
    assert CeilDiv(12, 6) == 2;
  }

  lemma FiveValues(w: int, v: int)
    ensures multiset([w, w, v, v, v]) == multiset{w, w, v, v, v}
  {
  }

  lemma FiveTerms(a: int, b: int, c: int, d: int, e: int)
    ensures Sum([a, b, c, d, e]) == a + b + c + d + e
  {
    SumAppend([a, b], [c, d, e]);
    SumAppend([a], [b]);
    SumAppend([c], [d, e]);
    SumAppend([d], [e]);
    assert [a, b] == [a] + [b] && [d, e] == [d] + [e] && [c, d, e] == [c] + [d, e];
    assert [a, b, c, d, e] == [a, b] + [c, d, e];
    assert forall x :: Sum([x]) == x;
  }

  lemma FitsByHand(lens: seq<int>)
    requires |lens| == 5 && lens[0] + lens[1] == 6 && lens[2] + lens[3] + lens[4] == 6
    ensures IsPartition([[0, 1], [2, 3, 4]], |lens|) && WithinLimit(lens, 6, [[0, 1], [2, 3, 4]])
  {
    var ps: seq<seq<nat>> := [[0, 1], [2, 3, 4]];
    assert Concat(ps) == [0, 1] + ([2, 3, 4] + []) by { assert ps[1..] == [[2, 3, 4]] && ps[1..][1..] == []; }
    assert Concat(ps) == Range(5);
    assert Load(lens, ps[0]) == lens[0] + Load(lens, [1]) && Load(lens, [1]) == lens[1] + Load(lens, []);
    assert Load(lens, ps[1]) == lens[2] + Load(lens, [3, 4]) && Load(lens, [3, 4]) == lens[3] + Load(lens, [4]);
    assert Load(lens, [4]) == lens[4] + Load(lens, []);
  }

  lemma DifferBy(works: seq<int>, ps: seq<seq<nat>>, d: int)
    requires works != [] && Balanced(works, 2, false, ps) && Differencing(multiset(works)) == d
    ensures |ps| == 2 && IsPartition(ps, |works|) && Load(works, ps[0]) == Load(works, ps[1]) + d
  {
  }

  lemma MissedTokens(lens: seq<int>, ps: seq<seq<nat>>)
    requires AllNonNegative(lens) && |ps| == 2 && IsPartition(ps, |lens|)
    requires Load(Workloads(lens), ps[0]) == Load(Workloads(lens), ps[1]) + 49156
    requires Sum(lens) == 12 && Sum(Workloads(lens)) == 294942
    ensures !WithinLimit(lens, 6, ps)
  {
    TwoLists(Workloads(lens), ps);
    TwoLists(lens, ps);
    TokensBelowWork(lens, ps[1]);
    assert Load(lens, ps[0]) >= 7;
  }

  lemma MissedTotals(lens: seq<int>)
    requires lens == [3, 3, 2, 2, 2]
    ensures Sum(lens) == 12 && Sum(Workloads(lens)) == 294942
    ensures |multiset(Workloads(lens))| > 0 && Differencing(multiset(Workloads(lens))) == 49156
  {
    FiveTerms(3, 3, 2, 2, 2);
    FiveTerms(73737, 73737, 49156, 49156, 49156);
    MissedWorks();
    FiveValues(73737, 49156);
    MissedDifference(73737, 49156);
  }

  lemma MissedShape(lens: seq<int>)
    requires lens == [3, 3, 2, 2, 2]
    ensures |lens| == 5 && Between(lens, 2, 3) && lens[0] + lens[1] == 6 && lens[2] + lens[3] + lens[4] == 6
  {
  }

  /** Rows of 3, 3, 2, 2, 2 tokens. */
  lemma MissedRows() returns (lens: seq<int>)
    ensures |lens| == 5 && Between(lens, 2, 3) && lens[0] + lens[1] == 6 && lens[2] + lens[3] + lens[4] == 6
    ensures Sum(lens) == 12 && Sum(Workloads(lens)) == 294942
    ensures |multiset(Workloads(lens))| > 0 && Differencing(multiset(Workloads(lens))) == 49156
  {
    lens := [3, 3, 2, 2, 2];
    MissedShape(lens);
    MissedTotals(lens);
  }

  /** Neither condition decides every batch, and whether the rows fit at all does not either: rows of 3, 3, 2, 2, 2
      tokens fit two micro-batches of 6, yet every result of the balancing puts more than 6 into one of them. */
  lemma FitMissed() returns (lens: seq<int>)
    ensures |lens| == 5 && Between(lens, 2, 3) && MicroBatchCount(lens, 3, 6, None, [], None) == Ok(2)
    ensures IsPartition([[0, 1], [2, 3, 4]], |lens|) && WithinLimit(lens, 6, [[0, 1], [2, 3, 4]])
    ensures forall ps :: Balanced(Workloads(lens), 2, false, ps) ==> !WithinLimit(lens, 6, ps)
  {
    lens := MissedRows();
    MissedCount(lens);
    FitsByHand(lens);
    forall ps | Balanced(Workloads(lens), 2, false, ps) ensures !WithinLimit(lens, 6, ps) {
      DifferBy(Workloads(lens), ps, 49156);
      MissedTokens(lens, ps);
    }
  }

  // ---------- All together ----------

  /** What is known of a split into k micro-batches before it is made. */
  ghost predicate LimitVerdict(lens: seq<int>, maxTokenLen: int, k: nat, ps: seq<seq<nat>>)
    requires lens != []
  {
    && (Roomy(lens, maxTokenLen, k) ==> WithinLimit(lens, maxTokenLen, ps))
    && (forall j: nat :: Crowded(lens, maxTokenLen, k, j) ==> !WithinLimit(lens, maxTokenLen, ps))
    && (forall j: nat, lo, hi :: Similar(lens, maxTokenLen, j, lo, hi) ==>
          (WithinLimit(lens, maxTokenLen, ps) <==> |lens| <= k * j))
  }

  lemma LimitDecided(lens: seq<int>, maxTokenLen: int, k: nat, ps: seq<seq<nat>>)
    requires lens != [] && 0 < k <= |lens| && 0 <= maxTokenLen && Sum(lens) <= k * maxTokenLen
    requires forall j :: 0 <= j < |lens| ==> 0 <= lens[j] <= maxTokenLen
    requires Balanced(Workloads(lens), k, false, ps)
    ensures LimitVerdict(lens, maxTokenLen, k, ps)
  {
    if Roomy(lens, maxTokenLen, k) { LimitKept(lens, maxTokenLen, k, ps); }
    forall j: nat | Crowded(lens, maxTokenLen, k, j) ensures !WithinLimit(lens, maxTokenLen, ps) {
      LimitBroken(lens, maxTokenLen, k, ps, j);
    }
    forall j: nat, lo, hi | Similar(lens, maxTokenLen, j, lo, hi)
      ensures WithinLimit(lens, maxTokenLen, ps) <==> |lens| <= k * j
    {
      SimilarExactly(lens, maxTokenLen, k, ps, j, lo, hi);
    }
  }

  lemma VerdictPermuted(lens: seq<int>, maxTokenLen: int, k: nat, ps: seq<seq<nat>>, qs: seq<seq<nat>>)
    requires lens != [] && multiset(ps) == multiset(qs) && LimitVerdict(lens, maxTokenLen, k, ps)
    ensures LimitVerdict(lens, maxTokenLen, k, qs)
  {
    if WithinLimit(lens, maxTokenLen, ps) { WithinPermuted(lens, maxTokenLen, ps, qs); }
    if WithinLimit(lens, maxTokenLen, qs) { WithinPermuted(lens, maxTokenLen, qs, ps); }
  }
}
