/** The order of the micro-batches, the whole of `rearrange_micro_batches`, and the way back. */
module MicroBatchOrder {
  import opened Wrappers
  import opened Sums
  import opened KarmarkarKarp
  import opened Partitioning
  import opened Balancing
  import opened MicroBatches
  import opened TokenLimit

  // ---------- sort(key=(workload, first index), reverse=True) ----------

  function First(p: seq<nat>): nat { if p == [] then 0 else p[0] }

  predicate Lighter(works: seq<int>, p: seq<nat>, q: seq<nat>) {
    Load(works, p) < Load(works, q) || (Load(works, p) == Load(works, q) && First(p) < First(q))
  }

  function InsertPart(works: seq<int>, p: seq<nat>, ps: seq<seq<nat>>): seq<seq<nat>> {
    if ps == [] || Lighter(works, ps[0], p) then [p] + ps else [ps[0]] + InsertPart(works, p, ps[1..])
  }

  function SortByWork(works: seq<int>, ps: seq<seq<nat>>): seq<seq<nat>> {
    if ps == [] then [] else InsertPart(works, ps[0], SortByWork(works, ps[1..]))
  }

  /** p's key is no smaller than q's: the heavier one and, of equally heavy ones, the one with the later first row. */
  ghost predicate NotBehind(works: seq<int>, p: seq<nat>, q: seq<nat>) {
    Load(works, p) > Load(works, q) || (Load(works, p) == Load(works, q) && First(p) >= First(q))
  }

  ghost predicate Falling(works: seq<int>, ps: seq<seq<nat>>) {
    forall i, j :: 0 <= i < j < |ps| ==> NotBehind(works, ps[i], ps[j])
  }

  lemma {:induction false} InsertPartPermutes(works: seq<int>, p: seq<nat>, ps: seq<seq<nat>>)
    ensures multiset(InsertPart(works, p, ps)) == multiset(ps) + multiset{p}
  {
    if ps != [] && !Lighter(works, ps[0], p) {
      InsertPartPermutes(works, p, ps[1..]);
      assert ps == [ps[0]] + ps[1..];
    }
  }

  lemma {:induction false} InsertPartFalls(works: seq<int>, p: seq<nat>, ps: seq<seq<nat>>)
    requires Falling(works, ps)
    ensures Falling(works, InsertPart(works, p, ps))
  {
    if ps != [] && !Lighter(works, ps[0], p) {
      var t := InsertPart(works, p, ps);
      InsertPartFalls(works, p, ps[1..]);
      InsertPartPermutes(works, p, ps[1..]);
      forall j | 0 < j < |t| ensures NotBehind(works, ps[0], t[j]) {
        assert t[j] in multiset(InsertPart(works, p, ps[1..]));
        if t[j] != p { assert t[j] in ps[1..]; }
      }
    }
  }

  lemma {:induction false} SortByWorkFalls(works: seq<int>, ps: seq<seq<nat>>)
    ensures Falling(works, SortByWork(works, ps))
  {
    if ps != [] {
      SortByWorkFalls(works, ps[1..]);
      InsertPartFalls(works, ps[0], SortByWork(works, ps[1..]));
    }
  }

  lemma {:induction false} SortByWorkPermutes(works: seq<int>, ps: seq<seq<nat>>)
    ensures multiset(SortByWork(works, ps)) == multiset(ps)
  {
    if ps != [] {
      SortByWorkPermutes(works, ps[1..]);
      InsertPartPermutes(works, ps[0], SortByWork(works, ps[1..]));
      assert ps == [ps[0]] + ps[1..];
    }
  }

  lemma SortByWorkSorts(works: seq<int>, ps: seq<seq<nat>>)
    ensures Falling(works, SortByWork(works, ps)) && multiset(SortByWork(works, ps)) == multiset(ps)
  {
    SortByWorkPermutes(works, ps);
    SortByWorkFalls(works, ps);
  }

  // ---------- s[::2][::-1] + s[1::2] ----------

  function Evens<T>(s: seq<T>): seq<T> { if s == [] then [] else [s[0]] + Odds(s[1..]) }

  function Odds<T>(s: seq<T>): seq<T> { if s == [] then [] else Evens(s[1..]) }

  function Reverse<T>(s: seq<T>): seq<T> { if s == [] then [] else Reverse(s[1..]) + [s[0]] }

  function SmallAtBothEnds<T>(s: seq<T>): seq<T> { Reverse(Evens(s)) + Odds(s) }

  lemma {:induction false} EvensOdds<T>(s: seq<T>)
    ensures |Evens(s)| == (|s| + 1) / 2 && |Odds(s)| == |s| / 2
    ensures forall i :: 0 <= i < |Evens(s)| ==> Evens(s)[i] == s[2 * i]
    ensures forall i :: 0 <= i < |Odds(s)| ==> Odds(s)[i] == s[2 * i + 1]
  {
    if s != [] {
      EvensOdds(s[1..]);
      Alternate(s, Evens(s[1..]), Odds(s[1..]));
    }
  }

  lemma Alternate<T>(s: seq<T>, e: seq<T>, o: seq<T>)
    requires s != [] && |e| == |s| / 2 && |o| == (|s| - 1) / 2
    requires forall i :: 0 <= i < |e| ==> e[i] == s[1..][2 * i]
    requires forall i :: 0 <= i < |o| ==> o[i] == s[1..][2 * i + 1]
    ensures forall i :: 0 <= i < |o| + 1 ==> ([s[0]] + o)[i] == s[2 * i]
    ensures forall i :: 0 <= i < |e| ==> e[i] == s[2 * i + 1]
  {
    forall i | 0 <= i < |o| + 1 ensures ([s[0]] + o)[i] == s[2 * i] {
      if i > 0 { assert o[i - 1] == s[1..][2 * (i - 1) + 1]; }
    }
  }

  lemma {:induction false} EvensOddsPermute<T>(s: seq<T>)
    ensures multiset(Evens(s)) + multiset(Odds(s)) == multiset(s)
  {
    if s != [] {
      EvensOddsPermute(s[1..]);
      assert s == [s[0]] + s[1..];
    }
  }

  lemma {:induction false} ReverseAt<T>(s: seq<T>)
    ensures |Reverse(s)| == |s| && multiset(Reverse(s)) == multiset(s)
    ensures forall i :: 0 <= i < |s| ==> Reverse(s)[i] == s[|s| - 1 - i]
  {
    if s != [] {
      ReverseAt(s[1..]);
      assert s == [s[0]] + s[1..];
    }
  }

  /** Counting outwards from the peak: the peak itself, the place after it, the one before it, the second after it, ... */
  function Rank(peak: int, i: int): int {
    if i <= peak then 2 * (peak - i) else 2 * (i - peak - 1) + 1
  }

  /** The heaviest micro-batch is at the peak and they get lighter outwards: the lightest are at both ends. */
  ghost predicate LightestOutside(works: seq<int>, ps: seq<seq<nat>>, peak: nat) {
    && 2 * peak < |ps| <= 2 * peak + 2
    && forall i, j :: 0 <= i < |ps| && 0 <= j < |ps| && Rank(peak, i) < Rank(peak, j) ==> NotBehind(works, ps[i], ps[j])
  }

  /** The loads rise to the heaviest micro-batch and then fall. */
  ghost predicate RisesThenFalls(works: seq<int>, ps: seq<seq<nat>>, peak: nat) {
    && peak < |ps|
    && (forall i, j :: 0 <= i < j <= peak ==> Load(works, ps[i]) <= Load(works, ps[j]))
    && (forall i, j :: peak <= i < j < |ps| ==> Load(works, ps[i]) >= Load(works, ps[j]))
  }

  lemma OutsideRises(works: seq<int>, ps: seq<seq<nat>>, peak: nat)
    requires LightestOutside(works, ps, peak)
    ensures RisesThenFalls(works, ps, peak)
  {
    forall i, j | 0 <= i < j <= peak ensures Load(works, ps[i]) <= Load(works, ps[j]) {
      assert Rank(peak, j) < Rank(peak, i);
    }
    forall i, j | peak <= i < j < |ps| ensures Load(works, ps[i]) >= Load(works, ps[j]) {
      assert Rank(peak, i) < Rank(peak, j);
    }
  }

  lemma SmallAtBothEndsAt<T>(s: seq<T>)
    requires s != []
    ensures multiset(SmallAtBothEnds(s)) == multiset(s) && |SmallAtBothEnds(s)| == |s|
    ensures forall i :: 0 <= i < |s| ==>
              0 <= Rank((|s| - 1) / 2, i) < |s| && SmallAtBothEnds(s)[i] == s[Rank((|s| - 1) / 2, i)]
  {
    EvensOdds(s);
    EvensOddsPermute(s);
    ReverseAt(Evens(s));
    EndsAt(s, Evens(s), Odds(s), Reverse(Evens(s)), (|s| - 1) / 2);
  }

  lemma EndsAt<T>(s: seq<T>, e: seq<T>, o: seq<T>, r: seq<T>, peak: nat)
    requires s != [] && peak == (|s| - 1) / 2 && |e| == (|s| + 1) / 2 == |r| && |o| == |s| / 2
    requires forall i :: 0 <= i < |e| ==> e[i] == s[2 * i]
    requires forall i :: 0 <= i < |o| ==> o[i] == s[2 * i + 1]
    requires forall i :: 0 <= i < |e| ==> r[i] == e[|e| - 1 - i]
    ensures |r + o| == |s|
    ensures forall i :: 0 <= i < |s| ==> 0 <= Rank(peak, i) < |s| && (r + o)[i] == s[Rank(peak, i)]
  {
    forall i | 0 <= i < |s| ensures 0 <= Rank(peak, i) < |s| && (r + o)[i] == s[Rank(peak, i)] {
      if i > peak { assert (r + o)[i] == o[i - peak - 1]; }
    }
  }

  lemma ReorderedShape(works: seq<int>, s: seq<seq<nat>>)
    requires s != [] && Falling(works, s)
    ensures LightestOutside(works, SmallAtBothEnds(s), (|s| - 1) / 2)
    ensures RisesThenFalls(works, SmallAtBothEnds(s), (|s| - 1) / 2)
    ensures multiset(SmallAtBothEnds(s)) == multiset(s) && |SmallAtBothEnds(s)| == |s|
  {
    SmallAtBothEndsAt(s);
    RankOutside(works, s, SmallAtBothEnds(s), (|s| - 1) / 2);
    OutsideRises(works, SmallAtBothEnds(s), (|s| - 1) / 2);
  }

  lemma RankOutside(works: seq<int>, s: seq<seq<nat>>, r: seq<seq<nat>>, peak: nat)
    requires s != [] && Falling(works, s) && peak == (|s| - 1) / 2 && |r| == |s|
    requires forall i :: 0 <= i < |s| ==> 0 <= Rank(peak, i) < |s| && r[i] == s[Rank(peak, i)]
    ensures LightestOutside(works, r, peak)
  {
    forall i, j | 0 <= i < |r| && 0 <= j < |r| && Rank(peak, i) < Rank(peak, j) ensures NotBehind(works, r[i], r[j]) {
      assert r[i] == s[Rank(peak, i)] && r[j] == s[Rank(peak, j)];
    }
  }

  // ---------- rearrange_micro_batches ----------

  lemma PermutedParts(ps: seq<seq<nat>>, qs: seq<seq<nat>>, i: nat) returns (j: nat)
    requires multiset(ps) == multiset(qs) && i < |qs|
    ensures j < |ps| && ps[j] == qs[i]
  {
    assert qs[i] in multiset(ps);
    j :| 0 <= j < |ps| && ps[j] == qs[i];
  }

  lemma SamePartition(ps: seq<seq<nat>>, qs: seq<seq<nat>>, n: nat)
    requires IsPartition(ps, n) && multiset(qs) == multiset(ps)
    ensures IsPartition(qs, n) && |qs| == |ps|
  {
    ConcatPermuted(qs, ps);
    assert |multiset(qs)| == |qs| && |multiset(ps)| == |ps|;
  }

  /** The micro-batches of `lens`: none empty, every row in exactly one, and each within the token bound. */
  ghost predicate GoodSplit(lens: seq<int>, maxTokenLen: int, k: nat, ps: seq<seq<nat>>) {
    && |ps| == k && IsPartition(ps, |lens|)
    && (forall i :: 0 <= i < k ==> ps[i] != [])
    && (forall i :: 0 <= i < k ==>
          24576 * k * Load(lens, ps[i]) <= (2 * k - 1) * ((24576 + maxTokenLen) * maxTokenLen))
  }

  lemma BalancedIsGood(lens: seq<int>, maxTokenLen: int, k: nat, ps: seq<seq<nat>>)
    requires lens != [] && maxTokenLen > 0 && 0 < k <= |lens| && Sum(lens) <= k * maxTokenLen
    requires forall j :: 0 <= j < |lens| ==> 0 <= lens[j] <= maxTokenLen
    requires Balanced(Workloads(lens), k, false, ps)
    ensures GoodSplit(lens, maxTokenLen, k, ps)
  {
    forall i | 0 <= i < k
      ensures 24576 * k * Load(lens, ps[i]) <= (2 * k - 1) * ((24576 + maxTokenLen) * maxTokenLen)
    {
      TokenBound(lens, maxTokenLen, k, ps, i);
    }
  }

  lemma GoodPermuted(lens: seq<int>, maxTokenLen: int, k: nat, ps: seq<seq<nat>>, qs: seq<seq<nat>>)
    requires GoodSplit(lens, maxTokenLen, k, ps) && multiset(qs) == multiset(ps)
    ensures GoodSplit(lens, maxTokenLen, k, qs)
  {
    SamePartition(ps, qs, |lens|);
    forall i | 0 <= i < k
      ensures qs[i] != [] && 24576 * k * Load(lens, qs[i]) <= (2 * k - 1) * ((24576 + maxTokenLen) * maxTokenLen)
    {
      var j := PermutedParts(ps, qs, i);
    }
  }

  /** The parts of some balancing of the workloads. */
  ghost predicate BalancesWork(lens: seq<int>, k: nat, r: seq<seq<nat>>)
    requires lens != [] && k > 0
  {
    exists ps :: multiset(ps) == multiset(r) && Balanced(Workloads(lens), k, false, ps)
  }

  /** The order in which they run. */
  ghost predicate InOrder(lens: seq<int>, k: nat, balance: bool, r: seq<seq<nat>>)
    requires lens != [] && k > 0
  {
    var works, peak: nat := Workloads(lens), (k - 1) / 2;
    if balance then |r| == k && LightestOutside(works, r, peak) && RisesThenFalls(works, r, peak)
    else Balanced(works, k, false, r)
  }

  lemma Reordered(lens: seq<int>, k: nat, ps: seq<seq<nat>>) returns (r: seq<seq<nat>>)
    requires lens != [] && k > 0 && |ps| == k
    ensures r == SmallAtBothEnds(SortByWork(Workloads(lens), ps)) && multiset(r) == multiset(ps)
    ensures InOrder(lens, k, true, r)
  {
    var sorted := SortedParts(Workloads(lens), ps);
    r := ReorderedFrom(Workloads(lens), sorted);
  }

  lemma SortedParts(works: seq<int>, ps: seq<seq<nat>>) returns (sorted: seq<seq<nat>>)
    ensures sorted == SortByWork(works, ps) && multiset(sorted) == multiset(ps) && |sorted| == |ps|
    ensures Falling(works, sorted)
  {
    SortByWorkSorts(works, ps);
    sorted := SortByWork(works, ps);
    SameCount(sorted, ps);
  }

  lemma ReorderedFrom(works: seq<int>, sorted: seq<seq<nat>>) returns (r: seq<seq<nat>>)
    requires sorted != [] && Falling(works, sorted)
    ensures r == SmallAtBothEnds(sorted) && multiset(r) == multiset(sorted) && |r| == |sorted|
    ensures LightestOutside(works, r, (|sorted| - 1) / 2) && RisesThenFalls(works, r, (|sorted| - 1) / 2)
  {
    ReorderedShape(works, sorted);
    r := SmallAtBothEnds(sorted);
  }

  lemma SameCount<T>(a: seq<T>, b: seq<T>)
    requires multiset(a) == multiset(b)
    ensures |a| == |b|
  {
    assert |multiset(a)| == |a| && |multiset(b)| == |b|;
  }

  /** Everything known of a result. */
  ghost predicate Rearranged(lens: seq<int>, maxTokenLen: int, k: nat, balance: bool, r: seq<seq<nat>>) {
    && lens != [] && k > 0 && GoodSplit(lens, maxTokenLen, k, r) && LimitVerdict(lens, maxTokenLen, k, r)
    && BalancesWork(lens, k, r) && InOrder(lens, k, balance, r)
  }

  lemma PartsRearranged(lens: seq<int>, maxTokenLen: int, k: nat, ps: seq<seq<nat>>)
    requires lens != [] && 0 < k <= |lens| && 0 < maxTokenLen && Sum(lens) <= k * maxTokenLen
    requires forall j :: 0 <= j < |lens| ==> 0 <= lens[j] <= maxTokenLen
    requires Balanced(Workloads(lens), k, false, ps)
    ensures Rearranged(lens, maxTokenLen, k, false, ps)
    ensures Rearranged(lens, maxTokenLen, k, true, SmallAtBothEnds(SortByWork(Workloads(lens), ps)))
  {
    BalancedIsGood(lens, maxTokenLen, k, ps);
    LimitDecided(lens, maxTokenLen, k, ps);
    var r := Reordered(lens, k, ps);
    GoodPermuted(lens, maxTokenLen, k, ps, r);
    VerdictPermuted(lens, maxTokenLen, k, ps, r);
  }

  /** The index lists of the micro-batches. Succeeds exactly when a positive count no larger than the batch is chosen. */
  method RearrangeMicroBatches(lens: seq<int>, maxSeqLen: int, maxTokenLen: int, minCount: Option<int>,
                               peers: seq<int>, dividedBy: Option<nat>, balance: bool)
    returns (r: Result<seq<seq<nat>>, Error>)
    requires 0 <= maxSeqLen && forall i :: 0 <= i < |lens| ==> 0 <= lens[i] <= maxSeqLen
    ensures var c := MicroBatchCount(lens, maxSeqLen, maxTokenLen, minCount, peers, dividedBy);
            && (r.Ok? <==> c.Ok? && c.value > 0)
            && (r.Err? ==> r.error == if c.Err? then c.error else IndexOutOfRange)
            && (r.Ok? ==> Rearranged(lens, maxTokenLen, c.value, balance, r.value))
  {
    var count := MicroBatchCount(lens, maxSeqLen, maxTokenLen, minCount, peers, dividedBy);
    if count.Err? { return Err(count.error); }
    CountSuffices(lens, maxSeqLen, maxTokenLen, minCount, peers, dividedBy);
    // a non-positive count: no set to put the first item into
    if count.value <= 0 { return Err(IndexOutOfRange); }
    var works := Workloads(lens);
    WorkloadsNonNegative(lens);
    var parts := GetSeqlenBalancedPartitions(works, count.value, false);
    PartsRearranged(lens, maxTokenLen, count.value, parts.value);
    if !balance { return parts; }
    return Ok(SmallAtBothEnds(SortByWork(works, parts.value)));
  }

  // ---------- get_reverse_idx ----------

  /** `idx_map` after its first n assignments `reverse[idx] = i`. */
  function ReverseIdx(idx: seq<nat>, n: nat): (r: seq<nat>)
    requires n <= |idx| && forall i :: 0 <= i < |idx| ==> idx[i] < |idx|
    ensures |r| == |idx| && forall i :: 0 <= i < |r| ==> r[i] < |idx|
  {
    if n == 0 then idx else ReverseIdx(idx, n - 1)[idx[n - 1] := n - 1]
  }

  /** The loop on a copy of the list. */
  method GetReverseIdx(idx: seq<nat>) returns (reverse: seq<nat>)
    requires forall i :: 0 <= i < |idx| ==> idx[i] < |idx|
    ensures reverse == ReverseIdx(idx, |idx|)
  {
    var copy := new nat[|idx|](i requires 0 <= i < |idx| => idx[i]);
    assert copy[..] == idx;
    for i := 0 to |idx|
      invariant copy[..] == ReverseIdx(idx, i)
    {
      copy[idx[i]] := i;
    }
    return copy[..];
  }

  /** The last position that maps to x wins. */
  lemma {:induction false} ReverseHits(idx: seq<nat>, n: nat, i: nat)
    requires i < n <= |idx| && (forall j :: 0 <= j < |idx| ==> idx[j] < |idx|)
    requires forall j :: i < j < n ==> idx[j] != idx[i]
    ensures ReverseIdx(idx, n)[idx[i]] == i
  {
    if i < n - 1 { ReverseHits(idx, n - 1, i); }
  }

  ghost predicate Permutation(idx: seq<nat>) { multiset(idx) == multiset(Range(|idx|)) }

  lemma PermutationFacts(idx: seq<nat>)
    requires Permutation(idx)
    ensures forall i :: 0 <= i < |idx| ==> idx[i] < |idx|
    ensures forall i, j :: 0 <= i < j < |idx| ==> idx[i] != idx[j]
    ensures forall x: nat :: x < |idx| ==> x in idx
  {
    var n := |idx|;
    forall i | 0 <= i < n ensures idx[i] < n {
      assert idx[i] in multiset(idx);
      RangeMember(n, idx[i]);
    }
    forall x: nat | x < n ensures x in idx {
      RangeMember(n, x);
      assert x in multiset(idx);
    }
    forall i, j | 0 <= i < j < n ensures idx[i] != idx[j] { OnceOnly(idx, i, j); }
  }

  lemma OnceOnly(idx: seq<nat>, i: nat, j: nat)
    requires Permutation(idx) && i < j < |idx|
    ensures idx[i] != idx[j]
  {
    RangeOnce(|idx|, idx[i]);
    MultisetRemove(idx, j);
    var rest := idx[..j] + idx[j+1..];
    assert rest[i] == idx[i];
    assert idx[i] in multiset(rest);
  }

  /** On a permutation the result is the inverse, both ways round. */
  lemma ReverseInverts(idx: seq<nat>)
    requires Permutation(idx)
    ensures forall i :: 0 <= i < |idx| ==> idx[i] < |idx|
    ensures var r := ReverseIdx(idx, |idx|);
            && (forall i :: 0 <= i < |idx| ==> r[idx[i]] == i)
            && (forall x :: 0 <= x < |idx| ==> idx[r[x]] == x)
  {
    PermutationFacts(idx);
    var r := ReverseIdx(idx, |idx|);
    forall i | 0 <= i < |idx| ensures r[idx[i]] == i { ReverseHits(idx, |idx|, i); }
    forall x | 0 <= x < |idx| ensures idx[r[x]] == x {
      assert x in idx;
      var i :| 0 <= i < |idx| && idx[i] == x;
    }
  }

  // ---------- restore_dynamic_batch ----------

  function RestoreDynamicBatch<T>(data: seq<T>, lists: seq<seq<nat>>): (r: Result<seq<T>, Error>)
    ensures r == Err(AssertionFailed) <==> |Concat(lists)| != |data|
    ensures r.Ok? ==> |r.value| == |data|
  {
    var indices := Concat(lists);
    if |indices| != |data| then Err(AssertionFailed)
    else if exists i :: 0 <= i < |indices| && indices[i] >= |indices| then Err(IndexOutOfRange)
    else
      var reverse := ReverseIdx(indices, |indices|);
      Ok(seq(|data|, x requires 0 <= x < |data| => data[reverse[x]]))
  }

  function MapRows<R, S>(f: R -> S, rows: seq<R>): (r: seq<S>)
    ensures |r| == |rows|
  {
    seq(|rows|, i requires 0 <= i < |rows| => f(rows[i]))
  }

  /** `index_select_tensor_dict(batch, partition)` */
  function SelectRows<R>(rows: seq<R>, idx: seq<nat>): (r: seq<R>)
    requires forall i :: 0 <= i < |idx| ==> idx[i] < |rows|
    ensures |r| == |idx|
  {
    seq(|idx|, i requires 0 <= i < |idx| => rows[idx[i]])
  }

  ghost predicate InRange(ps: seq<seq<nat>>, n: nat) {
    forall j, i :: 0 <= j < |ps| && 0 <= i < |ps[j]| ==> ps[j][i] < n
  }

  /** Every micro-batch sent through f, the outputs concatenated. */
  function Process<R, S>(f: R -> S, rows: seq<R>, ps: seq<seq<nat>>): seq<S>
    requires InRange(ps, |rows|)
  {
    if ps == [] then [] else MapRows(f, SelectRows(rows, ps[0])) + Process(f, rows, ps[1..])
  }

  lemma {:induction false} ProcessSelects<R, S>(f: R -> S, rows: seq<R>, ps: seq<seq<nat>>)
    requires InRange(ps, |rows|)
    ensures forall i :: 0 <= i < |Concat(ps)| ==> 0 <= Concat(ps)[i] < |rows|
    ensures Process(f, rows, ps) == MapRows(f, SelectRows(rows, Concat(ps)))
  {
    if ps != [] {
      assert InRange(ps[1..], |rows|) by { assert forall j :: 0 <= j < |ps[1..]| ==> ps[1..][j] == ps[j + 1]; }
      ProcessSelects(f, rows, ps[1..]);
      var idx, rest := Concat(ps), Concat(ps[1..]);
      assert forall i :: 0 <= i < |rest| ==> idx[|ps[0]| + i] == rest[i];
      assert MapRows(f, SelectRows(rows, idx)) == MapRows(f, SelectRows(rows, ps[0])) + MapRows(f, SelectRows(rows, rest));
    }
  }

  /** Splitting a batch into micro-batches, mapping any per-row function over them, concatenating and restoring is
      mapping the function over the batch: no row is lost, repeated or misplaced. */
  lemma RoundTrip<R, S>(f: R -> S, rows: seq<R>, ps: seq<seq<nat>>)
    requires IsPartition(ps, |rows|)
    ensures InRange(ps, |rows|)
    ensures RestoreDynamicBatch(Process(f, rows, ps), ps) == Ok(MapRows(f, rows))
  {
    var n, idx := |rows|, Concat(ps);
    forall j, i | 0 <= j < |ps| && 0 <= i < |ps[j]| ensures ps[j][i] < n { PartBounds(ps, n, j); }
    ProcessSelects(f, rows, ps);
    assert |idx| == n by { assert |multiset(idx)| == |idx| && |multiset(Range(n))| == n; }
    ReverseInverts(idx);
    Undone(f, rows, idx);
  }

  lemma Undone<R, S>(f: R -> S, rows: seq<R>, idx: seq<nat>)
    requires |idx| == |rows| && (forall i :: 0 <= i < |idx| ==> 0 <= idx[i] < |idx|)
    requires forall x :: 0 <= x < |idx| ==> idx[ReverseIdx(idx, |idx|)[x]] == x
    ensures var data, r := MapRows(f, SelectRows(rows, idx)), ReverseIdx(idx, |idx|);
            seq(|data|, x requires 0 <= x < |data| => data[r[x]]) == MapRows(f, rows)
  {
  }
}
