/** `karmarkar_karp` and `get_seqlen_balanced_partitions` as callers see them, and the approximation guarantee. */
module Balancing {
  import opened Wrappers
  import opened Arithmetic
  import opened Sums
  import opened KarmarkarKarp
  import opened Partitioning
  import opened VectorDifferencing

  /** What the partitions returned for `lens` satisfy. */
  ghost predicate Balanced(lens: seq<int>, k: nat, equalSize: bool, ps: seq<seq<nat>>)
    requires lens != [] && k > 0
  {
    && |ps| == k && IsPartition(ps, |lens|)
    && (forall i, j :: 0 <= i < k && 0 <= j < k ==> Load(lens, ps[i]) - Load(lens, ps[j]) <= SpreadBound(lens, k, equalSize))
    && (forall i :: 0 <= i < k ==> (ps[i] != [] <==> i < Min(k, |lens|)))
    && (equalSize ==> forall i :: 0 <= i < k ==> |ps[i]| * k == |lens|)
    && (k == 2 && !equalSize ==> Load(lens, ps[0]) - Load(lens, ps[1]) == Differencing(multiset(lens)))
    && Differenced(lens, k, equalSize, Loads(lens, ps))
  }

  /** The loads, in order, are a result of k-way differencing: again and again the two vectors of the largest spread are
      added crosswise. */
  ghost predicate Differenced(lens: seq<int>, k: nat, equalSize: bool, loads: seq<int>)
    requires k > 0
  {
    EndsIn(StartVectors(lens, k, equalSize), loads)
  }

  lemma {:induction false} ConcatLength(ps: seq<seq<nat>>, c: nat)
    requires forall i :: 0 <= i < |ps| ==> |ps[i]| == c
    ensures |Concat(ps)| == |ps| * c
  {
    if ps != [] {
      ConcatLength(ps[1..], c);
      assert |ps| * c == c + (|ps| - 1) * c;
    }
  }

  lemma HeldCount(s: KState, n: nat)
    requires Held(s) == multiset(Range(n))
    ensures |Concat(Partitions(s))| == n
  {
    assert |multiset(Concat(Partitions(s)))| == |Concat(Partitions(s))|;
    assert |multiset(Range(n))| == n;
  }

  lemma EvenCounts(s: KState, n: nat, i: nat)
    requires Even(s) && i < |s| && Held(s) == multiset(Range(n))
    ensures |Partitions(s)[i]| * |s| == n
  {
    HeldCount(s, n);
    var ps, c := Partitions(s), |s[i].items|;
    forall j | 0 <= j < |s| ensures |ps[j]| == c { assert |s[j].items| == |s[i].items|; }
    ConcatLength(ps, c);
  }

  lemma FinalBalanced(lens: seq<int>, k: nat, equalSize: bool, s: KState)
    requires lens != [] && k > 0 && StateGood(lens, k, SpreadBound(lens, k, equalSize), equalSize, s)
    requires Held(s) == multiset(Range(|lens|))
    requires k == 2 && !equalSize ==> Spread(s) == Differencing(multiset(lens))
    requires Differenced(lens, k, equalSize, SumVector(s))
    ensures Balanced(lens, k, equalSize, Partitions(s))
  {
    var ps, n := Partitions(s), |lens|;
    FinalLoads(lens, k, SpreadBound(lens, k, equalSize), s);
    assert |multiset(Range(n))| == n;
    forall i | 0 <= i < k ensures ps[i] != [] <==> i < Min(k, n) { FilledFirst(s, i); }
    if equalSize {
      forall i | 0 <= i < k ensures |ps[i]| * k == n { EvenCounts(s, n, i); }
    }
  }

  lemma FinalLoads(lens: seq<int>, k: nat, bound: int, s: KState)
    requires k > 0 && StateOk(lens, k, bound, s)
    ensures |s| == k && Loads(lens, Partitions(s)) == SumVector(s)
    ensures forall i :: 0 <= i < k ==> Load(lens, Partitions(s)[i]) == s[i].sum
    ensures forall i, j :: 0 <= i < k && 0 <= j < k ==> s[i].sum - s[j].sum <= bound
  {
    forall i | 0 <= i < k ensures Load(lens, Partitions(s)[i]) == s[i].sum { assert Sound(lens, s[i]); }
    forall i, j | 0 <= i < k && 0 <= j < k ensures s[i].sum - s[j].sum <= bound { SpreadBounds(s, i, j); }
  }

  method KarmarkarKarpPartitions(lens: seq<int>, k: nat, equalSize: bool) returns (r: Result<seq<seq<nat>>, Error>)
    requires AllNonNegative(lens)
    ensures r.Ok? <==> k > 0 && lens != [] && (equalSize ==> |lens| % k == 0)
    ensures r.Err? ==> r.error == if equalSize && k == 0 then DivisionByZero
                                  else if equalSize && |lens| % k != 0 then AssertionFailed else IndexOutOfRange
    ensures r.Ok? ==> Balanced(lens, k, equalSize, r.value)
  {
    if equalSize && k == 0 { return Err(DivisionByZero); }
    if equalSize && |lens| % k != 0 { return Err(AssertionFailed); }
    // states_pq[0] of an empty heap, or sets[0] of a state without sets
    if lens == [] || k == 0 { return Err(IndexOutOfRange); }
    ghost var bound := SpreadBound(lens, k, equalSize);
    var pq;
    if equalSize {
      pq := PushChunks(lens, k, bound);
    } else {
      pq := PushSingles(lens, k);
    }
    ghost var d := 0;
    if k == 2 {
      d := StartValue(lens, equalSize, pq);
    }
    var final := MergeStates(lens, k, bound, equalSize, pq, d);
    FinalBalanced(lens, k, equalSize, final);
    return Ok(Partitions(final));
  }

  ghost method StartValue(lens: seq<int>, equalSize: bool, pq: seq<KState>) returns (d: int)
    requires lens != [] && pq != [] && (!equalSize ==> multiset(Spreads(pq)) == multiset(lens))
    ensures DiffersBy(pq, d) && (!equalSize ==> d == Differencing(multiset(lens)))
  {
    assert |multiset(Spreads(pq))| == |pq| && |multiset(lens)| == |lens|;
    d := Differencing(multiset(Spreads(pq)));
  }

  // ---------- get_seqlen_balanced_partitions ----------

  function InsertIndex(x: nat, s: seq<nat>): seq<nat> {
    if s == [] || x <= s[0] then [x] + s else [s[0]] + InsertIndex(x, s[1..])
  }

  /** `sorted(partition)` */
  function SortIndices(s: seq<nat>): seq<nat> {
    if s == [] then [] else InsertIndex(s[0], SortIndices(s[1..]))
  }

  ghost predicate Increasing(s: seq<nat>) { forall i, j :: 0 <= i < j < |s| ==> s[i] <= s[j] }

  lemma {:induction false} InsertIndexPermutes(x: nat, s: seq<nat>)
    ensures multiset(InsertIndex(x, s)) == multiset(s) + multiset{x}
  {
    if s != [] && x > s[0] {
      InsertIndexPermutes(x, s[1..]);
      assert s == [s[0]] + s[1..];
    }
  }

  lemma {:induction false} InsertIndexSorts(x: nat, s: seq<nat>, lo: nat)
    requires Increasing(s) && lo <= x && forall i :: 0 <= i < |s| ==> lo <= s[i]
    ensures Increasing(InsertIndex(x, s)) && forall i :: 0 <= i < |InsertIndex(x, s)| ==> lo <= InsertIndex(x, s)[i]
  {
    if s != [] && x > s[0] { InsertIndexSorts(x, s[1..], s[0]); }
  }

  lemma {:induction false} SortIndicesSorts(s: seq<nat>)
    ensures Increasing(SortIndices(s)) && multiset(SortIndices(s)) == multiset(s)
  {
    if s != [] {
      SortIndicesSorts(s[1..]);
      InsertIndexSorts(s[0], SortIndices(s[1..]), 0);
      InsertIndexPermutes(s[0], SortIndices(s[1..]));
      assert s == [s[0]] + s[1..];
    }
  }

  lemma {:induction false} ConcatAgrees(a: seq<seq<nat>>, b: seq<seq<nat>>)
    requires |a| == |b| && forall i :: 0 <= i < |a| ==> multiset(a[i]) == multiset(b[i])
    ensures multiset(Concat(a)) == multiset(Concat(b))
  {
    if a != [] { ConcatAgrees(a[1..], b[1..]); }
  }

  lemma SortedBalanced(lens: seq<int>, k: nat, equalSize: bool, ps: seq<seq<nat>>, qs: seq<seq<nat>>)
    requires lens != [] && k > 0 && Balanced(lens, k, equalSize, ps)
    requires |qs| == k && forall i :: 0 <= i < k ==> multiset(qs[i]) == multiset(ps[i])
    ensures Balanced(lens, k, equalSize, qs)
  {
    ConcatAgrees(qs, ps);
    forall i | 0 <= i < k ensures Load(lens, qs[i]) == Load(lens, ps[i]) && |qs[i]| == |ps[i]| {
      LoadPermuted(lens, qs[i], ps[i]);
      assert |multiset(qs[i])| == |qs[i]| && |multiset(ps[i])| == |ps[i]|;
    }
    assert Loads(lens, qs) == Loads(lens, ps);
  }

  /** `set(...)` of a list. */
  function Elements(s: seq<nat>): set<nat> { set x | x in s }

  /** The indices seen in the first n lists. */
  ghost predicate Seen(ps: seq<seq<nat>>, n: nat, seen: set<nat>)
    requires n <= |ps|
  {
    seen == Elements(Concat(ps[..n]))
  }

  lemma SeenStep(ps: seq<seq<nat>>, n: nat, seen: set<nat>)
    requires n < |ps| && Seen(ps, n, seen)
    ensures Seen(ps, n + 1, seen + Elements(ps[n]))
  {
    assert ps[..n + 1] == ps[..n] + [ps[n]];
    ConcatAppend(ps[..n], [ps[n]]);
    assert Concat([ps[n]]) == ps[n] + Concat<nat>([]) == ps[n];
  }

  ghost predicate SortedSoFar(ps: seq<seq<nat>>, n: nat, qs: seq<seq<nat>>)
    requires n <= |ps|
  {
    |qs| == n && forall j :: 0 <= j < n ==> Increasing(qs[j]) && multiset(qs[j]) == multiset(ps[j])
  }

  /** `_check_and_sort_partitions`: k lists, none empty, which together hold exactly the indices below n. */
  method CheckAndSortPartitions(ps: seq<seq<nat>>, n: nat, k: nat) returns (r: Result<seq<seq<nat>>, Error>)
    ensures r.Ok? <==> |ps| == k && (forall i :: 0 <= i < |ps| ==> ps[i] != []) && Elements(Concat(ps)) == Elements(Range(n))
    ensures r.Ok? ==> SortedSoFar(ps, |ps|, r.value)
    ensures r.Err? ==> r.error == AssertionFailed
  {
    if |ps| != k { return Err(AssertionFailed); }
    var seen: set<nat>, sortedPartitions := {}, [];
    for i := 0 to |ps|
      invariant SortedSoFar(ps, i, sortedPartitions) && Seen(ps, i, seen)
      invariant forall j :: 0 <= j < i ==> ps[j] != []
    {
      if |ps[i]| == 0 { return Err(AssertionFailed); }
      SeenStep(ps, i, seen);
      seen := seen + Elements(ps[i]);
      SortIndicesSorts(ps[i]);
      sortedPartitions := sortedPartitions + [SortIndices(ps[i])];
    }
    assert ps[..|ps|] == ps;
    if seen != Elements(Range(n)) { return Err(AssertionFailed); }
    return Ok(sortedPartitions);
  }

  lemma ChecksPass(lens: seq<int>, k: nat, equalSize: bool, ps: seq<seq<nat>>)
    requires 0 < k <= |lens| && Balanced(lens, k, equalSize, ps)
    ensures |ps| == k && (forall i :: 0 <= i < |ps| ==> ps[i] != []) && Elements(Concat(ps)) == Elements(Range(|lens|))
  {
    assert forall x :: x in Concat(ps) <==> x in multiset(Concat(ps));
    assert forall x :: x in Range(|lens|) <==> x in multiset(Range(|lens|));
  }

  lemma SortedResult(lens: seq<int>, k: nat, equalSize: bool, ps: seq<seq<nat>>, qs: seq<seq<nat>>)
    requires 0 < k <= |lens| && Balanced(lens, k, equalSize, ps) && SortedSoFar(ps, |ps|, qs)
    ensures Balanced(lens, k, equalSize, qs) && forall i :: 0 <= i < k ==> qs[i] != [] && Increasing(qs[i])
  {
    SortedBalanced(lens, k, equalSize, ps, qs);
  }

  /** Each index list sorted; the checks on the result never fail. */
  method GetSeqlenBalancedPartitions(lens: seq<int>, k: nat, equalSize: bool) returns (r: Result<seq<seq<nat>>, Error>)
    requires AllNonNegative(lens)
    ensures r.Ok? <==> 0 < k <= |lens| && (equalSize ==> |lens| % k == 0)
    ensures r.Err? ==> r.error == if k > 0 then AssertionFailed else if equalSize then DivisionByZero else IndexOutOfRange
    ensures r.Ok? ==> Balanced(lens, k, equalSize, r.value)
    ensures r.Ok? ==> forall i :: 0 <= i < k ==> r.value[i] != [] && Increasing(r.value[i])
  {
    if |lens| < k { return Err(AssertionFailed); }
    var partitions := KarmarkarKarpPartitions(lens, k, equalSize);
    if partitions.Err? { return partitions; }
    ChecksPass(lens, k, equalSize, partitions.value);
    r := CheckAndSortPartitions(partitions.value, |lens|, k);
    SortedResult(lens, k, equalSize, partitions.value, r.value);
  }

  // ---------- How good the result is ----------

  lemma {:induction false} GapAtMostMax(lens: seq<int>, items: seq<Item>, k: nat)
    requires lens != [] && k > 0 && AllNonNegative(lens) && From(lens, items)
    ensures LargestGap(items, k) <= MaxOf(lens)
    decreases |items|
  {
    var m := MaxOf(lens);
    if |items| >= k {
      GapAtMostMax(lens, items[k..], k);
      assert items[k - 1].val <= m && items[0].val >= 0;
    }
  }

  /** A load exceeds the average by at most (k-1)/k of the spread. */
  lemma {:induction false} AboveAverage(loads: seq<int>, i: nat, spread: int)
    requires i < |loads| && forall j :: 0 <= j < |loads| ==> loads[i] - loads[j] <= spread
    ensures |loads| * loads[i] <= Sum(loads) + (|loads| - 1) * spread
  {
    var rest := loads[..i] + loads[i+1..];
    SumRemove(loads, i);
    AllAbove(rest, loads[i] - spread);
    assert (|loads| - 1) * (loads[i] - spread) == (|loads| - 1) * loads[i] - (|loads| - 1) * spread;
    assert |loads| * loads[i] == (|loads| - 1) * loads[i] + loads[i];
  }

  /** k times any load is at most the total plus k-1 times the largest item. */
  lemma LoadBound(lens: seq<int>, k: nat, equalSize: bool, ps: seq<seq<nat>>, i: nat)
    requires lens != [] && k > 0 && AllNonNegative(lens) && Balanced(lens, k, equalSize, ps) && i < k
    ensures k * Load(lens, ps[i]) <= Sum(lens) + (k - 1) * MaxOf(lens)
  {
    var loads, spread := Loads(lens, ps), SpreadBound(lens, k, equalSize);
    PartitionTotal(lens, ps);
    AboveAverage(loads, i, spread);
    if equalSize {
      SortItemsFacts(lens, |lens|);
      GapAtMostMax(lens, SortItems(lens, |lens|), k);
    }
    MulMonotone(k - 1, spread, MaxOf(lens));
  }

  lemma MulMonotone(a: nat, x: int, y: int)
    requires x <= y
    ensures a * x <= a * y
  {
  }

  /** Any partition has a list at least as heavy as the heaviest item. */
  lemma HeaviestItem(lens: seq<int>, qs: seq<seq<nat>>, x: nat, top: int)
    requires AllNonNegative(lens) && IsPartition(qs, |lens|) && x < |lens|
    requires forall j :: 0 <= j < |qs| ==> Load(lens, qs[j]) <= top
    ensures lens[x] <= top
  {
    RangeMember(|lens|, x);
    assert x in multiset(Concat(qs));
    var j := ConcatFind(qs, x);
    var i :| 0 <= i < |qs[j]| && qs[j][i] == x;
    LoadRemove(lens, qs[j], i);
    LoadNonNegative(lens, qs[j][..i] + qs[j][i+1..]);
    assert Load(lens, [x]) == lens[x] + Load(lens, [x][1..]);
  }

  /** Approximation guarantee: against any other way to cut the items into k lists, whose largest load is `top`,
      k times each returned load is at most (2k-1) times `top`. */
  lemma Approximation(lens: seq<int>, k: nat, equalSize: bool, ps: seq<seq<nat>>, i: nat, qs: seq<seq<nat>>, top: int)
    requires lens != [] && k > 0 && AllNonNegative(lens) && Balanced(lens, k, equalSize, ps) && i < k
    requires |qs| == k && IsPartition(qs, |lens|) && forall j :: 0 <= j < k ==> Load(lens, qs[j]) <= top
    ensures k * Load(lens, ps[i]) <= (2 * k - 1) * top
  {
    LoadBound(lens, k, equalSize, ps, i);
    PartitionTotal(lens, qs);
    AllBelow(Loads(lens, qs), top);
    var x :| 0 <= x < |lens| && lens[x] == MaxOf(lens);
    HeaviestItem(lens, qs, x, top);
    MulMonotone(k - 1, MaxOf(lens), top);
    TwiceMinusOne(k, top);
  }

  lemma TwiceMinusOne(k: nat, top: int)
    ensures (2 * k - 1) * top == k * top + (k - 1) * top
  {
  }
}
