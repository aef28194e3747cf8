/** That balanced partitions exist wherever one is asked for: the rounds of the heap as a recursion on its states. And that
    each round is determined: no two states of the heap are equal. */
module BalanceExists {
  import opened Sums
  import opened KarmarkarKarp
  import opened Partitioning
  import opened Balancing
  import opened VectorDifferencing

  /** Some state that no other one precedes. */
  lemma {:induction false} SomeTop(pq: seq<KState>, k: nat, n: nat) returns (i: nat)
    requires 0 < n <= |pq| && k > 0 && AllSized(pq, k)
    ensures i < n && forall x :: 0 <= x < n ==> !Before(pq[x], pq[i])
  {
    BeforeIrreflexive(pq[n - 1]);
    if n == 1 {
      i := 0;
    } else {
      var best := SomeTop(pq, k, n - 1);
      i := if Before(pq[n - 1], pq[best]) then n - 1 else best;
      forall x | 0 <= x < n ensures !Before(pq[x], pq[i]) {
        if i == n - 1 && x < n - 1 && Before(pq[x], pq[i]) { BeforeTransitive(pq[x], pq[i], pq[best]); }
      }
    }
  }

  // ---------- No ties ----------

  ghost predicate Once(pq: seq<KState>) { forall x :: HeldAll(pq)[x] <= 1 }

  lemma {:induction false} ItemsTotal(a: seq<Item>, b: seq<Item>)
    requires |a| == |b| && !ItemsLess(a, b) && !ItemsLess(b, a)
    ensures a == b
  {
    if a != [] { ItemsTotal(a[1..], b[1..]); }
  }

  lemma HeldFirst(s: KState, x: nat)
    requires s != [] && x in Indices(s[0])
    ensures Held(s)[x] >= 1
  {
    ConcatMember(Partitions(s), 0, x);
    assert x in multiset(Concat(Partitions(s)));
  }

  lemma HeldTwice(pq: seq<KState>, i: nat, j: nat, x: nat)
    requires i < j < |pq| && Held(pq[i])[x] >= 1 && Held(pq[j])[x] >= 1
    ensures HeldAll(pq)[x] >= 2
  {
    HeldAllPop(pq, i);
    HeldAllPop(Without(pq, i), j - 1);
  }

  /** The first set of every state holds an item. */
  lemma FirstFilled(lens: seq<int>, k: nat, bound: int, s: KState)
    requires k > 0 && StateOk(lens, k, bound, s)
    ensures |s| > 0 && s[0].items != []
  {
    FilledFirst(s, 0);
  }

  lemma SameFirst(s: KState, t: KState)
    requires s != [] && t != [] && !Before(s, t) && !Before(t, s)
    ensures s[0].items == t[0].items
  {
    if |s[0].items| == |t[0].items| && s[0].sum == t[0].sum { ItemsTotal(s[0].items, t[0].items); }
  }

  lemma NoTie(lens: seq<int>, k: nat, bound: int, equalSize: bool, pq: seq<KState>, i: nat, j: nat)
    requires k > 0 && HeapOk(lens, k, bound, equalSize, pq) && Once(pq) && i < j < |pq|
    requires AllSized(pq, k)
    ensures Before(pq[i], pq[j]) || Before(pq[j], pq[i])
  {
    assert StateGood(lens, k, bound, equalSize, pq[i]) && StateGood(lens, k, bound, equalSize, pq[j]);
    FirstFilled(lens, k, bound, pq[i]);
    if !Before(pq[i], pq[j]) && !Before(pq[j], pq[i]) {
      SameFirst(pq[i], pq[j]);
      SharedItem(pq, i, j);
      assert false;
    }
  }

  lemma SharedItem(pq: seq<KState>, i: nat, j: nat)
    requires i < j < |pq| && pq[i] != [] && pq[j] != [] && pq[i][0].items == pq[j][0].items != []
    ensures HeldAll(pq)[pq[i][0].items[0].idx] >= 2
  {
    var x := pq[i][0].items[0].idx;
    assert Indices(pq[i][0])[0] == x && Indices(pq[j][0])[0] == x;
    HeldFirst(pq[i], x);
    HeldFirst(pq[j], x);
    HeldTwice(pq, i, j, x);
  }

  /** Which state a round takes is never left to the heap: one state precedes all others. */
  lemma TopUnique(lens: seq<int>, k: nat, bound: int, equalSize: bool, pq: seq<KState>, i: nat, j: nat)
    requires k > 0 && HeapOk(lens, k, bound, equalSize, pq) && Once(pq) && AllSized(pq, k)
    requires Top(pq, i) && Top(pq, j)
    ensures i == j
  {
    if i < j { NoTie(lens, k, bound, equalSize, pq, i, j); }
    if j < i { NoTie(lens, k, bound, equalSize, pq, j, i); }
  }

  lemma OnceWithout(pq: seq<KState>, i: nat)
    requires Once(pq) && i < |pq|
    ensures Once(Without(pq, i))
  {
    HeldAllPop(pq, i);
    forall x ensures HeldAll(Without(pq, i))[x] <= 1 {
      assert HeldAll(pq)[x] == Held(pq[i])[x] + HeldAll(Without(pq, i))[x];
    }
  }

  lemma RoundKeeps(lens: seq<int>, k: nat, bound: int, equalSize: bool, pq: seq<KState>, i: nat, j: nat,
                   next: seq<KState>)
    requires HeapOk(lens, k, bound, equalSize, pq) && Once(pq) && HeapRound(pq, i, j, next)
    ensures HeapOk(lens, k, bound, equalSize, next) && Once(next)
  {
    var r := Without(pq, i);
    PopGood(lens, k, bound, equalSize, pq, i, r, j);
    MergeHeld(pq[i], r[j]);
    PopHeld(pq, i, r, j, Merge(pq[i], r[j]));
  }

  lemma RoundUnique(lens: seq<int>, k: nat, bound: int, equalSize: bool, pq: seq<KState>, i: nat, j: nat,
                    next: seq<KState>, a: nat, b: nat, other: seq<KState>)
    requires HeapOk(lens, k, bound, equalSize, pq) && Once(pq)
    requires HeapRound(pq, i, j, next) && HeapRound(pq, a, b, other)
    ensures next == other
  {
    HeapSized(lens, k, bound, equalSize, pq);
    TopUnique(lens, k, bound, equalSize, pq, i, a);
    OnceWithout(pq, i);
    StaysGood(lens, k, bound, equalSize, pq, i, Without(pq, i));
    HeapSized(lens, k, bound, equalSize, Without(pq, i));
    TopUnique(lens, k, bound, equalSize, Without(pq, i), j, b);
  }

  /** The loop can end with one state only: ties between equal sums are always decided, down to the indices. */
  lemma {:induction false} RunUnique(lens: seq<int>, k: nat, bound: int, equalSize: bool, pq: seq<KState>, f: KState,
                                     g: KState)
    requires HeapOk(lens, k, bound, equalSize, pq) && Once(pq) && HeapRun(pq, f) && HeapRun(pq, g)
    ensures f == g
    decreases |pq|
  {
    if |pq| > 1 {
      var i, j, next :| HeapRound(pq, i, j, next) && |next| < |pq| && HeapRun(next, f);
      var a, b, other :| HeapRound(pq, a, b, other) && |other| < |pq| && HeapRun(other, g);
      RoundUnique(lens, k, bound, equalSize, pq, i, j, next, a, b, other);
      RoundKeeps(lens, k, bound, equalSize, pq, i, j, next);
      RunUnique(lens, k, bound, equalSize, next, f, g);
    }
  }

  /** Every index is held at most once, as it is from the first round on. */
  lemma StartsOnce(pq: seq<KState>, n: nat)
    requires HeldAll(pq) == multiset(Range(n))
    ensures Once(pq)
  {
    forall x ensures HeldAll(pq)[x] <= 1 { RangeOnce(n, x); }
  }

  /** So the result is a function of the list, the number of sets and the choice of equal sizes. */
  lemma LoopDetermined(lens: seq<int>, k: nat, bound: int, equalSize: bool, pq: seq<KState>, f: KState, g: KState)
    requires HeapOk(lens, k, bound, equalSize, pq) && HeldAll(pq) == multiset(Range(|lens|))
    requires HeapRun(pq, f) && HeapRun(pq, g)
    ensures f == g
  {
    StartsOnce(pq, |lens|);
    RunUnique(lens, k, bound, equalSize, pq, f, g);
  }

  // ---------- The rounds ----------

  lemma {:induction false} SomeMerged(lens: seq<int>, k: nat, bound: int, equalSize: bool, held: multiset<nat>,
                                      start: multiset<seq<int>>, d: int, pq: seq<KState>) returns (final: KState)
    requires LoopInv(lens, k, bound, equalSize, held, start, d, pq)
    ensures StateGood(lens, k, bound, equalSize, final) && Held(final) == held && EndsIn(start, SumVector(final))
    ensures k == 2 ==> |final| == 2 && Spread(final) == d
    decreases |pq|
  {
    if |pq| == 1 {
      final := pq[0];
      LoopEnd(lens, k, bound, equalSize, held, start, d, final, pq);
    } else {
      HeapSized(lens, k, bound, equalSize, pq);
      var i := SomeTop(pq, k, |pq|);
      var rest := Without(pq, i);
      var j := SomeTop(rest, k, |rest|);
      MergeRound(lens, k, bound, equalSize, held, start, d, pq, i, rest, j);
      final := SomeMerged(lens, k, bound, equalSize, held, start, d, Without(rest, j) + [Merge(pq[i], rest[j])]);
    }
  }

  lemma OneMoreChunk(lens: seq<int>, sorted: seq<Item>, k: nat, bound: int, offset: nat, before: seq<KState>)
    returns (pq: seq<KState>)
    requires k > 0 && AllNonNegative(lens) && From(lens, sorted) && Ascending(sorted) && GapsWithin(sorted, k, bound)
    requires |sorted| % k == 0 && offset < |sorted| && ChunkedTo(lens, sorted, k, bound, offset, before)
    ensures offset + k <= |sorted| && ChunkedTo(lens, sorted, k, bound, offset + k, pq)
  {
    ChunkRound(lens, sorted, k, bound, offset, before);
    pq := before + [InitState(sorted[offset..offset + k], k)];
  }

  /** The states of the remaining chunks, pushed one after the other. */
  lemma {:induction false} SomeChunks(lens: seq<int>, sorted: seq<Item>, k: nat, bound: int, offset: nat,
                                      before: seq<KState>) returns (pq: seq<KState>)
    requires k > 0 && AllNonNegative(lens) && From(lens, sorted) && Ascending(sorted) && GapsWithin(sorted, k, bound)
    requires |sorted| % k == 0 && offset <= |sorted| && ChunkedTo(lens, sorted, k, bound, offset, before)
    ensures Pushed(lens, k, bound, true, sorted, pq) && (sorted != [] ==> pq != [])
    ensures Vectors(pq) == Chunked(Vals(sorted), k)
    decreases |sorted| - offset
  {
    if offset == |sorted| {
      assert sorted[..offset] == sorted && sorted[offset..] == [];
      pq := before;
    } else {
      pq := OneMoreChunk(lens, sorted, k, bound, offset, before);
      pq := SomeChunks(lens, sorted, k, bound, offset + k, pq);
    }
  }

  /** With equal sizes a balanced partition exists whenever k divides the number of items. */
  lemma SomeBalanced(lens: seq<int>, k: nat) returns (ps: seq<seq<nat>>)
    requires lens != [] && k > 0 && AllNonNegative(lens) && |lens| % k == 0
    ensures Balanced(lens, k, true, ps)
  {
    var sorted := SortItems(lens, |lens|);
    var bound := SpreadBound(lens, k, true);
    SortItemsFacts(lens, |lens|);
    GapsCovered(sorted, k);
    assert sorted[..0] == [] && sorted[0..] == sorted;
    var pq := SomeChunks(lens, sorted, k, bound, 0, []);
    PushedAll(lens, k, bound, true, pq);
    assert |multiset(Spreads(pq))| == |pq|;
    var d := Differencing(multiset(Spreads(pq)));
    var final := SomeMerged(lens, k, bound, true, HeldAll(pq), multiset(Vectors(pq)), d, pq);
    FinalBalanced(lens, k, true, final);
    ps := Partitions(final);
  }
}
