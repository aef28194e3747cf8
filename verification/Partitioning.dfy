/** `karmarkar_karp` and `get_seqlen_balanced_partitions`: the heap loop, its result and how good it is. */
module Partitioning {
  import opened Wrappers
  import opened Arithmetic
  import opened Sums
  import opened KarmarkarKarp
  import opened VectorDifferencing

  /** The Python exceptions these functions raise. */
  datatype Error = AssertionFailed | IndexOutOfRange | DivisionByZero | TypeMismatch

  // ---------- Initial states ----------

  function MaxOf(s: seq<int>): (r: int)
    requires s != []
    ensures r in s && forall i :: 0 <= i < |s| ==> s[i] <= r
  {
    if |s| == 1 then s[0] else Max(s[0], MaxOf(s[1..]))
  }

  function MinOf(s: seq<int>): (r: int)
    requires s != []
    ensures r in s && forall i :: 0 <= i < |s| ==> r <= s[i]
  {
    if |s| == 1 then s[0] else Min(s[0], MinOf(s[1..]))
  }

  /** `[Set() for _ in range(k)]` after `self.sets[i].add(...)` for the given items. */
  function InitSets(items: seq<Item>, k: nat): (r: KState)
    ensures |r| == k
    decreases k
  {
    if k == 0 then []
    else if items == [] then [PSet(0, [])] + InitSets([], k - 1)
    else [PSet(items[0].val, [items[0]])] + InitSets(items[1..], k - 1)
  }

  function InitState(items: seq<Item>, k: nat): KState { SortDesc(InitSets(items, k)) }

  function ItemIndices(items: seq<Item>): (r: seq<nat>)
    ensures |r| == |items|
  {
    seq(|items|, i requires 0 <= i < |items| => items[i].idx)
  }

  /** Items that are entries of the list being partitioned. */
  ghost predicate From(lens: seq<int>, items: seq<Item>) {
    forall i :: 0 <= i < |items| ==> items[i].idx < |lens| && items[i].val == lens[items[i].idx]
  }

  ghost predicate AllNonNegative(lens: seq<int>) { forall i :: 0 <= i < |lens| ==> lens[i] >= 0 }

  lemma SingleSound(lens: seq<int>, x: Item)
    requires From(lens, [x])
    ensures Sound(lens, PSet(x.val, [x])) && Sound(lens, PSet(0, [])) && Indices(PSet(x.val, [x])) == [x.idx]
  {
    assert [x][0] == x;
    assert Indices(PSet(x.val, [x])) == [x.idx];
    assert Indices(PSet(0, [])) == [];
    assert Load(lens, [x.idx]) == lens[x.idx] + Load(lens, []);
  }

  lemma {:induction false} InitSetsFacts(lens: seq<int>, items: seq<Item>, k: nat)
    requires From(lens, items) && |items| <= k && AllNonNegative(lens)
    ensures var s := InitSets(items, k);
            && (forall i :: 0 <= i < k ==> if i < |items| then s[i] == PSet(items[i].val, [items[i]]) else s[i] == PSet(0, []))
            && Filled(s) == |items|
            && NonNegative(s) && (forall i :: 0 <= i < k ==> Sound(lens, s[i]))
    decreases k
  {
    if k > 0 {
      var s := InitSets(items, k);
      if items == [] {
        InitSetsFacts(lens, [], k - 1);
        assert s[1..] == InitSets([], k - 1);
        assert Indices(PSet(0, [])) == [];
      } else {
        InitSetsFacts(lens, items[1..], k - 1);
        assert From(lens, [items[0]]);
        SingleSound(lens, items[0]);
        assert s[1..] == InitSets(items[1..], k - 1);
      }
    }
  }

  lemma HeldTail(s: KState)
    requires s != []
    ensures Held(s) == multiset(Indices(s[0])) + Held(s[1..])
  {
    PartitionsTail(s);
  }

  lemma IndicesTail(items: seq<Item>)
    requires items != []
    ensures multiset(ItemIndices(items)) == multiset{items[0].idx} + multiset(ItemIndices(items[1..]))
  {
    assert ItemIndices(items) == [items[0].idx] + ItemIndices(items[1..]);
  }

  lemma {:induction false} InitSetsHeld(items: seq<Item>, k: nat)
    requires |items| <= k
    ensures Held(InitSets(items, k)) == multiset(ItemIndices(items))
    decreases k
  {
    var s := InitSets(items, k);
    if k == 0 {
      assert Partitions(s) == [];
    } else {
      HeldTail(s);
      if items == [] {
        InitSetsHeld([], k - 1);
        assert Indices(PSet(0, [])) == [] && s[1..] == InitSets([], k - 1);
      } else {
        InitSetsHeld(items[1..], k - 1);
        IndicesTail(items);
        assert Indices(s[0]) == [items[0].idx] && s[1..] == InitSets(items[1..], k - 1);
      }
    }
  }

  // ---------- What every state in the heap satisfies ----------

  ghost predicate StateOk(lens: seq<int>, k: nat, bound: int, s: KState) {
    && |s| == k > 0 && Descending(s) && NonNegative(s)
    && (forall i :: 0 <= i < k ==> Sound(lens, s[i]))
    && Filled(s) == Min(k, |Held(s)|) && |Held(s)| > 0 && Spread(s) <= bound
  }

  /** With equal_size every set of a state holds the same number of items. */
  ghost predicate Even(s: KState) {
    forall i, j :: 0 <= i < |s| && 0 <= j < |s| ==> |s[i].items| == |s[j].items|
  }

  lemma InitSpread(lens: seq<int>, items: seq<Item>, k: nat, bound: int)
    requires From(lens, items) && 0 < |items| <= k && AllNonNegative(lens)
    requires |items| < k ==> forall i :: 0 <= i < |items| ==> items[i].val <= bound
    requires |items| == k ==> forall i, j :: 0 <= i < k && 0 <= j < k ==> items[i].val - items[j].val <= bound
    ensures |InitState(items, k)| == k && Spread(InitState(items, k)) <= bound
  {
    var u := InitSets(items, k);
    InitSetsFacts(lens, items, k);
    forall i, j | 0 <= i < k && 0 <= j < k ensures u[i].sum - u[j].sum <= bound {
      SumsApart(items, k, u, i, j, bound);
    }
    SpreadBelow(u, bound);
  }

  lemma SpreadBelow(u: KState, bound: int)
    requires |u| > 0 && forall i, j :: 0 <= i < |u| && 0 <= j < |u| ==> u[i].sum - u[j].sum <= bound
    ensures |SortDesc(u)| == |u| && Spread(SortDesc(u)) <= bound
  {
    SortDescSorts(u);
    var i := SortedMember(u, 0);
    var j := SortedMember(u, |u| - 1);
  }

  lemma SumsApart(items: seq<Item>, k: nat, u: KState, i: nat, j: nat, bound: int)
    requires 0 < |items| <= k == |u| && i < k && j < k && forall x :: 0 <= x < |items| ==> items[x].val >= 0
    requires forall x :: 0 <= x < k ==> u[x].sum == if x < |items| then items[x].val else 0
    requires |items| < k ==> forall i :: 0 <= i < |items| ==> items[i].val <= bound
    requires |items| == k ==> forall i, j :: 0 <= i < k && 0 <= j < k ==> items[i].val - items[j].val <= bound
    ensures u[i].sum - u[j].sum <= bound
  {
    assert items[0].val >= 0;
  }

  lemma InitStateSets(lens: seq<int>, items: seq<Item>, k: nat)
    requires From(lens, items) && |items| <= k && AllNonNegative(lens)
    ensures var s := InitState(items, k);
            |s| == k && Descending(s) && NonNegative(s) && forall i :: 0 <= i < k ==> Sound(lens, s[i])
  {
    var u, s := InitSets(items, k), InitState(items, k);
    InitSetsFacts(lens, items, k);
    SortDescSorts(u);
    forall i | 0 <= i < k ensures Sound(lens, s[i]) && s[i].sum >= 0 && (s[i].items == [] ==> s[i].sum == 0) {
      var j := SortedMember(u, i);
    }
  }

  lemma InitStateHeld(lens: seq<int>, items: seq<Item>, k: nat)
    requires From(lens, items) && |items| <= k && AllNonNegative(lens)
    ensures Held(InitState(items, k)) == multiset(ItemIndices(items)) && Filled(InitState(items, k)) == |items|
  {
    InitSetsFacts(lens, items, k);
    InitSetsHeld(items, k);
    SortHeld(InitSets(items, k));
    SortFilled(InitSets(items, k));
  }

  lemma InitStateOk(lens: seq<int>, items: seq<Item>, k: nat, bound: int)
    requires From(lens, items) && 0 < |items| <= k && AllNonNegative(lens)
    requires |items| < k ==> forall i :: 0 <= i < |items| ==> items[i].val <= bound
    requires |items| == k ==> forall i, j :: 0 <= i < k && 0 <= j < k ==> items[i].val - items[j].val <= bound
    ensures StateOk(lens, k, bound, InitState(items, k)) && Held(InitState(items, k)) == multiset(ItemIndices(items))
  {
    InitSpread(lens, items, k, bound);
    InitStateSets(lens, items, k);
    InitStateHeld(lens, items, k);
    assert |multiset(ItemIndices(items))| == |items|;
  }

  lemma InitStateEven(lens: seq<int>, items: seq<Item>, k: nat)
    requires From(lens, items) && |items| == k > 0 && AllNonNegative(lens)
    ensures Even(InitState(items, k)) && |InitState(items, k)| == k
  {
    var u, s := InitSets(items, k), InitState(items, k);
    InitSetsFacts(lens, items, k);
    SortDescSorts(u);
    forall i | 0 <= i < k ensures |s[i].items| == 1 { var j := SortedMember(u, i); }
  }

  /** For k = 2 the spread of a single item is the item. */
  lemma InitStateTwo(lens: seq<int>, x: Item)
    requires From(lens, [x]) && AllNonNegative(lens)
    ensures |InitState([x], 2)| == 2 && Spread(InitState([x], 2)) == x.val
  {
    InitSetsFacts(lens, [x], 2);
    var u := InitSets([x], 2);
    assert u == [PSet(x.val, [x]), PSet(0, [])];
    assert u[1..] == [PSet(0, [])];
    assert SortDesc(u[1..]) == [PSet(0, [])] by { assert u[1..][1..] == []; }
    assert !Less(PSet(x.val, [x]), PSet(0, [])) && x.val >= 0 by { assert [x][0] == x; }
    assert SortDesc(u) == Insert(PSet(x.val, [x]), [PSet(0, [])]);
  }

  lemma MergeAllSound(lens: seq<int>, a: KState, b: KState, i: nat)
    requires |a| == |b| && i < |Merge(a, b)|
    requires forall j :: 0 <= j < |a| ==> Sound(lens, a[j]) && Sound(lens, b[j])
    ensures Sound(lens, Merge(a, b)[i])
  {
    var j := SortedMember(MergeSets(a, b), i);
    SetsSound(lens, a, b, j);
  }

  lemma SetsSound(lens: seq<int>, a: KState, b: KState, j: nat)
    requires |a| == |b| && j < |a|
    requires forall j :: 0 <= j < |a| ==> Sound(lens, a[j]) && Sound(lens, b[j])
    ensures Sound(lens, MergeSets(a, b)[j])
  {
    MergeSound(lens, a[j], b[|a| - 1 - j]);
  }

  lemma MergeCount(a: KState, b: KState) returns (n: nat)
    requires |a| == |b|
    ensures n == |Held(Merge(a, b))| == |Held(a)| + |Held(b)|
  {
    MergeHeld(a, b);
    n := |Held(Merge(a, b))|;
  }

  lemma MinOfSum(k: nat, x: nat, y: nat)
    ensures Min(k, Min(k, x) + Min(k, y)) == Min(k, x + y)
  {
  }

  lemma MergeFills(k: nat, a: KState, b: KState)
    requires |a| == |b| == k && Descending(a) && Descending(b) && NonNegative(a) && NonNegative(b)
    requires Filled(a) == Min(k, |Held(a)|) && Filled(b) == Min(k, |Held(b)|)
    ensures Filled(Merge(a, b)) == Min(k, |Held(Merge(a, b))|)
  {
    var n := MergeCount(a, b);
    var p, q, f := MergeFilled(a, b);
    MinOfSum(k, |Held(a)|, |Held(b)|);
  }

  lemma MergeOk(lens: seq<int>, k: nat, bound: int, a: KState, b: KState)
    requires StateOk(lens, k, bound, a) && StateOk(lens, k, bound, b)
    ensures StateOk(lens, k, bound, Merge(a, b))
  {
    var m := Merge(a, b);
    assert |m| == k && Descending(m) && Spread(m) <= bound by { MergeSpread(a, b); }
    MergeFills(k, a, b);
    var n := MergeCount(a, b);
    MergeNonNegative(a, b);
    forall i | 0 <= i < k ensures Sound(lens, m[i]) { MergeAllSound(lens, a, b, i); }
  }

  lemma MergeEven(a: KState, b: KState)
    requires |a| == |b| && Even(a) && Even(b)
    ensures Even(Merge(a, b)) && |Merge(a, b)| == |a|
  {
    var m := MergeSets(a, b);
    SortDescSorts(m);
    forall i, j | 0 <= i < |m| && 0 <= j < |m| ensures |Merge(a, b)[i].items| == |Merge(a, b)[j].items| {
      var x := SortedMember(m, i);
      var y := SortedMember(m, j);
      SetsEven(a, b, x, y);
    }
  }

  lemma SetsEven(a: KState, b: KState, x: nat, y: nat)
    requires |a| == |b| && Even(a) && Even(b) && x < |a| && y < |a|
    ensures |MergeSets(a, b)[x].items| == |MergeSets(a, b)[y].items|
  {
    var k := |a|;
    assert |a[x].items| == |a[y].items| && |b[k - 1 - x].items| == |b[k - 1 - y].items|;
  }

  // ---------- The heap ----------

  /** `State.__lt__`: larger spread first, then the larger first set. */
  predicate Before(s: KState, t: KState)
    requires |s| > 0 && |t| > 0
  {
    if Spread(s) != Spread(t) then Spread(s) > Spread(t) else Less(t[0], s[0])
  }

  ghost predicate AllSized(pq: seq<KState>, k: nat) { forall i :: 0 <= i < |pq| ==> |pq[i]| == k }

  /** `heapq.heappop`, by its contract: some state that no other one precedes. */
  method HeapPop(pq: seq<KState>, ghost k: nat) returns (top: KState, rest: seq<KState>, ghost at: nat)
    requires pq != [] && k > 0 && AllSized(pq, k)
    ensures at < |pq| && top == pq[at] && rest == Without(pq, at)
    ensures forall i :: 0 <= i < |pq| ==> !Before(pq[i], top)
    ensures forall i :: 0 <= i < |pq| ==>
              Spread(pq[i]) < Spread(top) || (Spread(pq[i]) == Spread(top) && !Less(top[0], pq[i][0]))
  {
    var best := 0;
    BeforeIrreflexive(pq[0]);
    for i := 1 to |pq|
      invariant best < |pq|
      invariant forall j :: 0 <= j < i ==> !Before(pq[j], pq[best])
    {
      if Before(pq[i], pq[best]) {
        forall j | 0 <= j <= i ensures !Before(pq[j], pq[i]) {
          if Before(pq[j], pq[i]) {
            BeforeIrreflexive(pq[i]);
            BeforeTransitive(pq[j], pq[i], pq[best]);
          }
        }
        best := i;
      }
    }
    top, rest, at := pq[best], Without(pq, best), best;
  }

  lemma BeforeTransitive(a: KState, b: KState, c: KState)
    requires |a| > 0 && |b| > 0 && |c| > 0 && Before(a, b) && Before(b, c)
    ensures Before(a, c)
  {
    if Spread(a) == Spread(b) == Spread(c) { LessTransitive(c[0], b[0], a[0]); }
  }

  lemma BeforeIrreflexive(a: KState)
    requires |a| > 0
    ensures !Before(a, a)
  {
    ItemsLessIrreflexive(a[0].items);
  }

  // ---------- Sum vectors ----------

  function SumVector(s: KState): (r: seq<int>)
    ensures |r| == |s| && forall i :: 0 <= i < |s| ==> r[i] == s[i].sum
  {
    Mapped((x: PSet) => x.sum, s)
  }

  function Vectors(pq: seq<KState>): (r: seq<seq<int>>)
    ensures |r| == |pq| && forall i :: 0 <= i < |pq| ==> r[i] == SumVector(pq[i])
  {
    Mapped((s: KState) => SumVector(s), pq)
  }

  lemma SumsFall(s: KState)
    requires Descending(s)
    ensures Falling(SumVector(s))
  {
    forall i, j | 0 <= i < j < |s| ensures s[i].sum >= s[j].sum { assert !Less(s[i], s[j]); }
  }

  lemma SortedSums(s: seq<PSet>)
    ensures Falling(SumVector(SortDesc(s))) && multiset(SumVector(SortDesc(s))) == multiset(SumVector(s))
  {
    SortDescSorts(s);
    SumsFall(SortDesc(s));
    MapPermuted((x: PSet) => x.sum, SortDesc(s), s);
  }

  /** A merge adds the sum vectors crosswise. */
  lemma MergeJoins(a: KState, b: KState)
    requires |a| == |b|
    ensures Joins(SumVector(a), SumVector(b), SumVector(Merge(a, b)))
  {
    SortedSums(MergeSets(a, b));
    assert SumVector(MergeSets(a, b)) == Crossed(SumVector(a), SumVector(b));
  }

  /** The state on top of the heap has the leading vector. */
  lemma TopLeads(pq: seq<KState>, k: nat, i: nat)
    requires k > 0 && AllSized(pq, k) && i < |pq| && forall x :: 0 <= x < |pq| ==> !Before(pq[x], pq[i])
    ensures Leads(multiset(Vectors(pq)), SumVector(pq[i]))
  {
    assert Vectors(pq)[i] == SumVector(pq[i]);
    forall w | w in multiset(Vectors(pq))
      ensures Width(w) < Width(SumVector(pq[i])) ||
              (Width(w) == Width(SumVector(pq[i])) && First(w) <= First(SumVector(pq[i])))
    {
      var x := PlaceOf(w, Vectors(pq));
      assert !Before(pq[x], pq[i]) && |pq[x]| == k && |pq[i]| == k;
    }
  }

  lemma VectorsWithout(pq: seq<KState>, i: nat, r: seq<KState>)
    requires i < |pq| && r == Without(pq, i)
    ensures multiset(Vectors(r)) == multiset(Vectors(pq)) - multiset{SumVector(pq[i])}
  {
    MappedWithout((s: KState) => SumVector(s), pq, i, r);
  }

  lemma VectorsPush(pq: seq<KState>, s: KState)
    ensures Vectors(pq + [s]) == Vectors(pq) + [SumVector(s)]
  {
  }

  /** Popping two states and pushing their merge is one round on the vectors, for any number of sets. */
  lemma VectorRound(pq: seq<KState>, k: nat, i: nat, r: seq<KState>, j: nat)
    requires k > 0 && AllSized(pq, k) && i < |pq| && r == Without(pq, i) && AllSized(r, k) && j < |r|
    requires forall x :: 0 <= x < |pq| ==> !Before(pq[x], pq[i])
    requires forall x :: 0 <= x < |r| ==> !Before(r[x], r[j])
    ensures |pq[i]| == |r[j]|
    ensures Round(multiset(Vectors(pq)), multiset(Vectors(Without(r, j) + [Merge(pq[i], r[j])])))
  {
    TopLeads(pq, k, i);
    TopLeads(r, k, j);
    MergeJoins(pq[i], r[j]);
    VectorsWithout(pq, i, r);
    VectorsWithout(r, j, Without(r, j));
    VectorsPush(Without(r, j), Merge(pq[i], r[j]));
    MultisetJoin(Vectors(Without(r, j)), [SumVector(Merge(pq[i], r[j]))]);
    RoundOf(multiset(Vectors(pq)), SumVector(pq[i]), multiset(Vectors(r)), SumVector(r[j]),
            SumVector(Merge(pq[i], r[j])), multiset(Vectors(Without(r, j) + [Merge(pq[i], r[j])])));
  }

  lemma RoundOf(m: multiset<seq<int>>, v: seq<int>, r: multiset<seq<int>>, w: seq<int>, t: seq<int>,
                n: multiset<seq<int>>)
    requires Leads(m, v) && r == m - multiset{v} && Leads(r, w) && Joins(v, w, t) && n == r - multiset{w} + multiset{t}
    ensures Round(m, n)
  {
  }

  /** Whatever the rounds make of this heap's vectors, they make of `start`. */
  ghost predicate LeadsBack(start: multiset<seq<int>>, pq: seq<KState>) {
    forall f :: EndsIn(multiset(Vectors(pq)), f) ==> EndsIn(start, f)
  }

  lemma LeadsBackStep(start: multiset<seq<int>>, pq: seq<KState>, next: seq<KState>)
    requires LeadsBack(start, pq) && |next| + 1 == |pq| > 1
    requires Round(multiset(Vectors(pq)), multiset(Vectors(next)))
    ensures LeadsBack(start, next)
  {
    assert |multiset(Vectors(pq))| == |pq| && |multiset(Vectors(next))| == |next|;
    forall f | EndsIn(multiset(Vectors(next)), f) ensures EndsIn(start, f) {
      OneRoundMore(multiset(Vectors(pq)), multiset(Vectors(next)), f);
    }
  }

  lemma LeadsBackEnd(start: multiset<seq<int>>, s: KState)
    requires LeadsBack(start, [s])
    ensures EndsIn(start, SumVector(s))
  {
    assert Vectors([s]) == [SumVector(s)];
    assert multiset([SumVector(s)]) == multiset{SumVector(s)};
    assert EndsIn(multiset(Vectors([s])), SumVector(s));
  }

  // ---------- What the heap holds ----------

  ghost function HeldAll(pq: seq<KState>): multiset<nat> {
    if pq == [] then multiset{} else Held(pq[0]) + HeldAll(pq[1..])
  }

  lemma {:induction false} HeldAllPush(pq: seq<KState>, s: KState)
    ensures HeldAll(pq + [s]) == HeldAll(pq) + Held(s)
  {
    if pq == [] {
      assert [s][1..] == [];
    } else {
      assert (pq + [s])[1..] == pq[1..] + [s];
      HeldAllPush(pq[1..], s);
    }
  }

  lemma Swapped(a: multiset<nat>, b: multiset<nat>, c: multiset<nat>)
    ensures a + (b + c) == b + (a + c)
  {
  }

  lemma {:induction false} HeldAllPop(pq: seq<KState>, i: nat)
    requires i < |pq|
    ensures HeldAll(pq) == Held(pq[i]) + HeldAll(Without(pq, i))
  {
    if i == 0 {
      assert Without(pq, 0) == pq[1..];
    } else {
      var rest := Without(pq[1..], i - 1);
      HeldAllPop(pq[1..], i - 1);
      assert Without(pq, i)[0] == pq[0] && Without(pq, i)[1..] == rest;
      Swapped(Held(pq[0]), Held(pq[i]), HeldAll(rest));
    }
  }

  // ---------- Plain number differencing (k = 2) ----------

  lemma SomeMember(m: multiset<int>)
    requires |m| > 0
    ensures exists x :: x in m
  {
    assert (forall x :: x !in m) ==> m == multiset{};
  }

  ghost function Largest(m: multiset<int>): (r: int)
    requires |m| > 0
    ensures r in m && forall x :: x in m ==> x <= r
    decreases |m|
  {
    SomeMember(m);
    var x :| x in m;
    var rest := m - multiset{x};
    assert m == multiset{x} + rest;
    if |m| == 1 then x else Max(x, Largest(rest))
  }

  /** The two largest numbers replaced by their difference. */
  ghost function DifferenceTwo(m: multiset<int>): (r: multiset<int>)
    requires |m| > 1
    ensures |r| == |m| - 1
  {
    var a := Largest(m);
    var b := Largest(m - multiset{a});
    m - multiset{a} - multiset{b} + multiset{a - b}
  }

  ghost function Differencing(m: multiset<int>): int
    requires |m| > 0
    decreases |m|
  {
    if |m| == 1 then Largest(m) else Differencing(DifferenceTwo(m))
  }

  function Spreads(pq: seq<KState>): (r: seq<int>)
    ensures |r| == |pq|
  {
    seq(|pq|, i requires 0 <= i < |pq| => if |pq[i]| > 0 then Spread(pq[i]) else 0)
  }

  lemma LargestIs(m: multiset<int>, a: int)
    requires a in m && forall x :: x in m ==> x <= a
    ensures |m| > 0 && Largest(m) == a
  {
    assert m == multiset{a} + (m - multiset{a});
  }

  lemma OneOut(m: multiset<int>, a: int)
    requires a in m
    ensures |m| == |m - multiset{a}| + 1
  {
    assert m == (m - multiset{a}) + multiset{a};
  }

  ghost predicate IsLargest(m: multiset<int>, a: int) { a in m && forall x :: x in m ==> x <= a }

  lemma DifferenceTwoAs(m: multiset<int>, a: int, n: multiset<int>, b: int, t: multiset<int>)
    requires IsLargest(m, a) && n == m - multiset{a} && IsLargest(n, b) && t == n - multiset{b} + multiset{a - b}
    ensures |m| > 1 && DifferenceTwo(m) == t
  {
    LargestIs(m, a);
    LargestIs(n, b);
    OneOut(m, a);
    DifferenceTwoIs(m, a, n, b);
  }

  lemma DifferenceTwoIs(m: multiset<int>, a: int, n: multiset<int>, b: int)
    requires |m| > 1 && Largest(m) == a && n == m - multiset{a} && |n| > 0 && Largest(n) == b
    ensures DifferenceTwo(m) == n - multiset{b} + multiset{a - b}
  {
  }

  lemma MaxOfMultiset(s: seq<int>, i: nat, m: multiset<int>)
    requires i < |s| && m == multiset(s) && forall x :: 0 <= x < |s| ==> s[x] <= s[i]
    ensures IsLargest(m, s[i])
  {
    forall x | x in m ensures x <= s[i] { assert x in s; }
  }

  ghost predicate Tops(s: seq<int>, i: nat) { i < |s| && forall x :: 0 <= x < |s| ==> s[x] <= s[i] }

  lemma DifferenceSeq(s: seq<int>, i: nat, r: seq<int>, j: nat, t: seq<int>, m: multiset<int>, u: multiset<int>)
    requires Tops(s, i) && r == Without(s, i) && Tops(r, j) && t == Without(r, j) + [s[i] - r[j]]
    requires m == multiset(s) && u == multiset(t)
    ensures |m| > 1 && DifferenceTwo(m) == u
  {
    FirstTwo(s, i, r, j, t, m, multiset(r), u, s[i], r[j]);
    DifferenceTwoAs(m, s[i], multiset(r), r[j], u);
  }

  lemma FirstTwo(s: seq<int>, i: nat, r: seq<int>, j: nat, t: seq<int>, m: multiset<int>, n: multiset<int>,
                 u: multiset<int>, a: int, b: int)
    requires Tops(s, i) && r == Without(s, i) && Tops(r, j) && a == s[i] && b == r[j] && t == Without(r, j) + [a - b]
    requires m == multiset(s) && n == multiset(r) && u == multiset(t)
    ensures IsLargest(m, a) && n == m - multiset{a} && IsLargest(n, b) && u == n - multiset{b} + multiset{a - b}
  {
    TakeLargest(s, i, r, m, n);
    MaxOfMultiset(r, j, n);
    Replaced(r, j, a - b, t);
  }

  lemma TakeLargest(s: seq<int>, i: nat, r: seq<int>, m: multiset<int>, n: multiset<int>)
    requires Tops(s, i) && r == Without(s, i) && m == multiset(s) && n == multiset(r)
    ensures IsLargest(m, s[i]) && n == m - multiset{s[i]}
  {
    MultisetRemove(s, i);
    MaxOfMultiset(s, i, m);
  }

  lemma Replaced(r: seq<int>, j: nat, d: int, t: seq<int>)
    requires j < |r| && t == Without(r, j) + [d]
    ensures multiset(t) == multiset(r) - multiset{r[j]} + multiset{d}
  {
    MultisetRemove(r, j);
    assert multiset(t) == multiset(Without(r, j)) + multiset([d]);
  }

  lemma LeadingSpread(pq: seq<KState>, i: nat)
    requires AllSized(pq, 2) && i < |pq| && forall x :: 0 <= x < |pq| ==> !Before(pq[x], pq[i])
    ensures forall x :: 0 <= x < |pq| ==> Spreads(pq)[x] <= Spreads(pq)[i]
  {
    forall x | 0 <= x < |pq| ensures Spreads(pq)[x] <= Spreads(pq)[i] {
      assert !Before(pq[x], pq[i]);
    }
  }

  /** Popping the two leading states and pushing their merge is one differencing step on the spreads. */
  lemma DifferencingStep(pq: seq<KState>, i: nat, r: seq<KState>, j: nat, merged: KState)
    requires AllSized(pq, 2) && i < |pq| && r == Without(pq, i) && AllSized(r, 2) && j < |r| && |merged| == 2
    requires forall x :: 0 <= x < |pq| ==> !Before(pq[x], pq[i])
    requires forall x :: 0 <= x < |r| ==> !Before(r[x], r[j])
    requires Spread(merged) == Spread(pq[i]) - Spread(r[j])
    ensures |multiset(Spreads(pq))| > 1
    ensures multiset(Spreads(Without(r, j) + [merged])) == DifferenceTwo(multiset(Spreads(pq)))
  {
    LeadingSpread(pq, i);
    LeadingSpread(r, j);
    assert Spreads(r) == Without(Spreads(pq), i);
    var t := Spreads(Without(r, j) + [merged]);
    assert t == Without(Spreads(r), j) + [Spreads(pq)[i] - Spreads(r)[j]];
    DifferenceSeq(Spreads(pq), i, Spreads(r), j, t, multiset(Spreads(pq)), multiset(t));
  }

  // ---------- sorted((seqlen, i) for ...) ----------

  /** Tuple order on (seqlen, i). */
  predicate Earlier(a: Item, b: Item) { a.val < b.val || (a.val == b.val && a.idx < b.idx) }

  function InsertItem(x: Item, s: seq<Item>): seq<Item> {
    if s == [] then [x]
    else if Earlier(s[0], x) then [s[0]] + InsertItem(x, s[1..])
    else [x] + s
  }

  /** The items of `lens[..n]`, sorted. */
  function SortItems(lens: seq<int>, n: nat): seq<Item>
    requires n <= |lens|
  {
    if n == 0 then [] else InsertItem(Item(n - 1, lens[n - 1]), SortItems(lens, n - 1))
  }

  function Vals(items: seq<Item>): (r: seq<int>)
    ensures |r| == |items|
  {
    seq(|items|, i requires 0 <= i < |items| => items[i].val)
  }

  ghost predicate Ascending(s: seq<Item>) { forall i, j :: 0 <= i < j < |s| ==> s[i].val <= s[j].val }

  lemma {:induction false} InsertItemMembers(x: Item, s: seq<Item>)
    ensures |InsertItem(x, s)| == |s| + 1
    ensures forall i :: 0 <= i < |InsertItem(x, s)| ==> InsertItem(x, s)[i] == x || InsertItem(x, s)[i] in s
  {
    if s != [] && Earlier(s[0], x) { InsertItemMembers(x, s[1..]); }
  }

  lemma {:induction false} InsertItemPermutes(x: Item, s: seq<Item>)
    ensures multiset(InsertItem(x, s)) == multiset(s) + multiset{x}
  {
    if s != [] && Earlier(s[0], x) {
      InsertItemPermutes(x, s[1..]);
      assert s == [s[0]] + s[1..];
    }
  }

  lemma {:induction false} InsertItemAscending(x: Item, s: seq<Item>)
    requires Ascending(s)
    ensures Ascending(InsertItem(x, s))
  {
    if s != [] && Earlier(s[0], x) {
      InsertItemAscending(x, s[1..]);
      InsertItemMembers(x, s[1..]);
      var t := InsertItem(x, s);
      forall j | 0 < j < |t| ensures s[0].val <= t[j].val {
        assert t[j] == x || t[j] in s[1..];
      }
    }
  }

  /** `enumerate(lens)` as items. */
  function Enumerated(lens: seq<int>, n: nat): (r: seq<Item>)
    requires n <= |lens|
    ensures |r| == n
  {
    seq(n, i requires 0 <= i < n => Item(i, lens[i]))
  }

  lemma {:induction false} SortItemsFacts(lens: seq<int>, n: nat)
    requires n <= |lens|
    ensures |SortItems(lens, n)| == n && From(lens, SortItems(lens, n)) && Ascending(SortItems(lens, n))
  {
    if n > 0 {
      var x, s := Item(n - 1, lens[n - 1]), SortItems(lens, n - 1);
      SortItemsFacts(lens, n - 1);
      InsertItemMembers(x, s);
      InsertItemAscending(x, s);
    }
  }

  lemma {:induction false} SortItemsPermutes(lens: seq<int>, n: nat)
    requires n <= |lens|
    ensures SameItems(SortItems(lens, n), Enumerated(lens, n))
  {
    if n > 0 {
      SortItemsPermutes(lens, n - 1);
      SortItemsNext(lens, n);
    } else {
      NoItems(lens);
    }
  }

  lemma NoItems(lens: seq<int>)
    ensures SameItems(SortItems(lens, 0), Enumerated(lens, 0))
  {
    assert SortItems(lens, 0) == [] && Enumerated(lens, 0) == [];
  }

  ghost predicate SameItems(a: seq<Item>, b: seq<Item>) { multiset(a) == multiset(b) }

  lemma SortItemsNext(lens: seq<int>, n: nat)
    requires 0 < n <= |lens| && SameItems(SortItems(lens, n - 1), Enumerated(lens, n - 1))
    ensures SameItems(SortItems(lens, n), Enumerated(lens, n))
  {
    InsertKeeps(Item(n - 1, lens[n - 1]), SortItems(lens, n - 1), Enumerated(lens, n - 1));
    EnumeratedNext(lens, n - 1);
  }

  lemma InsertKeeps(x: Item, s: seq<Item>, e: seq<Item>)
    requires multiset(s) == multiset(e)
    ensures multiset(InsertItem(x, s)) == multiset(e) + multiset{x}
  {
    InsertItemPermutes(x, s);
  }

  lemma EnumeratedNext(lens: seq<int>, n: nat)
    requires n < |lens|
    ensures multiset(Enumerated(lens, n + 1)) == multiset(Enumerated(lens, n)) + multiset{Item(n, lens[n])}
  {
    assert Enumerated(lens, n + 1) == Enumerated(lens, n) + [Item(n, lens[n])];
  }

  lemma {:induction false} ItemsPermuted(a: seq<Item>, b: seq<Item>)
    requires multiset(a) == multiset(b)
    ensures multiset(ItemIndices(a)) == multiset(ItemIndices(b)) && multiset(Vals(a)) == multiset(Vals(b))
    decreases |a|
  {
    if a == [] {
      assert |multiset(b)| == 0;
    } else {
      var i, c := TakeOut(a, b);
      assert a[..0] + a[0+1..] == a[1..];
      ItemsPermuted(a[1..], c);
      ItemsSplit(a, 0, a[1..]);
      ItemsSplit(b, i, c);
    }
  }

  lemma WithoutItem(a: seq<Item>, i: nat, c: seq<Item>)
    requires i < |a| && c == a[..i] + a[i+1..]
    ensures ItemIndices(c) == ItemIndices(a)[..i] + ItemIndices(a)[i+1..]
    ensures Vals(c) == Vals(a)[..i] + Vals(a)[i+1..]
  {
  }

  lemma ItemsSplit(a: seq<Item>, i: nat, c: seq<Item>)
    requires i < |a| && c == a[..i] + a[i+1..]
    ensures multiset(ItemIndices(a)) == multiset(ItemIndices(c)) + multiset{a[i].idx}
    ensures multiset(Vals(a)) == multiset(Vals(c)) + multiset{a[i].val}
  {
    WithoutItem(a, i, c);
    Resplit(ItemIndices(a), i, ItemIndices(c));
    Resplit(Vals(a), i, Vals(c));
  }

  lemma SortedHolds(lens: seq<int>)
    ensures var t := SortItems(lens, |lens|);
            multiset(ItemIndices(t)) == multiset(Range(|lens|)) && multiset(Vals(t)) == multiset(lens)
  {
    SortItemsPermutes(lens, |lens|);
    ItemsPermuted(SortItems(lens, |lens|), Enumerated(lens, |lens|));
    assert ItemIndices(Enumerated(lens, |lens|)) == Range(|lens|);
    assert Vals(Enumerated(lens, |lens|)) == lens;
  }

  /** The widest gap inside a chunk of k consecutive sorted items. */
  function LargestGap(items: seq<Item>, k: nat): int
    requires k > 0
    decreases |items|
  {
    if |items| < k then 0 else Max(items[k - 1].val - items[0].val, LargestGap(items[k..], k))
  }

  lemma {:induction false} GapCovers(items: seq<Item>, k: nat, offset: nat)
    requires k > 0 && offset % k == 0 && offset + k <= |items|
    ensures items[offset + k - 1].val - items[offset].val <= LargestGap(items, k)
    decreases |items|
  {
    if offset > 0 {
      PreviousMultiple(offset, k);
      GapCovers(items[k..], k, offset - k);
    }
  }

  lemma PreviousMultiple(a: nat, k: nat)
    requires 0 < k && 0 < a && a % k == 0
    ensures k <= a && (a - k) % k == 0
  {
    var q := a / k;
    assert a == k * q && q >= 1;
    assert a - k == k * (q - 1);
    MultipleIsDivisible(k, q - 1);
  }

  lemma {:induction false} MultipleIsDivisible(k: nat, q: nat)
    requires k > 0
    ensures (k * q) % k == 0
  {
    var r, e := (k * q) % k, q - (k * q) / k;
    assert r == k * e;
    ProductAwayFromZero(k, e);
  }

  lemma ProductAwayFromZero(k: nat, e: int)
    ensures e >= 1 ==> k * e >= k
    ensures e <= -1 ==> k * e + k <= 0
  {
  }

  // ---------- The loop ----------

  /** How far apart two loads of the result can be. */
  function SpreadBound(lens: seq<int>, k: nat, equalSize: bool): int
    requires lens != [] && k > 0
  {
    if equalSize then LargestGap(SortItems(lens, |lens|), k) else MaxOf(lens)
  }

  ghost predicate StateGood(lens: seq<int>, k: nat, bound: int, equalSize: bool, s: KState) {
    StateOk(lens, k, bound, s) && (equalSize ==> Even(s))
  }

  ghost predicate HeapOk(lens: seq<int>, k: nat, bound: int, equalSize: bool, pq: seq<KState>) {
    forall x :: 0 <= x < |pq| ==> StateGood(lens, k, bound, equalSize, pq[x])
  }

  lemma IndicesJoin(a: seq<Item>, b: seq<Item>)
    ensures multiset(ItemIndices(a + b)) == multiset(ItemIndices(a)) + multiset(ItemIndices(b))
  {
    assert ItemIndices(a + b) == ItemIndices(a) + ItemIndices(b);
    MultisetJoin(ItemIndices(a), ItemIndices(b));
  }

  lemma PushHeld(pq: seq<KState>, s: KState, items: seq<Item>, more: seq<Item>)
    requires Held(s) == multiset(ItemIndices(more)) && HeldAll(pq) == multiset(ItemIndices(items))
    ensures HeldAll(pq + [s]) == multiset(ItemIndices(items + more))
  {
    HeldAllPush(pq, s);
    IndicesJoin(items, more);
  }

  lemma SpreadsPush(lens: seq<int>, pq: seq<KState>, items: seq<Item>, x: Item)
    requires Spreads(pq) == Vals(items) && From(lens, [x]) && AllNonNegative(lens)
    ensures Spreads(pq + [InitState([x], 2)]) == Vals(items + [x])
  {
    InitStateTwo(lens, x);
    assert Vals(items + [x]) == Vals(items) + [x.val];
    assert Spreads(pq + [InitState([x], 2)]) == Spreads(pq) + [x.val];
  }

  /** The heap after the first n sorted items went in, the last ones as a state of their own. */
  ghost predicate Pushed(lens: seq<int>, k: nat, bound: int, equalSize: bool, items: seq<Item>, pq: seq<KState>) {
    HeapOk(lens, k, bound, equalSize, pq) && HeldAll(pq) == multiset(ItemIndices(items))
  }

  lemma PushStep(lens: seq<int>, k: nat, bound: int, equalSize: bool, items: seq<Item>, pq: seq<KState>,
                 more: seq<Item>, s: KState)
    requires Pushed(lens, k, bound, equalSize, items, pq)
    requires StateGood(lens, k, bound, equalSize, s) && Held(s) == multiset(ItemIndices(more))
    ensures Pushed(lens, k, bound, equalSize, items + more, pq + [s])
  {
    PushHeld(pq, s, items, more);
  }

  lemma PushedAll(lens: seq<int>, k: nat, bound: int, equalSize: bool, pq: seq<KState>)
    requires Pushed(lens, k, bound, equalSize, SortItems(lens, |lens|), pq)
    ensures HeapOk(lens, k, bound, equalSize, pq) && HeldAll(pq) == multiset(Range(|lens|))
  {
    SortedHolds(lens);
  }

  /** The sum vectors before the first round: one item each or, with equal sizes, k consecutive sorted items each. */
  ghost function StartVectors(lens: seq<int>, k: nat, equalSize: bool): multiset<seq<int>>
    requires k > 0
  {
    if equalSize then multiset(Chunked(Vals(SortItems(lens, |lens|)), k)) else multiset(Spikes(lens, k))
  }

  function Spikes(vals: seq<int>, k: nat): (r: seq<seq<int>>)
    requires k > 0
    ensures |r| == |vals|
  {
    Mapped((x: int) => Spike(x, k), vals)
  }

  lemma {:induction false} InitSums(items: seq<Item>, k: nat)
    requires |items| <= k
    ensures SumVector(InitSets(items, k)) == Vals(items) + seq(k - |items|, _ => 0)
    decreases k
  {
    if k > 0 {
      if items == [] {
        InitSums([], k - 1);
        assert SumVector(InitSets([], k))[1..] == SumVector(InitSets([], k - 1));
      } else {
        InitSums(items[1..], k - 1);
        assert Vals(items) == [items[0].val] + Vals(items[1..]);
        assert SumVector(InitSets(items, k))[1..] == SumVector(InitSets(items[1..], k - 1));
      }
    }
  }

  lemma SpikeState(x: Item, k: nat)
    requires k > 0 && x.val >= 0
    ensures SumVector(InitState([x], k)) == Spike(x.val, k)
  {
    InitSums([x], k);
    SortedSums(InitSets([x], k));
    assert SumVector(InitSets([x], k)) == Spike(x.val, k);
    FallingUnique(SumVector(InitState([x], k)), Spike(x.val, k));
  }

  lemma ChunkVector(items: seq<Item>)
    requires Ascending(items)
    ensures SumVector(InitState(items, |items|)) == Turned(Vals(items))
  {
    InitSums(items, |items|);
    SortedSums(InitSets(items, |items|));
    assert SumVector(InitSets(items, |items|)) == Vals(items);
    TurnedPermutes(Vals(items));
    FallingUnique(SumVector(InitState(items, |items|)), Turned(Vals(items)));
  }

  /** One heap state per item. */
  method PushSingles(lens: seq<int>, k: nat) returns (pq: seq<KState>)
    requires lens != [] && k > 0 && AllNonNegative(lens)
    ensures |pq| == |lens| && HeapOk(lens, k, MaxOf(lens), false, pq)
    ensures HeldAll(pq) == multiset(Range(|lens|))
    ensures k == 2 ==> multiset(Spreads(pq)) == multiset(lens)
    ensures multiset(Vectors(pq)) == StartVectors(lens, k, false)
  {
    var sorted := SortItems(lens, |lens|);
    SortItemsFacts(lens, |lens|);
    pq := [];
    for i := 0 to |sorted|
      invariant SinglesPushed(lens, k, sorted[..i], pq)
    {
      SinglesStep(lens, k, sorted, i, pq);
      pq := pq + [InitState([sorted[i]], k)];
    }
    assert sorted[..|sorted|] == sorted;
    PushedAll(lens, k, MaxOf(lens), false, pq);
    SortedHolds(lens);
    MapPermuted((x: int) => Spike(x, k), Vals(sorted), lens);
  }

  ghost predicate SinglesPushed(lens: seq<int>, k: nat, items: seq<Item>, pq: seq<KState>)
    requires lens != []
  {
    && |pq| == |items| && Pushed(lens, k, MaxOf(lens), false, items, pq) && (k == 2 ==> Spreads(pq) == Vals(items))
    && (k > 0 ==> Vectors(pq) == Spikes(Vals(items), k))
  }

  lemma SinglesStep(lens: seq<int>, k: nat, sorted: seq<Item>, i: nat, pq: seq<KState>)
    requires lens != [] && k > 0 && AllNonNegative(lens) && From(lens, sorted) && i < |sorted|
    requires SinglesPushed(lens, k, sorted[..i], pq)
    ensures SinglesPushed(lens, k, sorted[..i + 1], pq + [InitState([sorted[i]], k)])
  {
    var x := sorted[i];
    SingleOk(lens, k, x);
    PushStep(lens, k, MaxOf(lens), false, sorted[..i], pq, [x], InitState([x], k));
    if k == 2 { SpreadsPush(lens, pq, sorted[..i], x); }
    SpikesPush(pq, sorted[..i], x, k);
    assert sorted[..i + 1] == sorted[..i] + [x];
  }

  lemma SpikesPush(pq: seq<KState>, items: seq<Item>, x: Item, k: nat)
    requires k > 0 && x.val >= 0 && Vectors(pq) == Spikes(Vals(items), k)
    ensures Vectors(pq + [InitState([x], k)]) == Spikes(Vals(items + [x]), k)
  {
    SpikeState(x, k);
    VectorsPush(pq, InitState([x], k));
    assert Vals(items + [x]) == Vals(items) + [x.val];
  }

  lemma SingleOk(lens: seq<int>, k: nat, x: Item)
    requires k > 0 && AllNonNegative(lens) && x.idx < |lens| && x.val == lens[x.idx]
    ensures From(lens, [x])
    ensures StateGood(lens, k, MaxOf(lens), false, InitState([x], k)) &&
            Held(InitState([x], k)) == multiset(ItemIndices([x]))
  {
    assert From(lens, [x]);
    assert [x][0] == x;
    assert MaxOf(lens) >= lens[x.idx] >= 0;
    InitStateOk(lens, [x], k, MaxOf(lens));
  }

  ghost predicate GapAt(items: seq<Item>, k: nat, bound: int, offset: nat)
    requires 0 < k && offset + k <= |items|
  {
    items[offset + k - 1].val - items[offset].val <= bound
  }

  /** No chunk of k consecutive items has a gap wider than the bound. */
  ghost predicate GapsWithin(items: seq<Item>, k: nat, bound: int)
    requires k > 0
  {
    forall offset: nat :: offset + k <= |items| && offset % k == 0 ==> GapAt(items, k, bound, offset)
  }

  lemma GapsCovered(items: seq<Item>, k: nat)
    requires k > 0
    ensures GapsWithin(items, k, LargestGap(items, k))
  {
    forall offset: nat | offset + k <= |items| && offset % k == 0
      ensures GapAt(items, k, LargestGap(items, k), offset)
    {
      GapCovers(items, k, offset);
    }
  }

  lemma ChunkStep(lens: seq<int>, sorted: seq<Item>, k: nat, bound: int, offset: nat, pq: seq<KState>)
    requires k > 0 && AllNonNegative(lens) && From(lens, sorted) && Ascending(sorted)
    requires offset + k <= |sorted| && GapAt(sorted, k, bound, offset)
    requires Pushed(lens, k, bound, true, sorted[..offset], pq)
    ensures Pushed(lens, k, bound, true, sorted[..offset + k], pq + [InitState(sorted[offset..offset + k], k)])
  {
    var items := sorted[offset..offset + k];
    ChunkFacts(lens, sorted, k, bound, offset);
    ChunkState(lens, items, k, bound);
    PushStep(lens, k, bound, true, sorted[..offset], pq, items, InitState(items, k));
    Extended(sorted, offset, k);
  }

  lemma ChunkFacts(lens: seq<int>, sorted: seq<Item>, k: nat, bound: int, offset: nat)
    requires k > 0 && From(lens, sorted) && Ascending(sorted) && offset + k <= |sorted|
    requires sorted[offset + k - 1].val - sorted[offset].val <= bound
    ensures var items := sorted[offset..offset + k];
            From(lens, items) && Ascending(items) && items[k - 1].val - items[0].val <= bound
  {
  }

  lemma Extended(sorted: seq<Item>, offset: nat, k: nat)
    requires offset + k <= |sorted|
    ensures sorted[..offset + k] == sorted[..offset] + sorted[offset..offset + k]
  {
  }

  /** One heap state per chunk of k consecutive sorted items. */
  method PushChunks(lens: seq<int>, k: nat, ghost bound: int) returns (pq: seq<KState>)
    requires lens != [] && k > 0 && AllNonNegative(lens) && |lens| % k == 0
    requires bound == LargestGap(SortItems(lens, |lens|), k)
    ensures pq != [] && HeapOk(lens, k, bound, true, pq)
    ensures HeldAll(pq) == multiset(Range(|lens|))
    ensures multiset(Vectors(pq)) == StartVectors(lens, k, true)
  {
    var sorted := SortItems(lens, |lens|);
    SortItemsFacts(lens, |lens|);
    GapsCovered(sorted, k);
    pq := PushSorted(lens, sorted, k, bound);
    PushedAll(lens, k, bound, true, pq);
  }

  /** Its loop. */
  method PushSorted(ghost lens: seq<int>, sorted: seq<Item>, k: nat, ghost bound: int) returns (pq: seq<KState>)
    requires k > 0 && AllNonNegative(lens) && From(lens, sorted) && Ascending(sorted) && GapsWithin(sorted, k, bound)
    requires sorted != [] && |sorted| % k == 0
    ensures pq != [] && Pushed(lens, k, bound, true, sorted, pq) && Vectors(pq) == Chunked(Vals(sorted), k)
  {
    pq := [];
    var offset := 0;
    while offset < |sorted|
      invariant ChunkedTo(lens, sorted, k, bound, offset, pq)
      decreases |sorted| - offset
    {
      ChunkRound(lens, sorted, k, bound, offset, pq);
      pq := pq + [InitState(sorted[offset..offset + k], k)];
      offset := offset + k;
    }
    assert sorted[..|sorted|] == sorted && sorted[|sorted|..] == [];
  }

  /** The chunks before `offset` have been pushed. */
  ghost predicate ChunkedTo(lens: seq<int>, sorted: seq<Item>, k: nat, bound: int, offset: int, pq: seq<KState>)
    requires k > 0
  {
    && 0 <= offset <= |sorted| && offset % k == 0 && (offset > 0 ==> pq != [])
    && Pushed(lens, k, bound, true, sorted[..offset], pq)
    && Vectors(pq) + Chunked(Vals(sorted[offset..]), k) == Chunked(Vals(sorted), k)
  }

  lemma ChunksPush(sorted: seq<Item>, k: nat, offset: nat, pq: seq<KState>)
    requires k > 0 && offset + k <= |sorted| && Ascending(sorted)
    requires Vectors(pq) + Chunked(Vals(sorted[offset..]), k) == Chunked(Vals(sorted), k)
    ensures Vectors(pq + [InitState(sorted[offset..offset + k], k)]) + Chunked(Vals(sorted[offset + k..]), k)
            == Chunked(Vals(sorted), k)
  {
    var items, v := sorted[offset..offset + k], Vals(sorted[offset..]);
    ChunkVector(items);
    VectorsPush(pq, InitState(items, k));
    assert v[..k] == Vals(items) && v[k..] == Vals(sorted[offset + k..]);
    Associates(Vectors(pq), [Turned(Vals(items))], Chunked(v[k..], k));
  }

  /** One round of the loop over the chunks. */
  lemma ChunkRound(lens: seq<int>, sorted: seq<Item>, k: nat, bound: int, offset: nat, pq: seq<KState>)
    requires k > 0 && AllNonNegative(lens) && From(lens, sorted) && Ascending(sorted) && GapsWithin(sorted, k, bound)
    requires |sorted| % k == 0 && offset < |sorted| && ChunkedTo(lens, sorted, k, bound, offset, pq)
    ensures offset + k <= |sorted|
    ensures ChunkedTo(lens, sorted, k, bound, offset + k, pq + [InitState(sorted[offset..offset + k], k)])
  {
    NextChunkFits(offset, |sorted|, k);
    assert GapAt(sorted, k, bound, offset);
    ChunkStep(lens, sorted, k, bound, offset, pq);
    ChunksPush(sorted, k, offset, pq);
  }

  lemma NextChunkFits(offset: nat, n: nat, k: nat)
    requires k > 0 && offset % k == 0 && n % k == 0 && offset < n
    ensures offset + k <= n && (offset + k) % k == 0
  {
    var q, m := offset / k, n / k;
    assert offset == k * q && n == k * m;
    ProductAwayFromZero(k, m - q);
    assert k * (m - q) == n - offset;
    assert offset + k == k * (q + 1);
    MultipleIsDivisible(k, q + 1);
  }

  lemma ChunkState(lens: seq<int>, items: seq<Item>, k: nat, bound: int)
    requires k > 0 && AllNonNegative(lens) && From(lens, items) && |items| == k
    requires Ascending(items) && items[k - 1].val - items[0].val <= bound
    ensures StateGood(lens, k, bound, true, InitState(items, k))
    ensures Held(InitState(items, k)) == multiset(ItemIndices(items))
  {
    forall i, j | 0 <= i < k && 0 <= j < k ensures items[i].val - items[j].val <= bound {
      assert items[i].val <= items[k - 1].val && items[0].val <= items[j].val;
    }
    InitStateEven(lens, items, k);
    InitStateOk(lens, items, k, bound);
  }

  lemma PopHeld(pq: seq<KState>, i: nat, r: seq<KState>, j: nat, merged: KState)
    requires i < |pq| && r == Without(pq, i) && j < |r| && Held(merged) == Held(pq[i]) + Held(r[j])
    ensures HeldAll(Without(r, j) + [merged]) == HeldAll(pq)
  {
    HeldAllPop(pq, i);
    HeldAllPop(r, j);
    HeldAllPush(Without(r, j), merged);
  }

  lemma PopGood(lens: seq<int>, k: nat, bound: int, equalSize: bool, pq: seq<KState>, i: nat, r: seq<KState>, j: nat)
    requires HeapOk(lens, k, bound, equalSize, pq) && i < |pq| && r == Without(pq, i) && j < |r|
    ensures |pq[i]| == |r[j]| == k
    ensures HeapOk(lens, k, bound, equalSize, Without(r, j) + [Merge(pq[i], r[j])])
  {
    StaysGood(lens, k, bound, equalSize, pq, i, r);
    assert StateGood(lens, k, bound, equalSize, pq[i]) && StateGood(lens, k, bound, equalSize, r[j]);
    MergeGood(lens, k, bound, equalSize, pq[i], r[j]);
  }

  lemma StaysGood(lens: seq<int>, k: nat, bound: int, equalSize: bool, pq: seq<KState>, i: nat, r: seq<KState>)
    requires HeapOk(lens, k, bound, equalSize, pq) && i < |pq| && r == Without(pq, i)
    ensures HeapOk(lens, k, bound, equalSize, r)
  {
    forall x | 0 <= x < |r| ensures StateGood(lens, k, bound, equalSize, r[x]) {
      assert r[x] == pq[if x < i then x else x + 1];
    }
  }

  lemma MergeGood(lens: seq<int>, k: nat, bound: int, equalSize: bool, a: KState, b: KState)
    requires StateGood(lens, k, bound, equalSize, a) && StateGood(lens, k, bound, equalSize, b)
    ensures |a| == |b| == k && StateGood(lens, k, bound, equalSize, Merge(a, b))
  {
    MergeOk(lens, k, bound, a, b);
    if equalSize { MergeEven(a, b); }
  }

  lemma HeapSized(lens: seq<int>, k: nat, bound: int, equalSize: bool, pq: seq<KState>)
    requires HeapOk(lens, k, bound, equalSize, pq)
    ensures AllSized(pq, k)
    ensures pq != [] ==> k > 0
  {
    forall x | 0 <= x < |pq| ensures |pq[x]| == k > 0 {
      assert StateGood(lens, k, bound, equalSize, pq[x]);
    }
    if pq != [] { assert |pq[0]| == k > 0; }
  }

  /** The differencing value of a heap of two-set states. */
  ghost predicate DiffersBy(pq: seq<KState>, d: int) {
    var m := multiset(Spreads(pq));
    |m| > 0 && Differencing(m) == d
  }

  lemma DiffersStep(pq: seq<KState>, i: nat, r: seq<KState>, j: nat, d: int)
    requires AllSized(pq, 2) && i < |pq| && r == Without(pq, i) && AllSized(r, 2) && j < |r|
    requires Descending(pq[i]) && Descending(r[j])
    requires forall x :: 0 <= x < |pq| ==> !Before(pq[x], pq[i])
    requires forall x :: 0 <= x < |r| ==> !Before(r[x], r[j])
    requires DiffersBy(pq, d)
    ensures DiffersBy(Without(r, j) + [Merge(pq[i], r[j])], d)
  {
    assert r[j] == pq[if j < i then j else j + 1];
    assert !Before(r[j], pq[i]);
    MergeTwo(pq[i], r[j]);
    DifferencingStep(pq, i, r, j, Merge(pq[i], r[j]));
  }

  lemma DiffersEnd(pq: seq<KState>, d: int)
    requires |pq| == 1 && |pq[0]| > 0 && DiffersBy(pq, d)
    ensures Spread(pq[0]) == d
  {
    assert Spreads(pq) == [Spread(pq[0])];
    assert multiset(Spreads(pq)) == multiset{Spread(pq[0])};
  }

  /** What the loop keeps: sound states that together hold the items of the start, and, for k = 2, the
      differencing value of their spreads. */
  ghost predicate LoopInv(lens: seq<int>, k: nat, bound: int, equalSize: bool, held: multiset<nat>,
                          start: multiset<seq<int>>, d: int, pq: seq<KState>) {
    && pq != [] && HeapOk(lens, k, bound, equalSize, pq) && HeldAll(pq) == held && LeadsBack(start, pq)
    && (k == 2 ==> DiffersBy(pq, d))
  }

  lemma MergeRound(lens: seq<int>, k: nat, bound: int, equalSize: bool, held: multiset<nat>,
                   start: multiset<seq<int>>, d: int, pq: seq<KState>, i: nat, r: seq<KState>, j: nat)
    requires LoopInv(lens, k, bound, equalSize, held, start, d, pq) && k > 0 && AllSized(pq, k) && AllSized(r, k)
    requires i < |pq| && r == Without(pq, i) && j < |r|
    requires forall x :: 0 <= x < |pq| ==> !Before(pq[x], pq[i])
    requires forall x :: 0 <= x < |r| ==> !Before(r[x], r[j])
    ensures LoopInv(lens, k, bound, equalSize, held, start, d, Without(r, j) + [Merge(pq[i], r[j])])
  {
    PopGood(lens, k, bound, equalSize, pq, i, r, j);
    MergeHeld(pq[i], r[j]);
    PopHeld(pq, i, r, j, Merge(pq[i], r[j]));
    VectorRound(pq, k, i, r, j);
    LeadsBackStep(start, pq, Without(r, j) + [Merge(pq[i], r[j])]);
    if k == 2 {
      assert StateGood(lens, k, bound, equalSize, pq[i]);
      assert r[j] == pq[if j < i then j else j + 1];
      assert StateGood(lens, k, bound, equalSize, r[j]);
      DiffersStep(pq, i, r, j, d);
    }
  }

  ghost predicate Top(pq: seq<KState>, i: nat) {
    && i < |pq| && (forall x :: 0 <= x < |pq| ==> |pq[x]| > 0)
    && forall x :: 0 <= x < |pq| ==> !Before(pq[x], pq[i])
  }

  /** i and then j are popped, and what is left with the merge pushed is `next`. */
  ghost predicate HeapRound(pq: seq<KState>, i: nat, j: nat, next: seq<KState>) {
    && Top(pq, i) && Top(Without(pq, i), j) && |pq[i]| == |Without(pq, i)[j]|
    && next == Without(Without(pq, i), j) + [Merge(pq[i], Without(pq, i)[j])]
  }

  /** The loop can end with this state. */
  ghost predicate HeapRun(pq: seq<KState>, final: KState)
    decreases |pq|
  {
    if |pq| <= 1 then pq == [final]
    else exists i, j, next :: HeapRound(pq, i, j, next) && |next| < |pq| && HeapRun(next, final)
  }

  /** Whatever the loop can make of this heap, it can make of `start`. */
  ghost predicate RunsBack(start: seq<KState>, pq: seq<KState>) { forall f :: HeapRun(pq, f) ==> HeapRun(start, f) }

  lemma RunsBackStep(start: seq<KState>, pq: seq<KState>, i: nat, j: nat, next: seq<KState>)
    requires RunsBack(start, pq) && |pq| > 1 && HeapRound(pq, i, j, next) && |next| < |pq|
    ensures RunsBack(start, next)
  {
    forall f | HeapRun(next, f) ensures HeapRun(start, f) { assert HeapRun(pq, f); }
  }

  /** One round of the loop: pop two states, merge them, push the result. */
  method MergeTopTwo(lens: seq<int>, k: nat, ghost bound: int, equalSize: bool, ghost held: multiset<nat>,
                     ghost start: multiset<seq<int>>, ghost d: int, pq: seq<KState>)
    returns (next: seq<KState>, ghost i: nat, ghost j: nat)
    requires LoopInv(lens, k, bound, equalSize, held, start, d, pq) && |pq| > 1
    ensures LoopInv(lens, k, bound, equalSize, held, start, d, next) && |next| == |pq| - 1
    ensures HeapRound(pq, i, j, next)
  {
    HeapSized(lens, k, bound, equalSize, pq);
    var state0, state1, rest, last;
    state0, rest, i := HeapPop(pq, k);
    state1, last, j := HeapPop(rest, k);
    MergeRound(lens, k, bound, equalSize, held, start, d, pq, i, rest, j);
    next := last + [Merge(state0, state1)];
  }

  /** `while len(states_pq) > 1` */
  method MergeStates(lens: seq<int>, k: nat, ghost bound: int, equalSize: bool, start: seq<KState>, ghost d: int)
    returns (final: KState)
    requires LoopInv(lens, k, bound, equalSize, HeldAll(start), multiset(Vectors(start)), d, start)
    ensures StateGood(lens, k, bound, equalSize, final) && Held(final) == HeldAll(start)
    ensures EndsIn(multiset(Vectors(start)), SumVector(final))
    ensures HeapRun(start, final)
    ensures k == 2 ==> |final| == 2 && Spread(final) == d
  {
    var pq := start;
    while |pq| > 1
      invariant LoopInv(lens, k, bound, equalSize, HeldAll(start), multiset(Vectors(start)), d, pq)
      invariant RunsBack(start, pq)
      decreases |pq|
    {
      ghost var was, i, j := pq, 0, 0;
      pq, i, j := MergeTopTwo(lens, k, bound, equalSize, HeldAll(start), multiset(Vectors(start)), d, pq);
      RunsBackStep(start, was, i, j, pq);
    }
    final := pq[0];
    assert HeapRun(pq, final);
    LoopEnd(lens, k, bound, equalSize, HeldAll(start), multiset(Vectors(start)), d, final, pq);
  }

  lemma LoopEnd(lens: seq<int>, k: nat, bound: int, equalSize: bool, held: multiset<nat>,
                start: multiset<seq<int>>, d: int, s: KState, pq: seq<KState>)
    requires pq == [s] && LoopInv(lens, k, bound, equalSize, held, start, d, pq)
    ensures StateGood(lens, k, bound, equalSize, s) && Held(s) == held && EndsIn(start, SumVector(s))
    ensures k == 2 ==> |s| == 2 && Spread(s) == d
  {
    assert StateGood(lens, k, bound, equalSize, pq[0]);
    assert HeldAll(pq) == Held(pq[0]) + HeldAll(pq[1..]);
    LeadsBackEnd(start, s);
    if k == 2 { DiffersEnd(pq, d); }
  }
}
