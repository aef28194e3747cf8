/** `greedy_partition`: list scheduling, with the bias that forces equal counts. */
module GreedyPartition {
  import opened Wrappers
  import opened Arithmetic
  import opened Sums
  import opened KarmarkarKarp
  import opened Partitioning

  /** The inner loop: the first list with the smallest sum. */
  method SmallestSum(sums: seq<int>) returns (minIdx: nat)
    requires sums != []
    ensures minIdx < |sums| && forall j :: 0 <= j < |sums| ==> sums[minIdx] <= sums[j]
    ensures forall j :: 0 <= j < minIdx ==> sums[minIdx] < sums[j]
  {
    minIdx := 0;
    for j := 1 to |sums|
      invariant minIdx < j
      invariant forall i :: 0 <= i < j ==> sums[minIdx] <= sums[i]
      invariant forall i :: 0 <= i < minIdx ==> sums[minIdx] < sums[i]
    {
      if sums[j] < sums[minIdx] { minIdx := j; }
    }
  }

  /** Where the outer loop stands after n items: which sums belong to which lists. */
  ghost predicate Assigned(lens: seq<int>, bias: int, n: nat, ps: seq<seq<nat>>, sums: seq<int>)
    requires n <= |lens|
  {
    && |ps| == |sums|
    && (forall j :: 0 <= j < |ps| ==> sums[j] == |ps[j]| * bias + Load(lens, ps[j]))
    && multiset(Concat(ps)) == multiset(Range(n))
  }

  /** No list is more than one item longer than another. */
  ghost predicate CountsLevel(ps: seq<seq<nat>>) {
    forall i, j :: 0 <= i < |ps| && 0 <= j < |ps| ==> |ps[i]| <= |ps[j]| + 1
  }

  /** Every list is within the list-scheduling bound. */
  ghost predicate LoadsLevel(lens: seq<int>, n: nat, top: int, ps: seq<seq<nat>>)
    requires n <= |lens|
  {
    forall j :: 0 <= j < |ps| ==> |ps| * Load(lens, ps[j]) <= Sum(lens[..n]) + (|ps| - 1) * top
  }

  lemma LoadOne(lens: seq<int>, i: nat)
    requires i < |lens|
    ensures Load(lens, [i]) == lens[i]
  {
    assert Load(lens, [i]) == lens[i] + Load(lens, [i][1..]);
  }

  lemma AppendAssigned(lens: seq<int>, bias: int, n: nat, ps: seq<seq<nat>>, sums: seq<int>, m: nat)
    requires n < |lens| && Assigned(lens, bias, n, ps, sums) && m < |ps|
    ensures Assigned(lens, bias, n + 1, ps[m := ps[m] + [n]], sums[m := sums[m] + lens[n] + bias])
  {
    var qs := ps[m := ps[m] + [n]];
    LoadAppend(lens, ps[m], [n]);
    LoadOne(lens, n);
    assert (|ps[m]| + 1) * bias == |ps[m]| * bias + bias;
    ConcatSplit(ps, m);
    ConcatSplit(qs, m);
    assert ps[..m] + ps[m+1..] == qs[..m] + qs[m+1..];
    assert Range(n + 1) == Range(n) + [n];
  }

  lemma {:induction false} LoadWithin(lens: seq<int>, ps: seq<seq<nat>>, n: nat, j: nat)
    requires n <= |lens| && AllNonNegative(lens) && multiset(Concat(ps)) == multiset(Range(n)) && j < |ps|
    ensures 0 <= Load(lens, ps[j]) <= Sum(lens[..n])
  {
    var rest := Concat(ps[..j] + ps[j+1..]);
    ConcatSplit(ps, j);
    LoadAppend(lens, ps[j], rest);
    LoadPermuted(lens, ps[j] + rest, Range(n));
    LoadOfAll(lens, n);
    LoadNonNegative(lens, rest);
    LoadNonNegative(lens, ps[j]);
  }

  lemma ScaleUp(d: int, c: int)
    requires c >= 0
    ensures d >= 1 ==> d * c >= c
  {
  }

  lemma FewerItems(a: nat, b: nat, bias: int, x: int, y: int)
    requires a * bias + x <= b * bias + y && 0 <= x && y < bias && bias > 0
    ensures a <= b
  {
    ScaleUp(a - b, bias);
    assert (a - b) * bias == a * bias - b * bias;
  }

  /** The bias exceeds every load, so the smallest sum is a list with the fewest items. */
  lemma CountsStep(lens: seq<int>, bias: int, n: nat, ps: seq<seq<nat>>, sums: seq<int>, m: nat)
    requires n < |lens| && AllNonNegative(lens) && bias > Sum(lens[..n]) >= 0 && Assigned(lens, bias, n, ps, sums)
    requires m < |ps| && (forall j :: 0 <= j < |sums| ==> sums[m] <= sums[j]) && CountsLevel(ps)
    ensures CountsLevel(ps[m := ps[m] + [n]])
  {
    forall j | 0 <= j < |ps| ensures |ps[m]| <= |ps[j]| {
      LoadWithin(lens, ps, n, m);
      LoadWithin(lens, ps, n, j);
      FewerItems(|ps[m]|, |ps[j]|, bias, Load(lens, ps[m]), Load(lens, ps[j]));
    }
  }

  lemma LoadsStep(lens: seq<int>, n: nat, top: int, ps: seq<seq<nat>>, sums: seq<int>, m: nat)
    requires n < |lens| && AllNonNegative(lens) && lens[n] <= top && Assigned(lens, 0, n, ps, sums)
    requires m < |ps| && (forall j :: 0 <= j < |sums| ==> sums[m] <= sums[j]) && LoadsLevel(lens, n, top, ps)
    ensures LoadsLevel(lens, n + 1, top, ps[m := ps[m] + [n]])
  {
    var k, qs := |ps|, ps[m := ps[m] + [n]];
    assert lens[..n + 1] == lens[..n] + [lens[n]];
    SumAppend(lens[..n], [lens[n]]);
    forall j | 0 <= j < k ensures k * Load(lens, qs[j]) <= Sum(lens[..n + 1]) + (k - 1) * top {
      if j == m {
        LoadAppend(lens, ps[m], [n]);
        LoadOne(lens, n);
        SmallestBelowAverage(lens, n, ps, m);
        ListScheduling(k, Load(lens, ps[m]), lens[n], Sum(lens[..n]), top);
      }
    }
  }

  lemma ListScheduling(k: nat, load: int, item: int, total: int, top: int)
    requires k > 0 && k * load <= total && item <= top
    ensures k * (load + item) <= total + item + (k - 1) * top
  {
    ProductNonNegative(k - 1, top - item);
    Distribute(k - 1, item, top - item);
    Distribute(k, load, item);
    Distribute(item, k - 1, 1);
    assert item * k == k * item && item * (k - 1) == (k - 1) * item;
  }

  lemma SmallestBelowAverage(lens: seq<int>, n: nat, ps: seq<seq<nat>>, m: nat)
    requires n <= |lens| && multiset(Concat(ps)) == multiset(Range(n)) && m < |ps|
    requires forall j :: 0 <= j < |ps| ==> Load(lens, ps[m]) <= Load(lens, ps[j])
    ensures |ps| * Load(lens, ps[m]) <= Sum(lens[..n])
  {
    LoadsTotal(lens, ps);
    LoadPermuted(lens, Concat(ps), Range(n));
    LoadOfAll(lens, n);
    AllAbove(Loads(lens, ps), Load(lens, ps[m]));
  }

  /** `[[] for _ in range(k)]` */
  function EmptyLists(k: nat): (r: seq<seq<nat>>)
    ensures |r| == k && forall i :: 0 <= i < k ==> r[i] == []
  {
    if k == 0 then [] else [[]] + EmptyLists(k - 1)
  }

  lemma {:induction false} EmptyConcat(k: nat)
    ensures Concat(EmptyLists(k)) == []
  {
    if k > 0 { EmptyConcat(k - 1); }
  }

  lemma {:induction false} CountTotal(ps: seq<seq<nat>>, lo: nat)
    requires forall i :: 0 <= i < |ps| ==> lo <= |ps[i]| <= lo + 1
    ensures |ps| * lo <= |Concat(ps)| <= |ps| * lo + |ps|
    ensures |Concat(ps)| == |ps| * lo ==> forall i :: 0 <= i < |ps| ==> |ps[i]| == lo
    ensures |Concat(ps)| == |ps| * lo + |ps| ==> forall i :: 0 <= i < |ps| ==> |ps[i]| == lo + 1
  {
    if ps != [] {
      CountTotal(ps[1..], lo);
      assert |ps| * lo == lo + (|ps| - 1) * lo;
      assert forall i :: 0 < i < |ps| ==> ps[i] == ps[1..][i - 1];
    }
  }

  lemma MultiplesApart(k: nat, e: int)
    ensures e >= 2 ==> k * e >= 2 * k
    ensures e <= -1 ==> k * e <= -1 * k
  {
  }

  lemma BetweenMultiples(n: nat, k: nat, lo: nat)
    requires k > 0 && n % k == 0 && k * lo <= n <= k * lo + k
    ensures n == k * lo || n == k * lo + k
  {
    var e := n / k - lo;
    assert n == k * (n / k);
    assert k * e == n - k * lo;
    MultiplesApart(k, e);
    assert e == 0 || e == 1;
  }

  ghost function Shortest(ps: seq<seq<nat>>): (m: nat)
    requires ps != []
    ensures m < |ps| && forall j :: 0 <= j < |ps| ==> |ps[m]| <= |ps[j]|
  {
    if |ps| == 1 then 0
    else var t := Shortest(ps[1..]);
         assert forall j :: 0 < j < |ps| ==> ps[j] == ps[1..][j - 1];
         if |ps[0]| <= |ps[1 + t]| then 0 else 1 + t
  }

  lemma LevelExact(ps: seq<seq<nat>>, n: nat, lo: nat, m: nat)
    requires m < |ps| && |ps[m]| == lo && |Concat(ps)| == n && n % |ps| == 0
    requires forall i :: 0 <= i < |ps| ==> lo <= |ps[i]| <= lo + 1
    ensures n == |ps| * lo && forall i :: 0 <= i < |ps| ==> |ps[i]| == lo
  {
    CountTotal(ps, lo);
    BetweenMultiples(n, |ps|, lo);
  }

  lemma LevelDivisible(ps: seq<seq<nat>>, n: nat)
    requires ps != [] && |Concat(ps)| == n && CountsLevel(ps) && n % |ps| == 0
    ensures forall i :: 0 <= i < |ps| ==> |ps[i]| * |ps| == n
  {
    var m := Shortest(ps);
    LevelExact(ps, n, |ps[m]|, m);
    forall i | 0 <= i < |ps| ensures |ps[i]| * |ps| == n { assert |ps[i]| == |ps[m]|; }
  }

  lemma PartitionLength(ps: seq<seq<nat>>, n: nat)
    requires multiset(Concat(ps)) == multiset(Range(n))
    ensures |Concat(ps)| == n
  {
    assert |multiset(Concat(ps))| == |Concat(ps)| && |multiset(Range(n))| == n;
  }

  /** Level counts are equal counts exactly when the number of items is divisible. */
  lemma LevelCounts(ps: seq<seq<nat>>, n: nat)
    requires ps != [] && multiset(Concat(ps)) == multiset(Range(n)) && CountsLevel(ps)
    ensures n % |ps| == 0 <==> forall i :: 0 <= i < |ps| ==> |ps[i]| * |ps| == n
  {
    PartitionLength(ps, n);
    if n % |ps| == 0 { LevelDivisible(ps, n); }
    if |ps[0]| * |ps| == n {
      assert |ps| * |ps[0]| == n;
      MultipleIsDivisible(|ps|, |ps[0]|);
    }
  }

  // ---------- Where each item goes ----------

  /** The items of p before item i. */
  function EarlierItems(p: seq<nat>, i: nat): seq<nat> {
    if p == [] then [] else (if p[0] < i then [p[0]] else []) + EarlierItems(p[1..], i)
  }

  lemma {:induction false} AllEarlier(p: seq<nat>, i: nat)
    requires forall x :: 0 <= x < |p| ==> p[x] < i
    ensures EarlierItems(p, i) == p
  {
    if p != [] { AllEarlier(p[1..], i); }
  }

  lemma {:induction false} EarlierSnoc(p: seq<nat>, n: nat, i: nat)
    requires i <= n
    ensures EarlierItems(p + [n], i) == EarlierItems(p, i)
  {
    if p == [] {
      assert [n][1..] == [];
    } else {
      assert (p + [n])[1..] == p[1..] + [n];
      EarlierSnoc(p[1..], n, i);
    }
  }

  /** List p is chosen over q: with equal sizes the one with fewer items and then, as without, the lighter one. */
  ghost predicate Preferred(lens: seq<int>, equalSize: bool, p: seq<nat>, q: seq<nat>) {
    (equalSize && |p| < |q|) || ((!equalSize || |p| == |q|) && Load(lens, p) < Load(lens, q))
  }

  /** When item i came, no list was preferred to list j, and list j was to every one before it. */
  ghost predicate ChosenFor(lens: seq<int>, equalSize: bool, ps: seq<seq<nat>>, i: nat, j: nat)
    requires j < |ps|
  {
    forall x :: 0 <= x < |ps| && x != j ==>
      var p, q := EarlierItems(ps[j], i), EarlierItems(ps[x], i);
      !Preferred(lens, equalSize, q, p) && (x < j ==> Preferred(lens, equalSize, p, q))
  }

  /** Every item is in the list that was the first choice when it came. */
  ghost predicate FirstChoice(lens: seq<int>, equalSize: bool, ps: seq<seq<nat>>) {
    forall j, y :: 0 <= j < |ps| && 0 <= y < |ps[j]| ==> ChosenFor(lens, equalSize, ps, ps[j][y], j)
  }

  /** The bias exceeds every load, so comparing biased sums is comparing counts before loads. */
  lemma SumsPrefer(lens: seq<int>, equalSize: bool, bias: int, n: nat, ps: seq<seq<nat>>, sums: seq<int>, m: nat, x: nat)
    requires n <= |lens| && AllNonNegative(lens) && Assigned(lens, bias, n, ps, sums) && m < |ps| && x < |ps|
    requires if equalSize then bias > Sum(lens[..n]) >= 0 else bias == 0
    ensures sums[m] <= sums[x] ==> !Preferred(lens, equalSize, ps[x], ps[m])
    ensures sums[m] < sums[x] ==> Preferred(lens, equalSize, ps[m], ps[x])
  {
    if equalSize && sums[m] <= sums[x] {
      LoadWithin(lens, ps, n, m);
      LoadWithin(lens, ps, n, x);
      FewerItems(|ps[m]|, |ps[x]|, bias, Load(lens, ps[m]), Load(lens, ps[x]));
    }
  }

  lemma ItemsBelow(ps: seq<seq<nat>>, n: nat)
    requires multiset(Concat(ps)) == multiset(Range(n))
    ensures forall j, y :: 0 <= j < |ps| && 0 <= y < |ps[j]| ==> ps[j][y] < n
  {
    forall j | 0 <= j < |ps| ensures forall y :: 0 <= y < |ps[j]| ==> ps[j][y] < n { PartBounds(ps, n, j); }
  }

  lemma OldChoice(lens: seq<int>, equalSize: bool, n: nat, ps: seq<seq<nat>>, m: nat, i: nat, j: nat)
    requires m < |ps| && j < |ps| && i < n && ChosenFor(lens, equalSize, ps, i, j)
    ensures ChosenFor(lens, equalSize, ps[m := ps[m] + [n]], i, j)
  {
    EarlierSnoc(ps[m], n, i);
  }

  lemma NewChoice(lens: seq<int>, equalSize: bool, bias: int, n: nat, ps: seq<seq<nat>>, sums: seq<int>, m: nat)
    requires n < |lens| && AllNonNegative(lens) && Assigned(lens, bias, n, ps, sums) && m < |ps|
    requires if equalSize then bias > Sum(lens[..n]) >= 0 else bias == 0
    requires forall j :: 0 <= j < |sums| ==> sums[m] <= sums[j]
    requires forall j :: 0 <= j < m ==> sums[m] < sums[j]
    ensures ChosenFor(lens, equalSize, ps[m := ps[m] + [n]], n, m)
  {
    var qs := ps[m := ps[m] + [n]];
    ItemsBelow(ps, n);
    forall x | 0 <= x < |ps| ensures EarlierItems(qs[x], n) == ps[x] {
      AllEarlier(ps[x], n);
      EarlierSnoc(ps[m], n, n);
    }
    forall x | 0 <= x < |qs| && x != m
      ensures !Preferred(lens, equalSize, ps[x], ps[m]) && (x < m ==> Preferred(lens, equalSize, ps[m], ps[x]))
    {
      SumsPrefer(lens, equalSize, bias, n, ps, sums, m, x);
    }
  }

  lemma ChoiceStep(lens: seq<int>, equalSize: bool, bias: int, n: nat, ps: seq<seq<nat>>, sums: seq<int>, m: nat)
    requires n < |lens| && AllNonNegative(lens) && Assigned(lens, bias, n, ps, sums) && m < |ps|
    requires if equalSize then bias > Sum(lens[..n]) >= 0 else bias == 0
    requires forall j :: 0 <= j < |sums| ==> sums[m] <= sums[j]
    requires forall j :: 0 <= j < m ==> sums[m] < sums[j]
    requires FirstChoice(lens, equalSize, ps)
    ensures FirstChoice(lens, equalSize, ps[m := ps[m] + [n]])
  {
    var qs := ps[m := ps[m] + [n]];
    ItemsBelow(ps, n);
    NewChoice(lens, equalSize, bias, n, ps, sums, m);
    forall j, y | 0 <= j < |qs| && 0 <= y < |qs[j]| ensures ChosenFor(lens, equalSize, qs, qs[j][y], j) {
      if y < |ps[j]| { OldChoice(lens, equalSize, n, ps, m, ps[j][y], j); }
    }
  }

  /** What holds before item n is assigned. */
  ghost predicate GreedyInv(lens: seq<int>, k: nat, equalSize: bool, bias: int, top: int, n: nat, ps: seq<seq<nat>>,
                            sums: seq<int>)
    requires n <= |lens|
  {
    && |ps| == k && Assigned(lens, bias, n, ps, sums) && FirstChoice(lens, equalSize, ps)
    && (if equalSize then CountsLevel(ps) else LoadsLevel(lens, n, top, ps))
  }

  lemma GreedyStart(lens: seq<int>, k: nat, equalSize: bool, bias: int, top: int)
    requires k > 0 && top >= 0
    ensures GreedyInv(lens, k, equalSize, bias, top, 0, EmptyLists(k), seq(k, _ => 0))
  {
    EmptyConcat(k);
    assert Range(0) == [];
    assert lens[..0] == [];
    assert (k - 1) * top >= 0;
  }

  lemma GreedyStep(lens: seq<int>, k: nat, equalSize: bool, bias: int, top: int, n: nat, ps: seq<seq<nat>>,
                   sums: seq<int>, m: nat)
    requires n < |lens| && AllNonNegative(lens) && lens[n] <= top && m < k
    requires bias == if equalSize then Sum(lens) + 1 else 0
    requires GreedyInv(lens, k, equalSize, bias, top, n, ps, sums)
    requires forall j :: 0 <= j < |sums| ==> sums[m] <= sums[j]
    requires forall j :: 0 <= j < m ==> sums[m] < sums[j]
    ensures GreedyInv(lens, k, equalSize, bias, top, n + 1, ps[m := ps[m] + [n]], sums[m := sums[m] + lens[n] + bias])
  {
    AppendAssigned(lens, bias, n, ps, sums, m);
    PrefixBelow(lens, n);
    ChoiceStep(lens, equalSize, bias, n, ps, sums, m);
    if equalSize {
      CountsStep(lens, bias, n, ps, sums, m);
    } else {
      LoadsStep(lens, n, top, ps, sums, m);
    }
  }

  lemma GreedyEnd(lens: seq<int>, k: nat, equalSize: bool, bias: int, top: int, ps: seq<seq<nat>>, sums: seq<int>)
    requires k > 0 && GreedyInv(lens, k, equalSize, bias, top, |lens|, ps, sums)
    ensures IsPartition(ps, |lens|) && FirstChoice(lens, equalSize, ps)
    ensures equalSize ==> (|lens| % k == 0 <==> forall i :: 0 <= i < k ==> |ps[i]| * k == |lens|)
    ensures !equalSize ==> forall i :: 0 <= i < k ==> k * Load(lens, ps[i]) <= Sum(lens) + (k - 1) * top
  {
    assert lens[..|lens|] == lens;
    if equalSize { LevelCounts(ps, |lens|); }
  }

  /** Every item goes to the list with the smallest sum. The result is always a partition; without the bias it is
      within the list-scheduling bound, and with it the closing assertion holds exactly for divisible counts. */
  method GreedyPartition(lens: seq<int>, k: nat, equalSize: bool) returns (r: Result<seq<seq<nat>>, Error>)
    requires AllNonNegative(lens)
    ensures r.Ok? <==> if k == 0 then lens == [] else !equalSize || |lens| % k == 0
    ensures r.Err? ==> r.error == if k == 0 then TypeMismatch else AssertionFailed
    ensures r.Ok? ==> |r.value| == k && IsPartition(r.value, |lens|) && FirstChoice(lens, equalSize, r.value)
    ensures r.Ok? && equalSize ==> forall i :: 0 <= i < k ==> |r.value[i]| * k == |lens|
    ensures r.Ok? && !equalSize && lens != [] ==>
              forall i :: 0 <= i < k ==> k * Load(lens, r.value[i]) <= Sum(lens) + (k - 1) * MaxOf(lens)
  {
    if k == 0 {
      assert Concat<nat>([]) == Range(0);
      // partitions[None] as soon as there is an item
      if lens == [] { return Ok([]); } else { return Err(TypeMismatch); }
    }
    var partitions := GreedyLoop(lens, k, equalSize, if lens == [] then 0 else MaxOf(lens));
    if equalSize {
      if exists i :: 0 <= i < k && |partitions[i]| * k != |lens| { return Err(AssertionFailed); }
    }
    return Ok(partitions);
  }

  /** The assignment loop. */
  method GreedyLoop(lens: seq<int>, k: nat, equalSize: bool, ghost top: int) returns (partitions: seq<seq<nat>>)
    requires k > 0 && AllNonNegative(lens) && top >= 0 && forall i :: 0 <= i < |lens| ==> lens[i] <= top
    ensures |partitions| == k && IsPartition(partitions, |lens|) && FirstChoice(lens, equalSize, partitions)
    ensures equalSize ==> (|lens| % k == 0 <==> forall i :: 0 <= i < k ==> |partitions[i]| * k == |lens|)
    ensures !equalSize ==> forall i :: 0 <= i < k ==> k * Load(lens, partitions[i]) <= Sum(lens) + (k - 1) * top
  {
    var bias := if equalSize then Sum(lens) + 1 else 0;
    partitions := EmptyLists(k);
    var sums: seq<int> := seq(k, _ => 0);
    GreedyStart(lens, k, equalSize, bias, top);
    for i := 0 to |lens|
      invariant GreedyInv(lens, k, equalSize, bias, top, i, partitions, sums)
    {
      var minIdx := SmallestSum(sums);
      GreedyStep(lens, k, equalSize, bias, top, i, partitions, sums, minIdx);
      partitions := partitions[minIdx := partitions[minIdx] + [i]];
      sums := sums[minIdx := sums[minIdx] + lens[i] + bias];
    }
    GreedyEnd(lens, k, equalSize, bias, top, partitions, sums);
  }

  lemma PrefixBelow(lens: seq<int>, n: nat)
    requires n <= |lens| && AllNonNegative(lens)
    ensures 0 <= Sum(lens[..n]) <= Sum(lens)
  {
    assert lens == lens[..n] + lens[n..];
    SumAppend(lens[..n], lens[n..]);
    SumNonNegative(lens[n..]);
    SumNonNegative(lens[..n]);
  }
}
