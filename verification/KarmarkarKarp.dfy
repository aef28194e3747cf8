/** k-way Karmarkar-Karp differencing: `Set` and `State`, the merge, and what a merge keeps. */
module KarmarkarKarp {
  import opened Arithmetic
  import opened Sums

  datatype Item = Item(idx: nat, val: int)

  /** `class Set`: items in insertion order and their running sum. */
  datatype PSet = PSet(sum: int, items: seq<Item>) {
    function Merge(other: PSet): PSet { PSet(sum + other.sum, items + other.items) }
  }

  /** `class State`, its k sets in decreasing order. */
  type KState = seq<PSet>

  // ---------- The order on sets ----------

  /** Python compares the (idx, val) lists lexicographically, a proper prefix first. */
  predicate ItemsLess(a: seq<Item>, b: seq<Item>) {
    if b == [] then false
    else if a == [] then true
    else if a[0] != b[0] then a[0].idx < b[0].idx || (a[0].idx == b[0].idx && a[0].val < b[0].val)
    else ItemsLess(a[1..], b[1..])
  }

  /** `Set.__lt__`: by sum, then by number of items, then by the items. */
  predicate Less(a: PSet, b: PSet) {
    if a.sum != b.sum then a.sum < b.sum
    else if |a.items| != |b.items| then |a.items| < |b.items|
    else ItemsLess(a.items, b.items)
  }

  lemma {:induction false} ItemsLessTransitive(a: seq<Item>, b: seq<Item>, c: seq<Item>)
    requires ItemsLess(a, b) && ItemsLess(b, c)
    ensures ItemsLess(a, c)
  {
    if a != [] && a[0] == b[0] == c[0] { ItemsLessTransitive(a[1..], b[1..], c[1..]); }
  }

  lemma LessTransitive(a: PSet, b: PSet, c: PSet)
    requires Less(a, b) && Less(b, c)
    ensures Less(a, c)
  {
    if a.sum == b.sum == c.sum && |a.items| == |b.items| == |c.items| {
      ItemsLessTransitive(a.items, b.items, c.items);
    }
  }

  lemma {:induction false} ItemsLessIrreflexive(a: seq<Item>)
    ensures !ItemsLess(a, a)
  {
    if a != [] { ItemsLessIrreflexive(a[1..]); }
  }

  /** i is the first place where a and b differ, and a's item is the smaller: by index, then by value. */
  ghost predicate BelowAt(a: seq<Item>, b: seq<Item>, i: nat) {
    && i < |a| && i < |b| && a[..i] == b[..i]
    && (a[i].idx < b[i].idx || (a[i].idx == b[i].idx && a[i].val < b[i].val))
  }

  ghost predicate Prefix(a: seq<Item>, b: seq<Item>) { |a| < |b| && a == b[..|a|] }

  /** List order: a proper prefix is smaller, else the first items that differ decide. */
  lemma {:induction false} ItemsLessExactly(a: seq<Item>, b: seq<Item>)
    ensures ItemsLess(a, b) <==> Prefix(a, b) || exists i :: BelowAt(a, b, i)
  {
    if a != [] && b != [] && a[0] == b[0] {
      ItemsLessExactly(a[1..], b[1..]);
      TailsDecide(a, b);
    } else if a != [] && b != [] {
      if a[0].idx < b[0].idx || (a[0].idx == b[0].idx && a[0].val < b[0].val) { assert BelowAt(a, b, 0); }
      HeadsDecide(a, b);
    }
  }

  lemma HeadsDecide(a: seq<Item>, b: seq<Item>)
    requires a != [] && b != [] && a[0] != b[0]
    ensures !Prefix(a, b) && forall i: nat :: BelowAt(a, b, i) ==> i == 0
  {
    assert forall i: nat :: 0 < i <= |a| && i <= |b| ==> a[..i][0] == a[0] && b[..i][0] == b[0];
  }

  lemma TailsDecide(a: seq<Item>, b: seq<Item>)
    requires a != [] && b != [] && a[0] == b[0]
    ensures Prefix(a, b) <==> Prefix(a[1..], b[1..])
    ensures (exists i :: BelowAt(a, b, i)) <==> exists i :: BelowAt(a[1..], b[1..], i)
  {
    assert a == [a[0]] + a[1..];
    assert |a| <= |b| ==> b[..|a|] == [b[0]] + b[1..][..|a| - 1];
    if i: nat :| BelowAt(a, b, i) { BelowLater(a, b, i - 1); }
    if i: nat :| BelowAt(a[1..], b[1..], i) { BelowLater(a, b, i); }
  }

  lemma BelowLater(a: seq<Item>, b: seq<Item>, i: nat)
    requires a != [] && b != [] && a[0] == b[0]
    ensures BelowAt(a, b, i + 1) <==> BelowAt(a[1..], b[1..], i)
  {
    if i + 1 <= |a| && i + 1 <= |b| {
      assert a[..i + 1] == [a[0]] + a[1..][..i] && b[..i + 1] == [b[0]] + b[1..][..i];
    }
  }

  // ---------- sorted(sets, reverse=True) ----------

  ghost predicate Descending(s: seq<PSet>) {
    forall i, j :: 0 <= i < j < |s| ==> !Less(s[i], s[j])
  }

  function Insert(x: PSet, s: seq<PSet>): seq<PSet> {
    if s == [] then [x]
    else if Less(s[0], x) then [x] + s
    else [s[0]] + Insert(x, s[1..])
  }

  function SortDesc(s: seq<PSet>): seq<PSet> {
    if s == [] then [] else Insert(s[0], SortDesc(s[1..]))
  }

  lemma {:induction false} InsertPermutes(x: PSet, s: seq<PSet>)
    ensures multiset(Insert(x, s)) == multiset(s) + multiset{x}
    ensures |Insert(x, s)| == |s| + 1
  {
    if s != [] && !Less(s[0], x) {
      InsertPermutes(x, s[1..]);
      assert s == [s[0]] + s[1..];
    }
  }

  lemma {:induction false} InsertDescending(x: PSet, s: seq<PSet>)
    requires Descending(s)
    ensures Descending(Insert(x, s))
  {
    if s != [] {
      var t := Insert(x, s);
      if Less(s[0], x) {
        forall j | 0 <= j < |s| ensures !Less(x, s[j]) {
          if Less(x, s[j]) {
            LessTransitive(s[0], x, s[j]);
            ItemsLessIrreflexive(s[0].items);
          }
        }
      } else {
        assert Descending(s[1..]);
        InsertDescending(x, s[1..]);
        InsertPermutes(x, s[1..]);
        forall j | 0 < j < |t| ensures !Less(s[0], t[j]) {
          assert t[j] in multiset(Insert(x, s[1..]));
          if t[j] != x { assert t[j] in s[1..]; }
        }
      }
    }
  }

  lemma {:induction false} SortDescSorts(s: seq<PSet>)
    ensures Descending(SortDesc(s)) && multiset(SortDesc(s)) == multiset(s) && |SortDesc(s)| == |s|
  {
    if s != [] {
      SortDescSorts(s[1..]);
      InsertSorted(s[0], SortDesc(s[1..]), s[1..]);
      assert s == [s[0]] + s[1..];
    }
  }

  lemma InsertSorted(x: PSet, sorted: seq<PSet>, rest: seq<PSet>)
    requires Descending(sorted) && multiset(sorted) == multiset(rest) && |sorted| == |rest|
    ensures Descending(Insert(x, sorted)) && multiset(Insert(x, sorted)) == multiset([x] + rest)
    ensures |Insert(x, sorted)| == |[x] + rest|
  {
    InsertDescending(x, sorted);
    InsertPermutes(x, sorted);
  }

  /** Everything known of all unsorted sets holds of the sorted ones. */
  lemma SortedMember(s: seq<PSet>, i: nat) returns (j: nat)
    requires i < |SortDesc(s)|
    ensures j < |s| && SortDesc(s)[i] == s[j]
  {
    SortDescSorts(s);
    assert SortDesc(s)[i] in multiset(s);
    j :| 0 <= j < |s| && s[j] == SortDesc(s)[i];
  }

  // ---------- Merging two states ----------

  /** The loop of `State.merge`, before the sets are sorted again. */
  function MergeSets(a: KState, b: KState): (r: KState)
    requires |a| == |b|
    ensures |r| == |a|
  {
    seq(|a|, i requires 0 <= i < |a| => a[i].Merge(b[|a| - 1 - i]))
  }

  function Merge(a: KState, b: KState): KState
    requires |a| == |b|
  {
    SortDesc(MergeSets(a, b))
  }

  /** `State.spread` */
  function Spread(s: KState): int
    requires |s| > 0
  {
    s[0].sum - s[|s| - 1].sum
  }

  lemma SpreadBounds(s: KState, i: nat, j: nat)
    requires Descending(s) && i < |s| && j < |s|
    ensures s[i].sum - s[j].sum <= Spread(s)
    ensures i <= j ==> s[i].sum >= s[j].sum
  {
    assert i < j ==> !Less(s[i], s[j]);
    assert 0 < i ==> !Less(s[0], s[i]);
    assert j < |s| - 1 ==> !Less(s[j], s[|s| - 1]);
  }

  function Max(a: int, b: int): int { if a >= b then a else b }

  lemma MergedPair(a: KState, b: KState, i: nat, j: nat)
    requires |a| == |b| && Descending(a) && Descending(b) && i < |a| && j < |a|
    ensures MergeSets(a, b)[i].sum - MergeSets(a, b)[j].sum <= Max(Spread(a), Spread(b))
  {
    var k := |a|;
    SpreadBounds(a, i, j);
    SpreadBounds(b, k - 1 - i, k - 1 - j);
    if i <= j { SpreadBounds(b, k - 1 - j, k - 1 - i); } else { SpreadBounds(a, j, i); }
  }

  /** Merging never raises the spread above the larger of the two. */
  lemma MergeSpread(a: KState, b: KState)
    requires |a| == |b| > 0 && Descending(a) && Descending(b)
    ensures |Merge(a, b)| == |a| && Descending(Merge(a, b))
    ensures Spread(Merge(a, b)) <= Max(Spread(a), Spread(b))
  {
    var m := MergeSets(a, b);
    SortDescSorts(m);
    var i := SortedMember(m, 0);
    var j := SortedMember(m, |m| - 1);
    MergedPair(a, b, i, j);
  }

  lemma SortTwo(x: PSet, y: PSet)
    ensures SortDesc([x, y]) == [x, y] || SortDesc([x, y]) == [y, x]
  {
    assert [x, y][1..] == [y] && [y][1..] == [];
    assert SortDesc([y]) == Insert(y, []) == [y];
    assert Insert(x, [y]) == [x, y] || Insert(x, [y]) == [y] + Insert(x, []);
  }

  /** With two sets a merge subtracts the spreads. */
  lemma MergeTwo(a: KState, b: KState)
    requires |a| == |b| == 2 && Descending(a) && Descending(b) && Spread(b) <= Spread(a)
    ensures |Merge(a, b)| == 2 && Spread(Merge(a, b)) == Spread(a) - Spread(b)
  {
    var m := MergeSets(a, b);
    SortDescSorts(m);
    assert m == [m[0], m[1]];
    SortTwo(m[0], m[1]);
    var t := SortDesc(m);
    SpreadBounds(t, 0, 1);
    SpreadBounds(b, 0, 1);
    assert m[0].sum - m[1].sum == Spread(a) - Spread(b);
  }

  // ---------- What the sets hold ----------

  function Indices(s: PSet): (r: seq<nat>)
    ensures |r| == |s.items|
  {
    seq(|s.items|, i requires 0 <= i < |s.items| => s.items[i].idx)
  }

  /** `State.get_partitions` */
  function Partitions(s: KState): (r: seq<seq<nat>>)
    ensures |r| == |s|
  {
    seq(|s|, i requires 0 <= i < |s| => Indices(s[i]))
  }

  ghost function Held(s: KState): multiset<nat> { multiset(Concat(Partitions(s))) }

  lemma PartitionsTail(s: KState)
    requires s != []
    ensures Partitions(s)[1..] == Partitions(s[1..])
    ensures Held(s) == multiset(Indices(s[0])) + Held(s[1..])
  {
    assert Partitions(s)[1..] == Partitions(s[1..]);
  }

  lemma {:induction false} InsertHeld(x: PSet, s: seq<PSet>)
    ensures Held(Insert(x, s)) == multiset(Indices(x)) + Held(s)
  {
    PartitionsTail(Insert(x, s));
    if s != [] {
      PartitionsTail(s);
      if !Less(s[0], x) {
        InsertHeld(x, s[1..]);
        assert Insert(x, s)[1..] == Insert(x, s[1..]);
      } else {
        assert Insert(x, s)[1..] == s;
      }
    } else {
      assert Insert(x, s)[1..] == [];
    }
  }

  lemma {:induction false} SortHeld(s: seq<PSet>)
    ensures Held(SortDesc(s)) == Held(s)
  {
    if s != [] {
      SortHeld(s[1..]);
      InsertHeld(s[0], SortDesc(s[1..]));
      PartitionsTail(s);
    }
  }

  lemma HeldSnoc(s: KState, x: PSet)
    ensures Held(s + [x]) == Held(s) + multiset(Indices(x))
  {
    assert Partitions(s + [x]) == Partitions(s) + [Indices(x)];
    ConcatAppend(Partitions(s), [Indices(x)]);
    assert Concat([Indices(x)]) == Indices(x) + Concat<nat>([]) == Indices(x);
  }

  lemma MergeIndices(a: PSet, b: PSet)
    ensures Indices(a.Merge(b)) == Indices(a) + Indices(b)
  {
  }

  lemma {:induction false} MergeSetsHeld(a: KState, b: KState)
    requires |a| == |b|
    ensures Held(MergeSets(a, b)) == Held(a) + Held(b)
  {
    if a != [] {
      var k := |a|;
      MergeSetsHeld(a[1..], b[..k-1]);
      MergeSetsHead(a, b);
      PartitionsTail(a);
      HeldSnoc(b[..k-1], b[k-1]);
      assert b == b[..k-1] + [b[k-1]];
    } else {
      assert MergeSets(a, b) == [];
    }
  }

  lemma MergeSetsHead(a: KState, b: KState)
    requires |a| == |b| > 0
    ensures var k := |a|;
            Held(MergeSets(a, b))
            == multiset(Indices(a[0])) + multiset(Indices(b[k-1])) + Held(MergeSets(a[1..], b[..k-1]))
  {
    var k, m := |a|, MergeSets(a, b);
    assert m[1..] == MergeSets(a[1..], b[..k-1]);
    PartitionsTail(m);
    MergeIndices(a[0], b[k-1]);
  }

  lemma MergeHeld(a: KState, b: KState)
    requires |a| == |b|
    ensures Held(Merge(a, b)) == Held(a) + Held(b)
  {
    MergeSetsHeld(a, b);
    SortHeld(MergeSets(a, b));
  }

  /** The running sum of a set is the load of its indices. */
  ghost predicate Sound(lens: seq<int>, s: PSet) { s.sum == Load(lens, Indices(s)) }

  lemma MergeSound(lens: seq<int>, a: PSet, b: PSet)
    requires Sound(lens, a) && Sound(lens, b)
    ensures Sound(lens, a.Merge(b))
  {
    MergeIndices(a, b);
    LoadAppend(lens, Indices(a), Indices(b));
  }

  // ---------- Non-empty sets ----------

  function Filled(s: seq<PSet>): nat {
    if s == [] then 0 else (if s[0].items != [] then 1 else 0) + Filled(s[1..])
  }

  lemma {:induction false} InsertFilled(x: PSet, s: seq<PSet>)
    ensures Filled(Insert(x, s)) == Filled(s) + Filled([x])
  {
    if s != [] && !Less(s[0], x) {
      InsertFilled(x, s[1..]);
      assert Insert(x, s)[1..] == Insert(x, s[1..]);
    } else {
      assert Insert(x, s)[1..] == s;
    }
  }

  lemma {:induction false} SortFilled(s: seq<PSet>)
    ensures Filled(SortDesc(s)) == Filled(s)
  {
    if s != [] {
      SortFilled(s[1..]);
      InsertFilled(s[0], SortDesc(s[1..]));
    }
  }

  ghost predicate NonNegative(s: KState) { forall i :: 0 <= i < |s| ==> s[i].sum >= 0 && (s[i].items == [] ==> s[i].sum == 0) }

  /** The item-count tie-break puts the empty sets last, also when all sums are zero. */
  lemma {:induction false} FilledFirst(s: KState, i: nat)
    requires Descending(s) && NonNegative(s) && i < |s|
    ensures s[i].items != [] <==> i < Filled(s)
    ensures Filled(s) <= |s|
  {
    if s[0].items == [] {
      forall j | 0 <= j < |s| ensures s[j].items == [] {
        if j > 0 { assert !Less(s[0], s[j]); }
      }
      NoneFilled(s);
    } else if i > 0 {
      FilledFirst(s[1..], i - 1);
    } else if |s| > 1 {
      FilledFirst(s[1..], 0);
    }
  }

  lemma {:induction false} NoneFilled(s: seq<PSet>)
    requires forall j :: 0 <= j < |s| ==> s[j].items == []
    ensures Filled(s) == 0
  {
    if s != [] { NoneFilled(s[1..]); }
  }

  lemma {:induction false} FilledEnds(s: seq<PSet>, p: int, c: int)
    requires forall i :: 0 <= i < |s| ==> (s[i].items != [] <==> i < p || i >= c)
    requires 0 <= p && c <= |s|
    ensures Filled(s) == if p >= c || p >= |s| then |s| else p + |s| - Max(c, 0)
  {
    if s != [] {
      FilledEnds(s[1..], Max(p - 1, 0), c - 1);
    }
  }

  /** The first n sets, and no others, are non-empty. */
  ghost predicate FilledUpTo(s: KState, n: nat) {
    n <= |s| && forall i :: 0 <= i < |s| ==> (s[i].items != [] <==> i < n)
  }

  lemma CountFilled(s: KState) returns (n: nat)
    requires Descending(s) && NonNegative(s)
    ensures n == Filled(s) && FilledUpTo(s, n)
  {
    n := Filled(s);
    forall i | 0 <= i < |s| ensures (s[i].items != [] <==> i < Filled(s)) && Filled(s) <= |s| { FilledFirst(s, i); }
    if s != [] { FilledFirst(s, 0); }
  }

  lemma SetsFilled(a: KState, b: KState, p: nat, q: nat)
    requires |a| == |b| && FilledUpTo(a, p) && FilledUpTo(b, q)
    ensures forall i :: 0 <= i < |a| ==> (MergeSets(a, b)[i].items != [] <==> i < p || i >= |a| - q)
  {
    forall i | 0 <= i < |a| ensures MergeSets(a, b)[i].items != [] <==> i < p || i >= |a| - q {
      assert MergeSets(a, b)[i].items == a[i].items + b[|a| - 1 - i].items;
    }
  }

  lemma MergeNonNegative(a: KState, b: KState)
    requires |a| == |b| && NonNegative(a) && NonNegative(b)
    ensures NonNegative(Merge(a, b))
  {
    var m := MergeSets(a, b);
    forall i | 0 <= i < |SortDesc(m)|
      ensures SortDesc(m)[i].sum >= 0 && (SortDesc(m)[i].items == [] ==> SortDesc(m)[i].sum == 0)
    {
      var j := SortedMember(m, i);
    }
  }

  lemma MergeFilledAs(a: KState, b: KState, p: nat, q: nat) returns (n: nat)
    requires |a| == |b| && FilledUpTo(a, p) && FilledUpTo(b, q)
    ensures n == Filled(Merge(a, b)) && n == Min(|a|, p + q)
  {
    n := Filled(Merge(a, b));
    SetsFilled(a, b, p, q);
    FilledEnds(MergeSets(a, b), p, |a| - q);
    SortFilled(MergeSets(a, b));
  }

  /** A merge of p and q non-empty sets leaves min(k, p + q). */
  lemma MergeFilled(a: KState, b: KState) returns (p: nat, q: nat, n: nat)
    requires |a| == |b| && Descending(a) && Descending(b) && NonNegative(a) && NonNegative(b)
    ensures p == Filled(a) && q == Filled(b) && n == Filled(Merge(a, b))
    ensures n == Min(|a|, p + q)
  {
    p := CountFilled(a);
    q := CountFilled(b);
    n := MergeFilledAs(a, b, p, q);
  }
}
