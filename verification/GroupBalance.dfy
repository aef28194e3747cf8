/** `get_group_balanced_partitions`: consecutive samples with one uid form a group, and whole groups are balanced. */
module GroupBalance {
  import opened Wrappers
  import opened Sums
  import opened KarmarkarKarp
  import opened Partitioning
  import opened Balancing
  import MicroBatches

  // ---------- Groups ----------

  /** The index lists of the maximal runs of equal uids, in order. */
  function Runs<U(==)>(uids: seq<U>): (r: seq<seq<nat>>)
    ensures uids != [] <==> r != []
  {
    if uids == [] then []
    else
      var n := |uids| - 1;
      var rest := Runs(uids[..n]);
      if n > 0 && uids[n] == uids[n - 1] then rest[..|rest| - 1] + [rest[|rest| - 1] + [n]] else rest + [[n]]
  }

  lemma ConcatSnoc(rest: seq<seq<nat>>, x: seq<nat>)
    ensures Concat<nat>(rest + [x]) == Concat<nat>(rest) + x
  {
    ConcatAppend<nat>(rest, [x]);
    assert Concat<nat>([x]) == x;
  }

  lemma ConcatGrow(rest: seq<seq<nat>>, n: nat)
    requires rest != []
    ensures Concat<nat>(rest[..|rest| - 1] + [rest[|rest| - 1] + [n]]) == Concat<nat>(rest) + [n]
  {
    LastApart(rest);
    ConcatGrowLast(rest, rest[..|rest| - 1], rest[|rest| - 1], n);
  }

  lemma LastApart<T>(s: seq<T>)
    requires s != []
    ensures s == s[..|s| - 1] + [s[|s| - 1]]
  {
  }

  lemma ConcatGrowLast(rest: seq<seq<nat>>, init: seq<seq<nat>>, last: seq<nat>, n: nat)
    requires rest == init + [last]
    ensures Concat<nat>(init + [last + [n]]) == Concat<nat>(rest) + [n]
  {
    ConcatSnoc(init, last);
    ConcatSnoc(init, last + [n]);
    Associates(Concat<nat>(init), last, [n]);
  }

  /** The groups together hold the samples in order. */
  lemma {:induction false} RunsCover<U>(uids: seq<U>)
    ensures Concat(Runs(uids)) == Range(|uids|)
  {
    if uids != [] {
      var n: nat := |uids| - 1;
      var rest := Runs(uids[..n]);
      RunsCover(uids[..n]);
      assert Range(n + 1) == Range(n) + [n];
      if n > 0 && uids[n] == uids[n - 1] { ConcatGrow(rest, n); } else { ConcatSnoc(rest, [n]); }
    }
  }

  /** The last group ends with the last sample. */
  lemma LastRun<U>(uids: seq<U>)
    requires uids != []
    ensures var r := Runs(uids); |uids| - 1 in r[|r| - 1]
  {
    var last := Runs(uids)[|Runs(uids)| - 1];
    assert last != [] && last[|last| - 1] == |uids| - 1;
    assert last[|last| - 1] in last;
  }

  /** Neighbours with one uid are in one group. */
  lemma {:induction false} NeighboursTogether<U>(uids: seq<U>, p: nat) returns (g: nat)
    requires p + 1 < |uids| && uids[p] == uids[p + 1]
    ensures g < |Runs(uids)| && p in Runs(uids)[g] && p + 1 in Runs(uids)[g]
  {
    var n := |uids| - 1;
    if p + 1 == n {
      LastRun(uids[..n]);
      g := |Runs(uids)| - 1;
    } else {
      g := NeighboursTogether(uids[..n], p);
      KeepsRun(uids, g, p);
      KeepsRun(uids, g, p + 1);
    }
  }

  lemma KeepsRun<U>(uids: seq<U>, g: nat, x: nat)
    requires uids != [] && g < |Runs(uids[..|uids| - 1])| && x in Runs(uids[..|uids| - 1])[g]
    ensures g < |Runs(uids)| && x in Runs(uids)[g]
  {
  }

  /** Samples between which the uid never changes are in one group. */
  lemma {:induction false} StretchTogether<U>(uids: seq<U>, p: nat, q: nat) returns (g: nat)
    requires p <= q < |uids| && forall x :: p <= x <= q ==> uids[x] == uids[p]
    ensures g < |Runs(uids)| && p in Runs(uids)[g] && q in Runs(uids)[g]
    decreases q - p
  {
    if p == q {
      RunsCover(uids);
      assert Range(|uids|)[p] == p;
      g := ConcatFind(Runs(uids), p);
    } else {
      g := StretchTogether(uids, p, q - 1);
      var h := NeighboursTogether(uids, q - 1);
      OneGroup(uids, g, h, q - 1);
    }
  }

  /** No sample is in two groups. */
  lemma OneGroup<U>(uids: seq<U>, g: nat, h: nat, x: nat)
    requires g < |Runs(uids)| && h < |Runs(uids)| && x in Runs(uids)[g] && x in Runs(uids)[h]
    ensures g == h
  {
    RunsCover(uids);
    OnceOnly(Runs(uids), |uids|, g, h, x);
  }

  lemma OnceOnly(ps: seq<seq<nat>>, n: nat, g: nat, h: nat, x: nat)
    requires IsPartition(ps, n) && g < |ps| && h < |ps| && x in ps[g] && x in ps[h]
    ensures g == h
  {
    if g != h {
      TwiceHeld(ps, g, h, x);
      RangeOnce(n, x);
    }
  }

  lemma TwiceHeld(ps: seq<seq<nat>>, g: nat, h: nat, x: nat)
    requires g < |ps| && h < |ps| && g != h && x in ps[g] && x in ps[h]
    ensures multiset(Concat<nat>(ps))[x] >= 2
  {
    var rest := ps[..g] + ps[g + 1..];
    ConcatSplit<nat>(ps, g);
    var k := if h < g then h else h - 1;
    assert rest[k] == ps[h];
    ConcatMember(rest, k, x);
    BothHeld(multiset(ps[g]), multiset(Concat<nat>(rest)), x);
  }

  lemma BothHeld(a: multiset<nat>, b: multiset<nat>, x: nat)
    requires x in a && x in b
    ensures (a + b)[x] >= 2
  {
  }

  /** The loop that builds the groups. */
  method BuildGroups<U(==)>(uids: seq<U>) returns (groups: seq<seq<nat>>)
    ensures groups == Runs(uids)
  {
    groups := [];
    var current: seq<nat> := [];
    for i := 0 to |uids|
      invariant current == [] <==> i == 0
      invariant Runs(uids[..i]) == if i == 0 then [] else groups + [current]
      invariant i == 0 ==> groups == []
    {
      assert uids[..i + 1][..i] == uids[..i];
      if i == 0 || uids[i] != uids[i - 1] {
        if current != [] { groups := groups + [current]; }
        current := [i];
      } else {
        current := current + [i];
      }
    }
    assert uids[..|uids|] == uids;
    if current != [] { groups := groups + [current]; }
  }

  // ---------- Balancing the groups ----------

  function GroupWork(lens: seq<int>, group: seq<nat>): int { Load(MicroBatches.Workloads(lens), group) }

  function GroupWorks(lens: seq<int>, groups: seq<seq<nat>>): (r: seq<int>)
    ensures |r| == |groups|
    ensures forall g :: 0 <= g < |groups| ==> r[g] == GroupWork(lens, groups[g])
  {
    Loads(MicroBatches.Workloads(lens), groups)
  }

  /** The groups with the given numbers. */
  function Pick(groups: seq<seq<nat>>, idx: seq<nat>): (r: seq<seq<nat>>)
    requires forall j :: 0 <= j < |idx| ==> idx[j] < |groups|
    ensures |r| == |idx|
  {
    seq(|idx|, j requires 0 <= j < |idx| => groups[idx[j]])
  }

  ghost predicate InBounds(ps: seq<seq<nat>>, n: nat) {
    forall i :: 0 <= i < |ps| ==> forall j :: 0 <= j < |ps[i]| ==> ps[i][j] < n
  }

  /** Every returned list is the sorted union of the groups of one part of a balanced partition of the groups. */
  ghost predicate MadeFrom(groups: seq<seq<nat>>, gp: seq<seq<nat>>, r: seq<seq<nat>>) {
    |r| == |gp| && InBounds(gp, |groups|) &&
    forall i :: 0 <= i < |r| ==> r[i] == SortIndices(Concat(Pick(groups, gp[i])))
  }

  method GetGroupBalancedPartitions<U(==)>(lens: seq<int>, uids: seq<U>, k: nat)
    returns (r: Result<seq<seq<nat>>, Error>, ghost gp: seq<seq<nat>>)
    requires AllNonNegative(lens)
    ensures r.Ok? <==> |lens| == |uids| && 0 < k <= |Runs(uids)| && |Runs(uids)| % k == 0
    ensures r.Err? ==> r.error == if |lens| == |uids| && k == 0 then DivisionByZero else AssertionFailed
    ensures r.Ok? ==> Balanced(GroupWorks(lens, Runs(uids)), k, true, gp) && MadeFrom(Runs(uids), gp, r.value)
  {
    gp := [];
    if |lens| != |uids| { return Err(AssertionFailed), gp; }
    var groups := BuildGroups(uids);
    if |groups| < k { return Err(AssertionFailed), gp; }
    var works := GroupWorks(lens, groups);
    WorksNonNegative(lens, groups);
    var parts := GetSeqlenBalancedPartitions(works, k, true);
    if parts.Err? { return parts, gp; }
    gp := parts.value;
    BalancedBounds(works, k, gp);
    var result := SamplePartitions(groups, parts.value);
    return Ok(result), gp;
  }

  /** The last loop: group numbers to sorted sample indices. */
  method SamplePartitions(groups: seq<seq<nat>>, parts: seq<seq<nat>>) returns (r: seq<seq<nat>>)
    requires InBounds(parts, |groups|)
    ensures MadeFrom(groups, parts, r)
  {
    r := [];
    for i := 0 to |parts|
      invariant MadeFrom(groups, parts[..i], r)
    {
      var indices := SampleIndices(groups, parts[i]);
      r := r + [SortIndices(indices)];
    }
    assert parts[..|parts|] == parts;
  }

  method SampleIndices(groups: seq<seq<nat>>, part: seq<nat>) returns (indices: seq<nat>)
    requires forall j :: 0 <= j < |part| ==> part[j] < |groups|
    ensures indices == Concat(Pick(groups, part))
  {
    indices := [];
    for j := 0 to |part|
      invariant indices == Concat(Pick(groups, part[..j]))
    {
      assert Pick(groups, part[..j + 1]) == Pick(groups, part[..j]) + [groups[part[j]]];
      ConcatAppend(Pick(groups, part[..j]), [groups[part[j]]]);
      indices := indices + groups[part[j]];
    }
    assert part[..|part|] == part;
  }

  lemma WorksNonNegative(lens: seq<int>, groups: seq<seq<nat>>)
    requires AllNonNegative(lens)
    ensures AllNonNegative(GroupWorks(lens, groups))
  {
    MicroBatches.WorkloadsNonNegative(lens);
    forall g | 0 <= g < |groups| ensures GroupWorks(lens, groups)[g] >= 0 {
      LoadNonNegative(MicroBatches.Workloads(lens), groups[g]);
    }
  }

  lemma BalancedBounds(works: seq<int>, k: nat, gp: seq<seq<nat>>)
    requires works != [] && k > 0 && Balanced(works, k, true, gp)
    ensures InBounds(gp, |works|)
  {
    forall i | 0 <= i < |gp| ensures forall j :: 0 <= j < |gp[i]| ==> gp[i][j] < |works| {
      PartBounds(gp, |works|, i);
    }
  }

  // ---------- What the result guarantees ----------

  /** The result of a call on these samples. */
  ghost predicate Returned<U>(lens: seq<int>, uids: seq<U>, k: nat, r: seq<seq<nat>>, gp: seq<seq<nat>>) {
    |lens| == |uids| && Runs(uids) != [] && k > 0 &&
    Balanced(GroupWorks(lens, Runs(uids)), k, true, gp) && MadeFrom(Runs(uids), gp, r)
  }

  lemma {:induction false} PickPermuted(groups: seq<seq<nat>>, a: seq<nat>, b: seq<nat>)
    requires (forall j :: 0 <= j < |a| ==> a[j] < |groups|) && forall j :: 0 <= j < |b| ==> b[j] < |groups|
    requires multiset(a) == multiset(b)
    ensures multiset(Pick(groups, a)) == multiset(Pick(groups, b))
    decreases |a|
  {
    if a == [] {
      assert |multiset(b)| == 0;
    } else {
      var i, rest := TakeOut(a, b);
      PickPermuted(groups, a[1..], rest);
      assert a[..0] + a[0 + 1..] == a[1..];
      PickRemove(groups, a, 0, a[1..]);
      PickRemove(groups, b, i, rest);
    }
  }

  lemma PickRemove(groups: seq<seq<nat>>, a: seq<nat>, i: nat, rest: seq<nat>)
    requires i < |a| && rest == a[..i] + a[i + 1..] && forall j :: 0 <= j < |a| ==> a[j] < |groups|
    ensures multiset(Pick(groups, a)) == multiset(Pick(groups, rest)) + multiset{groups[a[i]]}
  {
    var p := Pick(groups, a);
    assert Pick(groups, rest) == p[..i] + p[i + 1..];
    Resplit(p, i, Pick(groups, rest));
  }

  lemma {:induction false} ConcatInBounds(gp: seq<seq<nat>>, n: nat)
    requires InBounds(gp, n)
    ensures forall j :: 0 <= j < |Concat<nat>(gp)| ==> Concat<nat>(gp)[j] < n
  {
    if gp != [] { ConcatInBounds(gp[1..], n); }
  }

  lemma PickJoin(groups: seq<seq<nat>>, a: seq<nat>, b: seq<nat>)
    requires (forall j :: 0 <= j < |a| ==> a[j] < |groups|) && forall j :: 0 <= j < |b| ==> b[j] < |groups|
    ensures Concat<nat>(Pick(groups, a + b)) == Concat<nat>(Pick(groups, a)) + Concat<nat>(Pick(groups, b))
  {
    assert Pick(groups, a + b) == Pick(groups, a) + Pick(groups, b);
    ConcatAppend<nat>(Pick(groups, a), Pick(groups, b));
  }

  /** Joining part by part is joining all picked groups. */
  lemma {:induction false} JoinParts(groups: seq<seq<nat>>, gp: seq<seq<nat>>, r: seq<seq<nat>>)
    requires MadeFrom(groups, gp, r)
    ensures forall j :: 0 <= j < |Concat<nat>(gp)| ==> Concat<nat>(gp)[j] < |groups|
    ensures multiset(Concat<nat>(r)) == multiset(Concat<nat>(Pick(groups, Concat<nat>(gp))))
  {
    ConcatInBounds(gp, |groups|);
    if gp == [] {
      assert Pick(groups, Concat<nat>(gp)) == [];
    } else {
      JoinParts(groups, gp[1..], r[1..]);
      PickJoin(groups, gp[0], Concat<nat>(gp[1..]));
      SortIndicesSorts(Concat<nat>(Pick(groups, gp[0])));
    }
  }

  /** Every sample is in exactly one of the lists. */
  lemma EachSampleOnce<U>(lens: seq<int>, uids: seq<U>, k: nat, r: seq<seq<nat>>, gp: seq<seq<nat>>)
    requires Returned(lens, uids, k, r, gp)
    ensures IsPartition(r, |lens|) && |r| == k
  {
    var groups := Runs(uids);
    JoinParts(groups, gp, r);
    PickPermuted(groups, Concat<nat>(gp), Range(|groups|));
    assert Pick(groups, Range(|groups|)) == groups;
    ConcatPermuted<nat>(Pick(groups, Concat<nat>(gp)), groups);
    RunsCover(uids);
  }

  lemma {:induction false} ConcatHas(ps: seq<seq<nat>>, j: nat, x: nat)
    requires j < |ps| && x in ps[j]
    ensures x in multiset(Concat<nat>(ps))
  {
    ConcatMember<nat>(ps, j, x);
  }

  lemma WholeGroup(groups: seq<seq<nat>>, gp: seq<seq<nat>>, r: seq<seq<nat>>, i: nat, j: nat, x: nat)
    requires MadeFrom(groups, gp, r) && i < |gp| && j < |gp[i]| && x in groups[gp[i][j]]
    ensures x in r[i]
  {
    var picked := Pick(groups, gp[i]);
    assert picked[j] == groups[gp[i][j]];
    ConcatHas(picked, j, x);
    SortIndicesSorts(Concat<nat>(picked));
    assert x in multiset(r[i]);
  }

  /** Samples with one uid and nothing else between them end up in one list. */
  lemma KeptTogether<U>(lens: seq<int>, uids: seq<U>, k: nat, r: seq<seq<nat>>, gp: seq<seq<nat>>, p: nat, q: nat)
    returns (i: nat)
    requires Returned(lens, uids, k, r, gp)
    requires p <= q < |uids| && forall x :: p <= x <= q ==> uids[x] == uids[p]
    ensures i < |r| && p in r[i] && q in r[i]
  {
    var g := StretchTogether(uids, p, q);
    RangeMember(|Runs(uids)|, g);
    assert g in multiset(Concat<nat>(gp));
    i := ConcatFind<nat>(gp, g);
    var j :| 0 <= j < |gp[i]| && gp[i][j] == g;
    WholeGroup(Runs(uids), gp, r, i, j, p);
    WholeGroup(Runs(uids), gp, r, i, j, q);
  }

  lemma {:induction false} WorkOfPicked(lens: seq<int>, groups: seq<seq<nat>>, part: seq<nat>)
    requires forall j :: 0 <= j < |part| ==> part[j] < |groups|
    ensures Load(MicroBatches.Workloads(lens), Concat<nat>(Pick(groups, part))) == Load(GroupWorks(lens, groups), part)
  {
    if part != [] {
      WorkOfPicked(lens, groups, part[1..]);
      assert Pick(groups, part)[1..] == Pick(groups, part[1..]);
      LoadAppend(MicroBatches.Workloads(lens), groups[part[0]], Concat<nat>(Pick(groups, part[1..])));
    }
  }

  /** The lists' workloads differ by no more than the balancing of the groups allows. */
  lemma WorkBalanced<U>(lens: seq<int>, uids: seq<U>, k: nat, r: seq<seq<nat>>, gp: seq<seq<nat>>, i: nat, j: nat)
    requires Returned(lens, uids, k, r, gp) && i < k && j < k
    ensures |r| == k
    ensures Load(MicroBatches.Workloads(lens), r[i]) - Load(MicroBatches.Workloads(lens), r[j])
            <= SpreadBound(GroupWorks(lens, Runs(uids)), k, true)
  {
    ListWork(lens, Runs(uids), gp, r, i);
    ListWork(lens, Runs(uids), gp, r, j);
  }

  lemma ListWork(lens: seq<int>, groups: seq<seq<nat>>, gp: seq<seq<nat>>, r: seq<seq<nat>>, i: nat)
    requires MadeFrom(groups, gp, r) && i < |r|
    ensures Load(MicroBatches.Workloads(lens), r[i]) == Load(GroupWorks(lens, groups), gp[i])
  {
    WorkOfPicked(lens, groups, gp[i]);
    SortIndicesSorts(Concat<nat>(Pick(groups, gp[i])));
    LoadPermuted(MicroBatches.Workloads(lens), r[i], Concat<nat>(Pick(groups, gp[i])));
  }

  /** When every group has c samples, so many per prompt, every list has the same number of samples. */
  lemma EqualCounts<U>(lens: seq<int>, uids: seq<U>, k: nat, r: seq<seq<nat>>, gp: seq<seq<nat>>, c: nat, i: nat)
    requires Returned(lens, uids, k, r, gp) && i < k
    requires forall g :: 0 <= g < |Runs(uids)| ==> |Runs(uids)[g]| == c
    ensures |r| == k && |r[i]| * k == |lens|
  {
    var groups := Runs(uids);
    var picked := Pick(groups, gp[i]);
    ConcatLength(picked, c);
    ConcatLength(groups, c);
    RunsCover(uids);
    SortIndicesSorts(Concat<nat>(picked));
    assert |multiset(r[i])| == |r[i]| && |multiset(Concat<nat>(picked))| == |Concat<nat>(picked)|;
    TimesBoth(|gp[i]|, k, |groups|, c);
  }

  lemma TimesBoth(a: nat, k: nat, n: nat, c: nat)
    requires a * k == n
    ensures a * c * k == n * c
  {
    assert a * c * k == a * k * c;
  }

  lemma PairLoad(works: seq<int>, s: seq<nat>, x: nat, y: nat)
    requires AllNonNegative(works) && x < |works| && y < |works| && x != y && x in s && y in s
    ensures Load(works, s) >= works[x] + works[y]
  {
    var i :| 0 <= i < |s| && s[i] == x;
    LoadRemove(works, s, i);
    var rest := s[..i] + s[i + 1..];
    var h :| 0 <= h < |s| && s[h] == y;
    var j := if h < i then h else h - 1;
    assert rest[j] == y;
    LoadRemove(works, rest, j);
    LoadNonNegative(works, rest[..j] + rest[j + 1..]);
    assert Load(works, [x]) == works[x] && Load(works, [y]) == works[y];
  }
}
