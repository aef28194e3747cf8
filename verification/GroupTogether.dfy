/** Which samples `get_group_balanced_partitions` keeps together: those between which the uid never changes, and no
    others. */
module GroupTogether {
  import opened Arithmetic
  import opened Sums
  import opened KarmarkarKarp
  import opened Partitioning
  import opened Balancing
  import opened BalanceExists
  import opened GroupBalance
  import opened MicroBatches

  // ---------- Groups are stretches of one uid ----------

  /** The uid does not change between samples p and q. */
  ghost predicate OneStretch<U>(uids: seq<U>, p: nat, q: nat)
    requires p < |uids| && q < |uids|
  {
    forall x :: Min(p, q) <= x <= Max(p, q) ==> uids[x] == uids[p]
  }

  lemma RunBound<U>(uids: seq<U>, g: nat, x: nat)
    requires g < |Runs(uids)| && x in Runs(uids)[g]
    ensures x < |uids|
  {
    RunsCover(uids);
    ConcatMember(Runs(uids), g, x);
  }

  /** Sample n starts a new group or goes on with the last. */
  ghost predicate Grows(rest: seq<seq<nat>>, runs: seq<seq<nat>>, n: nat) {
    runs == rest + [[n]] || (rest != [] && runs == rest[..|rest| - 1] + [rest[|rest| - 1] + [n]])
  }

  lemma GrownRuns(rest: seq<seq<nat>>, runs: seq<seq<nat>>, n: nat, g: nat, x: nat)
    requires Grows(rest, runs, n)
    requires g < |runs| && x in runs[g] && x != n
    ensures g < |rest| && x in rest[g]
  {
    if runs == rest + [[n]] {
      assert g < |rest| ==> runs[g] == rest[g];
    } else {
      assert runs[g] == if g < |rest| - 1 then rest[g] else rest[g] + [n];
    }
  }

  /** A sample before the last is in the same group without the last. */
  lemma RunBefore<U>(uids: seq<U>, g: nat, x: nat)
    requires uids != [] && g < |Runs(uids)| && x in Runs(uids)[g] && x < |uids| - 1
    ensures g < |Runs(uids[..|uids| - 1])| && x in Runs(uids[..|uids| - 1])[g]
  {
    var rest, runs := RunsNext(uids);
    GrownRuns(rest, runs, |uids| - 1, g, x);
  }

  lemma RunsNext<U>(uids: seq<U>) returns (rest: seq<seq<nat>>, runs: seq<seq<nat>>)
    requires uids != []
    ensures rest == Runs(uids[..|uids| - 1]) && runs == Runs(uids) && Grows(rest, runs, |uids| - 1)
  {
    rest, runs := Runs(uids[..|uids| - 1]), Runs(uids);
  }

  /** The group of the last sample goes on from the one before it. */
  lemma LastGoesOn<U>(uids: seq<U>, g: nat)
    requires uids != [] && g < |Runs(uids)| && |uids| - 1 in Runs(uids)[g]
    requires g < |Runs(uids[..|uids| - 1])|
    ensures |uids| > 1 && uids[|uids| - 1] == uids[|uids| - 2] && |uids| - 2 in Runs(uids[..|uids| - 1])[g]
  {
    var n := |uids| - 1;
    LastRun(uids);
    OneGroup(uids, g, |Runs(uids)| - 1, n);
    NoNewGroup(uids);
    LastRun(uids[..n]);
  }

  lemma NoNewGroup<U>(uids: seq<U>)
    requires uids != [] && |Runs(uids)| <= |Runs(uids[..|uids| - 1])|
    ensures |uids| > 1 && uids[|uids| - 1] == uids[|uids| - 2]
    ensures |Runs(uids)| == |Runs(uids[..|uids| - 1])|
  {
  }

  lemma {:induction false} RunIsStretch<U>(uids: seq<U>, g: nat, p: nat, q: nat)
    requires g < |Runs(uids)| && p in Runs(uids)[g] && q in Runs(uids)[g] && p <= q
    ensures Level(uids, p, q)
  {
    RunBound(uids, g, q);
    var n := |uids| - 1;
    if p < n {
      RunBefore(uids, g, p);
      if q < n { RunBefore(uids, g, q); } else { LastGoesOn(uids, g); }
      RunIsStretch(uids[..n], g, p, if q < n then q else n - 1);
      LevelNext(uids, p, q);
    }
  }

  ghost predicate Level<U>(uids: seq<U>, p: nat, q: nat) {
    q < |uids| && forall x :: p <= x <= q ==> uids[x] == uids[p]
  }

  lemma LevelNext<U>(uids: seq<U>, p: nat, q: nat)
    requires p < |uids| - 1 && p <= q < |uids|
    requires Level(uids[..|uids| - 1], p, if q < |uids| - 1 then q else |uids| - 2)
    requires q == |uids| - 1 ==> uids[q] == uids[q - 1]
    ensures Level(uids, p, q)
  {
    forall x | p <= x <= q && x < |uids| - 1 ensures uids[x] == uids[p] {
      assert uids[..|uids| - 1][x] == uids[..|uids| - 1][p];
    }
  }

  /** The two samples are in one group. */
  ghost predicate OneRun<U>(uids: seq<U>, p: nat, q: nat) {
    exists g :: 0 <= g < |Runs(uids)| && p in Runs(uids)[g] && q in Runs(uids)[g]
  }

  lemma StretchIsRun<U>(uids: seq<U>, p: nat, q: nat)
    requires p < |uids| && q < |uids|
    ensures OneRun(uids, p, q) <==> OneStretch(uids, p, q)
  {
    if OneRun(uids, p, q) {
      var g :| 0 <= g < |Runs(uids)| && p in Runs(uids)[g] && q in Runs(uids)[g];
      if p <= q { RunIsStretch(uids, g, p, q); } else { RunIsStretch(uids, g, q, p); }
    }
    if OneStretch(uids, p, q) {
      var g := StretchTogether(uids, Min(p, q), Max(p, q));
    }
  }

  // ---------- Results exist ----------

  lemma SomeReturned<U>(lens: seq<int>, uids: seq<U>, k: nat) returns (r: seq<seq<nat>>, gp: seq<seq<nat>>)
    requires AllNonNegative(lens) && |lens| == |uids| && 0 < k <= |Runs(uids)| && |Runs(uids)| % k == 0
    ensures Returned(lens, uids, k, r, gp)
  {
    var groups := Runs(uids);
    WorksNonNegative(lens, groups);
    gp := SomeBalanced(GroupWorks(lens, groups), k);
    BalancedBounds(GroupWorks(lens, groups), k, gp);
    r := seq(|gp|, i requires 0 <= i < |gp| => SortIndices(Concat(Pick(groups, gp[i]))));
  }

  // ---------- Two heavy samples ----------

  /** One token at p and at q, none elsewhere. */
  function TwoHeavy(n: nat, p: nat, q: nat): (r: seq<int>)
    ensures |r| == n && AllNonNegative(r)
  {
    seq(n, x => if x == p || x == q then 1 else 0)
  }

  const HEAVY := Work(1)

  lemma HeavyWorks(n: nat, p: nat, q: nat, x: nat)
    requires x < n
    ensures Workloads(TwoHeavy(n, p, q))[x] == if x == p || x == q then HEAVY else 0
  {
  }

  lemma {:induction false} ZeroLoad(works: seq<int>, s: seq<nat>)
    requires forall x :: x in s && x < |works| ==> works[x] == 0
    ensures Load(works, s) == 0
  {
    if s != [] { ZeroLoad(works, s[1..]); }
  }

  lemma OneHeavy(works: seq<int>, s: seq<nat>, x: nat)
    requires x < |works| && x in s && multiset(s)[x] <= 1
    requires forall y :: y in s && y != x && y < |works| ==> works[y] == 0
    ensures Load(works, s) == works[x]
  {
    var i :| 0 <= i < |s| && s[i] == x;
    LoadRemove(works, s, i);
    OthersAreLight(works, s, i);
    ZeroLoad(works, s[..i] + s[i+1..]);
  }

  lemma OthersAreLight(works: seq<int>, s: seq<nat>, i: nat)
    requires i < |s| && multiset(s)[s[i]] <= 1
    requires forall y :: y in s && y != s[i] && y < |works| ==> works[y] == 0
    ensures forall y :: y in s[..i] + s[i+1..] && y < |works| ==> works[y] == 0
  {
    var rest := s[..i] + s[i+1..];
    MultisetRemove(s, i);
    forall y | y in rest && y < |works| ensures works[y] == 0 {
      assert y in multiset(rest);
      assert y in s;
    }
  }

  lemma OnceInPart(ps: seq<seq<nat>>, n: nat, g: nat, x: nat)
    requires IsPartition(ps, n) && g < |ps|
    ensures multiset(ps[g])[x] <= 1
  {
    ConcatSplit(ps, g);
    RangeOnce(n, x);
  }

  /** A group that does not hold both heavy samples weighs at most one of them. */
  lemma GroupAtMostOne(ps: seq<seq<nat>>, n: nat, p: nat, q: nat, g: nat)
    requires IsPartition(ps, n) && g < |ps| && p < n && q < n && !(p in ps[g] && q in ps[g])
    ensures Load(Workloads(TwoHeavy(n, p, q)), ps[g]) <= HEAVY
  {
    var works := Workloads(TwoHeavy(n, p, q));
    forall x: nat | x < n ensures works[x] == if x == p || x == q then HEAVY else 0 { HeavyWorks(n, p, q, x); }
    OnceInPart(ps, n, g, p);
    OnceInPart(ps, n, g, q);
    if p in ps[g] { OneHeavy(works, ps[g], p); } else if q in ps[g] { OneHeavy(works, ps[g], q); } else {
      ZeroLoad(works, ps[g]);
    }
  }

  /** So the lists differ by at most one heavy sample. */
  lemma HeavyBound<U>(uids: seq<U>, k: nat, p: nat, q: nat)
    requires p < |uids| && q < |uids| && k > 0 && !OneRun(uids, p, q)
    ensures SpreadBound(GroupWorks(TwoHeavy(|uids|, p, q), Runs(uids)), k, true) <= HEAVY
  {
    var groups := Runs(uids);
    var works := GroupWorks(TwoHeavy(|uids|, p, q), groups);
    RunsCover(uids);
    WorksNonNegative(TwoHeavy(|uids|, p, q), groups);
    forall g | 0 <= g < |works| ensures works[g] <= HEAVY { GroupAtMostOne(groups, |uids|, p, q, g); }
    SortItemsFacts(works, |works|);
    GapAtMostMax(works, SortItems(works, |works|), k);
  }

  lemma OtherListEmpty(r: seq<seq<nat>>, n: nat, p: nat, q: nat, i: nat, j: nat)
    requires IsPartition(r, n) && i < |r| && j < |r| && i != j && p in r[i] && q in r[i]
    ensures Load(Workloads(TwoHeavy(n, p, q)), r[j]) == 0
  {
    var works := Workloads(TwoHeavy(n, p, q));
    forall x | x in r[j] && x < n ensures works[x] == 0 {
      if x == p || x == q { OnceOnly(r, n, i, j, x); }
      HeavyWorks(n, p, q, x);
    }
    ZeroLoad(works, r[j]);
  }

  /** With these lengths every result keeps the two samples apart. */
  lemma ForcedApart<U>(uids: seq<U>, k: nat, r: seq<seq<nat>>, gp: seq<seq<nat>>, p: nat, q: nat, i: nat)
    requires p < |uids| && q < |uids| && k >= 2 && !OneRun(uids, p, q)
    requires Returned(TwoHeavy(|uids|, p, q), uids, k, r, gp) && i < |r|
    ensures !(p in r[i] && q in r[i])
  {
    var n, j := |uids|, if i == 0 then 1 else 0;
    var lens := TwoHeavy(n, p, q);
    EachSampleOnce(lens, uids, k, r, gp);
    HeavyBound(uids, k, p, q);
    WorkBalanced(lens, uids, k, r, gp, i, j);
    if p in r[i] && q in r[i] {
      OtherListEmpty(r, n, p, q, i, j);
      HeavyWorks(n, p, q, p);
      HeavyWorks(n, p, q, q);
      WorkloadsNonNegative(lens);
      SameRunItself(uids, p, q);
      PairLoad(Workloads(lens), r[i], p, q);
    }
  }

  lemma SameRunItself<U>(uids: seq<U>, p: nat, q: nat)
    requires p < |uids| && !OneRun(uids, p, q)
    ensures p != q
  {
    if p == q { var g := StretchTogether(uids, p, p); }
  }

  // ---------- The guarantee ----------

  ghost predicate InOneList(r: seq<seq<nat>>, p: nat, q: nat) {
    exists i :: 0 <= i < |r| && p in r[i] && q in r[i]
  }

  /** Whatever the lengths, and whichever result is returned for them, p and q are in one list. */
  ghost predicate AlwaysTogether<U(!new)>(uids: seq<U>, k: nat, p: nat, q: nat) {
    forall lens, r, gp :: AllNonNegative(lens) && Returned(lens, uids, k, r, gp) ==> InOneList(r, p, q)
  }

  lemma OneListHoldsAll<U>(lens: seq<int>, uids: seq<U>, r: seq<seq<nat>>, gp: seq<seq<nat>>, p: nat)
    requires Returned(lens, uids, 1, r, gp) && p < |uids|
    ensures |r| == 1 && p in r[0]
  {
    EachSampleOnce(lens, uids, 1, r, gp);
    RangeMember(|uids|, p);
    assert p in multiset(Concat(r));
    var i := ConcatFind(r, p);
  }

  lemma TogetherWhen<U(!new)>(uids: seq<U>, k: nat, p: nat, q: nat)
    requires p < |uids| && q < |uids| && (k == 1 || OneStretch(uids, p, q))
    ensures AlwaysTogether(uids, k, p, q)
  {
    forall lens, r, gp | AllNonNegative(lens) && Returned(lens, uids, k, r, gp) ensures InOneList(r, p, q) {
      if k == 1 {
        OneListHoldsAll(lens, uids, r, gp, p);
        OneListHoldsAll(lens, uids, r, gp, q);
      } else {
        var i := KeptTogether(lens, uids, k, r, gp, Min(p, q), Max(p, q));
      }
    }
  }

  lemma ApartWhen<U(!new)>(uids: seq<U>, k: nat, p: nat, q: nat)
    requires p < |uids| && q < |uids| && 2 <= k <= |Runs(uids)| && |Runs(uids)| % k == 0 && !OneStretch(uids, p, q)
    ensures !AlwaysTogether(uids, k, p, q)
  {
    StretchIsRun(uids, p, q);
    var r, gp := SomeReturned(TwoHeavy(|uids|, p, q), uids, k);
    if InOneList(r, p, q) {
      var i :| 0 <= i < |r| && p in r[i] && q in r[i];
      ForcedApart(uids, k, r, gp, p, q, i);
    }
  }

  /** Exactly which samples are kept together, for every k the call accepts. */
  lemma TogetherExactly<U(!new)>(uids: seq<U>, k: nat, p: nat, q: nat)
    requires p < |uids| && q < |uids| && 0 < k <= |Runs(uids)| && |Runs(uids)| % k == 0
    ensures AlwaysTogether(uids, k, p, q) <==> k == 1 || OneStretch(uids, p, q)
  {
    if k == 1 || OneStretch(uids, p, q) { TogetherWhen(uids, k, p, q); } else { ApartWhen(uids, k, p, q); }
  }

  /** The samples of each uid are next to each other. */
  ghost predicate Contiguous<U>(uids: seq<U>) {
    forall p: nat, q: nat :: p < |uids| && q < |uids| && uids[p] == uids[q] ==> OneStretch(uids, p, q)
  }

  /** The documented guarantee, that samples of one uid end up in one list, holds for all lengths if and only if there is
      one list or the samples of each uid are contiguous. */
  lemma UidsKeptExactly<U(!new)>(uids: seq<U>, k: nat)
    requires 0 < k <= |Runs(uids)| && |Runs(uids)| % k == 0
    ensures (forall p: nat, q: nat :: p < |uids| && q < |uids| && uids[p] == uids[q] ==> AlwaysTogether(uids, k, p, q))
            <==> k == 1 || Contiguous(uids)
  {
    forall p: nat, q: nat | p < |uids| && q < |uids|
      ensures AlwaysTogether(uids, k, p, q) <==> k == 1 || OneStretch(uids, p, q)
    {
      TogetherExactly(uids, k, p, q);
    }
  }
}
