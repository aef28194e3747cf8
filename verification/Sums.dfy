/** Sums over index lists and the facts about permutations that the partitioning proofs share. */
module Sums {

  function Sum(s: seq<int>): int {
    if s == [] then 0 else s[0] + Sum(s[1..])
  }

  lemma {:induction false} SumAppend(a: seq<int>, b: seq<int>)
    ensures Sum(a + b) == Sum(a) + Sum(b)
  {
    if a == [] {
      assert a + b == b;
    } else {
      assert (a + b)[1..] == a[1..] + b;
      SumAppend(a[1..], b);
    }
  }

  lemma {:induction false} SumRemove(s: seq<int>, i: nat)
    requires i < |s|
    ensures Sum(s) == s[i] + Sum(s[..i] + s[i+1..])
  {
    if i == 0 {
      assert s[..0] + s[0+1..] == s[1..];
    } else {
      var rest := s[..i] + s[i+1..];
      SumRemove(s[1..], i - 1);
      assert rest[0] == s[0] && rest[1..] == s[1..][..i-1] + s[1..][i..];
    }
  }

  lemma Associates<T>(a: seq<T>, b: seq<T>, c: seq<T>)
    ensures (a + b) + c == a + (b + c)
  {
  }

  lemma MultisetJoin<T>(a: seq<T>, b: seq<T>)
    ensures multiset(a + b) == multiset(a) + multiset(b)
  {
  }

  lemma HeadOut<T>(a: seq<T>)
    requires a != []
    ensures multiset(a[1..]) == multiset(a) - multiset{a[0]}
  {
    assert a == [a[0]] + a[1..];
  }

  lemma PlaceOf<T>(x: T, b: seq<T>) returns (i: nat)
    requires x in multiset(b)
    ensures i < |b| && b[i] == x
  {
    i :| 0 <= i < |b| && b[i] == x;
  }

  /** The first of a, found in a rearrangement b and taken out of both. */
  lemma TakeOut<T>(a: seq<T>, b: seq<T>) returns (i: nat, rest: seq<T>)
    requires a != [] && multiset(a) == multiset(b)
    ensures i < |b| && b[i] == a[0] && rest == b[..i] + b[i+1..] && multiset(rest) == multiset(a[1..])
  {
    assert a[0] in multiset(a);
    i := PlaceOf(a[0], b);
    rest := b[..i] + b[i+1..];
    HeadOut(a);
    MultisetRemove(b, i);
  }

  lemma MultisetRemove<T>(s: seq<T>, i: nat)
    requires i < |s|
    ensures multiset(s[..i] + s[i+1..]) == multiset(s) - multiset{s[i]}
  {
    assert s == s[..i] + [s[i]] + s[i+1..];
  }

  function Without<T>(s: seq<T>, i: nat): (r: seq<T>)
    requires i < |s|
    ensures |r| == |s| - 1
  {
    s[..i] + s[i+1..]
  }

  lemma Resplit<T>(x: seq<T>, i: nat, c: seq<T>)
    requires i < |x| && c == x[..i] + x[i+1..]
    ensures multiset(x) == multiset(c) + multiset{x[i]}
  {
    MultisetRemove(x, i);
    assert x[i] in multiset(x);
  }

  function Mapped<A, B>(f: A -> B, a: seq<A>): (r: seq<B>)
    ensures |r| == |a|
  {
    seq(|a|, i requires 0 <= i < |a| => f(a[i]))
  }

  lemma MappedWithout<A, B>(f: A -> B, a: seq<A>, i: nat, c: seq<A>)
    requires i < |a| && c == a[..i] + a[i+1..]
    ensures multiset(Mapped(f, a)) == multiset(Mapped(f, c)) + multiset{f(a[i])}
  {
    assert Mapped(f, c) == Mapped(f, a)[..i] + Mapped(f, a)[i+1..];
    Resplit(Mapped(f, a), i, Mapped(f, c));
  }

  /** Rearranging the arguments rearranges the values. */
  lemma {:induction false} MapPermuted<A, B>(f: A -> B, a: seq<A>, b: seq<A>)
    requires multiset(a) == multiset(b)
    ensures multiset(Mapped(f, a)) == multiset(Mapped(f, b))
    decreases |a|
  {
    if a == [] {
      assert |multiset(b)| == 0;
    } else {
      var i, rest := TakeOut(a, b);
      MapPermuted(f, a[1..], rest);
      assert a[..0] + a[0+1..] == a[1..];
      MappedWithout(f, a, 0, a[1..]);
      MappedWithout(f, b, i, rest);
    }
  }

  /** A sum does not depend on the order of its terms. */
  lemma {:induction false} SumPermuted(a: seq<int>, b: seq<int>)
    requires multiset(a) == multiset(b)
    ensures Sum(a) == Sum(b)
    decreases |a|
  {
    if a == [] {
      assert |multiset(b)| == 0;
    } else {
      var i, rest := TakeOut(a, b);
      SumPermuted(a[1..], rest);
      SumRemove(b, i);
    }
  }

  lemma {:induction false} AllAbove(s: seq<int>, lo: int)
    requires forall i :: 0 <= i < |s| ==> lo <= s[i]
    ensures |s| * lo <= Sum(s)
  {
    if s != [] {
      AllAbove(s[1..], lo);
      assert |s| * lo == lo + (|s| - 1) * lo;
    }
  }

  lemma {:induction false} AllBelow(s: seq<int>, hi: int)
    requires forall i :: 0 <= i < |s| ==> s[i] <= hi
    ensures Sum(s) <= |s| * hi
  {
    if s != [] {
      AllBelow(s[1..], hi);
      assert |s| * hi == hi + (|s| - 1) * hi;
    }
  }

  lemma {:induction false} SumNonNegative(s: seq<int>)
    requires forall j :: 0 <= j < |s| ==> s[j] >= 0
    ensures Sum(s) >= 0
  {
    if s != [] { SumNonNegative(s[1..]); }
  }

  /** `sum(lens[i] for i in idx)` */
  function Load(lens: seq<int>, idx: seq<nat>): int {
    if idx == [] then 0 else (if idx[0] < |lens| then lens[idx[0]] else 0) + Load(lens, idx[1..])
  }

  lemma {:induction false} LoadAppend(lens: seq<int>, a: seq<nat>, b: seq<nat>)
    ensures Load(lens, a + b) == Load(lens, a) + Load(lens, b)
  {
    if a == [] {
      assert a + b == b;
    } else {
      assert (a + b)[1..] == a[1..] + b;
      LoadAppend(lens, a[1..], b);
    }
  }

  lemma {:induction false} LoadNonNegative(lens: seq<int>, idx: seq<nat>)
    requires forall i :: 0 <= i < |lens| ==> lens[i] >= 0
    ensures Load(lens, idx) >= 0
  {
    if idx != [] { LoadNonNegative(lens, idx[1..]); }
  }

  lemma LoadRemove(lens: seq<int>, s: seq<nat>, i: nat)
    requires i < |s|
    ensures Load(lens, s) == Load(lens, [s[i]]) + Load(lens, s[..i] + s[i+1..])
  {
    assert s == s[..i] + [s[i]] + s[i+1..];
    LoadAppend(lens, s[..i] + [s[i]], s[i+1..]);
    LoadAppend(lens, s[..i], [s[i]]);
    LoadAppend(lens, s[..i], s[i+1..]);
  }

  lemma {:induction false} LoadPermuted(lens: seq<int>, a: seq<nat>, b: seq<nat>)
    requires multiset(a) == multiset(b)
    ensures Load(lens, a) == Load(lens, b)
    decreases |a|
  {
    if a == [] {
      assert |multiset(b)| == 0;
    } else {
      var i, rest := TakeOut(a, b);
      LoadPermuted(lens, a[1..], rest);
      LoadRemove(lens, b, i);
      LoadRemove(lens, a, 0);
      assert a[..0] + a[0+1..] == a[1..];
    }
  }

  lemma {:induction false} LoadOfAll(lens: seq<int>, n: nat)
    requires n <= |lens|
    ensures Load(lens, Range(n)) == Sum(lens[..n])
  {
    if n > 0 {
      LoadOfAll(lens, n - 1);
      assert Range(n) == Range(n - 1) + [n - 1];
      LoadAppend(lens, Range(n - 1), [n - 1]);
      assert lens[..n] == lens[..n - 1] + [lens[n - 1]];
      SumAppend(lens[..n - 1], [lens[n - 1]]);
    }
  }

  function Range(n: nat): (r: seq<nat>)
    ensures |r| == n
  {
    seq(n, i requires 0 <= i < n => i)
  }

  function Concat<T>(ps: seq<seq<T>>): seq<T> {
    if ps == [] then [] else ps[0] + Concat(ps[1..])
  }

  /** The lists in `ps` hold each of 0 .. n-1 exactly once. */
  ghost predicate IsPartition(ps: seq<seq<nat>>, n: nat) {
    multiset(Concat(ps)) == multiset(Range(n))
  }

  lemma {:induction false} ConcatMember<T>(ps: seq<seq<T>>, j: nat, x: T)
    requires j < |ps| && x in ps[j]
    ensures x in Concat(ps)
  {
    if j > 0 { ConcatMember(ps[1..], j - 1, x); }
  }

  lemma {:induction false} ConcatFind<T>(ps: seq<seq<T>>, x: T) returns (j: nat)
    requires x in Concat(ps)
    ensures j < |ps| && x in ps[j]
  {
    if x in ps[0] {
      j := 0;
    } else {
      j := ConcatFind(ps[1..], x);
      j := j + 1;
    }
  }

  lemma RangeMember(n: nat, x: nat)
    ensures x in multiset(Range(n)) <==> x < n
  {
    if x < n { assert Range(n)[x] == x; }
  }

  lemma {:induction false} RangeOnce(n: nat, x: nat)
    ensures multiset(Range(n))[x] <= 1
  {
    if n > 0 {
      RangeOnce(n - 1, x);
      assert Range(n) == Range(n - 1) + [n - 1];
      RangeMember(n - 1, x);
    }
  }

  /** An index list of a partition holds valid indices only. */
  lemma PartBounds(ps: seq<seq<nat>>, n: nat, j: nat)
    requires IsPartition(ps, n) && j < |ps|
    ensures forall i :: 0 <= i < |ps[j]| ==> ps[j][i] < n
  {
    forall i | 0 <= i < |ps[j]| ensures ps[j][i] < n {
      ConcatMember(ps, j, ps[j][i]);
      assert ps[j][i] in multiset(Concat(ps));
      RangeMember(n, ps[j][i]);
    }
  }

  lemma {:induction false} ConcatSplit<T>(ps: seq<seq<T>>, j: nat)
    requires j < |ps|
    ensures multiset(Concat(ps)) == multiset(ps[j]) + multiset(Concat(ps[..j] + ps[j+1..]))
  {
    if j == 0 {
      assert ps[..0] + ps[0+1..] == ps[1..];
    } else {
      ConcatSplit(ps[1..], j - 1);
      var rest := ps[..j] + ps[j+1..];
      assert rest[0] == ps[0] && rest[1..] == ps[1..][..j-1] + ps[1..][j..];
      assert ps[1..][j-1] == ps[j];
    }
  }

  lemma {:induction false} ConcatAppend<T>(a: seq<seq<T>>, b: seq<seq<T>>)
    ensures Concat(a + b) == Concat(a) + Concat(b)
  {
    if a == [] {
      assert a + b == b;
    } else {
      assert (a + b)[1..] == a[1..] + b;
      ConcatAppend(a[1..], b);
    }
  }

  /** Reordering the lists keeps a partition a partition. */
  lemma {:induction false} ConcatPermuted<T>(a: seq<seq<T>>, b: seq<seq<T>>)
    requires multiset(a) == multiset(b)
    ensures multiset(Concat(a)) == multiset(Concat(b))
    decreases |a|
  {
    if a == [] {
      assert |multiset(b)| == 0;
    } else {
      var i, rest := TakeOut(a, b);
      ConcatPermuted(a[1..], rest);
      ConcatSplit(b, i);
    }
  }

  /** Load of every list of a partition. */
  function Loads(lens: seq<int>, ps: seq<seq<nat>>): (r: seq<int>)
    ensures |r| == |ps|
    ensures forall j :: 0 <= j < |ps| ==> r[j] == Load(lens, ps[j])
  {
    seq(|ps|, j requires 0 <= j < |ps| => Load(lens, ps[j]))
  }

  lemma {:induction false} LoadsTotal(lens: seq<int>, ps: seq<seq<nat>>)
    ensures Sum(Loads(lens, ps)) == Load(lens, Concat(ps))
  {
    if ps != [] {
      LoadsTotal(lens, ps[1..]);
      assert Loads(lens, ps)[1..] == Loads(lens, ps[1..]);
      LoadAppend(lens, ps[0], Concat(ps[1..]));
    }
  }

  /** The loads of any partition add up to the total of all items. */
  lemma PartitionTotal(lens: seq<int>, ps: seq<seq<nat>>)
    requires IsPartition(ps, |lens|)
    ensures Sum(Loads(lens, ps)) == Sum(lens)
  {
    LoadsTotal(lens, ps);
    LoadPermuted(lens, Concat(ps), Range(|lens|));
    LoadOfAll(lens, |lens|);
    assert lens[..|lens|] == lens;
  }
}
