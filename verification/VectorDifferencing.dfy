/** k-way differencing on plain numbers: a subproblem is the vector of its k sums, in falling order. The heap loop of
    `karmarkar_karp` is proved to compute what is defined here. */
module VectorDifferencing {
  import opened Sums

  /** Largest sum minus smallest. */
  function Width(v: seq<int>): int { if v == [] then 0 else v[0] - v[|v| - 1] }

  function First(v: seq<int>): int { if v == [] then 0 else v[0] }

  ghost predicate Falling(v: seq<int>) { forall i, j :: 0 <= i < j < |v| ==> v[i] >= v[j] }

  /** v is one of the widest vectors, and of those one with the largest first sum. */
  ghost predicate Leads(m: multiset<seq<int>>, v: seq<int>) {
    v in m && forall w :: w in m ==> Width(w) < Width(v) || (Width(w) == Width(v) && First(w) <= First(v))
  }

  /** The largest sums of v meet the smallest of w. */
  function Crossed(v: seq<int>, w: seq<int>): (r: seq<int>)
    requires |v| == |w|
    ensures |r| == |v|
  {
    seq(|v|, i requires 0 <= i < |v| => v[i] + w[|v| - 1 - i])
  }

  ghost predicate Joins(v: seq<int>, w: seq<int>, t: seq<int>) {
    |v| == |w| && Falling(t) && multiset(t) == multiset(Crossed(v, w))
  }

  /** The two leading vectors are joined. */
  ghost predicate Round(m: multiset<seq<int>>, n: multiset<seq<int>>) {
    exists v, w, t :: Leads(m, v) && Leads(m - multiset{v}, w) && Joins(v, w, t) &&
                      n == m - multiset{v} - multiset{w} + multiset{t}
  }

  /** Round after round, m can become the single vector f. */
  ghost predicate EndsIn(m: multiset<seq<int>>, f: seq<int>)
    decreases |m|
  {
    if |m| <= 1 then m == multiset{f} else exists n :: |n| < |m| && Round(m, n) && EndsIn(n, f)
  }

  lemma OneRoundMore(m: multiset<seq<int>>, n: multiset<seq<int>>, f: seq<int>)
    requires |m| > 1 && |n| < |m| && Round(m, n) && EndsIn(n, f)
    ensures EndsIn(m, f)
  {
  }

  /** Two falling lists of the same numbers are equal. */
  lemma {:induction false} FallingUnique(a: seq<int>, b: seq<int>)
    requires Falling(a) && Falling(b) && multiset(a) == multiset(b)
    ensures a == b
  {
    assert |a| == |b| by { assert |multiset(a)| == |a| && |multiset(b)| == |b|; }
    if a != [] {
      SameTop(a, b);
      HeadOut(a);
      HeadOut(b);
      FallingUnique(a[1..], b[1..]);
    }
  }

  lemma SameTop(a: seq<int>, b: seq<int>)
    requires Falling(a) && Falling(b) && multiset(a) == multiset(b) && a != [] && b != []
    ensures a[0] == b[0]
  {
    assert a[0] in multiset(b) && b[0] in multiset(a);
  }

  // ---------- Where the rounds start ----------

  /** One item: its value in one set, nothing in the others. */
  function Spike(x: int, k: nat): (r: seq<int>)
    requires k > 0
    ensures |r| == k
  {
    [x] + seq(k - 1, _ => 0)
  }

  function Turned(v: seq<int>): (r: seq<int>)
    ensures |r| == |v|
  {
    seq(|v|, i requires 0 <= i < |v| => v[|v| - 1 - i])
  }

  /** k consecutive values of a sorted list to a vector. */
  function Chunked(vals: seq<int>, k: nat): seq<seq<int>>
    requires k > 0
    decreases |vals|
  {
    if |vals| < k then [] else [Turned(vals[..k])] + Chunked(vals[k..], k)
  }

  lemma {:induction false} TurnedPermutes(v: seq<int>)
    ensures multiset(Turned(v)) == multiset(v)
  {
    if v != [] {
      TurnedPermutes(v[1..]);
      assert Turned(v) == Turned(v[1..]) + [v[0]];
      assert v == [v[0]] + v[1..];
    }
  }
}
