/** Cutting the list only where the next weight no longer fits makes as few buckets as the order of the weights allows. */
module BucketCount {
  import opened Buckets

  /** The bytes of a group. */
  ghost function SizeOf(g: seq<Weight>): nat { if g == [] then 0 else |g[0].data| + SizeOf(g[1..]) }

  /** With less in the bucket at the start no more buckets are needed. */
  lemma {:induction false} LessIsFewer(ws: seq<Weight>, a: seq<Weight>, s: nat, b: seq<Weight>, t: nat, cap: nat)
    requires AllFit(ws, cap) && s <= t <= cap
    ensures |Groups(ws, a, s, cap)| <= |Groups(ws, b, t, cap)|
    decreases |ws|, 0
  {
    if ws != [] {
      var w, rest := ws[0], ws[1..];
      TailFits(ws, cap);
      if t + |w.data| <= cap {
        LessIsFewer(rest, a + [w], s + |w.data|, b + [w], t + |w.data|, cap);
      } else if s + |w.data| <= cap {
        OneMoreSuffices(rest, a + [w], s + |w.data|, [w], |w.data|, cap);
      }
    }
  }

  /** Whatever is in the bucket at the start costs at most one bucket. */
  lemma {:induction false} OneMoreSuffices(ws: seq<Weight>, a: seq<Weight>, s: nat, b: seq<Weight>, t: nat, cap: nat)
    requires AllFit(ws, cap) && s <= cap && t <= cap
    ensures |Groups(ws, a, s, cap)| <= 1 + |Groups(ws, b, t, cap)|
    decreases |ws|, 1
  {
    if ws != [] {
      var w, rest := ws[0], ws[1..];
      TailFits(ws, cap);
      if s + |w.data| <= cap {
        if t + |w.data| <= cap {
          OneMoreSuffices(rest, a + [w], s + |w.data|, b + [w], t + |w.data|, cap);
        } else {
          OneMoreSuffices(rest, a + [w], s + |w.data|, [w], |w.data|, cap);
        }
      } else if t + |w.data| <= cap {
        LessIsFewer(rest, [w], |w.data|, b + [w], t + |w.data|, cap);
      }
    }
  }

  lemma TailFits(ws: seq<Weight>, cap: nat)
    requires AllFit(ws, cap) && ws != []
    ensures |ws[0].data| <= cap && AllFit(ws[1..], cap)
  {
    assert forall i :: 0 <= i < |ws| - 1 ==> ws[1..][i] == ws[i + 1];
  }

  /** A group that fits goes into the bucket whole. */
  lemma {:induction false} Absorbed(g: seq<Weight>, rest: seq<Weight>, a: seq<Weight>, s: nat, cap: nat)
    requires s + SizeOf(g) <= cap
    ensures |Groups(g + rest, a, s, cap)| == |Groups(rest, a + g, s + SizeOf(g), cap)|
  {
    if g == [] {
      assert g + rest == rest && a + g == a;
    } else {
      assert (g + rest)[1..] == g[1..] + rest;
      Absorbed(g[1..], rest, a + [g[0]], s + |g[0].data|, cap);
      assert a + [g[0]] + g[1..] == a + g;
    }
  }

  ghost predicate AllSmall(gs: seq<seq<Weight>>, cap: nat) { forall i :: 0 <= i < |gs| ==> SizeOf(gs[i]) <= cap }

  lemma {:induction false} PartsFit(g: seq<Weight>, cap: nat)
    requires SizeOf(g) <= cap
    ensures AllFit(g, cap)
  {
    if g != [] {
      PartsFit(g[1..], cap);
      assert forall i :: 0 < i < |g| ==> g[i] == g[1..][i - 1];
    }
  }

  lemma {:induction false} FlatFits(gs: seq<seq<Weight>>, cap: nat)
    requires AllSmall(gs, cap)
    ensures AllFit(Flatten(gs), cap)
  {
    if gs != [] {
      PartsFit(gs[0], cap);
      FlatFits(gs[1..], cap);
      assert forall i :: |gs[0]| <= i < |Flatten(gs)| ==> Flatten(gs)[i] == Flatten(gs[1..])[i - |gs[0]|];
    }
  }

  /** No way to cut the list into consecutive groups that fit has fewer groups than the sender posts buckets. */
  lemma {:induction false} FewestBuckets(gs: seq<seq<Weight>>, cap: nat)
    requires gs != [] && AllSmall(gs, cap)
    ensures |SentGroups(Flatten(gs), cap)| <= |gs|
  {
    var g, more := gs[0], gs[1..];
    Absorbed(g, Flatten(more), [], 0, cap);
    if more != [] {
      FewestBuckets(more, cap);
      FlatFits(more, cap);
      OneMoreSuffices(Flatten(more), [] + g, SizeOf(g), [], 0, cap);
    }
  }

  /** And the sender posts one bucket for each of its groups. */
  lemma FewestPosted(ws: seq<Weight>, gs: seq<seq<Weight>>, cap: nat)
    requires AllValid(ws) && gs != [] && AllSmall(gs, cap) && Flatten(gs) == ws
    ensures Pack(ws, EMPTY, cap).1 && |Pack(ws, EMPTY, cap).0| <= |gs|
  {
    FewestBuckets(gs, cap);
    FlatFits(gs, cap);
    SentFacts(ws, cap);
  }

  // ---------- Where the list is cut ----------

  lemma {:induction false} SizeSnoc(g: seq<Weight>, w: Weight)
    ensures SizeOf(g + [w]) == SizeOf(g) + |w.data|
  {
    if g == [] {
      assert [w][1..] == [];
    } else {
      assert (g + [w])[1..] == g[1..] + [w];
      SizeSnoc(g[1..], w);
    }
  }

  /** The first group goes on from what is in the bucket. */
  lemma {:induction false} GoesOn(ws: seq<Weight>, cur: seq<Weight>, size: nat, cap: nat)
    ensures |Groups(ws, cur, size, cap)| > 0 && cur <= Groups(ws, cur, size, cap)[0]
    decreases |ws|
  {
    if ws != [] && size + |ws[0].data| <= cap { GoesOn(ws[1..], cur + [ws[0]], size + |ws[0].data|, cap); }
  }

  /** The group after the i-th starts with a weight that would not have fitted in that one. */
  ghost predicate CutAt(gs: seq<seq<Weight>>, i: nat, cap: nat)
    requires i + 1 < |gs|
  {
    gs[i + 1] != [] && SizeOf(gs[i]) + |gs[i + 1][0].data| > cap
  }

  /** Every group fits, and no cut could have come later. */
  ghost predicate CutLate(gs: seq<seq<Weight>>, cap: nat) {
    AllSmall(gs, cap) && forall i: nat :: i + 1 < |gs| ==> CutAt(gs, i, cap)
  }

  lemma CutLateCons(g: seq<Weight>, gs: seq<seq<Weight>>, cap: nat)
    requires CutLate(gs, cap) && SizeOf(g) <= cap && gs != [] && gs[0] != [] && SizeOf(g) + |gs[0][0].data| > cap
    ensures CutLate([g] + gs, cap)
  {
    var all: seq<seq<Weight>> := [g] + gs;
    forall i: nat | i + 1 < |all| ensures CutAt(all, i, cap) {
      if i > 0 { assert CutAt(gs, i - 1, cap); }
    }
  }

  lemma {:induction false} GroupsCutLate(ws: seq<Weight>, cur: seq<Weight>, cap: nat)
    requires AllFit(ws, cap) && SizeOf(cur) <= cap
    ensures CutLate(Groups(ws, cur, SizeOf(cur), cap), cap)
    decreases |ws|
  {
    if ws != [] {
      var w, rest := ws[0], ws[1..];
      TailFits(ws, cap);
      if SizeOf(cur) + |w.data| <= cap {
        SizeSnoc(cur, w);
        GroupsCutLate(rest, cur + [w], cap);
      } else {
        SizeSnoc([], w);
        assert [] + [w] == [w];
        GroupsCutLate(rest, [w], cap);
        GoesOn(rest, [w], |w.data|, cap);
        CutLateCons(cur, Groups(rest, [w], |w.data|, cap), cap);
      }
    }
  }

  /** The sender swaps buffers only where it must. */
  lemma SentCutLate(ws: seq<Weight>, cap: nat)
    requires AllFit(ws, cap)
    ensures CutLate(SentGroups(ws, cap), cap)
  {
    GroupsCutLate(ws, [], cap);
  }
}
