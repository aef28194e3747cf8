/** `layer_window_map`: at which group commit the i-th offload is waited for and the next one started. */
module WindowMap {
  import opened Arithmetic

  /** Closed form of the map for g offload groups and l layers. */
  function Window(g: nat, l: nat, i: nat): int
    requires g > 0
  {
    (l / g) * (i + 1) - 1 + Min(i + 1, l % g)
  }

  /** All windows, in order. */
  function WindowSeq(g: nat, l: nat): (ws: seq<int>)
    ensures |ws| == g && forall i :: 0 <= i < g ==> ws[i] == Window(g, l, i)
  {
    seq(g, i requires 0 <= i < g => Window(g, l, i))
  }

  /** The constructor's loop with its running constant. */
  method BuildWindowMap(g: nat, l: nat) returns (window: map<int, int>)
    ensures forall i :: i in window <==> 0 <= i < g
    ensures forall i :: 0 <= i < g ==> window[i] == Window(g, l, i)
  {
    window := map[];
    var constant := 0;
    for i := 0 to g
      invariant forall j :: j in window <==> 0 <= j < i
      invariant forall j :: 0 <= j < i ==> window[j] == Window(g, l, j)
      invariant g > 0 ==> constant == Min(i, l % g)
    {
      var w := (l / g) * (i + 1) - 1;
      if i < l % g {
        w := w + i + 1;
        constant := i + 1;
      } else {
        w := w + constant;
      }
      window := window[i := w];
    }
  }

  /** The layers from one window up to and with the next. */
  function Gap(g: nat, l: nat, i: nat): int
    requires g > 0
  {
    Window(g, l, i) - (if i == 0 then -1 else Window(g, l, i - 1))
  }

  /** The windows cut the layers as evenly as possible, longer stretches first: this balances the copies over the
      computation. */
  lemma WindowsEven(g: nat, l: nat, i: nat, j: nat)
    requires i <= j < g
    ensures Gap(g, l, j) <= Gap(g, l, i) <= Gap(g, l, j) + 1
    ensures Window(g, l, g - 1) == l - 1
  {
    GapIs(g, l, i);
    GapIs(g, l, j);
    assert (l / g) * (g - 1 + 1) == g * (l / g);
    assert l == g * (l / g) + l % g;
  }

  lemma GapIs(g: nat, l: nat, i: nat)
    requires i < g
    ensures Gap(g, l, i) == l / g + (if i < l % g then 1 else 0)
  {
    assert (l / g) * (i + 1) == (l / g) * i + l / g;
  }

  lemma ScaleUp(q: int, d: int)
    requires q >= 1 && d >= 0
    ensures q * d >= d
  {
  }

  /** With no more offload groups than layers the windows are strictly increasing, never before their own group,
      and the last one is the last layer. */
  lemma WindowShape(g: nat, l: nat)
    requires 1 <= g <= l
    ensures forall i, j :: 0 <= i < j < g ==> Window(g, l, i) < Window(g, l, j)
    ensures Window(g, l, g - 1) == l - 1
    ensures forall i :: 0 <= i < g ==> i <= Window(g, l, i) < l
  {
    var q, r := l / g, l % g;
    assert l == q * g + r && q >= 1 && r < g;
    forall i, j | 0 <= i < j < g ensures Window(g, l, i) < Window(g, l, j) { Rises(q, r, i, j); }
    assert q * (g - 1 + 1) == q * g;
    forall i | 0 <= i < g ensures i <= Window(g, l, i) < l {
      ScaleUp(q, i + 1);
      Rises(q, r, i, g - 1);
    }
  }

  lemma Rises(q: int, r: int, i: int, j: int)
    requires q >= 1 && r >= 0 && i <= j
    ensures q * (i + 1) - 1 + Min(i + 1, r) + (j - i) <= q * (j + 1) - 1 + Min(j + 1, r)
  {
    ScaleUp(q, j - i);
    Split(q, i + 1, j - i);
  }

  lemma Split(q: int, a: int, b: int)
    ensures q * (a + b) == q * a + q * b
  {
  }

  /** Every window lies after its own group exactly when some layer is not offloaded. This is what lets group i + 1
      be offloaded at window i only after it has been pushed. */
  lemma WindowAfterGroup(g: nat, l: nat)
    requires 1 <= g <= l
    ensures (forall i :: 0 <= i < g ==> Window(g, l, i) >= i + 1) <==> g < l
    ensures g == l ==> forall i :: 0 <= i < g ==> Window(g, l, i) == i
    ensures g == l - 1 ==> forall i :: 0 <= i < g ==> Window(g, l, i) == i + 1
  {
    var q, r := l / g, l % g;
    assert l == q * g + r && q >= 1;
    if g < l {
      forall i | 0 <= i < g ensures Window(g, l, i) >= i + 1 {
        if q >= 2 { TwiceUp(q, i + 1); } else { OneTimes(q, g, i + 1); assert r >= 1; }
      }
    } else {
      assert q == 1 && r == 0 by { QuotientOne(g); }
      assert Window(g, l, 0) == 0;
    }
    if g == l - 1 && g >= 2 {
      assert q == 1 && r == 1 by { QuotientNext(g); }
    }
    if g == l - 1 && g == 1 { assert q == 2 && r == 0; }
  }

  lemma OneTimes(q: int, g: int, d: int)
    requires q == 1
    ensures q * g == g && q * d == d
  {
  }

  lemma TwiceUp(q: int, d: int)
    requires q >= 2 && d >= 1
    ensures q * d >= 2 * d
  {
  }

  lemma QuotientOne(g: nat)
    requires g >= 1
    ensures g / g == 1 && g % g == 0
  {
  }

  lemma QuotientNext(g: nat)
    requires g >= 2
    ensures (g + 1) / g == 1 && (g + 1) % g == 1
  {
  }
}
