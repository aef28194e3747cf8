/** How many layers each pipeline rank gets, and which numbered files each rank writes its share of the weights to. */
module PipelineSplit {
  import opened Wrappers
  import opened Arithmetic
  import opened Sums
  import Tensors

  datatype Error = TooFewLayers | BadPipelineSize | NoStrategy

  function Abs(x: int): int { if x >= 0 then x else -x }

  lemma Scaled(a: int, b: int, k: nat)
    ensures (a + b) * k == a * k + b * k
  {
  }

  lemma ScaledUp(a: int, b: int, k: nat)
    requires a <= b
    ensures a * k <= b * k
  {
    assert b * k == a * k + (b - a) * k;
  }

  // ---------- get_dynamic_pipeline_shards ----------

  /** [first] + [m] * (p - 2) + [last] */
  function Strategy(first: int, m: int, last: int, p: nat): (r: seq<int>)
    requires p >= 3
    ensures |r| == p
  {
    [first] + seq(p - 2, _ => m) + [last]
  }

  function FirstLayers(layers: int, p: int, m: int): int { (layers - m * (p - 2)) / 2 }

  function LastLayers(layers: int, p: int, m: int): int {
    layers - m * (p - 2) - (layers - m * (p - 2)) / 2
  }

  function StrategyOf(layers: int, p: nat, m: int): seq<int>
    requires p >= 3
  {
    Strategy(FirstLayers(layers, p, m), m, LastLayers(layers, p, m), p)
  }

  /** How far the first stage is from the middle ones. */
  function Unevenness(layers: int, p: int, m: int): int { Abs(FirstLayers(layers, p, m) - m) }

  /** Neither end stage is empty nor larger than the middle ones. */
  predicate Fits(layers: int, p: int, m: int) {
    0 < FirstLayers(layers, p, m) <= m && 0 < LastLayers(layers, p, m) <= m
  }

  lemma FitsExactly(layers: int, p: int, m: int)
    ensures Fits(layers, p, m) <==> m * (p - 2) + 2 <= layers <= m * p
  {
    assert m * p == m * (p - 2) + 2 * m;
  }

  /** m is the first of those that fit with the least difference. */
  ghost predicate BestOf(fits: int -> bool, diff: int -> int, m: int) {
    fits(m) && forall k :: fits(k) ==> diff(m) <= diff(k) && (k < m ==> diff(m) < diff(k))
  }

  function FitsIn(layers: int, p: int): int -> bool { m => Fits(layers, p, m) }

  function UnevennessIn(layers: int, p: int): int -> int { m => Unevenness(layers, p, m) }

  /** m is the first of the least uneven strategies among those that fit. */
  ghost predicate Best(layers: int, p: int, m: int) { BestOf(FitsIn(layers, p), UnevennessIn(layers, p), m) }

  /** What any result is: every stage positive, p stages, all layers placed. */
  predicate IsSharding(shards: seq<int>, layers: int, p: int) {
    |shards| == p && Sum(shards) == layers && forall i :: 0 <= i < |shards| ==> shards[i] > 0
  }

  /** Middle stages of one size, end stages no larger than those, and the odd layer, if there is one, at the last. */
  ghost predicate Framed(shards: seq<int>, layers: int, p: int) {
    && p >= 3 && IsSharding(shards, layers, p)
    && (forall i :: 0 < i < p - 1 ==> shards[i] == shards[1])
    && shards[0] <= shards[1] && shards[p - 1] <= shards[1] && 0 <= shards[p - 1] - shards[0] <= 1
  }

  ghost predicate Splits(layers: int, p: int) { exists shards :: Framed(shards, layers, p) }

  /** No framed sharding has a first stage closer to its middle ones and, of those as close, none has smaller ones. */
  ghost predicate MostUniform(shards: seq<int>, layers: int, p: int) {
    && Framed(shards, layers, p)
    && forall other :: Framed(other, layers, p) ==>
         var d, e := shards[1] - shards[0], other[1] - other[0];
         d <= e && (other[1] < shards[1] ==> d < e)
  }

  /** The strategies that fit are exactly the framed shardings. */
  lemma FramedExactly(shards: seq<int>, layers: int, p: nat)
    requires p >= 3 && |shards| == p
    ensures Framed(shards, layers, p) <==>
              Fits(layers, p, shards[1]) && shards == StrategyOf(layers, p, shards[1])
  {
    var m := shards[1];
    if Framed(shards, layers, p) {
      assert shards == Strategy(shards[0], m, shards[p - 1], p);
      StrategySum(shards[0], m, shards[p - 1], p);
    }
    if Fits(layers, p, m) && shards == StrategyOf(layers, p, m) { StrategyPlacesAll(layers, p, m); }
  }

  lemma FitsFramed(layers: int, p: nat, m: int)
    requires p >= 3 && Fits(layers, p, m)
    ensures var s := StrategyOf(layers, p, m);
            Framed(s, layers, p) && s[1] == m && s[1] - s[0] == Unevenness(layers, p, m)
  {
    FramedExactly(StrategyOf(layers, p, m), layers, p);
  }

  lemma SplitsFits(layers: int, p: nat)
    requires p >= 3
    ensures Splits(layers, p) <==> exists m :: Fits(layers, p, m)
  {
    if shards :| Framed(shards, layers, p) { FramedExactly(shards, layers, p); }
    if m :| Fits(layers, p, m) { FitsFramed(layers, p, m); }
  }

  lemma BestIsMostUniform(layers: int, p: nat, m: int)
    requires p >= 3 && Best(layers, p, m)
    ensures MostUniform(StrategyOf(layers, p, m), layers, p)
  {
    var s, fits, diff := StrategyOf(layers, p, m), FitsIn(layers, p), UnevennessIn(layers, p);
    assert fits(m);
    FitsFramed(layers, p, m);
    forall other | Framed(other, layers, p)
      ensures s[1] - s[0] <= other[1] - other[0] && (other[1] < s[1] ==> s[1] - s[0] < other[1] - other[0])
    {
      var k := other[1];
      FramedExactly(other, layers, p);
      FitsFramed(layers, p, k);
      assert fits(k) && diff(m) <= diff(k) && (k < m ==> diff(m) < diff(k));
    }
  }

  lemma {:induction false} SumSame(n: nat, m: int)
    ensures Sum(seq(n, _ => m)) == n * m
  {
    if n > 0 {
      SumSame(n - 1, m);
      assert seq(n, _ => m) == [m] + seq(n - 1, _ => m);
      assert (n - 1) * m == n * m - m;
    }
  }

  lemma StrategyPlacesAll(layers: int, p: nat, m: int)
    requires p >= 3 && Fits(layers, p, m)
    ensures IsSharding(StrategyOf(layers, p, m), layers, p)
  {
    StrategySum(FirstLayers(layers, p, m), m, LastLayers(layers, p, m), p);
  }

  lemma StrategySum(first: int, m: int, last: int, p: nat)
    requires p >= 3
    ensures Sum(Strategy(first, m, last, p)) == first + m * (p - 2) + last
  {
    var middle := seq(p - 2, _ => m);
    SumSame(p - 2, m);
    SumAppend([first] + middle, [last]);
    SumAppend([first], middle);
    assert Sum([first]) == first && Sum([last]) == last;
  }

  /** A strategy with its middle size, as the loop collects them. */
  datatype Candidate = Candidate(m: int, shards: seq<int>, diff: int)

  predicate Collected(cs: seq<Candidate>, layers: int, p: nat, upTo: int)
    requires p >= 3
  {
    (forall i :: 0 <= i < |cs| ==> Fits(layers, p, cs[i].m) && cs[i].m < upTo &&
                                   cs[i].shards == StrategyOf(layers, p, cs[i].m) &&
                                   cs[i].diff == Unevenness(layers, p, cs[i].m)) &&
    forall i, j :: 0 <= i < j < |cs| ==> cs[i].m < cs[j].m
  }

  function Middles(cs: seq<Candidate>): (r: seq<int>)
    ensures |r| == |cs|
  {
    seq(|cs|, i requires 0 <= i < |cs| => cs[i].m)
  }

  ghost predicate AllCollected(cs: seq<Candidate>, layers: int, p: int, upTo: int) {
    forall m :: Fits(layers, p, m) && m < upTo ==> m in Middles(cs)
  }

  /** `sorted(cs, key=diff)[0]`: the first of the least, the sort being stable. */
  function LeastFirst(cs: seq<Candidate>): (r: nat)
    requires cs != []
    ensures r < |cs| && forall i :: 0 <= i < |cs| ==> cs[r].diff <= cs[i].diff
    ensures forall i :: 0 <= i < r ==> cs[r].diff < cs[i].diff
  {
    var n := |cs| - 1;
    if n == 0 then 0
    else
      var r := LeastFirst(cs[..n]);
      if cs[n].diff < cs[r].diff then n else r
  }

  method GetDynamicPipelineShards(layers: int, p: int) returns (r: Result<seq<int>, Error>)
    ensures r == Err(TooFewLayers) <==> layers < p
    ensures r == Err(BadPipelineSize) <==> p <= layers && p < 1
    ensures r == Err(NoStrategy) <==> 3 <= p <= layers && !Splits(layers, p)
    ensures r.Ok? ==> IsSharding(r.value, layers, p)
    ensures r.Ok? && p == 2 ==> 0 <= r.value[1] - r.value[0] <= 1
    ensures r.Ok? && p >= 3 ==> MostUniform(r.value, layers, p)
  {
    if layers < p { return Err(TooFewLayers); }
    if p < 1 { return Err(BadPipelineSize); }
    if p == 1 { return Ok([layers]); }
    if p == 2 {
      SumAppend([layers / 2], [layers - layers / 2]);
      return Ok([layers / 2] + [layers - layers / 2]);
    }
    r := ThreeOrMore(layers, p);
  }

  method ThreeOrMore(layers: nat, p: nat) returns (r: Result<seq<int>, Error>)
    requires 3 <= p <= layers
    ensures r.Ok? || r == Err(NoStrategy)
    ensures r.Err? <==> !Splits(layers, p)
    ensures r.Ok? ==> MostUniform(r.value, layers, p)
  {
    var strategies := Strategies(layers, p);
    SplitsFits(layers, p);
    if strategies == [] { return Err(NoStrategy); }
    var i := LeastFirst(strategies);
    BestFound(strategies, layers, p, i);
    BestIsMostUniform(layers, p, strategies[i].m);
    return Ok(strategies[i].shards);
  }

  /** The loop's body: the strategy with this middle size, if it fits. */
  method Middle(layers: int, p: nat, m: nat) returns (more: seq<Candidate>)
    requires p >= 3
    ensures more == if Fits(layers, p, m) then [Candidate(m, StrategyOf(layers, p, m), Unevenness(layers, p, m))] else []
  {
    var middleSize := p - 2;
    var firstLast := layers - m * middleSize;
    var first := firstLast / 2;
    var last := firstLast - firstLast / 2;
    if 0 < first <= m && 0 < last <= m {
      more := [Candidate(m, Strategy(first, m, last, p), Abs(first - m))];
    } else {
      more := [];
    }
  }

  lemma Considered(cs: seq<Candidate>, more: seq<Candidate>, layers: int, p: nat, m: nat)
    requires p >= 3 && Collected(cs, layers, p, m) && AllCollected(cs, layers, p, m)
    requires more == if Fits(layers, p, m) then [Candidate(m, StrategyOf(layers, p, m), Unevenness(layers, p, m))] else []
    ensures Collected(cs + more, layers, p, m + 1) && AllCollected(cs + more, layers, p, m + 1)
  {
    if Fits(layers, p, m) {
      OneMoreCollected(cs, layers, p, m);
    } else {
      NoneCollected(cs, layers, p, m);
      assert cs + more == cs;
    }
  }

  /** The loop over the middle size. */
  method Strategies(layers: nat, p: nat) returns (cs: seq<Candidate>)
    requires 3 <= p <= layers
    ensures Collected(cs, layers, p, layers)
    ensures forall m :: Fits(layers, p, m) ==> m in Middles(cs)
  {
    cs := [];
    NoneBelowZero(layers, p);
    for m := 0 to layers
      invariant Collected(cs, layers, p, m) && AllCollected(cs, layers, p, m)
    {
      var more := Middle(layers, p, m);
      Considered(cs, more, layers, p, m);
      cs := cs + more;
    }
    NoneFromLayers(layers, p);
  }

  lemma NoneBelowZero(layers: int, p: int)
    ensures AllCollected([], layers, p, 0)
  {
  }

  lemma OneMoreCollected(cs: seq<Candidate>, layers: int, p: nat, m: nat)
    requires p >= 3 && Collected(cs, layers, p, m) && AllCollected(cs, layers, p, m) && Fits(layers, p, m)
    ensures var c := Candidate(m, StrategyOf(layers, p, m), Unevenness(layers, p, m));
            Collected(cs + [c], layers, p, m + 1) && AllCollected(cs + [c], layers, p, m + 1)
  {
    var c := Candidate(m, StrategyOf(layers, p, m), Unevenness(layers, p, m));
    assert Middles(cs + [c]) == Middles(cs) + [m];
  }

  lemma NoneCollected(cs: seq<Candidate>, layers: int, p: nat, m: nat)
    requires p >= 3 && Collected(cs, layers, p, m) && AllCollected(cs, layers, p, m) && !Fits(layers, p, m)
    ensures Collected(cs, layers, p, m + 1) && AllCollected(cs, layers, p, m + 1)
  {
  }

  lemma NoneFromLayers(layers: nat, p: nat)
    requires p >= 3
    ensures forall m :: Fits(layers, p, m) ==> m < layers
  {
    forall m | Fits(layers, p, m) ensures m < layers {
      FitsExactly(layers, p, m);
      OnlyZeroBetween(p - 2, m);
      assert m * (p - 2) == (p - 2) * m;
    }
  }

  /** Among candidates that cover everything that fits, in rising order, the first of the least is the best. */
  lemma LeastIsBest(ms: seq<int>, fits: int -> bool, diff: int -> int, i: nat)
    requires i < |ms| && forall j :: 0 <= j < |ms| ==> fits(ms[j])
    requires forall m :: fits(m) ==> m in ms
    requires forall j, k :: 0 <= j < k < |ms| ==> ms[j] < ms[k]
    requires forall j :: 0 <= j < |ms| ==> diff(ms[i]) <= diff(ms[j]) && (j < i ==> diff(ms[i]) < diff(ms[j]))
    ensures BestOf(fits, diff, ms[i])
  {
    forall m | fits(m) ensures diff(ms[i]) <= diff(m) && (m < ms[i] ==> diff(ms[i]) < diff(m)) {
      var j :| 0 <= j < |ms| && ms[j] == m;
      assert i < j ==> ms[i] < ms[j];
    }
  }

  lemma CoversFits(cs: seq<Candidate>, layers: nat, p: nat)
    requires p >= 3 && Collected(cs, layers, p, layers) && forall m :: Fits(layers, p, m) ==> m in Middles(cs)
    ensures var ms, fits := Middles(cs), FitsIn(layers, p);
            (forall j :: 0 <= j < |ms| ==> fits(ms[j])) && (forall m :: fits(m) ==> m in ms) &&
            forall j, k :: 0 <= j < k < |ms| ==> ms[j] < ms[k]
  {
  }

  lemma LeastDiff(cs: seq<Candidate>, layers: nat, p: nat, i: nat)
    requires p >= 3 && Collected(cs, layers, p, layers) && i < |cs| && i == LeastFirst(cs)
    ensures var ms, diff := Middles(cs), UnevennessIn(layers, p);
            forall j :: 0 <= j < |ms| ==> diff(ms[i]) <= diff(ms[j]) && (j < i ==> diff(ms[i]) < diff(ms[j]))
  {
    var ms, diff := Middles(cs), UnevennessIn(layers, p);
    forall j | 0 <= j < |ms| ensures diff(ms[j]) == cs[j].diff { }
  }

  lemma BestFound(cs: seq<Candidate>, layers: nat, p: nat, i: nat)
    requires p >= 3 && Collected(cs, layers, p, layers)
    requires forall m :: Fits(layers, p, m) ==> m in Middles(cs)
    requires i < |cs| && i == LeastFirst(cs)
    ensures Best(layers, p, cs[i].m)
  {
    CoversFits(cs, layers, p);
    LeastDiff(cs, layers, p, i);
    LeastIsBest(Middles(cs), FitsIn(layers, p), UnevennessIn(layers, p), i);
  }

  /** For three or more stages the search succeeds exactly when the layers fit the largest middle size that leaves two
      layers for the ends. */
  lemma SplitsExactly(layers: int, p: int)
    requires 3 <= p <= layers
    ensures Splits(layers, p) <==> layers <= ((layers - 2) / (p - 2)) * p
  {
    SplitsFits(layers, p);
    var top := (layers - 2) / (p - 2);
    assert top * (p - 2) <= layers - 2 < top * (p - 2) + (p - 2);
    FitsExactly(layers, p, top);
    if layers <= top * p { assert Fits(layers, p, top); }
    forall m | Fits(layers, p, m) ensures layers <= top * p {
      FitsExactly(layers, p, m);
      NoLargerFits(layers, p, m, top);
    }
  }

  lemma NoLargerFits(layers: int, p: int, m: int, top: int)
    requires p >= 3 && m * (p - 2) + 2 <= layers <= m * p
    requires layers - 2 < top * (p - 2) + (p - 2)
    ensures layers <= top * p
  {
    OnlyZeroBetween(m - top, p - 2);
    assert m * (p - 2) == top * (p - 2) + (m - top) * (p - 2);
    ScaledUp(m, top, p);
  }

  lemma QuotientAtLeast(x: int, d: int, q: int)
    requires d > 0 && x >= q * d
    ensures x / d >= q && (x / d) * d <= x < (x / d) * d + d
  {
    OnlyZeroBetween(x / d - q, d);
    assert (x / d - q) * d == (x / d) * d - q * d;
  }

  lemma HoldsAll(layers: int, p: int, top: int)
    requires p >= 3 && layers - 2 < top * (p - 2) + (p - 2) && top >= p / 2
    ensures layers <= top * p
  {
    assert top * p == top * (p - 2) + 2 * top;
  }

  /** Enough layers always split: ceil((p - 1) / 2) * (p - 2) + 2 of them are enough. */
  lemma EnoughLayers(layers: int, p: int)
    requires 3 <= p <= layers && layers >= (p / 2) * (p - 2) + 2
    ensures Splits(layers, p)
  {
    QuotientAtLeast(layers - 2, p - 2, p / 2);
    HoldsAll(layers, p, (layers - 2) / (p - 2));
    SplitsExactly(layers, p);
  }

  /** One layer fewer can fail: five layers do not split over four stages. */
  lemma FiveOverFour()
    ensures !Splits(5, 4)
  {
    SplitsExactly(5, 4);
  }

  // ---------- save_hf_model_and_tokenizer ----------

  predicate AllPositive(shards: seq<int>) { forall i :: 0 <= i < |shards| ==> shards[i] > 0 }

  /** The running sum of layers before a rank. */
  function Start(shards: seq<int>, rank: nat): int
    requires rank <= |shards|
  {
    Sum(shards[..rank])
  }

  function SavesPerLayer(layers: int): nat { if layers < 30 then 1 else 2 }

  /** The number in the name of the i-th file of a rank. */
  function FileNumber(shards: seq<int>, perLayer: nat, rank: nat, i: nat): int
    requires rank < |shards|
  {
    Start(shards, rank) * perLayer + i + 1
  }

  lemma StartStep(shards: seq<int>, rank: nat)
    requires rank < |shards|
    ensures Start(shards, rank + 1) == Start(shards, rank) + shards[rank]
  {
    assert shards[..rank + 1] == shards[..rank] + [shards[rank]];
    SumAppend(shards[..rank], [shards[rank]]);
    assert Sum([shards[rank]]) == shards[rank];
  }

  lemma {:induction false} StartRises(shards: seq<int>, q: nat, r: nat)
    requires AllPositive(shards) && q <= r <= |shards|
    ensures 0 <= Start(shards, q) <= Start(shards, r)
  {
    if q < r {
      StartRises(shards, q, r - 1);
      StartStep(shards, r - 1);
    } else if q > 0 {
      StartRises(shards, 0, q - 1);
      StartStep(shards, q - 1);
    }
  }

  /** Every file number is between 1 and the total. */
  lemma FileInRange(shards: seq<int>, perLayer: nat, rank: nat, i: nat)
    requires AllPositive(shards) && rank < |shards| && i < shards[rank] * perLayer
    ensures 1 <= FileNumber(shards, perLayer, rank, i) <= Sum(shards) * perLayer
    ensures FileNumber(shards, perLayer, rank, i) <= Start(shards, rank + 1) * perLayer
  {
    StartRises(shards, 0, rank);
    StartStep(shards, rank);
    StartRises(shards, rank + 1, |shards|);
    assert shards[..|shards|] == shards;
    Scaled(Start(shards, rank), shards[rank], perLayer);
    ScaledUp(0, Start(shards, rank), perLayer);
    ScaledUp(Start(shards, rank + 1), Sum(shards), perLayer);
  }

  /** Files are numbered in the order of the ranks, and of the parts of one rank. So no two ranks write a file of the same
      number, nor one rank twice. */
  lemma FilesApart(shards: seq<int>, perLayer: nat, q: nat, i: nat, r: nat, j: nat)
    requires AllPositive(shards) && q <= r < |shards| && i < shards[q] * perLayer && j < shards[r] * perLayer
    ensures FileNumber(shards, perLayer, q, i) < FileNumber(shards, perLayer, r, j) <==> q < r || i < j
    ensures FileNumber(shards, perLayer, q, i) == FileNumber(shards, perLayer, r, j) <==> q == r && i == j
  {
    if q < r {
      FileInRange(shards, perLayer, q, i);
      StartRises(shards, q + 1, r);
      ScaledUp(Start(shards, q + 1), Start(shards, r), perLayer);
    }
  }

  /** Every number from 1 to the total is written by some rank. */
  lemma {:induction false} FilesCover(shards: seq<int>, perLayer: nat, n: nat, f: int) returns (rank: nat, i: nat)
    requires AllPositive(shards) && n <= |shards| && 1 <= f <= Start(shards, n) * perLayer
    ensures rank < n && i < shards[rank] * perLayer && FileNumber(shards, perLayer, rank, i) == f
    decreases n
  {
    assert Start(shards, 0) == 0;
    rank, i := 0, 0;
    if n > 0 {
      StartStep(shards, n - 1);
      Scaled(Start(shards, n - 1), shards[n - 1], perLayer);
      if f > Start(shards, n - 1) * perLayer {
        rank, i := n - 1, f - 1 - Start(shards, n - 1) * perLayer;
      } else {
        rank, i := FilesCover(shards, perLayer, n - 1, f);
      }
    }
  }

  /** The ranks' files tile 1 to the total, for any sharding of the layers. */
  lemma FilesTile(shards: seq<int>, layers: int, p: int, f: int) returns (rank: nat, i: nat)
    requires IsSharding(shards, layers, p) && 1 <= f <= SavesPerLayer(layers) * layers
    ensures rank < |shards| && i < shards[rank] * SavesPerLayer(layers)
    ensures FileNumber(shards, SavesPerLayer(layers), rank, i) == f
    ensures forall r: nat, j: nat ::
              (r < |shards| && j < shards[r] * SavesPerLayer(layers) &&
               FileNumber(shards, SavesPerLayer(layers), r, j) == f) ==> r == rank && j == i
  {
    var perLayer := SavesPerLayer(layers);
    assert shards[..|shards|] == shards;
    rank, i := FilesCover(shards, perLayer, |shards|, f);
    forall r: nat, j: nat | r < |shards| && j < shards[r] * perLayer && FileNumber(shards, perLayer, r, j) == f
      ensures r == rank && j == i
    {
      if r <= rank { FilesApart(shards, perLayer, r, j, rank, i); } else { FilesApart(shards, perLayer, rank, i, r, j); }
    }
  }

  /** Where `np.array_split(keys, n)` starts its i-th part. */
  function PartStart(size: nat, n: nat, i: nat): (r: nat)
    requires n > 0 && i <= n
    ensures r <= size && (i == 0 ==> r == 0) && (i == n ==> r == size)
  {
    if i < n then Tensors.ChunkStartBounds(size, n, i); Tensors.ChunkStart(size, n, i)
    else size
  }

  lemma PartStep(size: nat, n: nat, i: nat)
    requires i < n
    ensures PartStart(size, n, i) <= PartStart(size, n, i + 1)
  {
    Tensors.ChunkStartBounds(size, n, i);
  }

  /** The parts are as even as possible, longer ones first. */
  lemma PartsEven(size: nat, n: nat, i: nat, j: nat)
    requires i <= j < n
    ensures var a, b := PartStart(size, n, i + 1) - PartStart(size, n, i), PartStart(size, n, j + 1) - PartStart(size, n, j);
            0 <= b <= a <= b + 1
    ensures PartStart(size, n, 0) == 0 && PartStart(size, n, n) == size
  {
    PartSize(size, n, i);
    PartSize(size, n, j);
  }

  lemma PartSize(size: nat, n: nat, i: nat)
    requires i < n
    ensures PartStart(size, n, i + 1) - PartStart(size, n, i) == size / n + (if i < size % n then 1 else 0)
    ensures size / n >= 0
  {
    Tensors.ChunkStartBounds(size, n, i);
    if i + 1 == n { LastStart(size, n); }
  }

  lemma LastStart(size: nat, n: nat)
    requires n > 0
    ensures Tensors.ChunkStart(size, n, n) == size
  {
    assert size == n * (size / n) + size % n;
  }

  /** Position j of the keys lies in part c. */
  predicate InPart(size: nat, n: nat, j: nat, c: int)
    requires n > 0
  {
    0 <= c < n && PartStart(size, n, c) <= j < PartStart(size, n, c + 1)
  }

  predicate Known<K>(keys: seq<K>, numelOf: map<K, nat>) {
    forall j :: 0 <= j < |keys| ==> keys[j] in numelOf
  }

  /** The sizes of the first m keys together. */
  function Numel<K>(keys: seq<K>, numelOf: map<K, nat>, m: nat): nat
    requires Known(keys, numelOf) && m <= |keys|
  {
    if m == 0 then 0 else Numel(keys, numelOf, m - 1) + numelOf[keys[m - 1]]
  }

  predicate Distinct<K(==)>(keys: seq<K>) { forall i, j :: 0 <= i < j < |keys| ==> keys[i] != keys[j] }

  /** The part that position j lies in, looked for from part c downwards. */
  function PartOf(size: nat, n: nat, j: nat, c: nat): (r: nat)
    requires c < n && j < PartStart(size, n, c + 1)
    ensures InPart(size, n, j, r)
  {
    if PartStart(size, n, c) <= j then c else PartOf(size, n, j, c - 1)
  }

  lemma {:induction false} PartsRise(size: nat, n: nat, a: nat, b: nat)
    requires n > 0 && a <= b <= n
    ensures PartStart(size, n, a) <= PartStart(size, n, b)
  {
    if a < b {
      PartsRise(size, n, a, b - 1);
      PartStep(size, n, b - 1);
    }
  }

  lemma PartUnique(size: nat, n: nat, j: nat, a: nat, b: nat)
    requires n > 0 && InPart(size, n, j, a) && InPart(size, n, j, b)
    ensures a == b
  {
    if a < b { PartsRise(size, n, a + 1, b); }
    if b < a { PartsRise(size, n, b + 1, a); }
  }

  /** The file number of every key. */
  function Files(size: nat, n: nat, first: int): (r: seq<int>)
    requires n > 0
    ensures |r| == size
  {
    seq(size, j requires 0 <= j < size => first + PartOf(size, n, j, n - 1))
  }

  function KeySet<K>(keys: seq<K>, m: nat): set<K>
    requires m <= |keys|
  {
    set j: nat | j < m :: keys[j]
  }

  /** The first m keys, and no others, are indexed under their files. */
  ghost predicate Indexed<K>(index: map<K, int>, keys: seq<K>, files: seq<int>, m: nat)
    requires m <= |keys| == |files|
  {
    index.Keys == KeySet(keys, m) &&
    forall j :: 0 <= j < m ==> keys[j] in index && index[keys[j]] == files[j]
  }

  /** After the first m keys: each is in the index once, and its size is in the total. */
  ghost predicate Saved<K>(index: map<K, int>, numel: nat, keys: seq<K>, numelOf: map<K, nat>,
                        files: seq<int>, m: nat)
    requires m <= |keys| == |files| && Known(keys, numelOf)
  {
    Indexed(index, keys, files, m) && numel == Numel(keys, numelOf, m)
  }

  /** One rank's saving loop: every weight is written to exactly one of the rank's files, recorded in its part of the
      index, and counted once in the total. */
  method SaveRank<K(==)>(keys: seq<K>, numelOf: map<K, nat>, shards: seq<int>, layers: nat, rank: nat)
    returns (index: map<K, int>, numel: nat)
    requires rank < |shards| && AllPositive(shards) && Distinct(keys) && Known(keys, numelOf)
    ensures shards[rank] * SavesPerLayer(layers) > 0
    ensures Saved(index, numel, keys, numelOf, Files(|keys|, shards[rank] * SavesPerLayer(layers),
                                                     FileNumber(shards, SavesPerLayer(layers), rank, 0)), |keys|)
  {
    var perLayer := SavesPerLayer(layers);
    var n := shards[rank] * perLayer;
    var layerStart := Start(shards, rank);
    index, numel := SaveParts(keys, numelOf, n, layerStart * perLayer);
  }

  method SaveParts<K(==)>(keys: seq<K>, numelOf: map<K, nat>, n: nat, firstIdx: int)
    returns (index: map<K, int>, numel: nat)
    requires n > 0 && Distinct(keys) && Known(keys, numelOf)
    ensures Saved(index, numel, keys, numelOf, Files(|keys|, n, firstIdx + 1), |keys|)
  {
    index, numel := map[], 0;
    ghost var files := Files(|keys|, n, firstIdx + 1);
    for i := 0 to n
      invariant Saved(index, numel, keys, numelOf, files, PartStart(|keys|, n, i))
    {
      index, numel := SaveNextPart(keys, numelOf, n, firstIdx, i, files, index, numel);
    }
  }

  /** The i-th part of the keys, saved under its own number. */
  method SaveNextPart<K(==)>(keys: seq<K>, numelOf: map<K, nat>, n: nat, firstIdx: int, i: nat, ghost files: seq<int>,
                             index0: map<K, int>, numel0: nat)
    returns (index: map<K, int>, numel: nat)
    requires i < n && Distinct(keys) && Known(keys, numelOf) && files == Files(|keys|, n, firstIdx + 1)
    requires Saved(index0, numel0, keys, numelOf, files, PartStart(|keys|, n, i))
    ensures Saved(index, numel, keys, numelOf, files, PartStart(|keys|, n, i + 1))
  {
    var lo, hi := PartStart(|keys|, n, i), PartStart(|keys|, n, i + 1);
    PartFiles(|keys|, n, firstIdx + 1, i);
    index, numel := SavePart(keys, numelOf, lo, hi, firstIdx + i, files, index0, numel0);
  }

  lemma PartFiles(size: nat, n: nat, first: int, i: nat)
    requires i < n
    ensures var lo, hi := PartStart(size, n, i), PartStart(size, n, i + 1);
            lo <= hi && forall j :: lo <= j < hi ==> Files(size, n, first)[j] == first + i
  {
    PartStep(size, n, i);
    forall j | PartStart(size, n, i) <= j < PartStart(size, n, i + 1) ensures Files(size, n, first)[j] == first + i {
      PartUnique(size, n, j, i, PartOf(size, n, j, n - 1));
    }
  }

  /** The loop over the keys of one part, from position lo to hi. */
  method SavePart<K(==)>(keys: seq<K>, numelOf: map<K, nat>, lo: nat, hi: nat, saveIdx: int,
                  ghost files: seq<int>, index0: map<K, int>, numel0: nat)
    returns (index: map<K, int>, numel: nat)
    requires Distinct(keys) && Known(keys, numelOf) && lo <= hi <= |keys| == |files|
    requires forall j :: lo <= j < hi ==> files[j] == saveIdx + 1
    requires Saved(index0, numel0, keys, numelOf, files, lo)
    ensures Saved(index, numel, keys, numelOf, files, hi)
  {
    index, numel := index0, numel0;
    for j := lo to hi
      invariant Saved(index, numel, keys, numelOf, files, j)
    {
      SavedOne(index, numel, keys, numelOf, files, j);
      index, numel := index[keys[j] := saveIdx + 1], numel + numelOf[keys[j]];
    }
  }

  lemma SavedOne<K>(index: map<K, int>, numel: nat, keys: seq<K>, numelOf: map<K, nat>, files: seq<int>,
                 j: nat)
    requires j < |keys| == |files| && Distinct(keys) && Known(keys, numelOf)
    requires Saved(index, numel, keys, numelOf, files, j)
    ensures Saved(index[keys[j] := files[j]], numel + numelOf[keys[j]], keys, numelOf, files, j + 1)
  {
    assert KeySet(keys, j + 1) == KeySet(keys, j) + {keys[j]};
  }
}
