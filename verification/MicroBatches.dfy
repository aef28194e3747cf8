/** `rearrange_micro_batches` and `restore_dynamic_batch`: how many micro-batches, what each may weigh, in which
    order they run, and that the rows come back in their own order. */
module MicroBatches {
  import opened Wrappers
  import opened Arithmetic
  import opened Sums
  import opened KarmarkarKarp
  import opened Partitioning
  import opened Balancing

  // ---------- Integer helpers ----------

  /** Python's `//`, which floors. Dafny's `/` keeps the remainder non-negative instead. */
  function FloorDiv(a: int, b: int): int
    requires b != 0
  {
    if b > 0 then a / b else (-a) / (-b)
  }

  function CeilDiv(a: int, b: int): int
    requires b != 0
  {
    -FloorDiv(a, -b)
  }

  function RoundupDivisible(a: int, b: int): int
    requires b != 0
  {
    FloorDiv(a + b - 1, b) * b
  }

  /** The smallest number of batches of b that hold a. */
  lemma CeilDivLeast(a: int, b: int)
    requires b > 0
    ensures a <= CeilDiv(a, b) * b < a + b
    ensures forall q :: a <= q * b ==> CeilDiv(a, b) <= q
  {
    var c := CeilDiv(a, b);
    assert c == -((-a) / b);
    var q, r := (-a) / b, (-a) % b;
    assert -a == b * q + r && 0 <= r < b;
    assert c * b == -(b * q);
    forall q' | a <= q' * b ensures c <= q' { LessMultiple(b, c, q'); }
  }

  lemma LessMultiple(b: int, c: int, q: int)
    requires b > 0 && c * b < q * b + b
    ensures c <= q
  {
    ProductSign(c - q, b);
    assert (c - q) * b == c * b - q * b;
  }

  lemma ProductSign(d: int, b: int)
    requires b > 0
    ensures d >= 1 ==> d * b >= b
  {
  }

  /** The smallest multiple of b that is at least a. */
  lemma RoundupLeast(a: int, b: int)
    requires b > 0
    ensures a <= RoundupDivisible(a, b) < a + b
    ensures exists q :: RoundupDivisible(a, b) == q * b
    ensures forall q :: a <= q * b ==> RoundupDivisible(a, b) <= q * b
  {
    var c := (a + b - 1) / b;
    assert a + b - 1 == b * c + (a + b - 1) % b;
    assert RoundupDivisible(a, b) == c * b;
    forall q | a <= q * b ensures c * b <= q * b {
      LessMultiple(b, c, q);
      RaiseFactor(c, q, b);
    }
  }

  // ---------- calculate_workload ----------

  function Work(len: int): int { 24576 * len + len * len }

  function Workloads(lens: seq<int>): (r: seq<int>)
    ensures |r| == |lens|
  {
    seq(|lens|, i requires 0 <= i < |lens| => Work(lens[i]))
  }

  lemma WorkloadsNonNegative(lens: seq<int>)
    requires AllNonNegative(lens)
    ensures AllNonNegative(Workloads(lens))
  {
    forall i | 0 <= i < |lens| ensures Workloads(lens)[i] >= 0 { SquareNonNegative(lens[i]); }
  }

  lemma SquareNonNegative(x: int)
    ensures x * x >= 0
  {
  }

  // ---------- The number of micro-batches ----------

  /** The count before it is rounded up. */
  function Unrounded(lens: seq<int>, maxTokenLen: int, minCount: Option<int>, peers: seq<int>): int
    requires maxTokenLen != 0
  {
    var c0 := Min(|lens|, CeilDiv(Sum(lens), maxTokenLen));
    var c1 := if minCount.Some? then Max(minCount.value, c0) else c0;
    if peers == [] then c1 else Max(c1, MaxOf(peers))
  }

  /** Lines up to the closing assertion. `peers`: the counts of the other data-parallel ranks that take part in the
      all-reduce; none when there is no group or `same_micro_num_in_dp` is off. */
  function MicroBatchCount(lens: seq<int>, maxSeqLen: int, maxTokenLen: int, minCount: Option<int>,
                           peers: seq<int>, dividedBy: Option<nat>): Result<int, Error>
  {
    if maxTokenLen < maxSeqLen then Err(AssertionFailed)
    else if maxTokenLen == 0 then Err(DivisionByZero)
    else
      var c2 := Unrounded(lens, maxTokenLen, minCount, peers);
      if dividedBy == Some(0) then Err(DivisionByZero)
      else
        var c3 := if dividedBy.Some? then RoundupDivisible(c2, dividedBy.value) else c2;
        if c3 > |lens| then Err(AssertionFailed) else Ok(c3)
  }

  /** Capping the count at the batch size loses nothing, and every later step only raises it: the chosen number of
      micro-batches can always hold all tokens, whatever the other ranks ask for. */
  lemma CountSuffices(lens: seq<int>, maxSeqLen: int, maxTokenLen: int, minCount: Option<int>, peers: seq<int>,
                      dividedBy: Option<nat>)
    requires forall i :: 0 <= i < |lens| ==> 0 <= lens[i] <= maxSeqLen
    requires 0 <= maxSeqLen
    ensures var r := MicroBatchCount(lens, maxSeqLen, maxTokenLen, minCount, peers, dividedBy);
            r.Ok? ==> maxTokenLen > 0 && Sum(lens) <= r.value * maxTokenLen && r.value <= |lens|
  {
    var r := MicroBatchCount(lens, maxSeqLen, maxTokenLen, minCount, peers, dividedBy);
    if r.Ok? {
      var c := CeilDiv(Sum(lens), maxTokenLen);
      CeilDivLeast(Sum(lens), maxTokenLen);
      AllBelow(lens, maxTokenLen);
      assert c <= |lens|;
      if dividedBy.Some? {
        RoundupLeast(Unrounded(lens, maxTokenLen, minCount, peers), dividedBy.value);
      }
      assert c <= r.value;
      RaiseFactor(c, r.value, maxTokenLen);
    }
  }

  /** A number of micro-batches that the arguments ask for. */
  ghost predicate Suits(lens: seq<int>, maxTokenLen: int, minCount: Option<int>, peers: seq<int>,
                        dividedBy: Option<nat>, q: int)
  {
    && (q >= |lens| || Sum(lens) <= q * maxTokenLen)
    && (minCount.Some? ==> minCount.value <= q)
    && (forall j :: 0 <= j < |peers| ==> peers[j] <= q)
    && (dividedBy.Some? ==> exists x: int :: q == x * dividedBy.value)
  }

  /** Everything but divisibility is a lower bound, the one before rounding. */
  lemma SuitsFrom(lens: seq<int>, maxTokenLen: int, minCount: Option<int>, peers: seq<int>, q: int)
    requires maxTokenLen > 0
    ensures Suits(lens, maxTokenLen, minCount, peers, None, q) <==> Unrounded(lens, maxTokenLen, minCount, peers) <= q
  {
    var total := Sum(lens);
    var c := CeilDiv(total, maxTokenLen);
    CeilDivLeast(total, maxTokenLen);
    if c <= q { RaiseFactor(c, q, maxTokenLen); }
    assert total <= q * maxTokenLen <==> c <= q;
  }

  /** The chosen count is the least that suits: it fits the tokens or reaches the batch size, is no smaller than the
      minimum and the other ranks' counts, and is a multiple of the divisor. It is chosen exactly when the batch is
      large enough for it. */
  lemma CountIsLeast(lens: seq<int>, maxSeqLen: int, maxTokenLen: int, minCount: Option<int>, peers: seq<int>,
                     dividedBy: Option<nat>)
    requires maxSeqLen >= 0
    ensures var r := MicroBatchCount(lens, maxSeqLen, maxTokenLen, minCount, peers, dividedBy);
            && (r.Ok? <==> Callable(maxSeqLen, maxTokenLen, dividedBy) &&
                           exists q :: q <= |lens| && Suits(lens, maxTokenLen, minCount, peers, dividedBy, q))
            && (r.Ok? ==> Suits(lens, maxTokenLen, minCount, peers, dividedBy, r.value) && r.value <= |lens|)
            && (r.Ok? ==> forall q :: Suits(lens, maxTokenLen, minCount, peers, dividedBy, q) ==> r.value <= q)
            && (r == Err(DivisionByZero) <==>
                  maxSeqLen <= maxTokenLen && (maxTokenLen == 0 || dividedBy == Some(0)))
            && (r.Err? ==> r.error == DivisionByZero || r.error == AssertionFailed)
  {
    if Callable(maxSeqLen, maxTokenLen, dividedBy) {
      LeastCount(lens, maxSeqLen, maxTokenLen, minCount, peers, dividedBy);
    }
  }

  /** The arguments pass the first check and no division is by zero. */
  predicate Callable(maxSeqLen: int, maxTokenLen: int, dividedBy: Option<nat>) {
    maxSeqLen <= maxTokenLen && maxTokenLen > 0 && dividedBy != Some(0)
  }

  lemma LeastCount(lens: seq<int>, maxSeqLen: int, maxTokenLen: int, minCount: Option<int>, peers: seq<int>,
                   dividedBy: Option<nat>)
    requires Callable(maxSeqLen, maxTokenLen, dividedBy)
    ensures var r := MicroBatchCount(lens, maxSeqLen, maxTokenLen, minCount, peers, dividedBy);
            && (r.Ok? <==> exists q :: q <= |lens| && Suits(lens, maxTokenLen, minCount, peers, dividedBy, q))
            && (r.Ok? ==> Suits(lens, maxTokenLen, minCount, peers, dividedBy, r.value) && r.value <= |lens|)
            && (r.Ok? ==> forall q :: Suits(lens, maxTokenLen, minCount, peers, dividedBy, q) ==> r.value <= q)
            && (r.Err? ==> r.error == AssertionFailed)
  {
    var u := Unrounded(lens, maxTokenLen, minCount, peers);
    var c := if dividedBy.Some? then RoundupDivisible(u, dividedBy.value) else u;
    if dividedBy.Some? { RoundupLeast(u, dividedBy.value); }
    SuitsFrom(lens, maxTokenLen, minCount, peers, c);
    assert Suits(lens, maxTokenLen, minCount, peers, dividedBy, c);
    forall q | Suits(lens, maxTokenLen, minCount, peers, dividedBy, q) ensures c <= q {
      SuitsFrom(lens, maxTokenLen, minCount, peers, q);
      if dividedBy.Some? { var x :| q == x * dividedBy.value; }
    }
  }

  lemma RaiseFactor(x: int, y: int, m: int)
    requires x <= y && m >= 0
    ensures x * m <= y * m
  {
  }

  // ---------- What a micro-batch may hold ----------

  lemma {:induction false} TokensBelowWork(lens: seq<int>, idx: seq<nat>)
    requires AllNonNegative(lens)
    ensures 24576 * Load(lens, idx) <= Load(Workloads(lens), idx)
  {
    if idx != [] {
      TokensBelowWork(lens, idx[1..]);
      if idx[0] < |lens| { SquareNonNegative(lens[idx[0]]); }
    }
  }

  lemma WorkAtMost(len: int, top: int)
    requires 0 <= len <= top
    ensures Work(len) <= (24576 + top) * len <= (24576 + top) * top
  {
    RaiseFactor(len, top, len);
    RaiseFactor(len, top, 24576 + top);
    assert (24576 + top) * len == 24576 * len + top * len;
    assert len * (24576 + top) == (24576 + top) * len && top * (24576 + top) == (24576 + top) * top;
  }

  lemma {:induction false} TotalWorkAtMost(lens: seq<int>, top: int)
    requires forall i :: 0 <= i < |lens| ==> 0 <= lens[i] <= top
    ensures Sum(Workloads(lens)) <= (24576 + top) * Sum(lens)
  {
    if lens != [] {
      TotalWorkAtMost(lens[1..], top);
      assert Workloads(lens)[1..] == Workloads(lens[1..]);
      WorkAtMost(lens[0], top);
      Factored(24576 + top, lens[0], Sum(lens[1..]));
    }
  }

  lemma Factored(m: int, x: int, y: int)
    ensures m * (x + y) == m * x + m * y
  {
  }

  lemma HeaviestWork(lens: seq<int>, top: int)
    requires lens != [] && forall i :: 0 <= i < |lens| ==> 0 <= lens[i] <= top
    ensures MaxOf(Workloads(lens)) <= (24576 + top) * top
  {
    var x :| 0 <= x < |lens| && Workloads(lens)[x] == MaxOf(Workloads(lens));
    WorkAtMost(lens[x], top);
  }

  /** The token bound that holds: with M = max_token_len and k micro-batches, 24576 k T <= (2k-1)(24576+M) M. */
  lemma TokenBound(lens: seq<int>, maxTokenLen: int, k: nat, ps: seq<seq<nat>>, i: nat)
    requires lens != [] && maxTokenLen > 0 && k > 0 && i < k
    requires forall j :: 0 <= j < |lens| ==> 0 <= lens[j] <= maxTokenLen
    requires Sum(lens) <= k * maxTokenLen && Balanced(Workloads(lens), k, false, ps)
    ensures 24576 * k * Load(lens, ps[i]) <= (2 * k - 1) * ((24576 + maxTokenLen) * maxTokenLen)
  {
    var works, m, t := Workloads(lens), 24576 + maxTokenLen, Load(lens, ps[i]);
    WorkloadsNonNegative(lens);
    LoadBound(works, k, false, ps, i);
    TokensBelowWork(lens, ps[i]);
    TotalWorkAtMost(lens, maxTokenLen);
    HeaviestWork(lens, maxTokenLen);
    BoundChain(k, t, Load(works, ps[i]), Sum(works), MaxOf(works), Sum(lens), m, maxTokenLen);
  }

  lemma BoundChain(k: nat, t: int, w: int, total: int, heaviest: int, tokens: int, m: int, top: int)
    requires k > 0 && 24576 * t <= w && k * w <= total + (k - 1) * heaviest
    requires total <= m * tokens && tokens <= k * top && heaviest <= m * top && m > 0
    ensures 24576 * k * t <= (2 * k - 1) * (m * top)
  {
    RaiseFactor(24576 * t, w, k);
    assert 24576 * k * t == (24576 * t) * k && k * w == w * k;
    RaiseFactor(tokens, k * top, m);
    assert tokens * m == m * tokens && (k * top) * m == k * (m * top);
    RaiseFactor(heaviest, m * top, k - 1);
    assert (k - 1) * heaviest == heaviest * (k - 1) && (m * top) * (k - 1) == (k - 1) * (m * top);
    TwiceMinusOne(k, m * top);
  }

  /** `max_token_len` is not a cap on the micro-batches: three rows of 6 tokens with a limit of 9 give two
      micro-batches, and however three rows are put into two lists one list holds at least 12 tokens. */
  lemma LimitCanBeExceeded(ps: seq<seq<nat>>)
    requires |ps| == 2 && IsPartition(ps, 3)
    ensures MicroBatchCount([6, 6, 6], 6, 9, None, [], None) == Ok(2)
    ensures Load([6, 6, 6], ps[0]) >= 12 || Load([6, 6, 6], ps[1]) >= 12
  {
    var lens: seq<int> := [6, 6, 6];
    assert Sum(lens) == 18 by { assert lens[1..] == [6, 6] && lens[1..][1..] == [6] && lens[1..][1..][1..] == []; }
    assert CeilDiv(18, 9) == 2;
    PartitionTotal(lens, ps);
    var loads := Loads(lens, ps);
    assert loads == [loads[0], loads[1]] && loads[1..] == [loads[1]] && loads[1..][1..] == [];
    assert Load(lens, ps[0]) + Load(lens, ps[1]) == 18;
    SixesDivide(ps[0]);
  }

  lemma {:induction false} SixesDivide(idx: seq<nat>)
    ensures Load([6, 6, 6], idx) % 6 == 0
  {
    if idx != [] { SixesDivide(idx[1..]); }
  }
}
