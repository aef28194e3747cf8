/** Log-probabilities of response tokens, computed on the padded batch and on the batch with padding removed. The
    log-probability of a label under a row of logits is any function `logp`. Matrices are lists of rows. */
module PackedLogProbs {
  import opened Wrappers
  import opened Arithmetic

  datatype Error = ShapeMismatch

  predicate IsMatrix<T>(m: seq<seq<T>>, b: nat, s: nat) {
    |m| == b && forall i :: 0 <= i < b ==> |m[i]| == s
  }

  // ---------- Indices of a row-major matrix ----------

  lemma CellOf(i: nat, p: nat, b: nat, s: nat)
    requires i < b && p < s
    ensures i * s + p < b * s && (i * s + p) / s == i && (i * s + p) % s == p
  {
    BlockBelow(i, b, s, p);
    DivMod(i, s, p);
  }

  function Cell<T>(m: seq<seq<T>>, b: nat, s: nat, k: nat): T
    requires IsMatrix(m, b, s) && k < b * s
  {
    DivBelow(k, b, s);
    m[k / s][k % s]
  }

  /** `rearrange(m, "b s -> (b s)")` */
  function Flatten<T>(m: seq<seq<T>>, b: nat, s: nat): (r: seq<T>)
    requires IsMatrix(m, b, s)
    ensures |r| == b * s
  {
    seq(b * s, k requires 0 <= k < b * s => Cell(m, b, s, k))
  }

  function Row<T>(flat: seq<T>, b: nat, s: nat, i: nat): (r: seq<T>)
    requires |flat| == b * s && i < b
    ensures |r| == s
  {
    StepsBelow(i, b, s);
    flat[i * s..(i + 1) * s]
  }

  /** `rearrange(flat, "(b s) -> b s")` */
  function Rows<T>(flat: seq<T>, b: nat, s: nat): (r: seq<seq<T>>)
    requires |flat| == b * s
    ensures IsMatrix(r, b, s)
  {
    seq(b, i requires 0 <= i < b => Row(flat, b, s, i))
  }

  // ---------- unpad_input, pad_input ----------

  /** `torch.nonzero(mask)`: the indices of unmasked tokens, ascending. */
  function NonZero(mask: seq<int>): seq<nat> {
    if mask == [] then []
    else
      var rest := NonZero(mask[..|mask| - 1]);
      if mask[|mask| - 1] != 0 then rest + [|mask| - 1] else rest
  }

  predicate Increasing(s: seq<nat>, n: nat) {
    (forall i, j :: 0 <= i < j < |s| ==> s[i] < s[j]) && forall i :: 0 <= i < |s| ==> s[i] < n
  }

  predicate AllUnmasked(indices: seq<nat>, mask: seq<int>) {
    forall j :: 0 <= j < |indices| ==> indices[j] < |mask| && mask[indices[j]] != 0
  }

  lemma {:induction false} NonZeroIncreasing(mask: seq<int>)
    ensures Increasing(NonZero(mask), |mask|)
    ensures AllUnmasked(NonZero(mask), mask)
  {
    if mask != [] {
      var init := mask[..|mask| - 1];
      NonZeroIncreasing(init);
      OneMore(NonZero(init), |mask| - 1);
      assert AllUnmasked(NonZero(init), mask);
    }
  }

  lemma OneMore(s: seq<nat>, n: nat)
    requires Increasing(s, n)
    ensures Increasing(s + [n], n + 1) && Increasing(s, n + 1)
  {
  }

  lemma {:induction false} NonZeroComplete(mask: seq<int>, k: nat) returns (j: nat)
    requires k < |mask| && mask[k] != 0
    ensures j < |NonZero(mask)| && NonZero(mask)[j] == k
  {
    if k == |mask| - 1 {
      j := |NonZero(mask)| - 1;
    } else {
      j := NonZeroComplete(mask[..|mask| - 1], k);
    }
  }

  /** `IndexFirstAxis`: row gather. */
  function Gather<T>(xs: seq<T>, indices: seq<nat>): seq<T>
    requires forall j :: 0 <= j < |indices| ==> indices[j] < |xs|
  {
    seq(|indices|, j requires 0 <= j < |indices| => xs[indices[j]])
  }

  /** `IndexPutFirstAxis`: zeros with the values written at the indices. */
  function Put<T>(values: seq<T>, indices: seq<nat>, n: nat, zero: T): (r: seq<T>)
    requires |values| == |indices| && forall j :: 0 <= j < |indices| ==> indices[j] < n
    ensures |r| == n
  {
    if indices == [] then seq(n, _ => zero)
    else
      var j := |indices| - 1;
      Put(values[..j], indices[..j], n, zero)[indices[j] := values[j]]
  }

  method IndexPut<T(0)>(values: seq<T>, indices: seq<nat>, n: nat, zero: T) returns (output: array<T>)
    requires |values| == |indices| && forall j :: 0 <= j < |indices| ==> indices[j] < n
    ensures fresh(output) && output[..] == Put(values, indices, n, zero)
  {
    output := new T[n](_ => zero);
    for j := 0 to |indices|
      invariant output.Length == n && output[..] == Put(values[..j], indices[..j], n, zero)
    {
      ghost var before := output[..];
      output[indices[j]] := values[j];
      assert output[..] == before[indices[j] := values[j]];
      assert values[..j + 1][..j] == values[..j] && indices[..j + 1][..j] == indices[..j];
    }
    assert values[..|indices|] == values && indices[..|indices|] == indices;
  }

  /** Written at increasing indices, every value stays where it was put and the rest is zero. */
  lemma {:induction false} PutAt<T>(values: seq<T>, indices: seq<nat>, n: nat, zero: T)
    requires |values| == |indices| && Increasing(indices, n)
    ensures forall j :: 0 <= j < |indices| ==> Put(values, indices, n, zero)[indices[j]] == values[j]
    ensures forall k :: 0 <= k < n && k !in indices ==> Put(values, indices, n, zero)[k] == zero
  {
    if indices != [] {
      var j := |indices| - 1;
      PutAt(values[..j], indices[..j], n, zero);
      PutLast(values, indices, n, zero, Put(values[..j], indices[..j], n, zero));
    }
  }

  lemma PutLast<T>(values: seq<T>, indices: seq<nat>, n: nat, zero: T, y: seq<T>)
    requires |values| == |indices| > 0 && Increasing(indices, n) && |y| == n
    requires var j := |indices| - 1;
             && (forall i :: 0 <= i < j ==> y[indices[..j][i]] == values[..j][i])
             && (forall k :: 0 <= k < n && k !in indices[..j] ==> y[k] == zero)
    ensures var j := |indices| - 1;
            && (forall i :: 0 <= i <= j ==> y[indices[j] := values[j]][indices[i]] == values[i])
            && (forall k :: 0 <= k < n && k !in indices ==> y[indices[j] := values[j]][k] == zero)
  {
    var j := |indices| - 1;
    forall i | 0 <= i < j ensures y[indices[j] := values[j]][indices[i]] == values[i] {
      assert indices[..j][i] == indices[i] && values[..j][i] == values[i];
    }
    forall k | 0 <= k < n && k !in indices ensures y[indices[j] := values[j]][k] == zero {
      assert k !in indices[..j];
    }
  }

  function PadInput<T>(values: seq<T>, indices: seq<nat>, b: nat, s: nat, zero: T): seq<seq<T>>
    requires |values| == |indices| && forall j :: 0 <= j < |indices| ==> indices[j] < b * s
  {
    Rows(Put(values, indices, b * s, zero), b, s)
  }

  function Indices(mask: seq<seq<int>>, b: nat, s: nat): (r: seq<nat>)
    requires IsMatrix(mask, b, s)
    ensures Increasing(r, b * s)
  {
    NonZeroIncreasing(Flatten(mask, b, s));
    NonZero(Flatten(mask, b, s))
  }

  function UnpadInput<T>(x: seq<seq<T>>, mask: seq<seq<int>>, b: nat, s: nat): (r: seq<T>)
    requires IsMatrix(x, b, s) && IsMatrix(mask, b, s)
    ensures |r| == |Indices(mask, b, s)|
  {
    Gather(Flatten(x, b, s), Indices(mask, b, s))
  }

  /** What a per-token result of the packed batch looks like once padded again: the j-th result at the place of the
      j-th unmasked token, zero where the mask is. */
  lemma PadInputAt<T>(values: seq<T>, mask: seq<seq<int>>, b: nat, s: nat, zero: T, i: nat, p: nat)
    requires IsMatrix(mask, b, s) && |values| == |Indices(mask, b, s)| && i < b && p < s
    ensures var y := PadInput(values, Indices(mask, b, s), b, s, zero)[i][p];
            (mask[i][p] == 0 ==> y == zero) &&
            forall j :: 0 <= j < |values| && Indices(mask, b, s)[j] == i * s + p ==> y == values[j]
  {
    var indices, flat := Indices(mask, b, s), Flatten(mask, b, s);
    var k := i * s + p;
    CellOf(i, p, b, s);
    StepsBelow(i, b, s);
    PutAt(values, indices, b * s, zero);
    assert PadInput(values, indices, b, s, zero)[i][p] == Put(values, indices, b * s, zero)[k];
    assert flat[k] == mask[i][p];
    NonZeroIncreasing(flat);
  }

  /** Unpadding then padding keeps every unmasked entry and zeroes the others; padding then unpadding keeps every
      packed entry. */
  lemma UnpadPad<T>(x: seq<seq<T>>, mask: seq<seq<int>>, b: nat, s: nat, zero: T, i: nat, p: nat)
    requires IsMatrix(x, b, s) && IsMatrix(mask, b, s) && i < b && p < s
    ensures PadInput(UnpadInput(x, mask, b, s), Indices(mask, b, s), b, s, zero)[i][p]
            == if mask[i][p] != 0 then x[i][p] else zero
  {
    PadInputAt(UnpadInput(x, mask, b, s), mask, b, s, zero, i, p);
    CellOf(i, p, b, s);
    if mask[i][p] != 0 {
      assert Flatten(mask, b, s)[i * s + p] == mask[i][p];
      var j := NonZeroComplete(Flatten(mask, b, s), i * s + p);
    }
  }

  lemma PadUnpad<T>(values: seq<T>, mask: seq<seq<int>>, b: nat, s: nat, zero: T)
    requires IsMatrix(mask, b, s) && |values| == |Indices(mask, b, s)|
    ensures UnpadInput(PadInput(values, Indices(mask, b, s), b, s, zero), mask, b, s) == values
  {
    var indices := Indices(mask, b, s);
    var y := PadInput(values, indices, b, s, zero);
    forall j | 0 <= j < |values| ensures UnpadInput(y, mask, b, s)[j] == values[j] {
      var k := indices[j];
      DivBelow(k, b, s);
      PadInputAt(values, mask, b, s, zero, k / s, k % s);
    }
  }

  // ---------- The log-probabilities ----------

  /** Python's resolution of a slice bound. */
  function Bound(i: int, n: nat): (r: nat)
    ensures r <= n
  {
    if i < 0 then (if i + n < 0 then 0 else i + n) else if i < n then i else n
  }

  function PySlice<T>(s: seq<T>, lo: int, hi: int): seq<T> {
    if Bound(lo, |s|) <= Bound(hi, |s|) then s[Bound(lo, |s|)..Bound(hi, |s|)] else []
  }

  function LogProbs<V>(logp: (V, int) -> real, logits: seq<V>, labels: seq<int>): seq<real>
    requires |logits| == |labels|
  {
    seq(|logits|, j requires 0 <= j < |logits| => logp(logits[j], labels[j]))
  }

  function ResponseLogits<V>(logits: seq<V>, response: nat): seq<V> { PySlice(logits, -(response as int) - 1, -1) }

  function ResponseIds(ids: seq<int>, response: nat): seq<int> { PySlice(ids, -(response as int), |ids|) }

  /** `log_probs_from_logits_response` */
  function PaddedLogProbs<V>(logp: (V, int) -> real, ids: seq<seq<int>>, logits: seq<seq<V>>, response: nat,
                             b: nat, s: nat): Result<seq<seq<real>>, Error>
    requires b >= 1 && IsMatrix(ids, b, s) && IsMatrix(logits, b, s)
  {
    if exists i :: 0 <= i < b && |ResponseLogits(logits[i], response)| != |ResponseIds(ids[i], response)|
    then Err(ShapeMismatch)
    else Ok(seq(b, i requires 0 <= i < b =>
                     LogProbs(logp, ResponseLogits(logits[i], response), ResponseIds(ids[i], response))))
  }

  /** `torch.roll(x, shifts=-1)` */
  function Roll<T>(x: seq<T>): (r: seq<T>)
    ensures |r| == |x|
  {
    if x == [] then [] else x[1..] + [x[0]]
  }

  /** `log_probs_from_logits_all_rmpad`: everything already packed. */
  function AllPackedLogProbs<V>(logp: (V, int) -> real, packedIds: seq<int>, packedLogits: seq<V>, indices: seq<nat>,
                                response: nat, b: nat, s: nat): seq<seq<real>>
    requires |packedIds| == |packedLogits| == |indices| && forall j :: 0 <= j < |indices| ==> indices[j] < b * s
  {
    var full := PadInput(LogProbs(logp, packedLogits, Roll(packedIds)), indices, b, s, 0.0);
    seq(b, i requires 0 <= i < b => PySlice(full[i], -(response as int) - 1, -1))
  }

  /** `log_probs_from_logits_response_rmpad` */
  function PackedResponse<V>(logp: (V, int) -> real, ids: seq<seq<int>>, mask: seq<seq<int>>, packedLogits: seq<V>,
                             response: nat, b: nat, s: nat): seq<seq<real>>
    requires IsMatrix(ids, b, s) && IsMatrix(mask, b, s) && |packedLogits| == |Indices(mask, b, s)|
  {
    AllPackedLogProbs(logp, UnpadInput(ids, mask, b, s), packedLogits, Indices(mask, b, s), response, b, s)
  }

  /** The padded form accepts exactly the response lengths from 1 to one less than the sequence length. */
  lemma PaddedDefined<V>(logp: (V, int) -> real, ids: seq<seq<int>>, logits: seq<seq<V>>, response: nat,
                         b: nat, s: nat)
    requires b >= 1 && s >= 1 && IsMatrix(ids, b, s) && IsMatrix(logits, b, s)
    ensures PaddedLogProbs(logp, ids, logits, response, b, s).Ok? <==> 1 <= response < s
  {
    assert |ids[0]| == s && |logits[0]| == s;
    if !(1 <= response < s) {
      assert |ResponseLogits(logits[0], response)| != |ResponseIds(ids[0], response)|;
    }
  }

  /** `next` is the first unmasked token after k, or the first of the batch when there is none. */
  predicate IsNext(mask: seq<int>, k: nat, next: nat) {
    next < |mask| && mask[next] != 0 &&
    if next > k then forall i :: k < i < next ==> i < |mask| && mask[i] == 0
    else (forall i :: k < i < |mask| ==> mask[i] == 0) && forall i :: 0 <= i < next ==> mask[i] == 0
  }

  /** No unmasked token lies between two consecutive indices, after the last or before the first. */
  lemma NothingBetween(mask: seq<int>, j: nat, i: nat)
    requires j < |NonZero(mask)| && i < |mask| && mask[i] != 0
    ensures j + 1 < |NonZero(mask)| ==> i <= NonZero(mask)[j] || NonZero(mask)[j + 1] <= i
    ensures j + 1 == |NonZero(mask)| ==> i <= NonZero(mask)[j]
    ensures NonZero(mask)[0] <= i
  {
    NonZeroIncreasing(mask);
    var m := NonZeroComplete(mask, i);
    Ordered(NonZero(mask), |mask|, m, j);
  }

  lemma Ordered(z: seq<nat>, n: nat, m: nat, j: nat)
    requires Increasing(z, n) && m < |z| && j < |z|
    ensures z[0] <= z[m] && (m <= j ==> z[m] <= z[j])
    ensures m > j ==> j + 1 < |z| && z[j + 1] <= z[m]
  {
  }

  lemma NextIndex(mask: seq<int>, j: nat)
    requires j < |NonZero(mask)|
    ensures var z := NonZero(mask);
            IsNext(mask, z[j], if j + 1 < |z| then z[j + 1] else z[0])
  {
    var z := NonZero(mask);
    NonZeroIncreasing(mask);
    forall i | 0 <= i < |mask| && mask[i] != 0
      ensures (j + 1 < |z| ==> i <= z[j] || z[j + 1] <= i) && (j + 1 == |z| ==> i <= z[j]) && z[0] <= i
    {
      NothingBetween(mask, j, i);
    }
    Ordered(z, |mask|, j, 0);
  }

  /** After the roll, the label beside an unmasked token is the next unmasked token's id. */
  lemma RolledLabel(mask: seq<int>, xs: seq<int>, j: nat) returns (next: nat)
    requires |xs| == |mask| && j < |NonZero(mask)|
    requires forall i :: 0 <= i < |NonZero(mask)| ==> NonZero(mask)[i] < |xs|
    ensures next < |xs| && IsNext(mask, NonZero(mask)[j], next)
    ensures Roll(Gather(xs, NonZero(mask)))[j] == xs[next]
  {
    var z := NonZero(mask);
    NextIndex(mask, j);
    next := if j + 1 < |z| then z[j + 1] else z[0];
  }

  /** The packed form given what the model computes on the packed tokens, `logits_rmpad`. */
  function PackedPath<V>(logp: (V, int) -> real, ids: seq<seq<int>>, mask: seq<seq<int>>, logits: seq<seq<V>>,
                         response: nat, b: nat, s: nat): seq<seq<real>>
    requires IsMatrix(ids, b, s) && IsMatrix(mask, b, s) && IsMatrix(logits, b, s)
  {
    PackedResponse(logp, ids, mask, UnpadInput(logits, mask, b, s), response, b, s)
  }

  /** What the two forms compute for the t-th response token of row i, p being the position that predicts it. */
  predicate Agree<V>(logp: (V, int) -> real, ids: seq<seq<int>>, mask: seq<seq<int>>, logits: seq<seq<V>>,
                     b: nat, s: nat, i: nat, p: nat, next: nat, padded: real, packed: real)
    requires i < b && p + 1 < s && IsMatrix(ids, b, s) && IsMatrix(mask, b, s) && IsMatrix(logits, b, s)
  {
    padded == logp(logits[i][p], ids[i][p + 1]) &&
    (mask[i][p] != 0 && mask[i][p + 1] != 0 ==> packed == padded) &&
    Scored(logp, ids, mask, logits, b, s, i, p, next, packed)
  }

  /** The packed computation is the padded one wherever a token and its successor are both unmasked, zero where the
      token is masked, and otherwise scores the next unmasked token of the batch, which may be in another row. */
  lemma PackedAgrees<V>(logp: (V, int) -> real, ids: seq<seq<int>>, mask: seq<seq<int>>, logits: seq<seq<V>>,
                        response: nat, b: nat, s: nat, i: nat, t: nat) returns (next: nat)
    requires b >= 1 && 1 <= response < s && i < b && t < response
    requires IsMatrix(ids, b, s) && IsMatrix(mask, b, s) && IsMatrix(logits, b, s)
    ensures var padded, packed := PaddedLogProbs(logp, ids, logits, response, b, s),
                                  PackedPath(logp, ids, mask, logits, response, b, s);
            padded.Ok? && IsMatrix(padded.value, b, response) && IsMatrix(packed, b, response) &&
            Agree(logp, ids, mask, logits, b, s, i, s - response - 1 + t, next, padded.value[i][t], packed[i][t])
  {
    var padded, p := PaddedLogProbs(logp, ids, logits, response, b, s), s - response - 1 + t;
    PaddedAt(logp, ids, logits, response, b, s, i, t);
    assert padded.value[i][t] == logp(logits[i][p], ids[i][p + 1]);
    next := PackedPathAt(logp, ids, mask, logits, response, b, s, i, t, p);
  }

  /** y is zero for a masked token, and else the score of the next unmasked token of the batch. */
  predicate Scored<V>(logp: (V, int) -> real, ids: seq<seq<int>>, mask: seq<seq<int>>, logits: seq<seq<V>>,
                      b: nat, s: nat, i: nat, p: nat, next: nat, y: real)
    requires i < b && p < s && IsMatrix(ids, b, s) && IsMatrix(mask, b, s) && IsMatrix(logits, b, s)
  {
    if mask[i][p] == 0 then y == 0.0
    else next < b * s && IsNext(Flatten(mask, b, s), i * s + p, next) &&
         y == logp(logits[i][p], Cell(ids, b, s, next))
  }

  lemma PaddedAt<V>(logp: (V, int) -> real, ids: seq<seq<int>>, logits: seq<seq<V>>, response: nat,
                    b: nat, s: nat, i: nat, t: nat)
    requires 1 <= response < s && i < b && t < response && IsMatrix(ids, b, s) && IsMatrix(logits, b, s)
    ensures var padded, p := PaddedLogProbs(logp, ids, logits, response, b, s), s - response - 1 + t;
            padded.Ok? && IsMatrix(padded.value, b, response) &&
            padded.value[i][t] == logp(logits[i][p], ids[i][p + 1])
  {
    PaddedDefined(logp, ids, logits, response, b, s);
  }

  lemma PackedIsFull<V>(logp: (V, int) -> real, ids: seq<seq<int>>, mask: seq<seq<int>>, logits: seq<seq<V>>,
                        response: nat, b: nat, s: nat, i: nat, t: nat, p: nat)
    requires 1 <= response < s && i < b && t < response && p == s - response - 1 + t
    requires IsMatrix(ids, b, s) && IsMatrix(mask, b, s) && IsMatrix(logits, b, s)
    ensures var packed := PackedPath(logp, ids, mask, logits, response, b, s);
            IsMatrix(packed, b, response) && packed[i][t] == FullOutput(logp, ids, mask, logits, b, s)[i][p]
  {
  }

  lemma PackedPathAt<V>(logp: (V, int) -> real, ids: seq<seq<int>>, mask: seq<seq<int>>, logits: seq<seq<V>>,
                        response: nat, b: nat, s: nat, i: nat, t: nat, p: nat) returns (next: nat)
    requires 1 <= response < s && i < b && t < response && p == s - response - 1 + t
    requires IsMatrix(ids, b, s) && IsMatrix(mask, b, s) && IsMatrix(logits, b, s)
    ensures var packed := PackedPath(logp, ids, mask, logits, response, b, s);
            IsMatrix(packed, b, response) &&
            Agree(logp, ids, mask, logits, b, s, i, p, next, logp(logits[i][p], ids[i][p + 1]), packed[i][t])
  {
    PackedIsFull(logp, ids, mask, logits, response, b, s, i, t, p);
    next := PackedAt(logp, ids, mask, logits, b, s, i, p);
  }

  /** The padded-again matrix of all packed results, before it is cut to the response. */
  function FullOutput<V>(logp: (V, int) -> real, ids: seq<seq<int>>, mask: seq<seq<int>>, logits: seq<seq<V>>,
                         b: nat, s: nat): seq<seq<real>>
    requires IsMatrix(ids, b, s) && IsMatrix(mask, b, s) && IsMatrix(logits, b, s)
  {
    PadInput(LogProbs(logp, UnpadInput(logits, mask, b, s), Roll(UnpadInput(ids, mask, b, s))),
             Indices(mask, b, s), b, s, 0.0)
  }

  lemma PackedAt<V>(logp: (V, int) -> real, ids: seq<seq<int>>, mask: seq<seq<int>>, logits: seq<seq<V>>,
                    b: nat, s: nat, i: nat, p: nat) returns (next: nat)
    requires i < b && p + 1 < s && IsMatrix(ids, b, s) && IsMatrix(mask, b, s) && IsMatrix(logits, b, s)
    ensures Agree(logp, ids, mask, logits, b, s, i, p, next, logp(logits[i][p], ids[i][p + 1]),
                  FullOutput(logp, ids, mask, logits, b, s)[i][p])
  {
    var flat, xs, k := Flatten(mask, b, s), Flatten(ids, b, s), i * s + p;
    var values := LogProbs(logp, UnpadInput(logits, mask, b, s), Roll(UnpadInput(ids, mask, b, s)));
    PadInputAt(values, mask, b, s, 0.0, i, p);
    CellOf(i, p, b, s);
    CellOf(i, p + 1, b, s);
    assert flat[k] == mask[i][p] && flat[k + 1] == mask[i][p + 1] && xs[k + 1] == ids[i][p + 1];
    next := 0;
    if mask[i][p] != 0 {
      var j := NonZeroComplete(flat, k);
      next := RolledLabel(flat, xs, j);
      assert Flatten(logits, b, s)[k] == logits[i][p];
      if mask[i][p + 1] != 0 { assert next == k + 1; }
    }
  }
}
