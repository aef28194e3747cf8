/** Dense tensors of any rank, as a shape and the element at each index, with the few torch operations that the
    sequence-parallel code is made of. Two tensors are the same when shapes and all elements in range agree. */
module Tensors {
  import opened Arithmetic

  type Index = seq<int>

  datatype Tensor<T> = Tensor(shape: seq<nat>, at: Index -> T)

  predicate InShape(idx: Index, shape: seq<nat>) {
    |idx| == |shape| && forall d :: 0 <= d < |shape| ==> 0 <= idx[d] < shape[d]
  }

  ghost predicate Same<T(!new)>(a: Tensor<T>, b: Tensor<T>) {
    a.shape == b.shape && forall idx :: InShape(idx, a.shape) ==> a.at(idx) == b.at(idx)
  }

  /** The index with `amount` added along one dimension. */
  function Shift(idx: Index, d: nat, amount: int): Index {
    if d < |idx| then idx[d := idx[d] + amount] else idx
  }

  function Slice<T>(x: Tensor<T>, d: nat, lo: int, hi: int): Tensor<T>
    requires d < |x.shape| && 0 <= lo <= hi <= x.shape[d]
  {
    Tensor(x.shape[d := hi - lo], idx => x.at(Shift(idx, d, lo)))
  }

  /** `x[..., 0:-p, ...]` with Python's rules for a stop of -p: nothing is kept when p is 0. */
  function UnpadStop(size: nat, p: int): (r: nat)
    ensures r <= size
  {
    if p > 0 then (if p <= size then size - p else 0) else Min(-p, size)
  }

  function Unpad<T>(x: Tensor<T>, d: nat, p: int): Tensor<T>
    requires d < |x.shape|
  {
    Slice(x, d, 0, UnpadStop(x.shape[d], p))
  }

  /** `torch.cat([x, fill], dim)` where fill has p slices along the dimension. */
  function PadWith<T>(x: Tensor<T>, d: nat, p: nat, fill: Index -> T): Tensor<T>
    requires d < |x.shape|
  {
    Tensor(x.shape[d := x.shape[d] + p],
           idx => if d < |idx| && idx[d] >= x.shape[d] then fill(idx) else x.at(idx))
  }

  /** Where `torch.tensor_split(x, n, dim)` starts its i-th chunk: the first size % n chunks get one more slice. */
  function ChunkStart(size: nat, n: nat, i: nat): nat
    requires n > 0
  {
    i * (size / n) + Min(i, size % n)
  }

  lemma ChunkStartBounds(size: nat, n: nat, i: nat)
    requires i < n
    ensures ChunkStart(size, n, i) <= ChunkStart(size, n, i + 1) <= size
    ensures ChunkStart(size, n, i + 1) - ChunkStart(size, n, i) == size / n + (if i < size % n then 1 else 0)
  {
    StepsBelow(i, n, size / n);
  }

  function Chunk<T>(x: Tensor<T>, n: nat, d: nat, i: nat): Tensor<T>
    requires i < n && d < |x.shape|
  {
    ChunkStartBounds(x.shape[d], n, i);
    Slice(x, d, ChunkStart(x.shape[d], n, i), ChunkStart(x.shape[d], n, i + 1))
  }

  /** All tensors have the shape of the first. */
  predicate SameShapes<T>(xs: seq<Tensor<T>>) {
    forall i :: 0 <= i < |xs| ==> xs[i].shape == xs[0].shape
  }

  function CatAt<T>(xs: seq<Tensor<T>>, d: nat, g: nat, idx: Index): T
    requires |xs| > 0
  {
    if d < |idx| && g > 0 && 0 <= idx[d] / g < |xs| then xs[idx[d] / g].at(idx[d := idx[d] % g]) else xs[0].at(idx)
  }

  /** `torch.cat(xs, dim)` for tensors of one shape. */
  function Cat<T>(xs: seq<Tensor<T>>, d: nat): Tensor<T>
    requires |xs| > 0 && SameShapes(xs) && d < |xs[0].shape|
  {
    Tensor(xs[0].shape[d := |xs| * xs[0].shape[d]], idx => CatAt(xs, d, xs[0].shape[d], idx))
  }

  /** n chunks of one size, put back together along the dimension they were split along, give the tensor back. */
  lemma CatOfChunks<T(!new)>(x: Tensor<T>, n: nat, d: nat)
    requires n > 0 && d < |x.shape| && x.shape[d] % n == 0
    ensures var cs := seq(n, i requires 0 <= i < n => Chunk(x, n, d, i));
            SameShapes(cs) && Same(Cat(cs, d), x)
  {
    var g := x.shape[d] / n;
    var cs := seq(n, i requires 0 <= i < n => Chunk(x, n, d, i));
    assert n * g == x.shape[d];
    forall i | 0 <= i < n ensures cs[i].shape == x.shape[d := g] {
      ChunkStartBounds(x.shape[d], n, i);
    }
    forall idx | InShape(idx, x.shape) ensures Cat(cs, d).at(idx) == x.at(idx) {
      DivBelow(idx[d], n, g);
      var s := idx[d] / g;
      assert cs[s] == Chunk(x, n, d, s);
      assert Shift(idx[d := idx[d] % g], d, s * g) == idx;
    }
  }
}
