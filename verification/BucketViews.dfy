/** Buckets as they sit in transfer buffers, and the stream of tensors a receiver yields from them. */
module BucketViews {
  import opened Buckets

  function Zeros(n: nat): seq<byte> { seq(n, _ => 0) }

  function AllBytes(cap: nat): (r: set<nat>)
    ensures forall j :: j in r <==> 0 <= j < cap
  {
    if cap == 0 then {} else AllBytes(cap - 1) + {cap - 1}
  }

  /** `buf[offset : offset + len(data)] = data` */
  function Overwrite(buf: seq<byte>, offset: nat, data: seq<byte>): seq<byte>
    requires offset + |data| <= |buf|
  {
    buf[..offset] + data + buf[offset + |data|..]
  }

  /** Every byte of the bucket outside `pending` is in the buffer. */
  ghost predicate HoldsBut(buf: seq<byte>, b: Bucket, pending: set<nat>) {
    && |b.image| <= |buf|
    && forall j :: 0 <= j < |b.image| && j !in pending ==> buf[j] == b.image[j]
  }

  ghost predicate Holds(buf: seq<byte>, b: Bucket) { HoldsBut(buf, b, {}) }

  /** The yields of the first `full` buckets and of `part` entries of the next one. */
  ghost function Yields(bs: seq<Bucket>, full: nat, part: nat): seq<Weight>
    requires full <= |bs|
  {
    Delivered(bs[..full]) + (if full < |bs| && part <= |bs[full].meta| then UnpackTo(bs[full].image, bs[full].meta, part) else [])
  }

  lemma {:induction false} PackNonempty(ws: seq<Weight>, b: Bucket, cap: nat)
    ensures |Pack(ws, b, cap).0| > 0
    decreases |ws|
  {
    if ws != [] { PackNonempty(ws[1..], AddWeight(b, ws[0]), cap); }
  }

  /** The view taken from the buffer is the tensor of the bucket it was filled from. */
  lemma ExtractHeld(buf: seq<byte>, b: Bucket, i: nat)
    requires Holds(buf, b) && Fits(b, |buf|) && i < |b.meta|
    ensures Extract(buf, b.meta[i]) == Extract(b.image, b.meta[i])
  {
    var m := b.meta[i];
    assert m.offset + m.Size() <= |b.image|;
    assert buf[m.offset..m.offset + m.Size()] == b.image[m.offset..m.offset + m.Size()];
  }

  lemma YieldsNext(bs: seq<Bucket>, k: nat, i: nat)
    requires k < |bs| && i < |bs[k].meta|
    ensures Yields(bs, k, i) + [Extract(bs[k].image, bs[k].meta[i])] == Yields(bs, k, i + 1)
  {
    assert UnpackTo(bs[k].image, bs[k].meta, i) + [Extract(bs[k].image, bs[k].meta[i])] == UnpackTo(bs[k].image, bs[k].meta, i + 1);
  }

  lemma {:induction false} DeliveredSnoc(bs: seq<Bucket>, b: Bucket)
    ensures Delivered(bs + [b]) == Delivered(bs) + Unpack(b)
  {
    if bs == [] {
      assert [b][1..] == [];
    } else {
      assert (bs + [b])[1..] == bs[1..] + [b];
      DeliveredSnoc(bs[1..], b);
    }
  }

  lemma YieldsBucket(bs: seq<Bucket>, k: nat)
    requires k < |bs|
    ensures Yields(bs, k, |bs[k].meta|) == Yields(bs, k + 1, 0) == Delivered(bs[..k + 1])
  {
    DeliveredSnoc(bs[..k], bs[k]);
    assert bs[..k] + [bs[k]] == bs[..k + 1];
  }

  lemma {:induction false} DeliveredSplit(bs: seq<Bucket>, k: nat)
    requires k <= |bs|
    ensures Delivered(bs) == Delivered(bs[..k]) + Delivered(bs[k..])
  {
    if k == 0 {
      assert bs[..0] == [] && bs[0..] == bs;
    } else {
      DeliveredSplit(bs[1..], k - 1);
      assert bs[..k][1..] == bs[1..][..k - 1] && bs[1..][k - 1..] == bs[k..];
    }
  }

  lemma YieldsPrefix(bs: seq<Bucket>, full: nat, part: nat)
    requires full <= |bs|
    ensures Yields(bs, full, part) <= Delivered(bs)
  {
    DeliveredSplit(bs, full);
    if full < |bs| && part <= |bs[full].meta| {
      assert UnpackTo(bs[full].image, bs[full].meta, part) <= Unpack(bs[full]);
    }
  }
}
