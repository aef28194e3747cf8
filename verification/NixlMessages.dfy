/** The message dicts of the NIXL chain. A forwarder hands the metadata it read to its own `ReadableOperation`, which
    spreads it over its own key and descriptors; that the read took those two entries out is what keeps them apart. */
module NixlMessages {
  import opened Wrappers
  import opened Buckets
  import opened NixlChain

  datatype Field = NotifyKey(key: nat) | Descs(slot: nat) | BucketMeta(meta: seq<TensorMeta>) | IsLast(isLast: bool)

  type Dict = map<string, Field>

  /** `{"notify_key": key, "remote_descs": descs, **metadata}`: of two entries with one name the later one stays. */
  function Message(key: nat, slot: nat, metadata: Dict): Dict {
    map["notify_key" := NotifyKey(key), "remote_descs" := Descs(slot)] + metadata
  }

  /** What `read_metadata` keeps of a message, and the metadata it returns. */
  datatype Incoming = Incoming(notifyKey: Field, remoteDescs: Field, metadata: Dict)

  function ReadMetadata(message: Dict): Option<Incoming> {
    if "remote_descs" !in message || "notify_key" !in message then None
    else Some(Incoming(message["notify_key"], message["remote_descs"], message - {"remote_descs", "notify_key"}))
  }

  /** Metadata that brings no key and no descriptors of its own. */
  predicate Plain(metadata: Dict) { "notify_key" !in metadata && "remote_descs" !in metadata }

  /** The next agent reads exactly what was posted if and only if the metadata is plain. */
  lemma ReadsPosted(key: nat, slot: nat, metadata: Dict)
    ensures ReadMetadata(Message(key, slot, metadata)).Some?
    ensures Plain(ReadMetadata(Message(key, slot, metadata)).value.metadata)
    ensures ReadMetadata(Message(key, slot, metadata)) == Some(Incoming(NotifyKey(key), Descs(slot), metadata))
            <==> Plain(metadata)
  {
    if Plain(metadata) { assert Message(key, slot, metadata) - {"remote_descs", "notify_key"} == metadata; }
  }

  datatype Hop = Hop(key: nat, slot: nat)

  /** The message of the last of these posts, each forwarding the metadata that was read from the one before. */
  function Relay(hops: seq<Hop>, metadata: Dict): Dict
    requires hops != []
  {
    var n := |hops| - 1;
    if n == 0 then Message(hops[0].key, hops[0].slot, metadata)
    else
      var before := ReadMetadata(Relay(hops[..n], metadata));
      Message(hops[n].key, hops[n].slot, if before.Some? then before.value.metadata else map[])
  }

  /** However many ranks forward a bucket, each reads its own predecessor's key and descriptors and the metadata that
      rank 0 posted. */
  lemma {:induction false} Relayed(hops: seq<Hop>, metadata: Dict)
    requires hops != [] && Plain(metadata)
    ensures var last := hops[|hops| - 1];
            ReadMetadata(Relay(hops, metadata)) == Some(Incoming(NotifyKey(last.key), Descs(last.slot), metadata))
  {
    var n := |hops| - 1;
    if n > 0 { Relayed(hops[..n], metadata); }
    ReadsPosted(hops[n].key, hops[n].slot, metadata);
  }

  /** Were they not taken out, a forwarder's own key and descriptors would be lost. */
  lemma PopsNeeded(first: Hop, second: Hop, metadata: Dict)
    requires Plain(metadata)
    ensures Message(second.key, second.slot, Message(first.key, first.slot, metadata))
            == Message(first.key, first.slot, metadata)
  {
  }

  // ---------- The messages of the chain ----------

  function BucketDict(meta: seq<TensorMeta>, isLast: bool): Dict {
    map["bucket_meta" := BucketMeta(meta), "is_last" := IsLast(isLast)]
  }

  /** The dict that a message of the chain stands for. */
  function Wire(m: Msg): Dict { Message(m.key, m.slot, BucketDict(m.meta, m.isLast)) }

  /** A receiver that took a message and has read its bucket posts the metadata that came with it, under its own key
      and descriptors: the fields of `Msg` are those of the dicts. */
  lemma RepostedAs(cap: nat, k: Rank, m: Msg, t: Port)
    requires k.Receiver?
    ensures ReadMetadata(Wire(m)).Some?
    ensures var taken := Receiver(t, TakeMeta(cap, k, m).v);
            var sent := PostMsg(TakeRead(taken));
            Wire(sent) == Message(sent.key, sent.slot, ReadMetadata(Wire(m)).value.metadata)
  {
    ReadsPosted(m.key, m.slot, BucketDict(m.meta, m.isLast));
  }

  /** Reading the dict of a message gives its fields back. */
  lemma WireReads(m: Msg)
    ensures ReadMetadata(Wire(m)) == Some(Incoming(NotifyKey(m.key), Descs(m.slot), BucketDict(m.meta, m.isLast)))
  {
    ReadsPosted(m.key, m.slot, BucketDict(m.meta, m.isLast));
  }
}
