/** `AsyncDoubleBufferGroupOffloadHandler` with its fields updated in place. Every method is proved to do to them
    what `OffloadModel` says of the same call, so the theorems about runs are about this class. */
module OffloadHandler {
  import opened Wrappers
  import opened Shapes
  import opened OffloadModel
  import opened OffloadRuns
  import WindowMap

  /** The entries of an offload mapping already copied: all but the keys still to do. */
  predicate CopiedBut(copies: map<Key, seq<int>>, from: map<Key, seq<int>>, todo: set<Key>) {
    copies.Keys == from.Keys - todo && forall key :: key in copies ==> copies[key] == from[key]
  }

  function CopyOne(copies: map<Key, seq<int>>, from: map<Key, seq<int>>, todo: set<Key>, key: Key)
    : (r: map<Key, seq<int>>)
    requires CopiedBut(copies, from, todo) && key in todo && key in from
    ensures CopiedBut(r, from, todo - {key})
  {
    copies[key := from[key]]
  }

  lemma CopiedAll(copies: map<Key, seq<int>>, from: map<Key, seq<int>>)
    requires CopiedBut(copies, from, {})
    ensures copies == from && |from.Keys| == |from|
  {
  }

  lemma ReloadFails(h: Handler, g: int, error: Error)
    requires g < h.numOffload && g in h.mapping
    requires var copies := h.mapping[g].copies;
             var stuck := FirstStuck(h.entries, g, copies);
             stuck < |h.entries| && error == if h.entries[stuck].slot.key in copies then ViewFailed else KeyMissing
    ensures BulkReload(h, g) == Err(error)
  {
  }

  lemma ReloadSucceeds(h: Handler, g: int, v: Handler)
    requires g < h.numOffload && g in h.mapping && FirstStuck(h.entries, g, h.mapping[g].copies) == |h.entries|
    requires var copies := h.mapping[g].copies;
             var at := h.streams.hOps + |copies|;
             v == h.(entries := ReloadGroup(h.entries, g, copies), mapping := h.mapping - {g},
                     streams := h.streams.(hOps := at), reloads := h.reloads[g := Reload(h.streams.hSawD, at)])
    ensures BulkReload(h, g) == Ok(v)
  {
  }

  class AsyncDoubleBufferGroupOffloadHandler {
    const numOffloadGroup: nat
    var layerWindowMap: map<int, int>
    var currentGroup: int
    var tensorCount: nat
    var tensorTagToState: seq<Entry>
    var tensorTagToBuf: map<Tag, Option<Tensor>>
    var offloadedGroupCount: int
    var groupOffloadMapping: map<int, Offloaded>
    var streams: Streams
    var reloads: map<int, Reload>

    ghost function View(): Handler
      reads this
    {
      Handler(numOffloadGroup, layerWindowMap, currentGroup, tensorCount, tensorTagToState, tensorTagToBuf,
              offloadedGroupCount, groupOffloadMapping, streams, reloads)
    }

    /** The state every run starts from. */
    constructor (numOffload: nat, numModel: nat)
      ensures View() == InitHandler(WindowMap.WindowSeq(numOffload, numModel))
    {
      numOffloadGroup := numOffload;
      currentGroup, tensorCount, tensorTagToState := 0, 0, [];
      tensorTagToBuf, offloadedGroupCount, groupOffloadMapping := map[], 0, map[];
      streams, reloads := Streams(0, 0, 0, 0, 0, 0, 0), map[];
      var windows := WindowMap.BuildWindowMap(numOffload, numModel);
      layerWindowMap := windows;
      assert windows == InitHandler(WindowMap.WindowSeq(numOffload, numModel)).window;
    }

    method TensorPush(t: Tensor) returns (r: Result<Tag, Error>)
      modifies this
      ensures match Push(old(View()), t)
              case Ok(p) => r == Ok(p.1) && View() == p.0
              case Err(e) => r == Err(e)
    {
      var tag := Tag(currentGroup, tensorCount);
      tensorCount := tensorCount + 1;
      if HasTag(tensorTagToState, tag) { return Err(AssertionFailed); }
      tensorTagToState := tensorTagToState + [Entry(tag, OnDevice(t))];
      if currentGroup < numOffloadGroup { tensorTagToBuf := tensorTagToBuf[tag := Some(t)]; }
      streams := streams.(cOps := streams.cOps + 1);
      return Ok(tag);
    }

    method TensorPop(tag: Tag) returns (r: Result<Tensor, Error>)
      modifies this
      ensures match Pop(old(View()), tag)
              case Ok(p) => r == Ok(p.1) && View() == p.0
              case Err(e) => r == Err(e)
    {
      var i := Find(tensorTagToState, tag);
      if i == |tensorTagToState| { return Err(AssertionFailed); }
      var slot := tensorTagToState[i].slot;
      tensorTagToState := tensorTagToState[..i] + tensorTagToState[i+1..];
      tensorTagToBuf := tensorTagToBuf - {tag};
      if slot.Packed? { return Err(AssertionFailed); }
      return Ok(slot.t);
    }

    /** The loop of `bulk_offload_group` that replaces the group's tensors by (key, shape), collecting one tensor per
        key. */
    method PackTags(group: int) returns (r: Result<map<Key, seq<int>>, Error>)
      modifies `tensorTagToState
      ensures r.Err? <==> AnyPacked(old(tensorTagToState), group)
      ensures r.Err? ==> r.error == AssertionFailed
      ensures r.Ok? ==> r.value == Collect(old(tensorTagToState), group, |old(tensorTagToState)|)
      ensures r.Ok? ==> tensorTagToState == PackGroup(old(tensorTagToState), group)
    {
      ghost var before := tensorTagToState;
      var tensors: map<Key, seq<int>> := map[];
      for i := 0 to |tensorTagToState|
        invariant |tensorTagToState| == |before|
        invariant forall j :: 0 <= j < i ==> tensorTagToState[j] == PackEntry(before[j], group)
        invariant forall j :: i <= j < |before| ==> tensorTagToState[j] == before[j]
        invariant forall j :: 0 <= j < i && InGroup(before[j], group) ==> before[j].slot.OnDevice?
        invariant tensors == Collect(before, group, i)
      {
        var e := tensorTagToState[i];
        if e.tag.group == group {
          if e.slot.Packed? {
            assert InGroup(before[i], group);
            return Err(AssertionFailed);
          }
          var t := e.slot.t;
          if t.key !in tensors { tensors := tensors[t.key := t.data]; }
          tensorTagToState := tensorTagToState[i := Entry(e.tag, Packed(t.key, t.shape))];
        }
      }
      assert tensorTagToState == PackGroup(before, group);
      return Ok(tensors);
    }

    /** `for key, tensor in offload_mapping.items(): ...` on the d2h stream: one copy per key. */
    method CopyToHost(tensors: map<Key, seq<int>>) returns (copies: map<Key, seq<int>>)
      modifies `streams
      ensures copies == tensors
      ensures streams == old(streams).(dOps := old(streams).dOps + |tensors|)
    {
      var todo := tensors.Keys;
      ghost var made := 0;
      copies := map[];
      while todo != {}
        invariant todo <= tensors.Keys && made + |todo| == |tensors.Keys|
        invariant CopiedBut(copies, tensors, todo)
        invariant streams == old(streams).(dOps := old(streams).dOps + made)
        decreases todo
      {
        var key :| key in todo;
        copies, todo := CopyOne(copies, tensors, todo, key), todo - {key};
        made := made + 1;
        streams := streams.(dOps := streams.dOps + 1);
      }
      CopiedAll(copies, tensors);
    }

    method BulkOffloadGroup(group: int) returns (r: Result<(), Error>)
      modifies `tensorTagToState, `groupOffloadMapping, `streams
      ensures match BulkOffload(old(View()), group)
              case Ok(h) => r == Ok(()) && View() == h
              case Err(e) => r == Err(e)
    {
      var packed := PackTags(group);
      if packed.Err? { return Err(packed.error); }
      var copies := CopyToHost(packed.value);
      groupOffloadMapping := groupOffloadMapping[group := Offloaded(copies, streams.dSawC, streams.dOps)];
      return Ok(());
    }

    /** `for tensor_tag in tensor_tag_to_buf: if tensor_tag[0] == group: ... = None` */
    method DropBuffers(group: int)
      modifies `tensorTagToBuf
      ensures tensorTagToBuf == DropGroup(old(tensorTagToBuf), group)
    {
      ghost var before := tensorTagToBuf;
      var todo := tensorTagToBuf.Keys;
      while todo != {}
        invariant todo <= before.Keys && tensorTagToBuf.Keys == before.Keys
        invariant forall tag :: tag in before ==>
                    tensorTagToBuf[tag] == if tag !in todo && tag.group == group then None else before[tag]
        decreases todo
      {
        var tag :| tag in todo;
        if tag.group == group { tensorTagToBuf := tensorTagToBuf[tag := None]; }
        todo := todo - {tag};
      }
    }

    /** The branch taken when the window of the offload in progress is reached. */
    method FinishOffload() returns (r: Result<(), Error>)
      modifies this
      ensures match AtWindow(old(View()))
              case Ok(h) => r == Ok(()) && View() == h
              case Err(e) => r == Err(e)
    {
      streams := D2hWaitsCompute(streams);
      streams := ComputeWaitsD2h(streams);
      DropBuffers(offloadedGroupCount);
      if offloadedGroupCount < numOffloadGroup - 1 {
        r := BulkOffloadGroup(offloadedGroupCount + 1);
        if r.Err? { return; }
      }
      offloadedGroupCount := offloadedGroupCount + 1;
      return Ok(());
    }

    method SynchronizeOnGroupCommitForward(group: int) returns (r: Result<(), Error>)
      modifies this
      ensures match SynchronizeForward(old(View()), group)
              case Ok(h) => r == Ok(()) && View() == h
              case Err(e) => r == Err(e)
    {
      if group == 0 {
        streams := D2hWaitsCompute(streams);
        r := BulkOffloadGroup(group);
        if r.Err? { return; }
      }
      if offloadedGroupCount !in layerWindowMap { return Err(KeyMissing); }
      if layerWindowMap[offloadedGroupCount] == group {
        r := FinishOffload();
        return;
      }
      return Ok(());
    }

    method OnGroupCommitForward() returns (r: Result<(), Error>)
      modifies this
      ensures match CommitForward(old(View()))
              case Ok(h) => r == Ok(()) && View() == h
              case Err(e) => r == Err(e)
    {
      r := SynchronizeOnGroupCommitForward(currentGroup);
      if r.Err? { return; }
      currentGroup := currentGroup + 1;
      tensorCount := 0;
    }

    /** The first loop of `bulk_reload_group`, on the h2d stream: one copy per key. */
    method CopyToDevice(hostCopies: map<Key, seq<int>>) returns (copies: map<Key, seq<int>>)
      modifies `streams
      ensures copies == hostCopies
      ensures streams == old(streams).(hOps := old(streams).hOps + |hostCopies|)
    {
      var todo := hostCopies.Keys;
      ghost var made := 0;
      copies := map[];
      while todo != {}
        invariant todo <= hostCopies.Keys && made + |todo| == |hostCopies.Keys|
        invariant CopiedBut(copies, hostCopies, todo)
        invariant streams == old(streams).(hOps := old(streams).hOps + made)
        decreases todo
      {
        var key :| key in todo;
        copies, todo := CopyOne(copies, hostCopies, todo, key), todo - {key};
        made := made + 1;
        streams := streams.(hOps := streams.hOps + 1);
      }
      CopiedAll(copies, hostCopies);
    }

    /** The second loop: view the copies under the pushed shapes. */
    method ViewTags(group: int, copies: map<Key, seq<int>>) returns (r: Result<(), Error>)
      modifies `tensorTagToState
      ensures var was := old(tensorTagToState);
              var stuck := FirstStuck(was, group, copies);
              if stuck == |was| then r == Ok(()) && tensorTagToState == ReloadGroup(was, group, copies)
              else r == Err(if was[stuck].slot.key in copies then ViewFailed else KeyMissing)
    {
      ghost var before := tensorTagToState;
      for i := 0 to |tensorTagToState|
        invariant |tensorTagToState| == |before| && i <= FirstStuck(before, group, copies)
        invariant forall j :: 0 <= j < i ==> tensorTagToState[j] == ReloadEntry(before[j], group, copies)
        invariant forall j :: i <= j < |before| ==> tensorTagToState[j] == before[j]
      {
        var e := tensorTagToState[i];
        if e.tag.group == group && e.slot.Packed? {
          assert InGroup(before[i], group);
          if e.slot.key !in copies { return Err(KeyMissing); }
          if |copies[e.slot.key]| != Numel(e.slot.shape) { return Err(ViewFailed); }
          var t := Tensor(ReloadOf(group, e.slot.key), e.slot.shape, copies[e.slot.key]);
          tensorTagToState := tensorTagToState[i := Entry(e.tag, OnDevice(t))];
        }
      }
      assert tensorTagToState == ReloadGroup(before, group, copies);
      return Ok(());
    }

    method BulkReloadGroup(group: int) returns (r: Result<(), Error>)
      modifies `tensorTagToState, `groupOffloadMapping, `streams, `reloads
      ensures match BulkReload(old(View()), group)
              case Ok(h) => r == Ok(()) && View() == h
              case Err(e) => r == Err(e)
    {
      if group >= numOffloadGroup { return Err(AssertionFailed); }
      if group !in groupOffloadMapping { return Err(KeyMissing); }
      var hostCopies := groupOffloadMapping[group].copies;
      groupOffloadMapping := groupOffloadMapping - {group};
      var copies := CopyToDevice(hostCopies);
      reloads := reloads[group := Reload(streams.hSawD, streams.hOps)];
      r := ViewTags(group, copies);
      if r.Ok? { ReloadSucceeds(old(View()), group, View()); } else { ReloadFails(old(View()), group, r.error); }
    }

    method OnGroupCommitBackward() returns (r: Result<(), Error>)
      modifies this
      ensures match CommitBackward(old(View()))
              case Ok(h) => r == Ok(()) && View() == h
              case Err(e) => r == Err(e)
    {
      currentGroup := currentGroup - 1;
      if currentGroup < 0 { return Err(AssertionFailed); }
      if offloadedGroupCount - 1 !in layerWindowMap { return Err(KeyMissing); }
      if layerWindowMap[offloadedGroupCount - 1] == currentGroup {
        streams := H2dWaitsCompute(streams);
        streams := ComputeWaitsH2d(streams);
        r := BulkReloadGroup(offloadedGroupCount - 1);
        if r.Err? { return; }
        offloadedGroupCount := if offloadedGroupCount > 1 then offloadedGroupCount - 1 else offloadedGroupCount;
      }
      if currentGroup == 0 {
        streams := ComputeWaitsH2d(streams);
        offloadedGroupCount := 0;
      }
      return Ok(());
    }
  }
}
