/** What the offload handler guarantees over every legal run. */
module OffloadTheorems {
  import opened Wrappers
  import opened Shapes
  import opened OffloadModel
  import opened OffloadRuns
  import opened OffloadSteps
  import opened OffloadForward
  import opened OffloadBackward
  import opened WindowMap

  lemma WindowsOfMap(g: nat, l: nat)
    requires 1 <= g <= l
    ensures Windows(WindowSeq(g, l), l)
  {
    WindowShape(g, l);
  }

  ghost predicate IsRun(w: World, ops: seq<Op>, v: World)
    decreases |ops|
  {
    if ops == [] then w == v
    else Legal(w, ops[0]) && Step(w, ops[0]).Ok? && IsRun(Step(w, ops[0]).value, ops[1..], v)
  }

  /** Worlds reached by legal calls, over any number of passes. */
  ghost predicate Reachable(g: nat, l: nat, w: World) {
    1 <= g <= l && exists ops :: IsRun(InitWorld(l, WindowSeq(g, l)), ops, w)
  }

  lemma StepInv(w: World, op: Op)
    requires Inv(w) && Legal(w, op)
    ensures Step(w, op).Ok? && Inv(Step(w, op).value)
    ensures Step(w, op).value.ws == w.ws && Step(w, op).value.l == w.l
  {
    match op
    case PushT(t) => PushInv(w, t);
    case CommitF => CommitForwardInv(w);
    case CommitB => CommitBackwardInv(w);
    case PopT(tag) => PopInv(w, tag);
    case NextPass => NextPassInv(w);
  }

  lemma {:induction false} RunInv(w: World, ops: seq<Op>, v: World)
    requires Inv(w) && IsRun(w, ops, v)
    ensures Inv(v) && v.ws == w.ws && v.l == w.l
    decreases |ops|
  {
    if ops != [] {
      StepInv(w, ops[0]);
      RunInv(Step(w, ops[0]).value, ops[1..], v);
    }
  }

  lemma ReachableInv(g: nat, l: nat, w: World)
    requires Reachable(g, l, w)
    ensures Inv(w) && w.ws == WindowSeq(g, l) && w.l == l
  {
    var ops :| IsRun(InitWorld(l, WindowSeq(g, l)), ops, w);
    WindowsOfMap(g, l);
    InitInv(l, WindowSeq(g, l));
    RunInv(InitWorld(l, WindowSeq(g, l)), ops, w);
  }

  lemma {:induction false} RunSnoc(w: World, ops: seq<Op>, v: World, op: Op)
    requires IsRun(w, ops, v) && Legal(v, op) && Step(v, op).Ok?
    ensures IsRun(w, ops + [op], Step(v, op).value)
    decreases |ops|
  {
    if ops == [] {
      assert [op][1..] == [];
    } else {
      RunSnoc(Step(w, ops[0]).value, ops[1..], v, op);
      assert (ops + [op])[1..] == ops[1..] + [op];
    }
  }

  lemma ReachableStart(g: nat, l: nat)
    requires 1 <= g <= l
    ensures Reachable(g, l, InitWorld(l, WindowSeq(g, l)))
  {
    assert IsRun(InitWorld(l, WindowSeq(g, l)), [], InitWorld(l, WindowSeq(g, l)));
  }

  lemma ReachableStep(g: nat, l: nat, w: World, op: Op)
    requires Reachable(g, l, w) && Legal(w, op)
    ensures Step(w, op).Ok? && Reachable(g, l, Step(w, op).value)
  {
    NothingFails(g, l, w, op);
    var ops :| IsRun(InitWorld(l, WindowSeq(g, l)), ops, w);
    RunSnoc(InitWorld(l, WindowSeq(g, l)), ops, w, op);
  }

  /** In a legal run no assertion fails, no window or mapping is missing, and no reload has nothing to view. */
  lemma NothingFails(g: nat, l: nat, w: World, op: Op)
    requires Reachable(g, l, w) && Legal(w, op)
    ensures Step(w, op).Ok?
  {
    ReachableInv(g, l, w);
    StepInv(w, op);
  }

  // ---------- What comes back ----------

  /** Every pop returns the shape that was pushed. The contents are those of the first tensor pushed with the same
      key in an offloaded group, so the pushed tensor comes back exactly when its contents equal that one's. */
  lemma PopReturns(g: nat, l: nat, w: World, tag: Tag)
    requires Reachable(g, l, w) && Legal(w, PopT(tag))
    ensures Pop(w.h, tag).Ok?
    ensures var ts, t := w.pushed[tag.group], Pop(w.h, tag).value.1;
            var source := ts[Source(ts, tag.index)];
            && t.shape == ts[tag.index].shape
            && t.data == (if Offloads(w.ws, tag.group) then source.data else ts[tag.index].data)
            && (t.data == ts[tag.index].data <==> !Offloads(w.ws, tag.group) || source.data == ts[tag.index].data)
  {
    ReachableInv(g, l, w);
    var i := PopFinds(w, tag);
  }

  // ---------- Streams ----------

  /** While a packed tensor's copy may still be running the handler keeps the device tensor; it lets go only after
      the compute stream has waited for the copy. */
  lemma DropAfterCopy(g: nat, l: nat, w: World, tag: Tag)
    requires Reachable(g, l, w) && w.phase.Forward? && ValidTag(w.pushed, tag)
    requires Offloads(w.ws, tag.group) && Started(w.ws, w.phase.c, tag.group)
    ensures tag.group in w.h.mapping && tag in w.h.buf
    ensures w.h.buf[tag] == Some(w.pushed[tag.group][tag.index])
         || (w.h.buf[tag] == None && w.h.mapping[tag.group].madeAt <= w.h.streams.cSawD)
  {
    ReachableInv(g, l, w);
    assert Holds(w, Mapping) && Holds(w, Buffers) && Holds(w, Progress) && Holds(w, Shape);
    assert InMapping(w.ws, w.phase, tag.group);
    assert BufAt(w.ws, w.phase, w.pushed, w.popped, w.h.buf, w.h.done, tag);
  }

  /** A group's offload is issued on a stream that has waited for every push so far, and after its own group's commit
      nothing is pushed to that group any more. Except for group 0 the compute stream goes on without waiting for it. */
  lemma OffloadAfterPush(g: nat, l: nat, w: World, x: int)
    requires Reachable(g, l, w) && Legal(w, CommitF) && x !in w.h.mapping
    ensures Step(w, CommitF).Ok?
    ensures var v := Step(w, CommitF).value.h;
            x in v.mapping ==> v.mapping[x].after == w.h.streams.cOps && CopiesTimed(w.h, v, x) &&
                               (x > 0 ==> NotAwaited(v, x)) && x in w.h.window && (Offloads(w.ws, x) ==> x <= w.phase.c)
  {
    ReachableStep(g, l, w, CommitF);
    var v := Step(w, CommitF).value;
    if x in v.h.mapping {
      MappingKeys(g, l, w, x);
      MappingKeys(g, l, v, x);
      ReachableInv(g, l, w);
      assert Holds(w, Shape);
      OffloadSeesPushes(w.h, x);
    }
  }

  /** The group's copies are among the d2h operations that the commit issued, as many as they are. */
  predicate CopiesTimed(h: Handler, v: Handler, x: int)
    requires x in v.mapping
  {
    h.streams.dOps + |v.mapping[x].copies| <= v.mapping[x].madeAt <= v.streams.dOps
  }

  /** The compute stream has waited for none of the group's copies: they run beside the next layers. */
  predicate NotAwaited(v: Handler, x: int)
    requires x in v.mapping
  {
    v.streams.cSawD + |v.mapping[x].copies| <= v.mapping[x].madeAt
  }

  lemma WindowRunsOn(h: Handler, x: int)
    requires AtWindow(h).Ok? && x !in h.mapping && x in AtWindow(h).value.mapping
    ensures NotAwaited(AtWindow(h).value, x)
  {
  }

  lemma KickedOnly(h: Handler, c: int, x: int)
    requires Kicked(h, c).Ok? && x !in h.mapping && x != 0
    ensures x !in Kicked(h, c).value.mapping
  {
  }

  lemma SynchronizeRunsOn(h: Handler, c: int, x: int)
    requires SynchronizeForward(h, c).Ok? && x !in h.mapping && x > 0 && x in SynchronizeForward(h, c).value.mapping
    ensures NotAwaited(SynchronizeForward(h, c).value, x)
  {
    var k := Kicked(h, c).value;
    KickedOnly(h, c, x);
    if h.window[k.done] == c { WindowRunsOn(k, x); }
  }

  /** From h to v no compute operation is issued, and every group put into the mapping is offloaded after all of them. */
  ghost predicate Records(h: Handler, v: Handler) {
    && v.streams.cOps == h.streams.cOps && h.streams.dOps <= v.streams.dOps
    && forall x :: x in v.mapping ==>
         || (x in h.mapping && v.mapping[x] == h.mapping[x])
         || (v.mapping[x].after == h.streams.cOps && CopiesTimed(h, v, x))
  }

  lemma RecordsTwice(h: Handler, k: Handler, v: Handler)
    requires Records(h, k) && Records(k, v)
    ensures Records(h, v)
  {
  }

  lemma BulkRecords(h: Handler, g: int)
    requires h.streams.dSawC == h.streams.cOps && BulkOffload(h, g).Ok?
    ensures Records(h, BulkOffload(h, g).value)
  {
  }

  lemma KickedRecords(h: Handler, c: int)
    requires Kicked(h, c).Ok?
    ensures Records(h, Kicked(h, c).value)
  {
    if c == 0 { BulkRecords(h.(streams := D2hWaitsCompute(h.streams)), c); }
  }

  lemma WindowRecords(h: Handler)
    requires AtWindow(h).Ok?
    ensures Records(h, AtWindow(h).value)
  {
    if h.done < h.numOffload - 1 { BulkRecords(Released(h), h.done + 1); }
  }

  lemma SynchronizeRecords(h: Handler, c: int)
    requires SynchronizeForward(h, c).Ok?
    ensures Records(h, SynchronizeForward(h, c).value)
  {
    var k := Kicked(h, c).value;
    KickedRecords(h, c);
    if h.window[k.done] == c {
      WindowRecords(k);
      RecordsTwice(h, k, AtWindow(k).value);
    }
  }

  lemma OffloadSeesPushes(h: Handler, x: int)
    requires CommitForward(h).Ok? && x !in h.mapping && x in CommitForward(h).value.mapping
    ensures var v := CommitForward(h).value;
            v.mapping[x].after == h.streams.cOps && CopiesTimed(h, v, x) && (x > 0 ==> NotAwaited(v, x))
  {
    SynchronizeRecords(h, h.current);
    if x > 0 { SynchronizeRunsOn(h, h.current, x); }
  }

  /** A reload is issued on a stream that has waited for the host copies it reads. It is a prefetch: except in the last
      backward commit the compute stream has waited for the reloads before it only. */
  lemma ReloadAfterCopy(g: nat, l: nat, w: World, x: int)
    requires Reachable(g, l, w) && Legal(w, CommitB) && x in w.h.mapping
    ensures Step(w, CommitB).Ok?
    ensures var v := Step(w, CommitB).value.h;
            x !in v.mapping ==> x in v.reloads && w.h.mapping[x].madeAt <= v.reloads[x].after &&
                                v.reloads[x].madeAt == v.streams.hOps &&
                                (w.phase.c > 1 ==> v.streams.cSawH == w.h.streams.hOps)
  {
    ReachableInv(g, l, w);
    CommitReady(w);
    if w.ws[w.h.done - 1] == w.phase.c - 1 {
      ReloadsAfter(w, w.h.done - 1, w.phase.c - 1);
    } else {
      PassKeeps(w, w.phase.c - 1);
    }
  }

  lemma PassKeeps(w: World, c: nat)
    requires Inv(w) && Legal(w, CommitB) && c == w.phase.c - 1 && 1 <= w.h.done <= |w.ws| && w.ws[w.h.done - 1] != c
    ensures Step(w, CommitB).Ok? && Step(w, CommitB).value.h.mapping == w.h.mapping
  {
    KeepReady(w, c);
    PassIs(w.h, c);
    StepIs(w, Passed(w.h, c));
  }

  lemma ReloadsAfter(w: World, g: int, c: nat)
    requires Inv(w) && Legal(w, CommitB) && c == w.phase.c - 1 && g == w.h.done - 1 && 0 <= g < |w.ws| && w.ws[g] == c
    ensures Step(w, CommitB).Ok? && g in w.h.mapping
    ensures var v := Step(w, CommitB).value.h;
            v.mapping == w.h.mapping - {g} && g in v.reloads && w.h.mapping[g].madeAt <= v.reloads[g].after &&
            v.reloads[g].madeAt == v.streams.hOps && (c > 0 ==> v.streams.cSawH == w.h.streams.hOps)
  {
    AtReloadFrom(w, g, c);
    ReloadReady(w, g, c);
    ReloadSynced(w, g, c, |w.h.mapping[g].copies|, 0);
    ReloadIs(w.h, g, c);
    StepIs(w, Reloaded(w.h, g, c));
  }

  /** A reloaded tensor is handed out, in its group's turn or later, only after the compute stream has waited for its
      reload. */
  lemma UseAfterReload(g: nat, l: nat, w: World, tag: Tag)
    requires Reachable(g, l, w) && Legal(w, PopT(tag)) && Offloads(w.ws, tag.group)
    ensures tag.group in w.h.reloads && w.h.reloads[tag.group].madeAt <= w.h.streams.cSawH
  {
    ReachableInv(g, l, w);
    assert Holds(w, Shape) && Holds(w, Progress);
    assert w.ws[tag.group] >= w.phase.c;
  }

  // ---------- Device residency ----------

  /** The handler still refers to a device tensor for this tag. */
  predicate Resident(h: Handler, tag: Tag) {
    || (exists i :: 0 <= i < |h.entries| && h.entries[i].tag == tag && h.entries[i].slot.OnDevice?)
    || (tag in h.buf && h.buf[tag].Some?)
  }

  lemma BufferedRange(w: World, tag: Tag)
    requires Inv(w) && |w.ws| == w.l - 1 && (forall i :: 0 <= i < |w.ws| ==> w.ws[i] == i + 1)
    requires tag in w.h.buf && w.h.buf[tag].Some?
    ensures w.phase.c - 1 <= tag.group <= w.phase.c
  {
    assert Holds(w, Shape) && Holds(w, Counter) && Holds(w, Buffers);
    assert BufAt(w.ws, w.phase, w.pushed, w.popped, w.h.buf, w.h.done, tag);
    BufRange(w.ws, w.l, w.phase.c, w.h.done, tag.group);
  }

  lemma ResidentRange(w: World, tag: Tag)
    requires Inv(w) && |w.ws| == w.l - 1 && (forall i :: 0 <= i < |w.ws| ==> w.ws[i] == i + 1) && Resident(w.h, tag)
    requires w.phase.Backward? ==> forall x :: ValidTag(w.pushed, x) && x.group > w.phase.c ==> x in w.popped
    ensures w.phase.c - 1 <= tag.group <= w.phase.c
  {
    if tag in w.h.buf && w.h.buf[tag].Some? {
      BufferedRange(w, tag);
    } else {
      var i :| 0 <= i < |w.h.entries| && w.h.entries[i].tag == tag && w.h.entries[i].slot.OnDevice?;
      assert Holds(w, Shape) && Holds(w, Entries);
      assert SlotRight(w.ws, w.phase, w.pushed, w.popped, w.h.entries[i]);
      EntryRange(w, i);
    }
  }

  lemma EntryRange(w: World, i: nat)
    requires i < |w.h.entries| && w.h.entries[i].slot.OnDevice? &&
             SlotRight(w.ws, w.phase, w.pushed, w.popped, w.h.entries[i])
    requires Windows(w.ws, w.l) && TensorsInv(w.l, w.ws, w.phase, w.pushed, w.popped)
    requires |w.ws| == w.l - 1 && (forall i :: 0 <= i < |w.ws| ==> w.ws[i] == i + 1)
    requires w.phase.Backward? ==> forall x :: ValidTag(w.pushed, x) && x.group > w.phase.c ==> x in w.popped
    ensures w.phase.c - 1 <= w.h.entries[i].tag.group <= w.phase.c
  {
    var x := w.h.entries[i].tag.group;
    if x < |w.ws| { assert Offloads(w.ws, x); }
  }

  lemma BufRange(ws: seq<int>, l: nat, c: nat, done: int, x: int)
    requires Windows(ws, l) && |ws| == l - 1 && (forall i :: 0 <= i < |ws| ==> ws[i] == i + 1)
    requires DoneInv(ws, Forward(c), done) && done <= x < |ws|
    ensures c - 1 <= x
  {
    assert ws[x] >= c;
  }

  /** With one group fewer than layers at most two groups are on the device: the current one and the one before it,
      at every point of the forward pass and, as long as the groups already used have been taken back, of the
      backward pass. */
  lemma TwoGroupsResident(g: nat, l: nat, w: World, tag: Tag)
    requires g == l - 1 && Reachable(g, l, w) && Resident(w.h, tag)
    requires w.phase.Backward? ==> forall x :: ValidTag(w.pushed, x) && x.group > w.phase.c ==> x in w.popped
    ensures tag.group == w.phase.c || tag.group == w.phase.c - 1
  {
    ReachableInv(g, l, w);
    WindowAfterGroup(g, l);
    ResidentRange(w, tag);
  }

  lemma EntryOf(w: World, tag: Tag) returns (i: nat)
    requires Inv(w) && ValidTag(w.pushed, tag) && tag !in w.popped
    ensures i < |w.h.entries| && w.h.entries[i].tag == tag
    ensures w.h.entries[i].slot == SlotOf(w.ws, w.phase, w.pushed[tag.group], tag.group, tag.index)
    ensures forall j :: 0 <= j < |w.h.entries| && w.h.entries[j].tag == tag ==> j == i
  {
    assert Holds(w, Entries);
    assert HasTag(w.h.entries, tag);
    i :| 0 <= i < |w.h.entries| && w.h.entries[i].tag == tag;
    assert SlotRight(w.ws, w.phase, w.pushed, w.popped, w.h.entries[i]);
    forall j | 0 <= j < |w.h.entries| && w.h.entries[j].tag == tag ensures j == i {
      assert j < i ==> TagLess(w.h.entries[j].tag, w.h.entries[i].tag);
      assert i < j ==> TagLess(w.h.entries[i].tag, w.h.entries[j].tag);
    }
  }

  lemma NothingBuffered(w: World, tag: Tag)
    requires Inv(w) && w.phase == Forward(w.l)
    ensures tag in w.h.buf ==> w.h.buf[tag] == None
  {
    assert Holds(w, Shape) && Holds(w, Counter) && Holds(w, Buffers);
    AllDone(w.ws, w.l, w.h.done);
    assert BufAt(w.ws, w.phase, w.pushed, w.popped, w.h.buf, w.h.done, tag);
  }

  /** What is on the device when the forward pass is over: with fewer groups than layers only the layers that are in no
      group; with as many groups as layers everything but group 0, because every other group was offloaded before
      anything of it had been pushed. */
  lemma ResidentAfterForward(g: nat, l: nat, w: World, tag: Tag)
    requires Reachable(g, l, w) && w.phase == Forward(l) && ValidTag(w.pushed, tag)
    ensures Resident(w.h, tag) <==> !Offloads(w.ws, tag.group)
    ensures g < l ==> (Resident(w.h, tag) <==> tag.group >= g)
    ensures g == l ==> (Resident(w.h, tag) <==> tag.group > 0)
  {
    ReachableInv(g, l, w);
    assert Holds(w, Shape);
    WindowsOfMap(g, l);
    AllGroupsOffloaded(g, l);
    var i := EntryOf(w, tag);
    NothingBuffered(w, tag);
    assert Offloads(w.ws, tag.group) ==> Started(w.ws, l, tag.group);
  }

  // ---------- Every group, every pass ----------

  /** Every group is really offloaded exactly when some layer keeps its activations. With as many groups as layers
      only group 0 is: each later offload is issued before its group is pushed. */
  lemma AllGroupsOffloaded(g: nat, l: nat)
    requires 1 <= g <= l
    ensures (forall x :: 0 <= x < g ==> Offloads(WindowSeq(g, l), x)) <==> g < l || l == 1
    ensures g == l ==> forall x :: 1 <= x < g ==> !Offloads(WindowSeq(g, l), x)
  {
    WindowAfterGroup(g, l);
    if g == l && l > 1 { assert !Offloads(WindowSeq(g, l), 1); }
  }

  /** The forward commit that offloads group x. */
  function IssuedAt(ws: seq<int>, x: nat): int
    requires x < |ws|
  {
    if x == 0 then 0 else ws[x - 1]
  }

  lemma GroupTurns(g: nat, l: nat, x: nat, c: nat)
    requires 1 <= g <= l && x < g && c < l
    ensures var ws := WindowSeq(g, l);
            && (Started(ws, c + 1, x) && !Started(ws, c, x) <==> c == IssuedAt(ws, x))
            && (InMapping(ws, Backward(c + 1), x) && !InMapping(ws, Backward(c), x) <==> c == ws[x])
            && InMapping(ws, Forward(l), x) && !InMapping(ws, Backward(0), x)
  {
    WindowsOfMap(g, l);
    var ws := WindowSeq(g, l);
    assert 0 <= ws[x] < l && (x > 0 ==> 0 <= ws[x - 1] < l);
  }

  /** Group x enters the mapping at one forward commit and leaves it at one backward commit, its window; no other commit
      puts it in or takes it out, so every pass offloads and reloads each group exactly once. */
  lemma OncePerPass(g: nat, l: nat, w: World, op: Op, x: nat)
    requires Reachable(g, l, w) && Legal(w, op) && x < g
    ensures Step(w, op).Ok? && |w.ws| == g
    ensures var v := Step(w, op).value.h;
            && (x !in w.h.mapping && x in v.mapping <==> op == CommitF && w.phase.c == IssuedAt(w.ws, x))
            && (x in w.h.mapping && x !in v.mapping <==> op == CommitB && w.phase.c - 1 == w.ws[x])
    ensures w.phase == Forward(l) ==> x in w.h.mapping
    ensures w.phase == Backward(0) ==> x !in w.h.mapping
  {
    ReachableStep(g, l, w, op);
    ReachableInv(g, l, w);
    assert Holds(w, Shape);
    WindowsOfMap(g, l);
    MappingKeys(g, l, w, x);
    MappingKeys(g, l, Step(w, op).value, x);
    ReachableInv(g, l, Step(w, op).value);
    if op == CommitF || op == CommitB { GroupTurns(g, l, x, if op == CommitF then w.phase.c else w.phase.c - 1); }
  }

  /** The mapping holds exactly those groups, so nothing is left of a pass once its tensors were taken back, and the
      next pass starts from the handler's initial state. */
  lemma PassRestores(g: nat, l: nat, w: World)
    requires Reachable(g, l, w) && Legal(w, NextPass)
    ensures w.h == InitHandler(w.ws).(streams := w.h.streams, reloads := w.h.reloads)
  {
    ReachableInv(g, l, w);
    NextPassInv(w);
    assert Holds(w, Shape);
    assert w.h.window == InitHandler(w.ws).window;
  }

  lemma MappingKeys(g: nat, l: nat, w: World, x: int)
    requires Reachable(g, l, w)
    ensures x in w.h.mapping <==> InMapping(w.ws, w.phase, x)
  {
    ReachableInv(g, l, w);
    assert Holds(w, Mapping);
  }
}
