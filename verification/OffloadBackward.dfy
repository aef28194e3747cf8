/** The backward commit: every group comes back before its turn, from its own host copies. */
module OffloadBackward {
  import opened Wrappers
  import opened OffloadModel
  import opened OffloadRuns

  // ---------- One reload ----------

  lemma StuckNowhere(es: seq<Entry>, g: int, copies: map<Key, seq<int>>)
    requires forall i :: 0 <= i < |es| && InGroup(es[i], g) && es[i].slot.Packed? ==> Viewable(es[i], copies)
    ensures FirstStuck(es, g, copies) == |es|
  {
  }

  /** A packed entry of the group has a host copy of the right size under its key. */
  lemma EntryViewable(ws: seq<int>, l: nat, phase: Phase, pushed: seq<seq<Tensor>>, popped: set<Tag>, e: Entry,
                      g: int, copies: map<Key, seq<int>>)
    requires TensorsInv(l, ws, phase, pushed, popped) && SlotRight(ws, phase, pushed, popped, e) && |ws| <= l
    requires InGroup(e, g) && e.slot.Packed? && CopiesOf(pushed[g], copies)
    ensures Viewable(e, copies)
  {
    var ts, j := pushed[g], e.tag.index;
    assert ts[j].key in copies && copies[ts[j].key] == ts[Source(ts, j)].data;
    assert |ts[Source(ts, j)].data| == |ts[j].data|;
  }

  /** Reloading group g, whose window is c, makes the slots those of Backward(c). */
  lemma ReloadSlot(ws: seq<int>, l: nat, phase: Phase, pushed: seq<seq<Tensor>>, popped: set<Tag>, e: Entry,
                   g: int, c: nat, copies: map<Key, seq<int>>)
    requires Windows(ws, l) && TensorsInv(l, ws, phase, pushed, popped) && SlotRight(ws, phase, pushed, popped, e)
    requires 0 <= g < |ws| && ws[g] == c && c + 1 == phase.c && (phase == Forward(l) || phase.Backward?)
    requires Offloads(ws, g) ==> CopiesOf(pushed[g], copies)
    ensures InGroup(e, g) && e.slot.Packed? ==> Viewable(e, copies)
    ensures SlotRight(ws, Backward(c), pushed, popped, ReloadEntry(e, g, copies))
  {
    if InGroup(e, g) && e.slot.Packed? {
      EntryViewable(ws, l, phase, pushed, popped, e, g, copies);
    }
    var x := e.tag.group;
    if Offloads(ws, x) && x != g { assert ws[x] != c; }
  }

  lemma KeepSlot(ws: seq<int>, pushed: seq<seq<Tensor>>, popped: set<Tag>, e: Entry, c: nat)
    requires SlotRight(ws, Backward(c + 1), pushed, popped, e) && forall i :: 0 <= i < |ws| ==> ws[i] != c
    ensures SlotRight(ws, Backward(c), pushed, popped, e)
  {
  }

  lemma ReloadEntries(ws: seq<int>, l: nat, phase: Phase, pushed: seq<seq<Tensor>>, popped: set<Tag>, es: seq<Entry>,
                      g: int, c: nat, copies: map<Key, seq<int>>)
    requires Windows(ws, l) && TensorsInv(l, ws, phase, pushed, popped) && EntriesInv(ws, phase, pushed, popped, es)
    requires 0 <= g < |ws| && ws[g] == c && c + 1 == phase.c && (phase == Forward(l) || phase.Backward?)
    requires Offloads(ws, g) ==> CopiesOf(pushed[g], copies)
    ensures FirstStuck(es, g, copies) == |es|
    ensures EntriesInv(ws, Backward(c), pushed, popped, ReloadGroup(es, g, copies))
  {
    var es2 := ReloadGroup(es, g, copies);
    forall i | 0 <= i < |es|
      ensures InGroup(es[i], g) && es[i].slot.Packed? ==> Viewable(es[i], copies)
      ensures SlotRight(ws, Backward(c), pushed, popped, es2[i]) && es2[i].tag == es[i].tag
    {
      assert SlotRight(ws, phase, pushed, popped, es[i]);
      ReloadSlot(ws, l, phase, pushed, popped, es[i], g, c, copies);
    }
    StuckNowhere(es, g, copies);
    SameTags(pushed, popped, es, es2);
  }

  lemma SameTags(pushed: seq<seq<Tensor>>, popped: set<Tag>, es: seq<Entry>, es2: seq<Entry>)
    requires |es| == |es2| && forall i :: 0 <= i < |es| ==> es2[i].tag == es[i].tag
    requires Ordered(es) && forall tag :: ValidTag(pushed, tag) && tag !in popped ==> HasTag(es, tag)
    ensures Ordered(es2) && forall tag :: ValidTag(pushed, tag) && tag !in popped ==> HasTag(es2, tag)
  {
    forall i, j | 0 <= i < j < |es2| ensures TagLess(es2[i].tag, es2[j].tag) { assert TagLess(es[i].tag, es[j].tag); }
    forall tag | ValidTag(pushed, tag) && tag !in popped ensures HasTag(es2, tag) {
      var i :| 0 <= i < |es| && es[i].tag == tag;
      assert es2[i].tag == tag;
    }
  }

  lemma KeepEntries(ws: seq<int>, pushed: seq<seq<Tensor>>, popped: set<Tag>, es: seq<Entry>, c: nat)
    requires EntriesInv(ws, Backward(c + 1), pushed, popped, es) && forall i :: 0 <= i < |ws| ==> ws[i] != c
    ensures EntriesInv(ws, Backward(c), pushed, popped, es)
  {
    forall i | 0 <= i < |es| ensures SlotRight(ws, Backward(c), pushed, popped, es[i]) {
      assert SlotRight(ws, Backward(c + 1), pushed, popped, es[i]);
      KeepSlot(ws, pushed, popped, es[i], c);
    }
  }

  // ---------- Which group comes back at commit c ----------

  ghost predicate Descends(phase: Phase, l: nat, c: nat) {
    c + 1 == phase.c <= l && (phase == Forward(l) || phase.Backward?)
  }

  lemma Returning(ws: seq<int>, l: nat, phase: Phase, c: nat, done: int)
    requires Windows(ws, l) && Descends(phase, l, c) && DoneInv(ws, phase, done)
    ensures 1 <= done <= |ws|
    ensures ws[done - 1] != c ==> (forall i :: 0 <= i < |ws| ==> ws[i] != c)
    ensures ws[done - 1] != c && c > 0 ==> DoneInv(ws, Backward(c), done)
    ensures ws[done - 1] == c && c > 0 ==> DoneInv(ws, Backward(c), if done > 1 then done - 1 else done)
  {
    if phase.Forward? { assert ws[|ws| - 1] < l; }
  }

  // ---------- Maps and streams ----------

  lemma ReloadMapping(ws: seq<int>, l: nat, phase: Phase, pushed: seq<seq<Tensor>>, mapping: map<int, Offloaded>,
                      g: int, c: nat)
    requires Windows(ws, l) && Descends(phase, l, c) && MappingInv(ws, phase, pushed, mapping) && 0 <= g < |ws| &&
             ws[g] == c
    ensures g in mapping && MappingInv(ws, Backward(c), pushed, mapping - {g})
  {
    if phase.Forward? && g > 0 { assert ws[g - 1] < ws[g]; }
    forall x ensures x in mapping - {g} <==> InMapping(ws, Backward(c), x) {
      assert x in mapping <==> InMapping(ws, phase, x);
      if phase.Forward? && 0 < x < |ws| { assert ws[x - 1] < l; }
      if 0 <= x < |ws| && x != g { assert ws[x] != c; }
    }
  }

  lemma KeepMapping(ws: seq<int>, phase: Phase, pushed: seq<seq<Tensor>>, mapping: map<int, Offloaded>, c: nat)
    requires phase == Backward(c + 1) && MappingInv(ws, phase, pushed, mapping)
    requires forall i :: 0 <= i < |ws| ==> ws[i] != c
    ensures MappingInv(ws, Backward(c), pushed, mapping)
  {
    forall x ensures x in mapping <==> InMapping(ws, Backward(c), x) {
      assert x in mapping <==> InMapping(ws, phase, x);
    }
  }

  lemma DownBuf(ws: seq<int>, l: nat, phase: Phase, pushed: seq<seq<Tensor>>, popped: set<Tag>,
                buf: map<Tag, Option<Tensor>>, done: int, c: nat, d: int)
    requires Windows(ws, l) && Descends(phase, l, c) && BufInv(ws, phase, pushed, popped, buf, done) &&
             DoneInv(ws, phase, done)
    ensures BufInv(ws, Backward(c), pushed, popped, buf, d)
  {
    if phase.Forward? { AllDone(ws, l, done); }
    forall x ensures BufAt(ws, Backward(c), pushed, popped, buf, d, x) { assert BufAt(ws, phase, pushed, popped, buf, done, x); }
  }

  lemma AllDone(ws: seq<int>, l: nat, done: int)
    requires Windows(ws, l) && DoneInv(ws, Forward(l), done)
    ensures done == |ws|
  {
    assert ws[|ws| - 1] < l;
  }

  function WaitAtFirst(c: nat, s: Streams): Streams { if c == 0 then ComputeWaitsH2d(s) else s }

  /** The streams after a reload of n tensors at commit c. */
  function ReloadedStreams(c: nat, s: Streams, n: nat): Streams {
    var s1 := ComputeWaitsH2d(H2dWaitsCompute(s));
    WaitAtFirst(c, s1.(hOps := s1.hOps + n))
  }

  /** The host copies are complete before the reload reads them, and earlier reloads before their use. */
  lemma ReloadStreams(ws: seq<int>, l: nat, phase: Phase, mapping: map<int, Offloaded>, reloads: map<int, Reload>,
                      done: int, s: Streams, g: int, c: nat, n: nat, d: int)
    requires Windows(ws, l) && Descends(phase, l, c) && StreamInv(ws, phase, mapping, reloads, done, s)
    requires DoneInv(ws, phase, done) && 0 <= g < |ws| && ws[g] == c && g in mapping
    requires forall x :: x in mapping ==> 0 <= x < |ws|
    ensures mapping[g].madeAt <= H2dWaitsCompute(s).hSawD
    ensures StreamInv(ws, Backward(c), mapping - {g}, reloads[g := Reload(H2dWaitsCompute(s).hSawD, s.hOps + n)], d, ReloadedStreams(c, s, n))
  {
    if phase.Forward? { AllDone(ws, l, done); }
    forall x | x in mapping ensures mapping[x].madeAt <= s.cSawD {
    }
    forall x | 0 <= x < |ws| && ws[x] >= c && x != g ensures x in reloads && reloads[x].madeAt <= s.hOps {
      assert ws[x] != c;
    }
    assert g > 0 ==> ws[g - 1] < c;
  }

  lemma KeepStreams(ws: seq<int>, mapping: map<int, Offloaded>, reloads: map<int, Reload>, done: int, s: Streams,
                    c: nat, d: int)
    requires StreamInv(ws, Backward(c + 1), mapping, reloads, done, s) && forall i :: 0 <= i < |ws| ==> ws[i] != c
    ensures StreamInv(ws, Backward(c), mapping, reloads, d, WaitAtFirst(c, s))
  {
    forall x | 0 <= x < |ws| && ws[x] >= c ensures ws[x] >= c + 1 && (x > 0 && c <= ws[x - 1] ==> c + 1 <= ws[x - 1]) {
    }
  }

  // ---------- The commit ----------

  /** The done-counter after commit c. */
  function NextDone(c: nat, done: int, reloaded: bool): int {
    if c == 0 then 0 else if reloaded && done > 1 then done - 1 else done
  }

  /** The commit finds the window of group g at c. */
  ghost predicate AtReload(h: Handler, g: int, c: nat) {
    h.current == c + 1 && g == h.done - 1 && 0 <= g < h.numOffload && g in h.window && h.window[g] == c
  }

  /** The commit finds no window at c. */
  ghost predicate NoWindow(h: Handler, c: nat) {
    h.current == c + 1 && h.done <= h.numOffload && h.done - 1 in h.window && h.window[h.done - 1] != c
  }

  /** The handler after backward commit c when it reloads group g and nothing fails. */
  function Reloaded(h: Handler, g: int, c: nat): Handler
    requires g in h.mapping
  {
    var n := |h.mapping[g].copies|;
    Handler(h.numOffload, h.window, c, h.count, ReloadGroup(h.entries, g, h.mapping[g].copies), h.buf,
            NextDone(c, h.done, true), h.mapping - {g}, ReloadedStreams(c, h.streams, n),
            h.reloads[g := Reload(H2dWaitsCompute(h.streams).hSawD, h.streams.hOps + n)])
  }

  lemma ReloadIs(h: Handler, g: int, c: nat)
    requires AtReload(h, g, c) && g in h.mapping && FirstStuck(h.entries, g, h.mapping[g].copies) == |h.entries|
    ensures CommitBackward(h) == Ok(Reloaded(h, g, c))
  {
  }

  /** The handler after backward commit c when no group is reloaded. */
  function Passed(h: Handler, c: nat): Handler {
    h.(current := c, done := NextDone(c, h.done, false), streams := WaitAtFirst(c, h.streams))
  }

  lemma PassIs(h: Handler, c: nat)
    requires NoWindow(h, c)
    ensures CommitBackward(h) == Ok(Passed(h, c))
  {
  }

  function Lowered(w: World, v: Handler): World
    requires w.phase.c > 0
  {
    w.(h := v, phase := Backward(w.phase.c - 1))
  }

  lemma StepIs(w: World, v: Handler)
    requires Legal(w, CommitB) && CommitBackward(w.h) == Ok(v)
    ensures Step(w, CommitB) == Ok(Lowered(w, v))
  {
  }

  lemma LoweredCounters(w: World, v: Handler)
    requires Inv(w) && Legal(w, CommitB)
    requires v.numOffload == w.h.numOffload && v.window == w.h.window && v.current == w.h.current - 1 &&
             v.count == w.h.count
    ensures CountersInv(Lowered(w, v)) && TensorsInv(w.l, w.ws, Backward(w.phase.c - 1), w.pushed, w.popped) &&
            Windows(w.ws, w.l)
  {
    assert Holds(w, Shape);
  }

  /** The fields a backward commit does not touch, and the group counter. */
  ghost predicate Carries(h: Handler, v: Handler) {
    v.numOffload == h.numOffload && v.window == h.window && v.current == h.current - 1 && v.count == h.count && v.buf == h.buf
  }

  ghost predicate LowerHolds(w: World, c: nat, v: Handler, part: Part) {
    match part
    case Entries => EntriesInv(w.ws, Backward(c), w.pushed, w.popped, v.entries)
    case Mapping => MappingInv(w.ws, Backward(c), w.pushed, v.mapping)
    case Counter => DoneInv(w.ws, Backward(c), v.done)
    case Progress => StreamInv(w.ws, Backward(c), v.mapping, v.reloads, v.done, v.streams)
    case Shape => true
    case Buffers => true
  }

  /** What the backward commit leaves in the maps and streams. */
  ghost predicate Lowers(w: World, c: nat, v: Handler) { forall part :: LowerHolds(w, c, v, part) }

  lemma LowersWhole(w: World, c: nat, v: Handler)
    requires LowerHolds(w, c, v, Entries) && LowerHolds(w, c, v, Mapping)
    requires LowerHolds(w, c, v, Counter) && LowerHolds(w, c, v, Progress)
    ensures Lowers(w, c, v)
  {
    forall part ensures LowerHolds(w, c, v, part) {
      match part
      case Entries =>
      case Mapping =>
      case Counter =>
      case Progress =>
      case Shape =>
      case Buffers =>
    }
  }

  lemma ReloadReady(w: World, g: int, c: nat)
    requires Inv(w) && Legal(w, CommitB) && c == w.phase.c - 1 && 0 <= g < |w.ws| && w.ws[g] == c
    ensures g in w.h.mapping && FirstStuck(w.h.entries, g, w.h.mapping[g].copies) == |w.h.entries|
    ensures EntriesInv(w.ws, Backward(c), w.pushed, w.popped, ReloadGroup(w.h.entries, g, w.h.mapping[g].copies))
    ensures MappingInv(w.ws, Backward(c), w.pushed, w.h.mapping - {g})
  {
    assert Holds(w, Shape) && Holds(w, Entries) && Holds(w, Mapping);
    ReloadMapping(w.ws, w.l, w.phase, w.pushed, w.h.mapping, g, c);
    ReloadEntries(w.ws, w.l, w.phase, w.pushed, w.popped, w.h.entries, g, c, w.h.mapping[g].copies);
  }

  lemma MappedGroups(w: World)
    requires Inv(w)
    ensures Windows(w.ws, w.l) && DoneInv(w.ws, w.phase, w.h.done)
    ensures StreamInv(w.ws, w.phase, w.h.mapping, w.h.reloads, w.h.done, w.h.streams)
    ensures forall x :: x in w.h.mapping ==> 0 <= x < |w.ws|
  {
    assert Holds(w, Shape) && Holds(w, Mapping) && Holds(w, Counter) && Holds(w, Progress);
    forall x | x in w.h.mapping ensures 0 <= x < |w.ws| { assert InMapping(w.ws, w.phase, x); }
  }

  lemma ReloadSynced(w: World, g: int, c: nat, n: nat, d: int)
    requires Inv(w) && Descends(w.phase, w.l, c) && 0 <= g < |w.ws| && w.ws[g] == c && g in w.h.mapping
    ensures w.h.mapping[g].madeAt <= H2dWaitsCompute(w.h.streams).hSawD
    ensures StreamInv(w.ws, Backward(c), w.h.mapping - {g}, w.h.reloads[g := Reload(H2dWaitsCompute(w.h.streams).hSawD, w.h.streams.hOps + n)], d, ReloadedStreams(c, w.h.streams, n))
  {
    MappedGroups(w);
    ReloadStreams(w.ws, w.l, w.phase, w.h.mapping, w.h.reloads, w.h.done, w.h.streams, g, c, n, d);
  }

  lemma CommitReady(w: World)
    requires Inv(w) && Legal(w, CommitB)
    ensures 1 <= w.h.done <= |w.ws| && w.h.done - 1 in w.h.window && w.h.window[w.h.done - 1] == w.ws[w.h.done - 1]
    ensures w.h.current == w.phase.c > 0 && w.h.numOffload == |w.ws| && w.phase.c <= w.l
    ensures w.ws[w.h.done - 1] != w.phase.c - 1 ==> w.phase.Backward? && Quiet(w.ws, w.phase.c - 1)
    ensures var c := w.phase.c - 1;
            DoneInv(w.ws, Backward(c), NextDone(c, w.h.done, w.ws[w.h.done - 1] == c))
  {
    assert Holds(w, Shape) && Holds(w, Counter);
    Returning(w.ws, w.l, w.phase, w.phase.c - 1, w.h.done);
    if w.phase.Forward? { AllDone(w.ws, w.l, w.h.done); }
  }

  ghost predicate ReloadStores(w: World, g: int, c: nat) {
    && g in w.h.mapping && FirstStuck(w.h.entries, g, w.h.mapping[g].copies) == |w.h.entries|
    && EntriesInv(w.ws, Backward(c), w.pushed, w.popped, ReloadGroup(w.h.entries, g, w.h.mapping[g].copies))
    && MappingInv(w.ws, Backward(c), w.pushed, w.h.mapping - {g})
  }

  ghost predicate ReloadProgress(w: World, g: int, c: nat, d: int)
    requires g in w.h.mapping
  {
    var n := |w.h.mapping[g].copies|;
    && DoneInv(w.ws, Backward(c), d)
    && StreamInv(w.ws, Backward(c), w.h.mapping - {g}, w.h.reloads[g := Reload(H2dWaitsCompute(w.h.streams).hSawD, w.h.streams.hOps + n)], d, ReloadedStreams(c, w.h.streams, n))
  }

  lemma ReloadedLowers(w: World, g: int, c: nat)
    requires w.h.current == c + 1 && ReloadStores(w, g, c) && ReloadProgress(w, g, c, NextDone(c, w.h.done, true))
    ensures Lowers(w, c, Reloaded(w.h, g, c)) && Carries(w.h, Reloaded(w.h, g, c))
  {
    LowersWhole(w, c, Reloaded(w.h, g, c));
  }

  lemma ReloadAssembles(w: World, g: int, c: nat) returns (v: Handler)
    requires AtReload(w.h, g, c) && ReloadStores(w, g, c) && ReloadProgress(w, g, c, NextDone(c, w.h.done, true))
    ensures CommitBackward(w.h) == Ok(v) && Lowers(w, c, v) && Carries(w.h, v)
  {
    ReloadedLowers(w, g, c);
    v := ReloadCommits(w.h, g, c);
  }

  lemma ReloadCommits(h: Handler, g: int, c: nat) returns (v: Handler)
    requires AtReload(h, g, c) && g in h.mapping && FirstStuck(h.entries, g, h.mapping[g].copies) == |h.entries|
    ensures CommitBackward(h) == Ok(v) && v == Reloaded(h, g, c)
  {
    ReloadIs(h, g, c);
    v := Reloaded(h, g, c);
  }

  lemma ReloadGather(w: World, g: int, c: nat)
    requires Inv(w) && Legal(w, CommitB) && c == w.phase.c - 1 && g == w.h.done - 1 && 0 <= g < |w.ws| && w.ws[g] == c
    ensures ReloadStores(w, g, c)
  {
    ReloadReady(w, g, c);
  }

  lemma ReloadGatherProgress(w: World, g: int, c: nat, d: int)
    requires Inv(w) && Legal(w, CommitB) && c == w.phase.c - 1 && g == w.h.done - 1 && 0 <= g < |w.ws| && w.ws[g] == c
    requires g in w.h.mapping && DoneInv(w.ws, Backward(c), d) && w.phase.c <= w.l
    ensures ReloadProgress(w, g, c, d)
  {
    ReloadSynced(w, g, c, |w.h.mapping[g].copies|, d);
  }

  lemma ReloadPrepared(w: World, g: int, c: nat)
    requires Inv(w) && Legal(w, CommitB) && c == w.phase.c - 1 && g == w.h.done - 1 && 0 <= g < |w.ws| && w.ws[g] == c
    requires DoneInv(w.ws, Backward(c), NextDone(c, w.h.done, true)) && w.phase.c <= w.l
    ensures ReloadStores(w, g, c) && ReloadProgress(w, g, c, NextDone(c, w.h.done, true))
  {
    ReloadGather(w, g, c);
    ReloadGatherProgress(w, g, c, NextDone(c, w.h.done, true));
  }

  lemma AtReloadFrom(w: World, g: int, c: nat)
    requires Inv(w) && Legal(w, CommitB) && c == w.phase.c - 1 && g == w.h.done - 1 && 0 <= g < |w.ws| && w.ws[g] == c
    ensures AtReload(w.h, g, c) && w.phase.c <= w.l && DoneInv(w.ws, Backward(c), NextDone(c, w.h.done, true))
  {
    CommitReady(w);
  }

  lemma ReloadLowers(w: World, g: int, c: nat) returns (v: Handler)
    requires Inv(w) && Legal(w, CommitB) && c == w.phase.c - 1 && g == w.h.done - 1 && 0 <= g < |w.ws| && w.ws[g] == c
    ensures CommitBackward(w.h) == Ok(v) && Lowers(w, c, v) && Carries(w.h, v)
  {
    AtReloadFrom(w, g, c);
    ReloadPrepared(w, g, c);
    v := ReloadAssembles(w, g, c);
  }

  /** No group returns at commit c. */
  ghost predicate Quiet(ws: seq<int>, c: nat) { forall i :: 0 <= i < |ws| ==> ws[i] != c }

  ghost predicate StoresKept(w: World, c: nat) {
    EntriesInv(w.ws, Backward(c), w.pushed, w.popped, w.h.entries) && MappingInv(w.ws, Backward(c), w.pushed, w.h.mapping)
  }

  ghost predicate ProgressKept(w: World, c: nat, d: int) {
    && DoneInv(w.ws, Backward(c), d)
    && StreamInv(w.ws, Backward(c), w.h.mapping, w.h.reloads, d, WaitAtFirst(c, w.h.streams))
  }

  lemma KeepAssembles(w: World, c: nat) returns (v: Handler)
    requires NoWindow(w.h, c) && StoresKept(w, c) && ProgressKept(w, c, NextDone(c, w.h.done, false))
    ensures CommitBackward(w.h) == Ok(v) && Lowers(w, c, v) && Carries(w.h, v)
  {
    PassIs(w.h, c);
    v := Passed(w.h, c);
    LowersWhole(w, c, v);
  }

  lemma KeepStores(w: World, c: nat)
    requires Inv(w) && w.phase == Backward(c + 1) && Quiet(w.ws, c)
    ensures StoresKept(w, c)
  {
    assert Holds(w, Entries) && Holds(w, Mapping);
    KeepEntries(w.ws, w.pushed, w.popped, w.h.entries, c);
    KeepMapping(w.ws, w.phase, w.pushed, w.h.mapping, c);
  }

  lemma KeepProgress(w: World, c: nat, d: int)
    requires Inv(w) && w.phase == Backward(c + 1) && Quiet(w.ws, c) && DoneInv(w.ws, Backward(c), d)
    ensures ProgressKept(w, c, d)
  {
    assert Holds(w, Progress);
    KeepStreams(w.ws, w.h.mapping, w.h.reloads, w.h.done, w.h.streams, c, d);
  }

  lemma KeepReady(w: World, c: nat)
    requires Inv(w) && Legal(w, CommitB) && c == w.phase.c - 1 && 1 <= w.h.done <= |w.ws| && w.ws[w.h.done - 1] != c
    ensures w.phase == Backward(c + 1) && Quiet(w.ws, c) && NoWindow(w.h, c)
    ensures DoneInv(w.ws, Backward(c), NextDone(c, w.h.done, false))
  {
    CommitReady(w);
  }

  lemma KeepLowers(w: World, c: nat) returns (v: Handler)
    requires Inv(w) && w.phase == Backward(c + 1) && Quiet(w.ws, c) && NoWindow(w.h, c)
    requires DoneInv(w.ws, Backward(c), NextDone(c, w.h.done, false))
    ensures CommitBackward(w.h) == Ok(v) && Lowers(w, c, v) && Carries(w.h, v)
  {
    KeepStores(w, c);
    KeepProgress(w, c, NextDone(c, w.h.done, false));
    v := KeepAssembles(w, c);
  }

  lemma LoweredBuffers(w: World, v: Handler)
    requires Inv(w) && Legal(w, CommitB) && v.buf == w.h.buf
    ensures BufInv(w.ws, Backward(w.phase.c - 1), w.pushed, w.popped, v.buf, v.done)
  {
    assert Holds(w, Shape) && Holds(w, Buffers) && Holds(w, Counter);
    DownBuf(w.ws, w.l, w.phase, w.pushed, w.popped, w.h.buf, w.h.done, w.phase.c - 1, v.done);
  }

  lemma LoweredInv(w: World, v: Handler)
    requires Inv(w) && Legal(w, CommitB) && Lowers(w, w.phase.c - 1, v) && Carries(w.h, v)
    ensures Inv(Lowered(w, v))
  {
    var c := w.phase.c - 1;
    LoweredCounters(w, v);
    LoweredBuffers(w, v);
    LoweredWhole(w, c, v);
  }

  lemma LoweredWhole(w: World, c: nat, v: Handler)
    requires w.phase.c == c + 1 && Lowers(w, c, v) && BufInv(w.ws, Backward(c), w.pushed, w.popped, v.buf, v.done)
    requires CountersInv(Lowered(w, v)) && TensorsInv(w.l, w.ws, Backward(c), w.pushed, w.popped) && Windows(w.ws, w.l)
    ensures Inv(Lowered(w, v))
  {
    assert LowerHolds(w, c, v, Entries) && LowerHolds(w, c, v, Mapping);
    assert LowerHolds(w, c, v, Counter) && LowerHolds(w, c, v, Progress);
    Whole(Lowered(w, v));
  }

  lemma CommitBackwardInv(w: World)
    requires Inv(w) && Legal(w, CommitB)
    ensures Step(w, CommitB).Ok? && Inv(Step(w, CommitB).value)
  {
    CommitReady(w);
    var v;
    if w.ws[w.h.done - 1] == w.phase.c - 1 { v := ReloadLowers(w, w.h.done - 1, w.phase.c - 1); } else {
      KeepReady(w, w.phase.c - 1);
      v := KeepLowers(w, w.phase.c - 1);
    }
    LoweredInv(w, v);
    StepIs(w, v);
  }
}
