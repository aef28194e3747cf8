/** The forward commit: every group's offload is issued once, over the tensors as they were pushed. */
module OffloadForward {
  import opened Wrappers
  import opened OffloadModel
  import opened OffloadRuns

  /** The groups whose offload has been issued before commit c. */
  function StartedSet(ws: seq<int>, c: int): set<int> { set g | 0 <= g < |ws| && Started(ws, c, g) }

  /** The slot of a tensor while the groups of `st` are offloaded. */
  function SlotIn(ws: seq<int>, st: set<int>, t: Tensor, g: int): Slot {
    if Offloads(ws, g) && g in st then Packed(t.key, t.shape) else OnDevice(t)
  }

  ghost predicate RightIn(ws: seq<int>, st: set<int>, pushed: seq<seq<Tensor>>, e: Entry) {
    ValidTag(pushed, e.tag) && e.slot == SlotIn(ws, st, pushed[e.tag.group][e.tag.index], e.tag.group)
  }

  ghost predicate EntriesIn(ws: seq<int>, st: set<int>, pushed: seq<seq<Tensor>>, es: seq<Entry>) {
    && (forall i :: 0 <= i < |es| ==> RightIn(ws, st, pushed, es[i]))
    && Ordered(es)
    && (forall tag :: ValidTag(pushed, tag) ==> HasTag(es, tag))
  }

  ghost predicate MappingIn(ws: seq<int>, st: set<int>, pushed: seq<seq<Tensor>>, mapping: map<int, Offloaded>) {
    && mapping.Keys == st
    && (forall g :: g in mapping && Offloads(ws, g) && g < |pushed| ==> CopiesOf(pushed[g], mapping[g].copies))
  }

  datatype MidPart = MidEntries | MidMapping | MidBuffers | MidStreams

  ghost predicate MidHolds(ws: seq<int>, c: nat, st: set<int>, pushed: seq<seq<Tensor>>, h: Handler, d: int,
                           part: MidPart) {
    match part
    case MidEntries => EntriesIn(ws, st, pushed, h.entries)
    case MidMapping => MappingIn(ws, st, pushed, h.mapping)
    case MidBuffers => BufInv(ws, Forward(c), pushed, {}, h.buf, d)
    case MidStreams => StreamInv(ws, Forward(c), h.mapping, h.reloads, d, h.streams)
  }

  /** A handler in the middle of a forward commit: the groups of `st` offloaded, those below `d` waited for. */
  ghost predicate Mid(ws: seq<int>, c: nat, st: set<int>, pushed: seq<seq<Tensor>>, h: Handler, d: int) {
    h.numOffload == |ws| && forall part :: MidHolds(ws, c, st, pushed, h, d, part)
  }

  lemma MidWhole(ws: seq<int>, c: nat, st: set<int>, pushed: seq<seq<Tensor>>, h: Handler, d: int)
    requires h.numOffload == |ws|
    requires MidHolds(ws, c, st, pushed, h, d, MidEntries) && MidHolds(ws, c, st, pushed, h, d, MidMapping)
    requires MidHolds(ws, c, st, pushed, h, d, MidBuffers) && MidHolds(ws, c, st, pushed, h, d, MidStreams)
    ensures Mid(ws, c, st, pushed, h, d)
  {
    forall part ensures MidHolds(ws, c, st, pushed, h, d, part) {
      match part
      case MidEntries =>
      case MidMapping =>
      case MidBuffers =>
      case MidStreams =>
    }
  }

  // ---------- One offload ----------

  lemma {:induction false} CollectFirst(es: seq<Entry>, g: int, n: nat, i: nat)
    requires i < n <= |es| && InGroup(es[i], g) && es[i].slot.OnDevice?
    requires forall k :: 0 <= k < i && InGroup(es[k], g) && es[k].slot.OnDevice? ==> es[k].slot.t.key != es[i].slot.t.key
    ensures es[i].slot.t.key in Collect(es, g, n) && Collect(es, g, n)[es[i].slot.t.key] == es[i].slot.t.data
    decreases n
  {
    if i < n - 1 {
      CollectFirst(es, g, n - 1, i);
    } else {
      CollectOnly(es, g, n - 1, es[i].slot.t.key);
    }
  }

  lemma {:induction false} CollectOnly(es: seq<Entry>, g: int, n: nat, key: Key)
    requires n <= |es|
    requires forall k :: 0 <= k < n && InGroup(es[k], g) && es[k].slot.OnDevice? ==> es[k].slot.t.key != key
    ensures key !in Collect(es, g, n)
  {
    if n > 0 { CollectOnly(es, g, n - 1, key); }
  }

  lemma CollectRight(ws: seq<int>, st: set<int>, pushed: seq<seq<Tensor>>, es: seq<Entry>, g: int, j: nat)
    requires EntriesIn(ws, st, pushed, es) && 0 <= g < |pushed| && g !in st && j < |pushed[g]|
    ensures var m := Collect(es, g, |es|);
            pushed[g][j].key in m && m[pushed[g][j].key] == pushed[g][Source(pushed[g], j)].data
  {
    var s := Source(pushed[g], j);
    assert ValidTag(pushed, Tag(g, s));
    assert HasTag(es, Tag(g, s));
    var i :| 0 <= i < |es| && es[i].tag == Tag(g, s);
    assert RightIn(ws, st, pushed, es[i]);
    forall k | 0 <= k < i && InGroup(es[k], g) && es[k].slot.OnDevice? ensures es[k].slot.t.key != es[i].slot.t.key {
      assert RightIn(ws, st, pushed, es[k]) && TagLess(es[k].tag, es[i].tag);
    }
    CollectFirst(es, g, |es|, i);
  }

  lemma CopiesRight(ws: seq<int>, st: set<int>, pushed: seq<seq<Tensor>>, es: seq<Entry>, g: int)
    requires EntriesIn(ws, st, pushed, es) && 0 <= g < |pushed| && g !in st
    ensures CopiesOf(pushed[g], Collect(es, g, |es|))
  {
    forall j | 0 <= j < |pushed[g]|
      ensures pushed[g][j].key in Collect(es, g, |es|) &&
              Collect(es, g, |es|)[pushed[g][j].key] == pushed[g][Source(pushed[g], j)].data
    {
      CollectRight(ws, st, pushed, es, g, j);
    }
  }

  lemma PackRight(ws: seq<int>, st: set<int>, pushed: seq<seq<Tensor>>, es: seq<Entry>, g: int)
    requires EntriesIn(ws, st, pushed, es) && g !in st
    requires Offloads(ws, g) || (0 <= g < |pushed| && pushed[g] == [])
    ensures !AnyPacked(es, g) && EntriesIn(ws, st + {g}, pushed, PackGroup(es, g))
  {
    var es2 := PackGroup(es, g);
    forall i | 0 <= i < |es|
      ensures RightIn(ws, st + {g}, pushed, es2[i]) && es2[i].tag == es[i].tag
      ensures InGroup(es[i], g) ==> !es[i].slot.Packed?
    {
      assert RightIn(ws, st, pushed, es[i]);
    }
    forall i, j | 0 <= i < j < |es2| ensures TagLess(es2[i].tag, es2[j].tag) {
      assert TagLess(es[i].tag, es[j].tag);
    }
    forall tag | ValidTag(pushed, tag) ensures HasTag(es2, tag) {
      var i :| 0 <= i < |es| && es[i].tag == tag;
      assert es2[i].tag == tag;
    }
  }

  lemma OffloadStreams(ws: seq<int>, c: nat, m: map<int, Offloaded>, reloads: map<int, Reload>, d: int, s: Streams,
                       g: int, n: nat, copies: map<Key, seq<int>>)
    requires StreamInv(ws, Forward(c), m, reloads, d, s) && d <= g
    ensures StreamInv(ws, Forward(c), m[g := Offloaded(copies, s.dSawC, s.dOps + n)], reloads, d, s.(dOps := s.dOps + n))
  {
  }

  lemma OffloadedEntries(ws: seq<int>, c: nat, st: set<int>, pushed: seq<seq<Tensor>>, h: Handler, d: int, g: int)
    requires Mid(ws, c, st, pushed, h, d) && g !in st && 0 <= g < |pushed| && (Offloads(ws, g) || pushed[g] == [])
    ensures !AnyPacked(h.entries, g) && EntriesIn(ws, st + {g}, pushed, PackGroup(h.entries, g))
  {
    assert MidHolds(ws, c, st, pushed, h, d, MidEntries);
    PackRight(ws, st, pushed, h.entries, g);
  }

  lemma OffloadedMapping(ws: seq<int>, c: nat, st: set<int>, pushed: seq<seq<Tensor>>, h: Handler, d: int, g: int,
                         after: nat, at: nat)
    requires Mid(ws, c, st, pushed, h, d) && g !in st && 0 <= g < |pushed|
    ensures MappingIn(ws, st + {g}, pushed, h.mapping[g := Offloaded(Collect(h.entries, g, |h.entries|), after, at)])
  {
    assert MidHolds(ws, c, st, pushed, h, d, MidEntries) && MidHolds(ws, c, st, pushed, h, d, MidMapping);
    CopiesRight(ws, st, pushed, h.entries, g);
  }

  lemma OffloadedStreams(ws: seq<int>, c: nat, st: set<int>, pushed: seq<seq<Tensor>>, h: Handler, d: int, g: int,
                         m: map<Key, seq<int>>)
    requires Mid(ws, c, st, pushed, h, d) && d <= g
    ensures StreamInv(ws, Forward(c), h.mapping[g := Offloaded(m, h.streams.dSawC, h.streams.dOps + |m|)], h.reloads, d,
                      h.streams.(dOps := h.streams.dOps + |m|))
  {
    assert MidHolds(ws, c, st, pushed, h, d, MidStreams);
    OffloadStreams(ws, c, h.mapping, h.reloads, d, h.streams, g, |m|, m);
  }

  lemma OffloadStep(ws: seq<int>, c: nat, st: set<int>, pushed: seq<seq<Tensor>>, h: Handler, d: int, g: int)
    requires Mid(ws, c, st, pushed, h, d) && g !in st && d <= g && 0 <= g < |pushed|
    requires Offloads(ws, g) || pushed[g] == []
    ensures BulkOffload(h, g).Ok? && Mid(ws, c, st + {g}, pushed, BulkOffload(h, g).value, d)
    ensures BulkOffload(h, g).value.done == h.done && BulkOffload(h, g).value.window == h.window
    ensures BulkOffload(h, g).value.current == h.current && BulkOffload(h, g).value.numOffload == h.numOffload
  {
    var m := Collect(h.entries, g, |h.entries|);
    OffloadedEntries(ws, c, st, pushed, h, d, g);
    OffloadedMapping(ws, c, st, pushed, h, d, g, h.streams.dSawC, h.streams.dOps + |m|);
    OffloadedStreams(ws, c, st, pushed, h, d, g, m);
    assert MidHolds(ws, c, st, pushed, h, d, MidBuffers);
    MidWhole(ws, c, st + {g}, pushed, BulkOffload(h, g).value, d);
  }

  // ---------- The window ----------

  lemma DropBuf(ws: seq<int>, c: nat, pushed: seq<seq<Tensor>>, buf: map<Tag, Option<Tensor>>, d: int)
    requires BufInv(ws, Forward(c), pushed, {}, buf, d)
    ensures BufInv(ws, Forward(c), pushed, {}, DropGroup(buf, d), d + 1)
  {
    var buf2, d2 := DropGroup(buf, d), d + 1;
    forall x ensures BufAt(ws, Forward(c), pushed, {}, buf2, d2, x) {
      assert BufAt(ws, Forward(c), pushed, {}, buf, d, x);
    }
  }

  lemma WaitMid(ws: seq<int>, c: nat, st: set<int>, pushed: seq<seq<Tensor>>, h: Handler, d: int)
    requires Mid(ws, c, st, pushed, h, d) && h.done == d
    ensures Mid(ws, c, st, pushed, Released(h), d + 1)
  {
    assert MidHolds(ws, c, st, pushed, h, d, MidBuffers) && MidHolds(ws, c, st, pushed, h, d, MidEntries);
    assert MidHolds(ws, c, st, pushed, h, d, MidMapping) && MidHolds(ws, c, st, pushed, h, d, MidStreams);
    DropBuf(ws, c, pushed, h.buf, d);
    MidWhole(ws, c, st, pushed, Released(h), d + 1);
  }

  lemma MidDone(ws: seq<int>, c: nat, st: set<int>, pushed: seq<seq<Tensor>>, h: Handler, d: int, done: int)
    requires Mid(ws, c, st, pushed, h, d)
    ensures Mid(ws, c, st, pushed, h.(done := done), d)
  {
    assert MidHolds(ws, c, st, pushed, h, d, MidBuffers) && MidHolds(ws, c, st, pushed, h, d, MidEntries);
    assert MidHolds(ws, c, st, pushed, h, d, MidMapping) && MidHolds(ws, c, st, pushed, h, d, MidStreams);
    MidWhole(ws, c, st, pushed, h.(done := done), d);
  }

  /** At a window nothing is dropped before its copy is waited for, and the next group's offload starts. */
  lemma WindowNext(ws: seq<int>, c: nat, st: set<int>, pushed: seq<seq<Tensor>>, h: Handler, next: int)
    requires Mid(ws, c, st, pushed, h, h.done) && next == h.done + 1 && 0 < next < |ws| <= |pushed|
    requires next !in st && (Offloads(ws, next) || pushed[next] == [])
    ensures AtWindow(h).Ok? && Mid(ws, c, st + {next}, pushed, AtWindow(h).value, next)
    ensures var v := AtWindow(h).value; v.done == next && v.window == h.window && v.current == h.current
  {
    var h1 := Released(h);
    WaitMid(ws, c, st, pushed, h, h.done);
    OffloadStep(ws, c, st, pushed, h1, next, next);
    MidDone(ws, c, st + {next}, pushed, BulkOffload(h1, next).value, next, next);
  }

  lemma WindowLast(ws: seq<int>, c: nat, st: set<int>, pushed: seq<seq<Tensor>>, h: Handler)
    requires Mid(ws, c, st, pushed, h, h.done) && h.done == |ws| - 1 && 0 < |ws| <= |pushed|
    ensures AtWindow(h).Ok? && Mid(ws, c, st, pushed, AtWindow(h).value, |ws|)
    ensures var v := AtWindow(h).value; v.done == |ws| && v.window == h.window && v.current == h.current
  {
    var h1 := Released(h);
    WaitMid(ws, c, st, pushed, h, h.done);
    MidDone(ws, c, st, pushed, h1, |ws|, |ws|);
  }

  // ---------- The commit ----------

  lemma StartEntries(w: World)
    requires Inv(w) && w.phase.Forward?
    ensures EntriesIn(w.ws, StartedSet(w.ws, w.phase.c), w.pushed, w.h.entries)
  {
    assert Holds(w, Shape) && Holds(w, Entries);
    var st, es := StartedSet(w.ws, w.phase.c), w.h.entries;
    forall i | 0 <= i < |es| ensures RightIn(w.ws, st, w.pushed, es[i]) {
      assert SlotRight(w.ws, w.phase, w.pushed, w.popped, es[i]);
    }
  }

  lemma StartMapping(w: World)
    requires Inv(w) && w.phase.Forward?
    ensures MappingIn(w.ws, StartedSet(w.ws, w.phase.c), w.pushed, w.h.mapping)
  {
    assert Holds(w, Mapping);
  }

  lemma StartMid(w: World)
    requires Inv(w) && w.phase.Forward?
    ensures Mid(w.ws, w.phase.c, StartedSet(w.ws, w.phase.c), w.pushed, w.h, w.h.done)
  {
    StartEntries(w);
    StartMapping(w);
    assert Holds(w, Shape) && Holds(w, Buffers) && Holds(w, Progress);
    MidWhole(w.ws, w.phase.c, StartedSet(w.ws, w.phase.c), w.pushed, w.h, w.h.done);
  }

  lemma EndEntries(ws: seq<int>, c: nat, pushed: seq<seq<Tensor>>, es: seq<Entry>)
    requires EntriesIn(ws, StartedSet(ws, c), pushed, es)
    ensures EntriesInv(ws, Forward(c), pushed, {}, es)
  {
    forall i | 0 <= i < |es| ensures SlotRight(ws, Forward(c), pushed, {}, es[i]) {
      assert RightIn(ws, StartedSet(ws, c), pushed, es[i]);
    }
  }

  lemma EndMapping(ws: seq<int>, c: nat, pushed: seq<seq<Tensor>>, mapping: map<int, Offloaded>)
    requires MappingIn(ws, StartedSet(ws, c), pushed, mapping)
    ensures MappingInv(ws, Forward(c), pushed, mapping)
  {
  }

  lemma EndBuffers(ws: seq<int>, c: nat, pushed: seq<seq<Tensor>>, buf: map<Tag, Option<Tensor>>, d: int)
    requires BufInv(ws, Forward(c), pushed, {}, buf, d)
    ensures BufInv(ws, Forward(c + 1), pushed, {}, buf, d)
  {
    var next := Forward(c + 1);
    forall x ensures BufAt(ws, next, pushed, {}, buf, d, x) { assert BufAt(ws, Forward(c), pushed, {}, buf, d, x); }
  }

  lemma EndStores(ws: seq<int>, l: nat, c: nat, pushed: seq<seq<Tensor>>, h: Handler, d: int)
    requires Mid(ws, c, StartedSet(ws, c + 1), pushed, h, d)
    ensures EntriesInv(ws, Forward(c + 1), pushed, {}, h.entries) && MappingInv(ws, Forward(c + 1), pushed, h.mapping)
    ensures BufInv(ws, Forward(c + 1), pushed, {}, h.buf, d)
    ensures StreamInv(ws, Forward(c + 1), h.mapping, h.reloads, d, h.streams)
  {
    var st := StartedSet(ws, c + 1);
    assert MidHolds(ws, c, st, pushed, h, d, MidEntries) && MidHolds(ws, c, st, pushed, h, d, MidMapping);
    assert MidHolds(ws, c, st, pushed, h, d, MidBuffers) && MidHolds(ws, c, st, pushed, h, d, MidStreams);
    EndEntries(ws, c + 1, pushed, h.entries);
    EndMapping(ws, c + 1, pushed, h.mapping);
    EndBuffers(ws, c, pushed, h.buf, d);
  }

  /** The world after a forward commit. */
  function Advanced(w: World, v: Handler): World
    requires w.phase.Forward?
  {
    w.(h := v.(current := v.current + 1, count := 0), phase := Forward(w.phase.c + 1))
  }

  lemma EndCounters(w: World, h: Handler)
    requires Inv(w) && w.phase.Forward? && w.phase.c < w.l
    requires h.window == w.h.window && h.current == w.h.current && h.numOffload == |w.ws|
    ensures var w2 := Advanced(w, h);
            CountersInv(w2) && TensorsInv(w2.l, w2.ws, w2.phase, w2.pushed, w2.popped) && Windows(w2.ws, w2.l) && w.popped == {}
  {
    assert Holds(w, Shape);
  }

  /** With the new group's start and the new counters the invariant holds after the commit. */
  lemma EndMid(w: World, h: Handler)
    requires Inv(w) && w.phase.Forward? && w.phase.c < w.l
    requires Mid(w.ws, w.phase.c, StartedSet(w.ws, w.phase.c + 1), w.pushed, h, h.done)
    requires DoneInv(w.ws, Forward(w.phase.c + 1), h.done) && h.window == w.h.window && h.current == w.h.current
    ensures Inv(Advanced(w, h))
  {
    EndStores(w.ws, w.l, w.phase.c, w.pushed, h, h.done);
    EndCounters(w, h);
    EndParts(Advanced(w, h));
  }

  lemma EndParts(v: World)
    requires v.popped == {} && Windows(v.ws, v.l) && TensorsInv(v.l, v.ws, v.phase, v.pushed, {}) && CountersInv(v)
    requires EntriesInv(v.ws, v.phase, v.pushed, {}, v.h.entries) && MappingInv(v.ws, v.phase, v.pushed, v.h.mapping)
    requires DoneInv(v.ws, v.phase, v.h.done) && BufInv(v.ws, v.phase, v.pushed, {}, v.h.buf, v.h.done)
    requires StreamInv(v.ws, v.phase, v.h.mapping, v.h.reloads, v.h.done, v.h.streams)
    ensures Inv(v)
  {
    Whole(v);
  }

  /** Which group's offload starts at commit c. */
  lemma NewStarts(ws: seq<int>, l: nat, c: nat, done: int)
    requires Windows(ws, l) && c < l && DoneInv(ws, Forward(c), done)
    ensures 0 <= done < |ws|
    ensures ws[done] != c ==> DoneInv(ws, Forward(c + 1), done)
    ensures ws[done] == c ==> DoneInv(ws, Forward(c + 1), done + 1)
    ensures var st := if c == 0 then StartedSet(ws, 0) + {0} else StartedSet(ws, c);
            && (ws[done] != c ==> StartedSet(ws, c + 1) == st)
            && (ws[done] == c && done + 1 == |ws| ==> StartedSet(ws, c + 1) == st)
            && (ws[done] == c && done + 1 < |ws| ==> StartedSet(ws, c + 1) == st + {done + 1} && done + 1 !in st)
  {
    assert ws[|ws| - 1] >= c;
  }

  /** The groups offloaded once a first commit has kicked off group 0. */
  function KickedSet(ws: seq<int>, c: nat): set<int> {
    if c == 0 then StartedSet(ws, 0) + {0} else StartedSet(ws, c)
  }

  ghost predicate SameFields(h: Handler, v: Handler) { v.window == h.window && v.current == h.current }

  lemma WaitedMid(ws: seq<int>, st: set<int>, pushed: seq<seq<Tensor>>, h: Handler, d: int)
    requires Mid(ws, 0, st, pushed, h, d)
    ensures Mid(ws, 0, st, pushed, h.(streams := D2hWaitsCompute(h.streams)), d)
  {
    assert MidHolds(ws, 0, st, pushed, h, d, MidBuffers) && MidHolds(ws, 0, st, pushed, h, d, MidEntries);
    assert MidHolds(ws, 0, st, pushed, h, d, MidMapping) && MidHolds(ws, 0, st, pushed, h, d, MidStreams);
    MidWhole(ws, 0, st, pushed, h.(streams := D2hWaitsCompute(h.streams)), d);
  }

  lemma KickStep(ws: seq<int>, l: nat, c: nat, pushed: seq<seq<Tensor>>, h: Handler)
    requires Windows(ws, l) && c < l && |pushed| == l && DoneInv(ws, Forward(c), h.done)
    requires Mid(ws, c, StartedSet(ws, c), pushed, h, h.done)
    ensures Kicked(h, c).Ok?
    ensures var v := Kicked(h, c).value;
            Mid(ws, c, KickedSet(ws, c), pushed, v, h.done) && v.done == h.done && SameFields(h, v)
  {
    if c == 0 {
      var h0 := h.(streams := D2hWaitsCompute(h.streams));
      WaitedMid(ws, StartedSet(ws, 0), pushed, h, h.done);
      assert h.done <= 0 by { assert ws[0] >= 0; }
      OffloadStep(ws, 0, StartedSet(ws, 0), pushed, h0, h.done, 0);
    }
  }

  /** Layers after the current one have not pushed anything yet. */
  ghost predicate LaterEmpty(pushed: seq<seq<Tensor>>, c: nat) { forall g :: c < g < |pushed| ==> pushed[g] == [] }

  lemma WindowStep(ws: seq<int>, l: nat, c: nat, pushed: seq<seq<Tensor>>, h: Handler)
    requires Windows(ws, l) && c < l && |pushed| == l && LaterEmpty(pushed, c) && DoneInv(ws, Forward(c), h.done)
    requires Mid(ws, c, KickedSet(ws, c), pushed, h, h.done) && 0 <= h.done < |ws| && ws[h.done] == c
    ensures AtWindow(h).Ok?
    ensures var v := AtWindow(h).value;
            Mid(ws, c, StartedSet(ws, c + 1), pushed, v, v.done) && v.done == h.done + 1 && SameFields(h, v)
  {
    NewStarts(ws, l, c, h.done);
    if h.done + 1 < |ws| {
      // complete, or nothing of it pushed yet
      assert Offloads(ws, h.done + 1) || pushed[h.done + 1] == [];
      WindowNext(ws, c, KickedSet(ws, c), pushed, h, h.done + 1);
    } else {
      WindowLast(ws, c, KickedSet(ws, c), pushed, h);
    }
  }

  ghost predicate WindowsIn(ws: seq<int>, window: map<int, int>) {
    (forall i :: i in window <==> 0 <= i < |ws|) && (forall i :: 0 <= i < |ws| ==> window[i] == ws[i])
  }

  /** A handler about to synchronize at forward commit c. */
  ghost predicate Ready(ws: seq<int>, l: nat, c: nat, pushed: seq<seq<Tensor>>, h: Handler) {
    && Windows(ws, l) && c < l && |pushed| == l && LaterEmpty(pushed, c) && DoneInv(ws, Forward(c), h.done)
    && Mid(ws, c, StartedSet(ws, c), pushed, h, h.done) && WindowsIn(ws, h.window)
  }

  /** The handler after it. */
  ghost predicate Synced(ws: seq<int>, c: nat, pushed: seq<seq<Tensor>>, h: Handler, v: Handler) {
    && SynchronizeForward(h, c) == Ok(v) && SameFields(h, v)
    && Mid(ws, c, StartedSet(ws, c + 1), pushed, v, v.done) && DoneInv(ws, Forward(c + 1), v.done)
  }

  lemma SyncAtWindow(ws: seq<int>, l: nat, c: nat, pushed: seq<seq<Tensor>>, h: Handler) returns (v: Handler)
    requires Ready(ws, l, c, pushed, h) && 0 <= h.done < |ws| && ws[h.done] == c
    ensures Synced(ws, c, pushed, h, v)
  {
    KickStep(ws, l, c, pushed, h);
    NewStarts(ws, l, c, h.done);
    var k := Kicked(h, c).value;
    WindowStep(ws, l, c, pushed, k);
    v := AtWindow(k).value;
    SyncIs(c, h, k, Ok(v));
  }

  lemma SyncIs(c: nat, h: Handler, k: Handler, v: Result<Handler, Error>)
    requires Kicked(h, c) == Ok(k) && k.done in k.window && v == if k.window[k.done] == c then AtWindow(k) else Ok(k)
    ensures SynchronizeForward(h, c) == v
  {
  }

  lemma SyncBefore(ws: seq<int>, l: nat, c: nat, pushed: seq<seq<Tensor>>, h: Handler) returns (v: Handler)
    requires Ready(ws, l, c, pushed, h) && 0 <= h.done < |ws| && ws[h.done] != c
    ensures Synced(ws, c, pushed, h, v)
  {
    KickStep(ws, l, c, pushed, h);
    NewStarts(ws, l, c, h.done);
    v := Kicked(h, c).value;
    SyncIs(c, h, v, Ok(v));
  }

  lemma SyncStep(ws: seq<int>, l: nat, c: nat, pushed: seq<seq<Tensor>>, h: Handler) returns (v: Handler)
    requires Ready(ws, l, c, pushed, h)
    ensures Synced(ws, c, pushed, h, v)
  {
    NewStarts(ws, l, c, h.done);
    if ws[h.done] == c { v := SyncAtWindow(ws, l, c, pushed, h); } else { v := SyncBefore(ws, l, c, pushed, h); }
  }

  lemma SyncReady(w: World)
    requires Inv(w) && Legal(w, CommitF)
    ensures Ready(w.ws, w.l, w.phase.c, w.pushed, w.h) && w.h.current == w.phase.c
  {
    StartMid(w);
    assert Holds(w, Shape) && Holds(w, Counter);
  }

  lemma Committed(w: World, v: Handler)
    requires Legal(w, CommitF) && w.h.current == w.phase.c && SynchronizeForward(w.h, w.phase.c) == Ok(v)
    ensures Step(w, CommitF) == Ok(Advanced(w, v))
  {
  }

  lemma SyncedInv(w: World, v: Handler)
    requires Inv(w) && Legal(w, CommitF) && Synced(w.ws, w.phase.c, w.pushed, w.h, v)
    ensures Inv(Advanced(w, v))
  {
    EndMid(w, v);
  }

  lemma CommitForwardInv(w: World)
    requires Inv(w) && Legal(w, CommitF)
    ensures Step(w, CommitF).Ok? && Inv(Step(w, CommitF).value)
  {
    SyncReady(w);
    var v := SyncStep(w.ws, w.l, w.phase.c, w.pushed, w.h);
    SyncedInv(w, v);
    Committed(w, v);
  }
}
