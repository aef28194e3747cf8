/** Every legal call of a run succeeds and keeps the invariant. */
module OffloadSteps {
  import opened Wrappers
  import opened OffloadModel
  import opened OffloadRuns

  // ---------- tensor_push ----------

  lemma PushFresh(w: World, i: nat)
    requires Inv(w) && w.phase.Forward? && w.phase.c < w.l == |w.pushed| && i < |w.h.entries|
    ensures TagLess(w.h.entries[i].tag, Tag(w.phase.c, |w.pushed[w.phase.c]|))
  {
    assert Holds(w, Shape) && Holds(w, Entries);
    assert SlotRight(w.ws, w.phase, w.pushed, w.popped, w.h.entries[i]);
  }

  lemma PushSlots(w: World, t: Tensor, i: nat)
    requires Inv(w) && Legal(w, PushT(t)) && i <= |w.h.entries|
    ensures var c := w.phase.c;
            SlotRight(w.ws, w.phase, w.pushed[c := w.pushed[c] + [t]], w.popped,
                      (w.h.entries + [Entry(Tag(c, |w.pushed[c]|), OnDevice(t))])[i])
  {
    assert Holds(w, Shape) && Holds(w, Entries);
    if i < |w.h.entries| { assert SlotRight(w.ws, w.phase, w.pushed, w.popped, w.h.entries[i]); }
  }

  lemma PushCovers(w: World, t: Tensor, x: Tag)
    requires Inv(w) && Legal(w, PushT(t))
    requires ValidTag(w.pushed[w.phase.c := w.pushed[w.phase.c] + [t]], x) && x !in w.popped
    ensures HasTag(w.h.entries + [Entry(Tag(w.phase.c, |w.pushed[w.phase.c]|), OnDevice(t))], x)
  {
    assert Holds(w, Entries);
    var es := w.h.entries;
    var es2 := es + [Entry(Tag(w.phase.c, |w.pushed[w.phase.c]|), OnDevice(t))];
    if x == Tag(w.phase.c, |w.pushed[w.phase.c]|) {
      assert es2[|es|].tag == x;
    } else {
      assert ValidTag(w.pushed, x);
      var i :| 0 <= i < |es| && es[i].tag == x;
      assert es2[i].tag == x;
    }
  }

  lemma PushEntries(w: World, t: Tensor)
    requires Inv(w) && Legal(w, PushT(t))
    ensures var c := w.phase.c;
            var tag := Tag(c, |w.pushed[c]|);
            && !HasTag(w.h.entries, tag)
            && EntriesInv(w.ws, w.phase, w.pushed[c := w.pushed[c] + [t]], w.popped, w.h.entries + [Entry(tag, OnDevice(t))])
  {
    assert Holds(w, Entries);
    var c, es := w.phase.c, w.h.entries;
    var tag, pushed := Tag(c, |w.pushed[c]|), w.pushed[c := w.pushed[c] + [t]];
    var es2 := es + [Entry(tag, OnDevice(t))];
    forall i | 0 <= i < |es| ensures TagLess(es[i].tag, tag) { PushFresh(w, i); }
    forall i | 0 <= i < |es2| ensures SlotRight(w.ws, w.phase, pushed, w.popped, es2[i]) { PushSlots(w, t, i); }
    forall x | ValidTag(pushed, x) && x !in w.popped ensures HasTag(es2, x) { PushCovers(w, t, x); }
  }

  lemma DoneBehind(ws: seq<int>, l: nat, c: nat, done: int)
    requires Windows(ws, l) && DoneInv(ws, Forward(c), done)
    ensures done <= c && (c < l ==> done < |ws|)
  {
    if done > 0 { assert ws[done - 1] >= done - 1; }
  }

  lemma PushBuf(ws: seq<int>, c: nat, pushed: seq<seq<Tensor>>, buf: map<Tag, Option<Tensor>>, done: int, t: Tensor)
    requires c < |pushed| && done <= c && BufInv(ws, Forward(c), pushed, {}, buf, done)
    ensures BufInv(ws, Forward(c), pushed[c := pushed[c] + [t]], {},
                   if c < |ws| then buf[Tag(c, |pushed[c]|) := Some(t)] else buf, done)
  {
    var pushed2, tag := pushed[c := pushed[c] + [t]], Tag(c, |pushed[c]|);
    var buf2 := if c < |ws| then buf[tag := Some(t)] else buf;
    forall x ensures BufAt(ws, Forward(c), pushed2, {}, buf2, done, x) {
      assert BufAt(ws, Forward(c), pushed, {}, buf, done, x);
    }
  }

  lemma PushMapping(w: World, t: Tensor)
    requires Inv(w) && Legal(w, PushT(t))
    ensures MappingInv(w.ws, w.phase, w.pushed[w.phase.c := w.pushed[w.phase.c] + [t]], w.h.mapping)
  {
    assert Holds(w, Shape) && Holds(w, Mapping);
  }

  lemma PushShape(w: World, t: Tensor, h: Handler)
    requires Inv(w) && Legal(w, PushT(t))
    requires h.numOffload == w.h.numOffload && h.window == w.h.window && h.current == w.h.current &&
             h.count == w.h.count + 1
    ensures var v := w.(h := h, pushed := w.pushed[w.phase.c := w.pushed[w.phase.c] + [t]]);
            Windows(v.ws, v.l) && TensorsInv(v.l, v.ws, v.phase, v.pushed, v.popped) && CountersInv(v)
  {
    assert Holds(w, Shape);
  }

  lemma PushedBuf(w: World, t: Tensor)
    requires Inv(w) && Legal(w, PushT(t))
    ensures var c := w.phase.c;
            BufInv(w.ws, w.phase, w.pushed[c := w.pushed[c] + [t]], w.popped,
                   if c < |w.ws| then w.h.buf[Tag(c, |w.pushed[c]|) := Some(t)] else w.h.buf, w.h.done)
  {
    assert Holds(w, Shape) && Holds(w, Counter) && Holds(w, Buffers);
    DoneBehind(w.ws, w.l, w.phase.c, w.h.done);
    PushBuf(w.ws, w.phase.c, w.pushed, w.h.buf, w.h.done, t);
  }

  /** The tag a push hands out is the next one of the current group. */
  lemma PushTag(w: World, t: Tensor)
    requires Inv(w) && Legal(w, PushT(t))
    ensures w.h.current == w.phase.c && w.h.count == |w.pushed[w.phase.c]| && w.h.numOffload == |w.ws|
    ensures DoneInv(w.ws, w.phase, w.h.done) &&
            StreamInv(w.ws, w.phase, w.h.mapping, w.h.reloads, w.h.done, w.h.streams)
  {
    assert Holds(w, Shape) && Holds(w, Counter) && Holds(w, Progress);
  }

  lemma PushInv(w: World, t: Tensor)
    requires Inv(w) && Legal(w, PushT(t))
    ensures Step(w, PushT(t)).Ok? && Inv(Step(w, PushT(t)).value)
    ensures Push(w.h, t).Ok? && Push(w.h, t).value.1 == Tag(w.phase.c, |w.pushed[w.phase.c]|)
  {
    PushTag(w, t);
    PushEntries(w, t);
    var v := Step(w, PushT(t)).value;
    PushMapping(w, t);
    PushShape(w, t, v.h);
    PushedBuf(w, t);
    Whole(v);
  }

  // ---------- tensor_pop ----------

  lemma FindEntry(es: seq<Entry>, tag: Tag, i: nat)
    requires i < |es| && es[i].tag == tag && Ordered(es)
    ensures Find(es, tag) == i
  {
    var f := Find(es, tag);
    assert f <= i;
    assert f < i ==> TagLess(es[f].tag, es[i].tag);
  }

  lemma PopSlots(ws: seq<int>, phase: Phase, pushed: seq<seq<Tensor>>, popped: set<Tag>, es: seq<Entry>, tag: Tag,
                 i: nat, j: nat)
    requires (forall k :: 0 <= k < |es| ==> SlotRight(ws, phase, pushed, popped, es[k])) && Ordered(es)
    requires i < |es| && es[i].tag == tag && j < |es| - 1
    ensures SlotRight(ws, phase, pushed, popped + {tag}, (es[..i] + es[i+1..])[j])
  {
    var k := if j < i then j else j + 1;
    assert (es[..i] + es[i+1..])[j] == es[k] && SlotRight(ws, phase, pushed, popped, es[k]);
    assert if k < i then TagLess(es[k].tag, es[i].tag) else TagLess(es[i].tag, es[k].tag);
  }

  lemma PopCovers(es: seq<Entry>, i: nat, x: Tag)
    requires i < |es| && HasTag(es, x) && es[i].tag != x
    ensures HasTag(es[..i] + es[i+1..], x)
  {
    var es2 := es[..i] + es[i+1..];
    var k :| 0 <= k < |es| && es[k].tag == x;
    assert es2[if k < i then k else k - 1].tag == x;
  }

  lemma PopOrdered(es: seq<Entry>, i: nat)
    requires i < |es| && Ordered(es)
    ensures Ordered(es[..i] + es[i+1..])
  {
    var es2 := es[..i] + es[i+1..];
    forall a, b | 0 <= a < b < |es2| ensures TagLess(es2[a].tag, es2[b].tag) {
      assert TagLess(es[if a < i then a else a + 1].tag, es[if b < i then b else b + 1].tag);
    }
  }

  lemma PopEntries(ws: seq<int>, phase: Phase, pushed: seq<seq<Tensor>>, popped: set<Tag>, es: seq<Entry>, tag: Tag,
                   i: nat)
    requires EntriesInv(ws, phase, pushed, popped, es) && i < |es| && es[i].tag == tag
    ensures EntriesInv(ws, phase, pushed, popped + {tag}, es[..i] + es[i+1..])
  {
    var es2 := es[..i] + es[i+1..];
    forall j | 0 <= j < |es2| ensures SlotRight(ws, phase, pushed, popped + {tag}, es2[j]) {
      PopSlots(ws, phase, pushed, popped, es, tag, i, j);
    }
    PopOrdered(es, i);
    forall x | ValidTag(pushed, x) && x !in popped + {tag} ensures HasTag(es2, x) { PopCovers(es, i, x); }
  }

  /** What a pop finds: the tensor that was pushed, or what the reload made of it. */
  lemma PopFinds(w: World, tag: Tag) returns (i: nat)
    requires Inv(w) && Legal(w, PopT(tag))
    ensures i < |w.h.entries| && w.h.entries[i].tag == tag && Find(w.h.entries, tag) == i
    ensures var ts := w.pushed[tag.group];
            w.h.entries[i].slot == OnDevice(if Offloads(w.ws, tag.group) then Restored(ts, tag.group, tag.index) else ts[tag.index])
  {
    assert Holds(w, Shape) && Holds(w, Entries);
    assert HasTag(w.h.entries, tag);
    i :| 0 <= i < |w.h.entries| && w.h.entries[i].tag == tag;
    FindEntry(w.h.entries, tag, i);
    assert SlotRight(w.ws, w.phase, w.pushed, w.popped, w.h.entries[i]);
  }

  lemma PopBuffers(w: World, tag: Tag)
    requires Inv(w) && w.phase.Backward?
    ensures BufInv(w.ws, w.phase, w.pushed, w.popped + {tag}, w.h.buf - {tag}, w.h.done)
  {
    assert Holds(w, Buffers);
    forall x ensures BufAt(w.ws, w.phase, w.pushed, w.popped + {tag}, w.h.buf - {tag}, w.h.done, x) {
      assert BufAt(w.ws, w.phase, w.pushed, w.popped, w.h.buf, w.h.done, x);
    }
  }

  lemma PopShape(w: World, tag: Tag, v: World)
    requires Inv(w) && w.phase.Backward? && v.h.count == w.h.count && v.h.current == w.h.current
    requires v == w.(h := v.h, popped := w.popped + {tag}) && v.h.window == w.h.window && v.h.numOffload == w.h.numOffload
    ensures Windows(v.ws, v.l) && TensorsInv(v.l, v.ws, v.phase, v.pushed, v.popped) && CountersInv(v)
  {
    assert Holds(w, Shape);
  }

  lemma PopRest(w: World)
    requires Inv(w)
    ensures MappingInv(w.ws, w.phase, w.pushed, w.h.mapping) && DoneInv(w.ws, w.phase, w.h.done)
    ensures StreamInv(w.ws, w.phase, w.h.mapping, w.h.reloads, w.h.done, w.h.streams)
  {
    assert Holds(w, Mapping) && Holds(w, Counter) && Holds(w, Progress);
  }

  lemma PopInv(w: World, tag: Tag)
    requires Inv(w) && Legal(w, PopT(tag))
    ensures Step(w, PopT(tag)).Ok? && Inv(Step(w, PopT(tag)).value)
  {
    var v := PopIs(w, tag);
    PopBuffers(w, tag);
    PopShape(w, tag, v);
    PopRest(w);
    Whole(v);
  }

  lemma PopIs(w: World, tag: Tag) returns (v: World)
    requires Inv(w) && Legal(w, PopT(tag))
    ensures Step(w, PopT(tag)) == Ok(v) && v == w.(h := v.h, popped := w.popped + {tag})
    ensures v.h == w.h.(entries := v.h.entries, buf := w.h.buf - {tag})
    ensures EntriesInv(w.ws, w.phase, w.pushed, w.popped + {tag}, v.h.entries)
  {
    var i := PopFinds(w, tag);
    assert Holds(w, Entries);
    PopEntries(w.ws, w.phase, w.pushed, w.popped, w.h.entries, tag, i);
    v := Step(w, PopT(tag)).value;
  }

  // ---------- a new pass ----------

  lemma NextPassInv(w: World)
    requires Inv(w) && Legal(w, NextPass)
    ensures Step(w, NextPass).Ok? && Inv(Step(w, NextPass).value)
    ensures w.h.entries == [] && w.h.buf == map[] && w.h.mapping == map[] && w.h.done == 0 && w.h.current == 0 &&
            w.h.count == 0
  {
    Parts(w);
    assert |w.h.entries| > 0 ==> SlotRight(w.ws, w.phase, w.pushed, w.popped, w.h.entries[0]);
    forall tag ensures tag !in w.h.buf { assert BufAt(w.ws, w.phase, w.pushed, w.popped, w.h.buf, w.h.done, tag); }
    assert w.h.buf == map[];
    assert forall g :: g !in w.h.mapping;
    assert w.h.mapping == map[];
    var v := Step(w, NextPass).value;
    forall tag ensures BufAt(v.ws, v.phase, v.pushed, v.popped, v.h.buf, v.h.done, tag) {
    }
    Whole(v);
  }
}
