/** Scheduled attribute changes: applying them late, early or twice comes to the same. */
module Patches {
  import opened Records
  import opened Sequences
  import opened Tables
  import opened Deliverable
  import opened Plane
  import opened Leases

  /** Attributes overridden, from left to right, by the patches for one queue. */
  function Overridden(attributes: map<string, string>, patches: seq<Patch>, queueId: int): map<string, string>
    decreases |patches|
  {
    if patches == [] then attributes
    else if patches[0].queueId == queueId then Overridden(attributes + patches[0].attributes, patches[1..], queueId)
    else Overridden(attributes, patches[1..], queueId)
  }

  function ForQueue(queueId: int): Patch -> bool { (p: Patch) => p.queueId == queueId }

  /** The last patch that sets an attribute decides it. */
  lemma {:induction false} LastPatchWins(attributes: map<string, string>, patches: seq<Patch>, queueId: int, i: nat, name: string)
    requires i < |patches| && patches[i].queueId == queueId && name in patches[i].attributes
    requires forall j :: i < j < |patches| && patches[j].queueId == queueId ==> name !in patches[j].attributes
    ensures name in Overridden(attributes, patches, queueId)
    ensures Overridden(attributes, patches, queueId)[name] == patches[i].attributes[name]
    decreases |patches|
  {
    var next := if patches[0].queueId == queueId then attributes + patches[0].attributes else attributes;
    if i == 0 {
      Untouched(next, patches[1..], queueId, name);
    } else {
      LastPatchWins(next, patches[1..], queueId, i - 1, name);
    }
  }

  /** An attribute that no patch sets stays. */
  lemma {:induction false} Untouched(attributes: map<string, string>, patches: seq<Patch>, queueId: int, name: string)
    requires forall j :: 0 <= j < |patches| && patches[j].queueId == queueId ==> name !in patches[j].attributes
    ensures name in Overridden(attributes, patches, queueId) <==> name in attributes
    ensures name in attributes ==> Overridden(attributes, patches, queueId)[name] == attributes[name]
    decreases |patches|
  {
    if patches != [] {
      Untouched(if patches[0].queueId == queueId then attributes + patches[0].attributes else attributes, patches[1..], queueId, name);
    }
  }

  lemma {:induction false} OverriddenConcat(attributes: map<string, string>, a: seq<Patch>, b: seq<Patch>, queueId: int)
    ensures Overridden(attributes, a + b, queueId) == Overridden(Overridden(attributes, a, queueId), b, queueId)
    decreases |a|
  {
    if a == [] {
      assert a + b == b;
    } else {
      assert (a + b)[0] == a[0] && (a + b)[1..] == a[1..] + b;
      OverriddenConcat(if a[0].queueId == queueId then attributes + a[0].attributes else attributes, a[1..], b, queueId);
    }
  }

  lemma {:induction false} OverriddenOwn(attributes: map<string, string>, patches: seq<Patch>, queueId: int)
    ensures Overridden(attributes, Filter(patches, ForQueue(queueId)), queueId) == Overridden(attributes, patches, queueId)
    decreases |patches|
  {
    if patches != [] {
      if patches[0].queueId == queueId {
        var own := Filter(patches, ForQueue(queueId));
        assert own[1..] == Filter(patches[1..], ForQueue(queueId));
        OverriddenOwn(attributes + patches[0].attributes, patches[1..], queueId);
      } else {
        OverriddenOwn(attributes, patches[1..], queueId);
      }
    }
  }

  // ---- what applying patches does -----------------------------------------------------

  function IdsIn(patches: seq<Patch>, queues: set<int>): set<int> {
    if patches == [] then {}
    else (if patches[0].queueId in queues then {patches[0].id} else {}) + IdsIn(patches[1..], queues)
  }

  /**
   * The patches of existing queues are applied, in order, and no longer pending; a patch whose queue is gone
   * stays pending.
   */
  lemma PatchesApply(t: Tables, patches: seq<Patch>, now: int)
    ensures var t' := ApplyPatches(t, patches, now);
      && t'.queues.Keys == t.queues.Keys
      && (forall id :: id in t.queues ==>
            t'.queues[id].attributes == Overridden(t.queues[id].attributes, patches, id))
      && t'.pending == t.pending - IdsIn(patches, t.queues.Keys)
  {
    ApplyPatchesFrame(t, patches, now);
    PatchesRemoved(t, patches, now);
    forall id | id in t.queues
      ensures ApplyPatches(t, patches, now).queues[id].attributes == Overridden(t.queues[id].attributes, patches, id)
    {
      PatchesOverride(t, patches, now, id);
    }
  }

  lemma {:induction false} PatchesOverride(t: Tables, patches: seq<Patch>, now: int, id: int)
    requires id in t.queues
    ensures id in ApplyPatches(t, patches, now).queues
    ensures ApplyPatches(t, patches, now).queues[id].attributes == Overridden(t.queues[id].attributes, patches, id)
    decreases |patches|
  {
    if patches != [] {
      PatchesOverride(ApplyPatch(t, patches[0], now), patches[1..], now, id);
    }
  }

  lemma RemoveMore(pending: map<int, Patch>, id: int, ids: set<int>)
    ensures pending - {id} - ids == pending - ({id} + ids)
  {
  }

  lemma {:induction false} PatchesRemoved(t: Tables, patches: seq<Patch>, now: int)
    ensures ApplyPatches(t, patches, now).pending == t.pending - IdsIn(patches, t.queues.Keys)
    decreases |patches|
  {
    if patches != [] {
      var t1 := ApplyPatch(t, patches[0], now);
      assert t1.queues.Keys == t.queues.Keys;
      PatchesRemoved(t1, patches[1..], now);
      RemoveMore(t.pending, patches[0].id, IdsIn(patches[1..], t.queues.Keys));
    }
  }

  // ---- due patches at two instants ------------------------------------------------------

  function DueAt(now: int): Patch -> bool { (p: Patch) => p.effectiveAt <= Seconds(now) }

  function NotDueAt(now: int): Patch -> bool { (p: Patch) => p.effectiveAt > Seconds(now) }

  lemma {:induction false} DueFirst(patches: seq<Patch>, now: int)
    requires Increasing(patches, EffectiveBefore)
    ensures Filter(patches, DueAt(now)) + Filter(patches, NotDueAt(now)) == patches
  {
    if patches == [] {
    } else if DueAt(now)(patches[0]) {
      DueFirst(patches[1..], now);
      var due, not := Filter(patches[1..], DueAt(now)), Filter(patches[1..], NotDueAt(now));
      assert [patches[0]] + due + not == [patches[0]] + (due + not);
    } else {
      NoneDue(patches, now);
      FilterNone(patches, DueAt(now));
      FilterAll(patches, NotDueAt(now));
      assert [] + patches == patches;
    }
  }

  lemma NoneDue(patches: seq<Patch>, now: int)
    requires Increasing(patches, EffectiveBefore) && patches != [] && !DueAt(now)(patches[0])
    ensures forall p :: p in patches ==> !DueAt(now)(p)
  {
    forall p | p in patches ensures !DueAt(now)(p) {
      var i := IndexOf(patches, p);
    }
  }

  lemma DueRows(t: Tables, now: int)
    requires TasksKeyed(t)
    ensures Increasing(DuePatches(t, now), EffectiveBefore)
    ensures forall p :: p in DuePatches(t, now) <==> p.id in t.pending && t.pending[p.id] == p && DueAt(now)(p)
  {
    TaskOrders(t, now);
    ListedRows(DueSet(t, now), EffectiveBefore);
  }

  lemma DueUnique(t: Tables, now: int, patches: seq<Patch>)
    requires TasksKeyed(t) && Increasing(patches, EffectiveBefore)
    requires forall p :: p in patches <==> p.id in t.pending && t.pending[p.id] == p && DueAt(now)(p)
    ensures patches == DuePatches(t, now)
  {
    TaskOrders(t, now);
    ListedUnique(patches, DueSet(t, now), EffectiveBefore);
  }

  lemma EarlierDue(t: Tables, a: int, b: int)
    requires TasksKeyed(t) && a <= b
    ensures DuePatches(t, a) == Filter(DuePatches(t, b), DueAt(a))
  {
    DueRows(t, b);
    FilterIncreasing(DuePatches(t, b), DueAt(a), EffectiveBefore);
    assert Seconds(a) <= Seconds(b);
    DueUnique(t, a, Filter(DuePatches(t, b), DueAt(a)));
  }

  lemma {:induction false} InIds(patches: seq<Patch>, queues: set<int>, p: Patch)
    requires p in patches && p.queueId in queues
    ensures p.id in IdsIn(patches, queues)
  {
    if patches[0] != p { InIds(patches[1..], queues, p); }
  }

  lemma {:induction false} OfIds(patches: seq<Patch>, queues: set<int>, id: int) returns (p: Patch)
    requires id in IdsIn(patches, queues)
    ensures p in patches && p.id == id && p.queueId in queues
  {
    if patches[0].queueId in queues && patches[0].id == id {
      p := patches[0];
    } else {
      p := OfIds(patches[1..], queues, id);
    }
  }

  /** What is still to be applied at `b` once the patches due at `a` have been. */
  function Rest(a: int, queues: set<int>): Patch -> bool {
    (p: Patch) => p.effectiveAt > Seconds(a) || p.queueId !in queues
  }

  lemma AppliedIds(t: Tables, a: int, id: int)
    requires TasksKeyed(t) && id in t.pending
    ensures id in IdsIn(DuePatches(t, a), t.queues.Keys) <==> !Rest(a, t.queues.Keys)(t.pending[id])
  {
    DueRows(t, a);
    if id in IdsIn(DuePatches(t, a), t.queues.Keys) {
      var p := OfIds(DuePatches(t, a), t.queues.Keys, id);
    }
    if !Rest(a, t.queues.Keys)(t.pending[id]) {
      InIds(DuePatches(t, a), t.queues.Keys, t.pending[id]);
    }
  }

  lemma LaterDue(t: Tables, a: int, b: int)
    requires TasksKeyed(t) && a <= b
    ensures TasksKeyed(ApplyDue(t, a))
    ensures DuePatches(ApplyDue(t, a), b) == Filter(DuePatches(t, b), Rest(a, t.queues.Keys))
  {
    var t1, rest := ApplyDue(t, a), Filter(DuePatches(t, b), Rest(a, t.queues.Keys));
    PatchesApply(t, DuePatches(t, a), a);
    ApplyPatchesFrame(t, DuePatches(t, a), a);
    DueRows(t, b);
    FilterIncreasing(DuePatches(t, b), Rest(a, t.queues.Keys), EffectiveBefore);
    forall p: Patch ensures p in rest <==> p.id in t1.pending && t1.pending[p.id] == p && DueAt(b)(p) {
      if p.id in t.pending { AppliedIds(t, a, p.id); }
    }
    DueUnique(t1, b, rest);
  }

  /** Same attributes of every queue, and the same patches still pending. */
  ghost predicate SamePatched(t: Tables, t': Tables) {
    && t'.queues.Keys == t.queues.Keys && t'.pending == t.pending
    && forall id :: id in t.queues ==> t'.queues[id].attributes == t.queues[id].attributes
  }

  lemma AttributesTwice(t: Tables, a: int, b: int, id: int)
    requires TasksKeyed(t) && a <= b && id in t.queues
    ensures var attributes := t.queues[id].attributes;
      Overridden(Overridden(attributes, DuePatches(t, a), id), DuePatches(ApplyDue(t, a), b), id)
      == Overridden(attributes, DuePatches(t, b), id)
  {
    var attributes, all := t.queues[id].attributes, DuePatches(t, b);
    var rest := Filter(all, Rest(a, t.queues.Keys));
    DueRows(t, b);
    DueFirst(all, a);
    EarlierDue(t, a, b);
    LaterDue(t, a, b);
    OverriddenConcat(attributes, Filter(all, DueAt(a)), Filter(all, NotDueAt(a)), id);
    var first := Overridden(attributes, Filter(all, DueAt(a)), id);
    OverriddenOwn(first, rest, id);
    OverriddenOwn(first, Filter(all, NotDueAt(a)), id);
    var own := (p: Patch) => p.queueId == id && p.effectiveAt > Seconds(a);
    FilterTwice(all, Rest(a, t.queues.Keys), ForQueue(id), own);
    FilterTwice(all, NotDueAt(a), ForQueue(id), own);
  }

  lemma PendingTwice(t: Tables, a: int, b: int)
    requires TasksKeyed(t) && a <= b
    ensures ApplyDue(ApplyDue(t, a), b).pending == ApplyDue(t, b).pending
  {
    DueRemoved(t, a);
    DueRemoved(t, b);
    LaterDue(t, a, b);
    DueRemoved(ApplyDue(t, a), b);
    assert Seconds(a) <= Seconds(b);
    RemovedTwice(t.pending, ApplyDue(t, a).pending, ApplyDue(ApplyDue(t, a), b).pending, ApplyDue(t, b).pending, t.queues.Keys, a, b);
  }

  /** What is left pending: the patches not due, and those whose queue is gone. */
  ghost predicate Leaves(pending: map<int, Patch>, left: map<int, Patch>, queues: set<int>, now: int) {
    forall id :: if id in pending && Rest(now, queues)(pending[id]) then id in left && left[id] == pending[id] else id !in left
  }

  lemma RemovedTwice(p0: map<int, Patch>, p1: map<int, Patch>, p2: map<int, Patch>, once: map<int, Patch>, queues: set<int>, a: int, b: int)
    requires Leaves(p0, p1, queues, a) && Leaves(p1, p2, queues, b) && Leaves(p0, once, queues, b) && Seconds(a) <= Seconds(b)
    ensures p2 == once
  {
    forall id ensures id in p2 <==> id in once {}
    forall id | id in p2 ensures p2[id] == once[id] {}
  }

  lemma DueRemoved(t: Tables, now: int)
    requires TasksKeyed(t)
    ensures Leaves(t.pending, ApplyDue(t, now).pending, t.queues.Keys, now)
    ensures ApplyDue(t, now).queues.Keys == t.queues.Keys
  {
    PatchesApply(t, DuePatches(t, now), now);
    forall id | id in t.pending
      ensures id in IdsIn(DuePatches(t, now), t.queues.Keys) <==> !Rest(now, t.queues.Keys)(t.pending[id])
    {
      AppliedIds(t, now, id);
    }
  }

  /**
   * Applying the due changes at `a` and again at a later `b` leaves the same attributes and the same pending changes
   * as applying them once at `b`: each change of an existing queue takes effect exactly once, in its turn.
   */
  lemma ApplyTwice(t: Tables, a: int, b: int)
    requires TasksKeyed(t) && a <= b
    ensures SamePatched(ApplyDue(t, b), ApplyDue(ApplyDue(t, a), b))
  {
    var t1 := ApplyDue(t, a);
    PendingTwice(t, a, b);
    PatchesApply(t, DuePatches(t, a), a);
    PatchesApply(t, DuePatches(t, b), b);
    PatchesApply(t1, DuePatches(t1, b), b);
    forall id | id in t.queues ensures ApplyDue(t1, b).queues[id].attributes == ApplyDue(t, b).queues[id].attributes {
      AttributesTwice(t, a, b, id);
    }
  }
}
