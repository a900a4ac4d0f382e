/** Expiry may be late: reaping a queue changes nothing a client can see. And the counters of a queue. */
module LazyExpiry {
  import opened Records
  import opened Sequences
  import opened Tables
  import opened Storage
  import opened Deliverable
  import opened DeliveryLaws
  import opened Plane
  import opened Integrity
  import opened Leases
  import opened MoveTasks

  lemma SameListing(xs: seq<Message>, ys: seq<Message>)
    requires Increasing(xs, SentBefore) && Increasing(ys, SentBefore)
    requires forall m :: m in xs <==> m in ys
    ensures xs == ys
  {
    var s := set m | m in xs;
    forall a, b | a in s && b in s && a != b ensures SentBefore(a, b) || SentBefore(b, a) {
      var i, j := IndexOf(xs, a), IndexOf(xs, b);
    }
    ListedUnique(xs, s, SentBefore);
    ListedUnique(ys, s, SentBefore);
  }

  lemma LiveIncreasing(t: Tables, queueId: int, now: int)
    requires MessagesKeyed(t)
    ensures Increasing(LiveOf(t, queueId, now), SentBefore)
  {
    MessagesOfRows(t, queueId);
    FilterIncreasing(MessagesOf(t, queueId), LiveAt(now), SentBefore);
  }

  /** The purge window takes a message that is live now. */
  ghost predicate PurgeTakes(t: Tables, q: Queue, now: int, id: int) {
    && PurgePending(q) && id in t.messages && t.messages[id].queueId == q.id
    && Live(t.messages[id], now) && t.messages[id].sentAt <= q.purgeExpiresAt.value
  }

  lemma ReapRow(t: Tables, q: Queue, now: int, later: int, id: int)
    requires now <= later && id in t.messages
    ensures id in Reap(t, q, now).messages
    ensures !PurgeTakes(t, q, now, id) ==>
      if Live(t.messages[id], later) then Reap(t, q, now).messages[id] == t.messages[id]
      else !Live(Reap(t, q, now).messages[id], later)
    ensures PurgeTakes(t, q, now, id) ==> !Live(Reap(t, q, now).messages[id], later)
  {
  }

  lemma ReapListing(t: Tables, q: Queue, now: int, later: int, queueId: int)
    requires MessagesKeyed(t) && now <= later
    requires forall id :: !PurgeTakes(t, q, now, id)
    ensures LiveOf(Reap(t, q, now), queueId, later) == LiveOf(t, queueId, later)
  {
    var t' := Reap(t, q, now);
    LiveIncreasing(t, queueId, later);
    LiveIncreasing(t', queueId, later);
    LiveRows(t, queueId, later);
    LiveRows(t', queueId, later);
    forall m ensures m in LiveOf(t', queueId, later) <==> m in LiveOf(t, queueId, later) {
      if m.rowId in t.messages { ReapRow(t, q, now, later, m.rowId); }
    }
    SameListing(LiveOf(t', queueId, later), LiveOf(t, queueId, later));
  }

  /**
   * Reaping at `now` leaves the live messages of every queue at every later instant as they were, and with them what a
   * receive may deliver and what the counters show, if and only if no purge window covers a message that is live now.
   */
  lemma ReapIsInvisible(t: Tables, q: Queue, now: int)
    requires MessagesKeyed(t)
    ensures (forall queueId, later :: now <= later ==>
               LiveOf(Reap(t, q, now), queueId, later) == LiveOf(t, queueId, later))
            <==> (forall id :: !PurgeTakes(t, q, now, id))
  {
    if forall id :: !PurgeTakes(t, q, now, id) {
      forall queueId, later | now <= later
        ensures LiveOf(Reap(t, q, now), queueId, later) == LiveOf(t, queueId, later)
      {
        ReapListing(t, q, now, later, queueId);
      }
    } else {
      var id :| PurgeTakes(t, q, now, id);
      ReapRow(t, q, now, now, id);
      LiveRows(t, q.id, now);
      LiveRows(Reap(t, q, now), q.id, now);
      assert t.messages[id] in LiveOf(t, q.id, now);
      assert t.messages[id] !in LiveOf(Reap(t, q, now), q.id, now);
    }
  }

  // ---- counters ---------------------------------------------------------------------------

  function DelayedAt(now: int): Message -> bool { (m: Message) => m.availableAt > now }

  function InFlightAt(now: int): Message -> bool { (m: Message) => m.availableAt <= now && Leased(m, now) }

  /** The three counters of a queue's attributes. */
  datatype Counters = Counters(visible: nat, notVisible: nat, delayed: nat)

  function CountersOf(live: seq<Message>, now: int): Counters {
    Counters(|Filter(live, VisibleAt(now))|, |Filter(live, InFlightAt(now))|, |Filter(live, DelayedAt(now))|)
  }

  /** The counting loop of `materializeQueueAttributes`. */
  method CountMessages(store: Store, queueId: int, now: int) returns (counters: Counters)
    requires MessagesKeyed(store.View())
    ensures counters == CountersOf(LiveOf(store.View(), queueId, now), now)
  {
    var messages := store.ListMessagesByQueue(queueId);
    var visible, notVisible, delayed := 0, 0, 0;
    for i := 0 to |messages|
      invariant Counters(visible, notVisible, delayed) == CountersOf(Filter(messages[..i], LiveAt(now)), now)
    {
      var message := messages[i];
      CountersSnoc(messages, i, now);
      if message.deletedAt.Some? || message.retentionDeadline <= now {
        continue;
      }
      if message.availableAt > now {
        delayed := delayed + 1;
      } else if message.visibilityDeadline.Some? && message.visibilityDeadline.value > now {
        notVisible := notVisible + 1;
      } else {
        visible := visible + 1;
      }
    }
    assert messages[..|messages|] == messages;
    counters := Counters(visible, notVisible, delayed);
  }

  lemma CountersSnoc(ms: seq<Message>, i: nat, now: int)
    requires i < |ms|
    ensures var before, m := CountersOf(Filter(ms[..i], LiveAt(now)), now), ms[i];
      CountersOf(Filter(ms[..i + 1], LiveAt(now)), now) ==
      if !Live(m, now) then before
      else if m.availableAt > now then before.(delayed := before.delayed + 1)
      else if Leased(m, now) then before.(notVisible := before.notVisible + 1)
      else before.(visible := before.visible + 1)
  {
    var live := Filter(ms[..i], LiveAt(now));
    FilterSnoc(ms, i, LiveAt(now));
    if Live(ms[i], now) {
      FilterConcat(live, [ms[i]], VisibleAt(now));
      FilterConcat(live, [ms[i]], InFlightAt(now));
      FilterConcat(live, [ms[i]], DelayedAt(now));
    } else {
      assert live + [] == live;
    }
  }

  lemma {:induction false} CountersPartition(live: seq<Message>, now: int)
    requires forall m :: m in live ==> Live(m, now)
    ensures var c := CountersOf(live, now); c.visible + c.notVisible + c.delayed == |live|
  {
    if live != [] {
      CountersPartition(live[1..], now);
    }
  }

  /**
   * The counters partition the live messages, and a receive on a standard queue gets as many messages as it may
   * out of those that the first of them counts.
   */
  lemma CountersAgree(t: Tables, q: Queue, max: nat, now: int)
    requires MessagesKeyed(t)
    ensures var live := LiveOf(t, q.id, now);
      var c := CountersOf(live, now);
      && c.visible + c.notVisible + c.delayed == |live| == |LiveIds(t.messages, q.id, now)|
      && (!q.fifo ==> |CandidatesOf(t, q, max, now)| == if c.visible < max then c.visible else max)
  {
    LiveRows(t, q.id, now);
    LiveCount(t, q.id, now);
    CountersPartition(LiveOf(t, q.id, now), now);
    StandardCount(LiveOf(t, q.id, now), max, now);
  }

  lemma {:induction false} FilterOneEach(live: seq<Message>, keep: Message -> bool)
    requires OneEach(live)
    ensures OneEach(Filter(live, keep)) && RowIds(Filter(live, keep)) <= RowIds(live)
  {
    if live != [] { FilterOneEach(live[1..], keep); }
  }

  /** As many live messages of a kind are counted as there are rows of that kind. */
  lemma CountedRows(t: Tables, queueId: int, now: int, keep: Message -> bool, ids: set<int>)
    requires MessagesKeyed(t)
    requires forall id :: id in ids <==> id in t.messages && t.messages[id].queueId == queueId && Live(t.messages[id], now) && keep(t.messages[id])
    ensures |Filter(LiveOf(t, queueId, now), keep)| == |ids|
  {
    var live := LiveOf(t, queueId, now);
    var kept := Filter(live, keep);
    LiveRows(t, queueId, now);
    FilterOneEach(live, keep);
    OneEachCount(kept);
    forall id ensures id in RowIds(kept) <==> id in ids {
      if id in RowIds(kept) {
        var i := RowIdAt(kept, id);
        assert kept[i] in kept;
      }
      if id in ids { RowIdIn(kept, IndexOf(kept, t.messages[id])); }
    }
    assert RowIds(kept) == ids;
  }

  /**
   * What the counters count: of the live messages of the queue those that can be received, those that are leased, and those
   * whose delay is not over.
   */
  lemma CountersMean(t: Tables, queueId: int, now: int)
    requires MessagesKeyed(t)
    ensures var c := CountersOf(LiveOf(t, queueId, now), now);
      && c.visible == |set id | id in t.messages && t.messages[id].queueId == queueId
                                && t.messages[id].deletedAt.None? && t.messages[id].retentionDeadline > now && t.messages[id].availableAt <= now
                                && (t.messages[id].visibilityDeadline.Some? ==> t.messages[id].visibilityDeadline.value <= now)|
      && c.notVisible == |set id | id in t.messages && t.messages[id].queueId == queueId
                                   && t.messages[id].deletedAt.None? && t.messages[id].retentionDeadline > now && t.messages[id].availableAt <= now
                                   && t.messages[id].visibilityDeadline.Some? && t.messages[id].visibilityDeadline.value > now|
      && c.delayed == |set id | id in t.messages && t.messages[id].queueId == queueId
                                && t.messages[id].deletedAt.None? && t.messages[id].retentionDeadline > now && t.messages[id].availableAt > now|
  {
    CountedRows(t, queueId, now, VisibleAt(now),
                set id | id in t.messages && t.messages[id].queueId == queueId
                         && t.messages[id].deletedAt.None? && t.messages[id].retentionDeadline > now && t.messages[id].availableAt <= now
                         && (t.messages[id].visibilityDeadline.Some? ==> t.messages[id].visibilityDeadline.value <= now));
    CountedRows(t, queueId, now, InFlightAt(now),
                set id | id in t.messages && t.messages[id].queueId == queueId
                         && t.messages[id].deletedAt.None? && t.messages[id].retentionDeadline > now && t.messages[id].availableAt <= now
                         && t.messages[id].visibilityDeadline.Some? && t.messages[id].visibilityDeadline.value > now);
    CountedRows(t, queueId, now, DelayedAt(now),
                set id | id in t.messages && t.messages[id].queueId == queueId
                         && t.messages[id].deletedAt.None? && t.messages[id].retentionDeadline > now && t.messages[id].availableAt > now);
  }
}
