/**
 * What a receive selects, in the columns of the message table: the selection is determined by these laws, on either
 * kind of queue.
 */
module Selections {
  import opened Records
  import opened Sequences
  import opened Tables
  import opened Deliverable
  import opened DeliveryLaws
  import opened Plane
  import opened Integrity
  import opened MoveTasks
  import opened LazyExpiry

  // ---- the first message of a group -----------------------------------------------------------

  lemma GroupHas(ms: seq<Message>, m: Message)
    requires m in ms
    ensures m in Members(ms, m.groupId) && Members(ms, m.groupId) != []
  {
  }

  /** Group `g` first appears before group `h`. */
  ghost predicate AppearsBefore(ms: seq<Message>, g: string, h: string) {
    && Members(ms, g) != [] && Members(ms, h) != []
    && SentBefore(Members(ms, g)[0], Members(ms, h)[0])
  }

  /** In one group the earlier message first, and else the group that first appears. */
  ghost predicate Precedes(ms: seq<Message>, a: Message, b: Message) {
    if a.groupId == b.groupId then SentBefore(a, b) else AppearsBefore(ms, a.groupId, b.groupId)
  }

  lemma FirstAppears(ms: seq<Message>, h: string)
    requires Increasing(ms, SentBefore) && ms != [] && ms[0].groupId != h && Members(ms, h) != []
    ensures AppearsBefore(ms, ms[0].groupId, h)
  {
    var x := Members(ms, h)[0];
    assert x in Members(ms, h);
    assert Members(ms, ms[0].groupId)[0] == ms[0];
    var i := IndexOf(ms, x);
  }

  lemma PrecedesInRest(ms: seq<Message>, rest: seq<Message>, a: Message, b: Message)
    requires Precedes(rest, a, b)
    requires Members(rest, a.groupId) == Members(ms, a.groupId) && Members(rest, b.groupId) == Members(ms, b.groupId)
    ensures Precedes(ms, a, b)
  {
  }

  ghost predicate AllPrecede(ms: seq<Message>, offers: seq<Message>) {
    forall i, j :: 0 <= i < j < |offers| ==> Precedes(ms, offers[i], offers[j])
  }

  lemma ChunkPrecedes(ms: seq<Message>, chunk: seq<Message>, g: string)
    requires Increasing(ms, SentBefore) && chunk <= Members(ms, g)
    ensures AllPrecede(ms, chunk)
  {
    FilterIncreasing(ms, InGroup(g), SentBefore);
    forall i, j | 0 <= i < j < |chunk| ensures Precedes(ms, chunk[i], chunk[j]) {
      assert chunk[i] == Members(ms, g)[i] && chunk[j] == Members(ms, g)[j];
      assert chunk[i] in Members(ms, g) && chunk[j] in Members(ms, g);
    }
  }

  lemma AllPrecedeConcat(ms: seq<Message>, xs: seq<Message>, ys: seq<Message>)
    requires AllPrecede(ms, xs) && AllPrecede(ms, ys)
    requires forall x, y :: x in xs && y in ys ==> Precedes(ms, x, y)
    ensures AllPrecede(ms, xs + ys)
  {
    forall i, j | 0 <= i < j < |xs + ys| ensures Precedes(ms, (xs + ys)[i], (xs + ys)[j]) {
      if i < |xs| <= j { assert xs[i] in xs && ys[j - |xs|] in ys; }
    }
  }

  lemma RestPrecedes(ms: seq<Message>, rest: seq<Message>, offers: seq<Message>)
    requires AllPrecede(rest, offers)
    requires forall m :: m in offers ==> Members(rest, m.groupId) == Members(ms, m.groupId)
    ensures AllPrecede(ms, offers)
  {
    forall i, j | 0 <= i < j < |offers| ensures Precedes(ms, offers[i], offers[j]) {
      assert offers[i] in offers && offers[j] in offers;
      PrecedesInRest(ms, rest, offers[i], offers[j]);
    }
  }

  /** The offers of a FIFO queue, in the order of their groups and in order within each. */
  lemma {:induction false} OffersPrecede(ms: seq<Message>, now: int)
    requires Increasing(ms, SentBefore)
    ensures AllPrecede(ms, Offers(ms, now))
    decreases |ms|
  {
    if ms == [] {
    } else if ms[0].groupId == "" {
      OffersPrecede(ms[1..], now);
      forall m | m in Offers(ms[1..], now) ensures Members(ms[1..], m.groupId) == Members(ms, m.groupId) {
        OffersSound(ms[1..], m, now);
      }
      RestPrecedes(ms, ms[1..], Offers(ms[1..], now));
    } else {
      GroupPrecedes(ms, now);
    }
  }

  lemma {:induction false} GroupPrecedes(ms: seq<Message>, now: int)
    requires Increasing(ms, SentBefore) && ms != [] && ms[0].groupId != ""
    ensures AllPrecede(ms, Offers(ms, now))
    decreases |ms|, 0
  {
    var g := ms[0].groupId;
    var chunk, others := Chunk(Members(ms, g), now), Without(ms, g);
    FilterIncreasing(ms, NotInGroup(g), SentBefore);
    OffersPrecede(others, now);
    OthersRest(ms, now);
    RestPrecedes(ms, others, Offers(others, now));
    ChunkPrecedes(ms, chunk, g);
    forall x, y | x in chunk && y in Offers(others, now) ensures Precedes(ms, x, y) {
      assert x in Members(ms, g);
      FirstAppears(ms, y.groupId);
    }
    AllPrecedeConcat(ms, chunk, Offers(others, now));
    OffersSplit(ms, now);
  }

  /** The offers of the other groups are of other groups, which lose no member. */
  lemma OthersRest(ms: seq<Message>, now: int)
    requires ms != []
    ensures forall m :: m in Offers(Without(ms, ms[0].groupId), now) ==>
      && m.groupId != ms[0].groupId && Members(ms, m.groupId) != []
      && Members(Without(ms, ms[0].groupId), m.groupId) == Members(ms, m.groupId)
  {
    var g := ms[0].groupId;
    forall m | m in Offers(Without(ms, g), now)
      ensures m.groupId != g && Members(ms, m.groupId) != [] && Members(Without(ms, g), m.groupId) == Members(ms, m.groupId)
    {
      OffersSound(Without(ms, g), m, now);
      MembersOfOthers(ms, g, m.groupId);
      GroupHas(ms, m);
    }
  }

  // ---- nothing is left out --------------------------------------------------------------------

  /** A message of an unlocked group that is visible, as all before it are. */
  ghost predicate Due(ms: seq<Message>, m: Message, now: int) {
    && m in ms && m.groupId != "" && Visible(m, now) && !Locked(Members(ms, m.groupId), now)
    && forall x :: x in ms && x.groupId == m.groupId && SentBefore(x, m) ==> Visible(x, now)
  }

  lemma DueInChunk(ms: seq<Message>, m: Message, now: int)
    requires Increasing(ms, SentBefore) && Due(ms, m, now)
    ensures m in Chunk(Members(ms, m.groupId), now)
  {
    var group := Members(ms, m.groupId);
    var prefix := VisiblePrefix(group, now);
    FilterIncreasing(ms, InGroup(m.groupId), SentBefore);
    var i := IndexOf(group, m);
    assert forall k :: 0 <= k < |group| ==> group[k] in group;
    assert |prefix| > i ==> prefix[i] == m;
  }

  lemma {:induction false} OffersComplete(ms: seq<Message>, m: Message, now: int)
    requires Increasing(ms, SentBefore) && Due(ms, m, now)
    ensures m in Offers(ms, now)
    decreases |ms|
  {
    if ms[0].groupId == "" {
      MembersOfNamed(ms, m.groupId);
      OffersComplete(ms[1..], m, now);
    } else if ms[0].groupId == m.groupId {
      DueInChunk(ms, m, now);
    } else {
      FilterIncreasing(ms, NotInGroup(ms[0].groupId), SentBefore);
      MembersOfOthers(ms, ms[0].groupId, m.groupId);
      OffersComplete(Without(ms, ms[0].groupId), m, now);
    }
  }

  // ---- in columns -------------------------------------------------------------------------------

  /**
   * What is selected is deliverable: a stored message of the queue, not deleted, not past its retention, past its delay, not
   * leased; and on a FIFO queue no message of its group is leased.
   */
  lemma SelectedAreVisible(t: Tables, q: Queue, max: nat, now: int)
    requires MessagesKeyed(t)
    ensures var r := CandidatesOf(t, q, max, now);
      && |r| <= max
      && (forall i, j :: 0 <= i < j < |r| ==> r[i].rowId != r[j].rowId)
      && (forall m :: m in r ==>
            && m.rowId in t.messages && t.messages[m.rowId] == m && m.queueId == q.id
            && m.deletedAt.None? && m.retentionDeadline > now && m.availableAt <= now
            && (m.visibilityDeadline.Some? ==> m.visibilityDeadline.value <= now))
      && (q.fifo ==> forall m, id | m in r && id in t.messages && t.messages[id].queueId == q.id && t.messages[id].groupId == m.groupId
                                    && t.messages[id].deletedAt.None? && t.messages[id].retentionDeadline > now ::
            m.groupId != "" && (t.messages[id].visibilityDeadline.Some? ==> t.messages[id].visibilityDeadline.value <= now))
  {
    var r := CandidatesOf(t, q, max, now);
    CandidateRows(t, q, max, now);
    LiveRows(t, q.id, now);
    forall i, j | 0 <= i < j < |r| ensures r[i].rowId != r[j].rowId {
      if r[i].rowId == r[j].rowId { OneEachAt(r, i, j); }
    }
    forall m | m in r && q.fifo
      ensures m.groupId != "" && forall other :: other in LiveOf(t, q.id, now) && other.groupId == m.groupId ==> !Leased(other, now)
    {
      CandidatesSound(q.fifo, LiveOf(t, q.id, now), max, now, m);
    }
  }

  /**
   * What is selected is in order: a standard queue and each group of a FIFO queue by time of sending, and the groups by the
   * time of their first live message.
   */
  lemma SelectedInOrder(t: Tables, q: Queue, max: nat, now: int, i: nat, j: nat)
    requires MessagesKeyed(t) && i < j < |CandidatesOf(t, q, max, now)|
    ensures var a, b := CandidatesOf(t, q, max, now)[i], CandidatesOf(t, q, max, now)[j];
      && (!q.fifo || a.groupId == b.groupId ==> a.sentAt < b.sentAt || (a.sentAt == b.sentAt && a.rowId < b.rowId))
      && (q.fifo && a.groupId != b.groupId ==> GroupBefore(t, q.id, a.groupId, b.groupId, now))
  {
    var live := LiveOf(t, q.id, now);
    LiveIncreasing(t, q.id, now);
    if q.fifo {
      OffersPrecede(live, now);
      var a, b := CandidatesOf(t, q, max, now)[i], CandidatesOf(t, q, max, now)[j];
      assert a == Offers(live, now)[i] && b == Offers(live, now)[j];
      if a.groupId != b.groupId { AppearsInTable(t, q.id, a.groupId, b.groupId, now); }
    } else {
      FilterIncreasing(live, VisibleAt(now), SentBefore);
    }
  }

  /** The live message of the group that was sent first. */
  ghost predicate FirstOfGroup(t: Tables, queueId: int, g: string, now: int, f: Message) {
    && f.rowId in t.messages && t.messages[f.rowId] == f && f.queueId == queueId && f.groupId == g
    && f.deletedAt.None? && f.retentionDeadline > now
    && forall id | id in t.messages && id != f.rowId && t.messages[id].queueId == queueId && t.messages[id].groupId == g
                   && t.messages[id].deletedAt.None? && t.messages[id].retentionDeadline > now ::
         f.sentAt < t.messages[id].sentAt || (f.sentAt == t.messages[id].sentAt && f.rowId < id)
  }

  /** The first live message of group `g` was sent before the first of group `h`. */
  ghost predicate GroupBefore(t: Tables, queueId: int, g: string, h: string, now: int) {
    exists a, b ::
      && FirstOfGroup(t, queueId, g, now, a) && FirstOfGroup(t, queueId, h, now, b)
      && (a.sentAt < b.sentAt || (a.sentAt == b.sentAt && a.rowId < b.rowId))
  }

  lemma AppearsInTable(t: Tables, queueId: int, g: string, h: string, now: int)
    requires MessagesKeyed(t) && AppearsBefore(LiveOf(t, queueId, now), g, h)
    ensures GroupBefore(t, queueId, g, h, now)
  {
    GroupFirst(t, queueId, g, now);
    GroupFirst(t, queueId, h, now);
  }

  lemma GroupFirst(t: Tables, queueId: int, g: string, now: int)
    requires MessagesKeyed(t) && Members(LiveOf(t, queueId, now), g) != []
    ensures FirstOfGroup(t, queueId, g, now, Members(LiveOf(t, queueId, now), g)[0])
  {
    var live := LiveOf(t, queueId, now);
    var group := Members(live, g);
    LiveRows(t, queueId, now);
    LiveIncreasing(t, queueId, now);
    FilterIncreasing(live, InGroup(g), SentBefore);
    var f := group[0];
    assert f in group;
    forall id | id in t.messages && id != f.rowId && t.messages[id].queueId == queueId && t.messages[id].groupId == g
      && Live(t.messages[id], now) ensures SentBefore(f, t.messages[id])
    {
      assert t.messages[id] in group;
      var k := IndexOf(group, t.messages[id]);
    }
  }

  /** Nothing deliverable is left out of a standard receive, unless it is full of messages sent before. */
  lemma StandardLeavesNothing(t: Tables, q: Queue, max: nat, now: int, m: Message)
    requires MessagesKeyed(t) && !q.fifo && m.rowId in t.messages && t.messages[m.rowId] == m && m.queueId == q.id
    requires m.deletedAt.None? && m.retentionDeadline > now && m.availableAt <= now
    requires m.visibilityDeadline.Some? ==> m.visibilityDeadline.value <= now
    requires m !in CandidatesOf(t, q, max, now)
    ensures var r := CandidatesOf(t, q, max, now);
      |r| == max && forall i :: 0 <= i < |r| ==> r[i].sentAt < m.sentAt || (r[i].sentAt == m.sentAt && r[i].rowId < m.rowId)
  {
    var live := LiveOf(t, q.id, now);
    LiveRows(t, q.id, now);
    LiveIncreasing(t, q.id, now);
    FilterIncreasing(live, VisibleAt(now), SentBefore);
    TakeKeepsFirst(Filter(live, VisibleAt(now)), max, SentBefore);
  }

  /**
   * Nothing due is left out of a FIFO receive, unless it is full: of messages sent before in the same group, and of groups whose
   * first message was sent before that of this one. A message is due if it is deliverable, as all earlier live ones of its group
   * are, and no message of its group is leased.
   */
  lemma FifoLeavesNothing(t: Tables, q: Queue, max: nat, now: int, m: Message)
    requires MessagesKeyed(t) && q.fifo && m.rowId in t.messages && t.messages[m.rowId] == m && m.queueId == q.id && m.groupId != ""
    requires m.deletedAt.None? && m.retentionDeadline > now && m.availableAt <= now
    requires forall id | id in t.messages && t.messages[id].queueId == q.id && t.messages[id].groupId == m.groupId
                         && t.messages[id].deletedAt.None? && t.messages[id].retentionDeadline > now ::
      && (t.messages[id].visibilityDeadline.Some? ==> t.messages[id].visibilityDeadline.value <= now)
      && (t.messages[id].sentAt < m.sentAt || (t.messages[id].sentAt == m.sentAt && id < m.rowId) ==> t.messages[id].availableAt <= now)
    requires m !in CandidatesOf(t, q, max, now)
    ensures var r := CandidatesOf(t, q, max, now);
      |r| == max && forall i :: 0 <= i < |r| ==>
        if r[i].groupId == m.groupId then r[i].sentAt < m.sentAt || (r[i].sentAt == m.sentAt && r[i].rowId < m.rowId)
        else GroupBefore(t, q.id, r[i].groupId, m.groupId, now)
  {
    var live, r := LiveOf(t, q.id, now), CandidatesOf(t, q, max, now);
    LiveRows(t, q.id, now);
    LiveIncreasing(t, q.id, now);
    MemberIsDue(live, m, now);
    FullOfEarlier(live, max, m, now);
    forall i | 0 <= i < |r| && r[i].groupId != m.groupId ensures GroupBefore(t, q.id, r[i].groupId, m.groupId, now) {
      AppearsInTable(t, q.id, r[i].groupId, m.groupId, now);
    }
  }

  lemma FullOfEarlier(live: seq<Message>, max: nat, m: Message, now: int)
    requires Increasing(live, SentBefore) && Due(live, m, now) && m !in Take(Offers(live, now), max)
    ensures var r := Take(Offers(live, now), max); |r| == max && forall i :: 0 <= i < |r| ==> Precedes(live, r[i], m)
  {
    var offers := Offers(live, now);
    OffersComplete(live, m, now);
    OffersPrecede(live, now);
    BeyondTake(offers, max, m);
    var r, j := Take(offers, max), IndexOf(offers, m);
    forall i | 0 <= i < |r| ensures Precedes(live, r[i], m) {
      assert r[i] == offers[i] && Precedes(live, offers[i], offers[j]);
    }
  }

  lemma MemberIsDue(live: seq<Message>, m: Message, now: int)
    requires m in live && m.groupId != "" && m.availableAt <= now && forall x :: x in live ==> Live(x, now)
    requires forall x :: x in live && x.groupId == m.groupId ==> !Leased(x, now) && (SentBefore(x, m) ==> x.availableAt <= now)
    ensures Due(live, m, now)
  {
  }

  lemma BeyondTake(xs: seq<Message>, n: nat, x: Message)
    requires x in xs && x !in Take(xs, n)
    ensures |Take(xs, n)| == n && n <= IndexOf(xs, x)
  {
    assert forall k :: 0 <= k < |Take(xs, n)| ==> xs[k] in Take(xs, n);
  }
}
