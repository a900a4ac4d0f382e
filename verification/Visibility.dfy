/** What a client sees of sending, receiving and deleting. */
module Visibility {
  import opened Records
  import opened Sequences
  import opened Tables
  import opened QueueAttributes
  import opened Deliverable
  import opened Plane
  import opened Integrity
  import opened Leases
  import FifoLocks
  import opened MoveTasks
  import opened Fates
  import opened Runs

  /**
   * An inserted message is live until its retention is over, and from the end of its delay until then a receive may
   * deliver it; no other message is touched, and every other live message was there before.
   */
  lemma SentIsVisible(cfg: Config, t: Tables, q: Queue, e: Entry, now: int, at: int)
    requires Keyed(cfg, t) && Inserts(cfg, t, q, e, now) && now <= at
    ensures var t', m := Send(cfg, t, q, e, now), NewMessage(cfg, q, e, t.nextRowId, now);
      && (m in LiveOf(t', q.id, at) <==> at < now + RetentionSeconds(q) * 1000)
      && (Visible(m, at) <==> now + EntryDelay(q, e) * 1000 <= at < now + RetentionSeconds(q) * 1000)
      && m.messageId == EntryResponse(cfg, q, e).messageId && m.body == e.body
      && forall other :: other != m ==> (other in LiveOf(t', q.id, at) <==> other in LiveOf(t, q.id, at))
  {
    var t', m := Send(cfg, t, q, e, now), NewMessage(cfg, q, e, t.nextRowId, now);
    assert t'.messages == t.messages[t.nextRowId := m];
    SendKeyed(cfg, t, q, e, now);
    LiveRows(t, q.id, at);
    LiveRows(t', q.id, at);
  }

  /**
   * A leased message is out of sight until its deadline and deliverable again from then on, as long as it is live; the lease
   * counts one more receive and notes the first.
   */
  lemma LeasedIsHidden(t: Tables, queueId: int, rows: seq<Message>, handles: seq<Handle>, attemptId: string, deadline: int,
                       now: int, id: int, at: int)
    requires |handles| == |rows| && id in RowIds(rows) && id in t.messages
    requires Visible(t.messages[id], now) && now <= at
    ensures var m, m' := t.messages[id], Lease(t, queueId, rows, handles, attemptId, deadline, now).messages[id];
      && (Visible(m', at) <==> Live(m, at) && deadline <= at)
      && m'.receiveCount == m.receiveCount + 1
      && m'.firstReceivedAt == (if m.firstReceivedAt.Some? then m.firstReceivedAt else Some(now))
      && SameIdentity(m, m')
  {
    var t' := Lease(t, queueId, rows, handles, attemptId, deadline, now);
    assert t'.messages == LeaseMessages(t.messages, RowIds(rows), deadline, now);
  }

  /** A new queue starts empty, even under the name of a deleted one, and leaves the messages of all other queues alone. */
  lemma NewQueueIsEmpty(cfg: Config, t: Tables, name: string, attributes: map<string, string>, stamps: map<string, string>, now: int)
    requires Keyed(cfg, t) && FifoLocks.Referenced(t)
    requires CreateResult(cfg, t, name, attributes, now).Ok? && !IsLive(QueueByName(t, name))
    ensures var t', id := CreateQueue(cfg, t, name, attributes, stamps, now), t.nextQueueId;
      && id !in t.queues && id in t'.queues && t'.queues[id].name == name
      && (forall m :: m in t'.messages ==> t'.messages[m].queueId != id && m in t.messages && t'.messages[m] == t.messages[m])
      && (forall m :: m in t.messages && t.messages[m].queueId in t'.queues ==> m in t'.messages)
  {
    var existing := QueueByName(t, name);
    if existing.Some? { RemoveQueueKeyed(cfg, t, existing.value.id); }
  }

  /** A deleted message is never delivered again, by any later receive of any queue in any run. */
  lemma DeletedIsNeverDelivered(cfg: Config, t: Tables, now: int, run: seq<Tick>, id: int, q: Queue, max: nat, at: int)
    requires Sound(cfg, t, now) && Legal(cfg, t, now, run)
    requires id in t.messages && t.messages[id].deletedAt.Some?
    ensures forall m :: m in CandidatesOf(After(cfg, t, now, run), q, max, at) ==> m.rowId != id
  {
    var t' := After(cfg, t, now, run);
    RunContinues(cfg, t, now, run);
    RunSound(cfg, t, now, run);
    CandidateRows(t', q, max, at);
    assert id in t'.messages ==> SameIdentity(t.messages[id], t'.messages[id]);
  }
}
