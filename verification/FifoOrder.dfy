/** A FIFO queue delivers the messages of a group in order, in every state a run can lead to. */
module FifoOrder {
  import opened Records
  import opened Sequences
  import opened Tables
  import opened Deliverable
  import opened DeliveryLaws
  import opened Plane
  import opened Leases
  import opened MoveTasks
  import opened LazyExpiry
  import opened Runs

  /** Response `ds` delivers the first message before the second. */
  ghost predicate DeliveredBefore(ds: seq<Delivery>, first: Message, second: Message) {
    exists i, j :: 0 <= i < j < |ds| && ds[i].messageId == first.messageId && ds[j].messageId == second.messageId
  }

  /**
   * Whenever a run has led to `t` and a receive on a FIFO queue delivers a message, every earlier live message of its
   * group is delivered before it in the same response.
   */
  lemma DeliveredInOrder(cfg: Config, t: Tables, now: int, at: int, q: Queue, max: nat, handles: seq<Handle>,
                         before: Message, m: Message)
    requires Reachable(cfg, t, now) && now <= at && q.id in t.queues && t.queues[q.id] == q && q.fifo
    requires m in CandidatesOf(t, q, max, at) && |handles| == |CandidatesOf(t, q, max, at)|
    requires before.rowId in t.messages && t.messages[before.rowId] == before
    requires before.queueId == q.id && before.groupId == m.groupId && before.deletedAt.None? && before.retentionDeadline > at
    requires before.sentAt < m.sentAt || (before.sentAt == m.sentAt && before.rowId < m.rowId)
    ensures DeliveredBefore(Deliveries(CandidatesOf(t, q, max, at), handles), before, m)
  {
    var live, rows := LiveOf(t, q.id, at), CandidatesOf(t, q, max, at);
    ReachableSound(cfg, t, now);
    LiveRows(t, q.id, at);
    LiveIncreasing(t, q.id, at);
    FifoNeverOvertakes(live, max, at, before, m);
    var i, j :| 0 <= i < j < |rows| && rows[i] == before && rows[j] == m;
    var ds := Deliveries(rows, handles);
    assert ds[i].messageId == before.messageId && ds[j].messageId == m.messageId;
  }
}
