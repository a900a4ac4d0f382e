/** A receive request is a run of events: refreshes, redrives and one lease. */
module ReceiveRuns {
  import opened Records
  import opened Sequences
  import opened Tables
  import opened QueueAttributes
  import opened Deliverable
  import opened DeliveryLaws
  import opened Plane
  import opened Integrity
  import opened Leases
  import opened Redrive
  import opened Runs
  import opened Traces
  import opened Receiving

  /** The queue as the store has it. */
  ghost predicate Stored(t: Tables, q: Queue) {
    q.id in t.queues && t.queues[q.id] == q && q.deletedAt.None?
  }

  ghost predicate MayRedrive(cfg: Config, t: Tables, q: Queue, m: Message, now: int) {
    && m.rowId in t.messages && t.messages[m.rowId] == m
    && m.queueId == q.id && Visible(m, now) && ShouldRedrive(cfg, q, m)
  }

  lemma MayRedriveAfter(cfg: Config, t: Tables, q: Queue, targetId: int, row: int, m: Message, now: int)
    requires MayRedrive(cfg, t, q, m, now) && m.rowId != row
    ensures MayRedrive(cfg, RedriveRows(t, q.arn, targetId, {row}, now), q, m, now)
  {
  }

  lemma {:induction false} RowsLead(cfg: Config, t: Tables, q: Queue, over: seq<Message>, now: int) returns (trace: seq<Event>)
    requires QueuesKeyed(cfg, t) && Stored(t, q) && RedriveTarget(cfg, t, q).Some? && OneEach(over)
    requires forall i :: 0 <= i < |over| ==> MayRedrive(cfg, t, q, over[i], now)
    ensures Leads(cfg, t, now, trace, RedriveRows(t, q.arn, RedriveTarget(cfg, t, q).value.id, RowIds(over), now))
    decreases |over|
  {
    var target := RedriveTarget(cfg, t, q).value.id;
    if over == [] {
      RedriveNone(t, q.arn, target, now);
      LeadsNowhere(cfg, t, now);
      trace := [];
    } else {
      var row := over[0].rowId;
      var t1 := RedriveRows(t, q.arn, target, {row}, now);
      assert MayRedrive(cfg, t, q, over[0], now);
      forall i | 0 <= i < |over[1..]| ensures MayRedrive(cfg, t1, q, over[1..][i], now) {
        RowIdIn(over[1..], i);
        assert MayRedrive(cfg, t, q, over[i + 1], now);
        MayRedriveAfter(cfg, t, q, target, row, over[i + 1], now);
      }
      TargetStays(cfg, t, t1, q);
      LeadsRedrive(cfg, t, now, q, row);
      var rest := RowsLead(cfg, t1, q, over[1..], now);
      RedriveTwice(t, q.arn, target, {row}, RowIds(over[1..]), now);
      LeadsOn(cfg, t, now, [OnMessages(RedriveOne(q.id, row))], t1, rest,
              RedriveRows(t, q.arn, target, RowIds(over), now));
      trace := [OnMessages(RedriveOne(q.id, row))] + rest;
    }
  }

  lemma {:induction false} FilterOneEach(rows: seq<Message>, keep: Message -> bool)
    requires OneEach(rows)
    ensures OneEach(Filter(rows, keep)) && RowIds(Filter(rows, keep)) <= RowIds(rows)
  {
    if rows != [] { FilterOneEach(rows[1..], keep); }
  }

  lemma RoundLeads(cfg: Config, t: Tables, q: Queue, max: nat, now: int) returns (trace: seq<Event>)
    requires MessagesKeyed(t) && QueuesKeyed(cfg, t) && Stored(t, q)
    ensures Leads(cfg, t, now, trace, Round(cfg, t, q, max, now))
  {
    if RedriveTarget(cfg, t, q).None? {
      LeadsNowhere(cfg, t, now);
      trace := [];
    } else {
      var over := Filter(CandidatesOf(t, q, max, now), Over(cfg, q));
      CandidateRows(t, q, max, now);
      FilterOneEach(CandidatesOf(t, q, max, now), Over(cfg, q));
      forall i | 0 <= i < |over| ensures MayRedrive(cfg, t, q, over[i], now) {
        assert over[i] in over;
      }
      trace := RowsLead(cfg, t, q, over, now);
    }
  }

  lemma RoundStored(cfg: Config, t: Tables, q: Queue, max: nat, now: int)
    requires MessagesKeyed(t) && QueuesKeyed(cfg, t) && Stored(t, q)
    ensures var t' := Round(cfg, t, q, max, now); MessagesKeyed(t') && QueuesKeyed(cfg, t') && Stored(t', q)
    ensures Round(cfg, t, q, max, now).issued == t.issued
  {
    if RedriveTarget(cfg, t, q).Some? {
      RedriveRowsOnly(t, q.arn, RedriveTarget(cfg, t, q).value.id, OverRows(cfg, t, q, max, now), now);
    }
  }

  /** The redrives of a receive are a run. */
  lemma {:induction false} RoundsLead(cfg: Config, t: Tables, q: Queue, max: nat, now: int, n: nat) returns (trace: seq<Event>)
    requires MessagesKeyed(t) && QueuesKeyed(cfg, t) && Stored(t, q)
    ensures Leads(cfg, t, now, trace, AfterRounds(cfg, t, q, max, now, n))
    ensures Stored(AfterRounds(cfg, t, q, max, now, n), q) && AfterRounds(cfg, t, q, max, now, n).issued == t.issued
    decreases n
  {
    if n == 0 {
      LeadsNowhere(cfg, t, now);
      trace := [];
    } else {
      RoundStored(cfg, t, q, max, now);
      var t1 := Round(cfg, t, q, max, now);
      var first := RoundLeads(cfg, t, q, max, now);
      var rest := RoundsLead(cfg, t1, q, max, now, n - 1);
      LeadsOn(cfg, t, now, first, t1, rest, AfterRounds(cfg, t, q, max, now, n));
      trace := first + rest;
    }
  }

  /** What a receive that selected messages leaves behind is reached by a run of events. */
  lemma ReceiveLeads(cfg: Config, t: Tables, q: Queue, max: nat, now: int, n: nat, timeout: int, attemptId: string, handles: seq<Handle>)
    returns (trace: seq<Event>)
    requires MessagesKeyed(t) && QueuesKeyed(cfg, t) && Stored(t, q) && StopsAfter(cfg, t, q, max, now, n)
    requires 0 <= timeout <= MAX_TIMEOUT && Fresh(t, handles)
    requires |handles| == |CandidatesOf(AfterRounds(cfg, t, q, max, now, n), q, max, now)|
    ensures var t1 := AfterRounds(cfg, t, q, max, now, n);
      Leads(cfg, t, now, trace, Lease(t1, q.id, CandidatesOf(t1, q, max, now), handles, attemptId, LeaseEnd(now, timeout), now))
  {
    var t1 := AfterRounds(cfg, t, q, max, now, n);
    var rounds := RoundsLead(cfg, t, q, max, now, n);
    var lease := [OnMessages(LeaseSome(q.id, max, timeout, attemptId, handles))];
    LeadsLease(cfg, t1, now, q, max, timeout, attemptId, handles);
    LeadsOn(cfg, t, now, rounds, t1, lease, Lease(t1, q.id, CandidatesOf(t1, q, max, now), handles, attemptId, LeaseEnd(now, timeout), now));
    trace := rounds + lease;
  }

  /** A replay, even one given up halfway, is a run of refreshes; so it keeps every invariant. */
  lemma {:induction false} ReplayLeads(cfg: Config, t: Tables, q: Queue, attemptId: string, response: seq<Delivery>, timeout: int, now: int)
    returns (trace: seq<Event>)
    requires Stored(t, q) && 0 <= timeout <= MAX_TIMEOUT
    requires FindAttempt(t, AttemptKey(q.id, attemptId), now).Some?
    requires forall i :: 0 <= i < |response| ==> response[i] in FindAttempt(t, AttemptKey(q.id, attemptId), now).value.response
    ensures Leads(cfg, t, now, trace, Refreshed(t, q.id, response, timeout, now))
    decreases |response|
  {
    if response == [] || !Refreshable(t, q.id, response[0].receiptHandle, now) {
      LeadsNowhere(cfg, t, now);
      trace := [];
    } else {
      var handle := response[0].receiptHandle;
      var t1 := SetLease(t, handle, LeaseEnd(now, timeout), true);
      assert response[0] in FindAttempt(t, AttemptKey(q.id, attemptId), now).value.response;
      LeadsRefresh(cfg, t, now, q, attemptId, handle, timeout);
      var rest := ReplayLeads(cfg, t1, q, attemptId, response[1..], timeout, now);
      LeadsOn(cfg, t, now, [OnMessages(RefreshOne(q.id, attemptId, handle, timeout))], t1, rest,
              Refreshed(t, q.id, response, timeout, now));
      trace := [OnMessages(RefreshOne(q.id, attemptId, handle, timeout))] + rest;
    }
  }
}
