/** What a whole receive answers, in the columns of the tables it leaves. */
module Answers {
  import opened Records
  import opened Sequences
  import opened Tables
  import opened QueueAttributes
  import opened Deliverable
  import opened Plane
  import opened Integrity
  import opened Leases
  import opened LeaseBounds
  import opened MoveTasks
  import opened Redrive
  import opened RedriveLimits
  import opened Selections
  import opened Receiving
  import opened Requests
  import opened ReceiveRequests
  import opened Runs
  import opened Upkeeping

  // ---- a leased answer ------------------------------------------------------------------------

  /** Nothing is redriven unless there is a live dead-letter queue, so the rounds keep the keys. */
  lemma RoundsKeyed(cfg: Config, t: Tables, q: Queue, max: nat, now: int, n: nat)
    requires MessagesKeyed(t) && QueuesKeyed(cfg, t)
    requires StopsAfter(cfg, t, q, max, now, n)
    ensures MessagesKeyed(AfterRounds(cfg, t, q, max, now, n)) && AfterRounds(cfg, t, q, max, now, n).queues == t.queues
  {
    if Diverts(cfg, t, q) {
      RoundsRedrive(cfg, t, q, max, now, n);
      RedriveRowsOnly(t, q.arn, RedriveTarget(cfg, t, q).value.id, Left(cfg, t, q, max, now, n), now);
    } else if Settled(cfg, t, q, max, now) {
      SettledStays(cfg, t, q, max, now, n);
    } else {
      Stuck(cfg, t, q, max, now, n);
    }
  }

  /**
   * The `i`th message of a leased answer is the `i`th selected one, and `Paired`: its handle is that of an active receipt, issued
   * now and running for the timeout, which names the row with the message id, the body and the receive count of the answer.
   */
  lemma SelectedPairs(cfg: Config, t: Tables, q: Queue, r: ReceiveRequest, timeout: int, handles: seq<Handle>, now: int,
                      result: seq<Delivery>, chosen: seq<Message>, rounds: nat, t': Tables, i: nat)
    requires MessagesKeyed(t) && QueuesKeyed(cfg, t) && Unrepeated(handles)
    requires Selected(cfg, t, q, r, timeout, handles, now, result, chosen, rounds, t') && i < |result|
    ensures |result| == |chosen| <= MaxOf(r) && result[i].receiptHandle == handles[i] && chosen[i].queueId == q.id
    ensures Paired(t', q.id, chosen[i], result[i], r.attemptId, now + timeout * 1000, now)
  {
    var t1, drawn := AfterRounds(cfg, t, q, MaxOf(r), now, rounds), handles[..|chosen|];
    RoundsKeyed(cfg, t, q, MaxOf(r), now, rounds);
    ChosenStored(t1, q, MaxOf(r), now, i);
    UnrepeatedPrefix(handles, |chosen|);
    LeasePairs(t1, q.id, chosen, drawn, r.attemptId, LeaseEnd(now, timeout), now, i);
  }

  lemma ChosenStored(t: Tables, q: Queue, max: nat, now: int, i: nat)
    requires MessagesKeyed(t) && i < |CandidatesOf(t, q, max, now)|
    ensures RowsOf(t.messages, CandidatesOf(t, q, max, now)) && CandidatesOf(t, q, max, now)[i].queueId == q.id
  {
    CandidatesStored(t, q, max, now);
    CandidateRows(t, q, max, now);
    assert CandidatesOf(t, q, max, now)[i] in CandidatesOf(t, q, max, now);
  }

  /** A leased answer is cached under the attempt id of the request, if it has one, for five minutes. */
  lemma AnswerCached(cfg: Config, t: Tables, q: Queue, r: ReceiveRequest, timeout: int, handles: seq<Handle>, now: int,
                     result: seq<Delivery>, chosen: seq<Message>, rounds: nat, t': Tables)
    requires MessagesKeyed(t) && QueuesKeyed(cfg, t)
    requires Selected(cfg, t, q, r, timeout, handles, now, result, chosen, rounds, t')
    ensures t'.attempts == if result == [] || r.attemptId == "" then t.attempts
      else t.attempts[AttemptKey(q.id, r.attemptId) := ReceiveAttempt(result, now + 300000, None)]
  {
    RoundsAttempts(cfg, t, q, MaxOf(r), now, rounds);
  }

  lemma {:induction false} RoundsAttempts(cfg: Config, t: Tables, q: Queue, max: nat, now: int, n: nat)
    ensures AfterRounds(cfg, t, q, max, now, n).attempts == t.attempts
    decreases n
  {
    if n > 0 { RoundsAttempts(cfg, Round(cfg, t, q, max, now), q, max, now, n - 1); }
  }

  // ---- the whole request ----------------------------------------------------------------------

  /** The queue of a request, as it is when its turn of the polling loop begins. */
  ghost predicate TurnOf(cfg: Config, t: Tables, url: string, r: ReceiveRequest, now: int, t2: Tables, q: Queue) {
    var t1 := Maintained(t, now);
    && Ready(t1, url, now).Ok? && t2 == Maintained(AfterReplay(t1, Ready(t1, url, now).value, r, now), now)
    && q.id in t2.queues && t2.queues[q.id] == q && q.url == url && q.deletedAt.None?
  }

  /** A receive that is answered, and not by a replay, comes to a turn of its loop. */
  lemma TurnReached(cfg: Config, t: Tables, url: string, r: ReceiveRequest, handles: seq<Handle>, now: int,
                    result: seq<Delivery>, chosen: seq<Message>, rounds: nat, t': Tables) returns (t2: Tables, q: Queue)
    requires Keyed(cfg, t) && Received(cfg, t, url, r, handles, now, Ok(result), chosen, rounds, t')
    requires !Replays(Maintained(t, now), Ready(Maintained(t, now), url, now).value, r, now)
    ensures TurnOf(cfg, t, url, r, now, t2, q) && Keyed(cfg, t2)
    ensures Selected(cfg, t2, q, r, TimeoutOf(Ready(Maintained(t, now), url, now).value, r), handles, now, result, chosen, rounds, t')
  {
    var t1 := Maintained(t, now);
    MaintainedKeyed(cfg, t, now);
    var q1 := Ready(t1, url, now).value;
    AfterReplayKeyed(cfg, t1, q1, r, now);
    t2 := Maintained(AfterReplay(t1, q1, r, now), now);
    MaintainedKeyed(cfg, AfterReplay(t1, q1, r, now), now);
    q := Found(t2, q1.url).value;
    FoundStored(cfg, t2, q1.url);
  }

  lemma AfterReplayKeyed(cfg: Config, t: Tables, q: Queue, r: ReceiveRequest, now: int)
    requires Keyed(cfg, t)
    ensures Keyed(cfg, AfterReplay(t, q, r, now))
  {
    if Cached(t, q, r, now).Some? { RefreshedKeyed(cfg, t, q.id, Cached(t, q, r, now).value.response, TimeoutOf(q, r), now); }
  }

  /** A receive came to a turn of its loop with this queue, in these tables, and the turn gave this answer. */
  ghost predicate Turned(cfg: Config, t2: Tables, q: Queue, url: string, r: ReceiveRequest, timeout: int, handles: seq<Handle>, now: int,
                         result: seq<Delivery>, chosen: seq<Message>, rounds: nat, t': Tables)
  {
    && MessagesKeyed(t2) && QueuesKeyed(cfg, t2) && q.url == url && q.deletedAt.None?
    && Selected(cfg, t2, q, r, timeout, handles, now, result, chosen, rounds, t')
  }

  /**
   * A receive that is answered, and not by a replay, comes to such a turn in the queue with its URL, with the timeout of the request
   * or of the queue as the request finds it.
   */
  lemma TurnTaken(cfg: Config, t: Tables, url: string, r: ReceiveRequest, handles: seq<Handle>, now: int,
                  result: seq<Delivery>, chosen: seq<Message>, rounds: nat, t': Tables, q1: Queue) returns (t2: Tables, q: Queue)
    requires Keyed(cfg, t) && Received(cfg, t, url, r, handles, now, Ok(result), chosen, rounds, t')
    requires Ready(Maintained(t, now), url, now) == Ok(q1) && !Replays(Maintained(t, now), q1, r, now)
    ensures Turned(cfg, t2, q, url, r, TimeoutOf(q1, r), handles, now, result, chosen, rounds, t')
  {
    t2, q := TurnReached(cfg, t, url, r, handles, now, result, chosen, rounds, t');
  }

  /**
   * The `i`th message that a turn answers was deliverable in the queue, and below the limit of its redrive policy if that has one;
   * and the answer is `Paired`.
   */
  lemma TurnPairs(cfg: Config, t: Tables, q: Queue, url: string, r: ReceiveRequest, timeout: int, handles: seq<Handle>, now: int,
                  result: seq<Delivery>, chosen: seq<Message>, rounds: nat, t': Tables, i: nat)
    requires Turned(cfg, t, q, url, r, timeout, handles, now, result, chosen, rounds, t') && Unrepeated(handles) && i < |result|
    ensures |result| == |chosen| <= MaxOf(r) && Paired(t', q.id, chosen[i], result[i], r.attemptId, now + timeout * 1000, now)
    ensures var m, p := chosen[i], cfg.readRedrivePolicy(PolicyText(q));
      && m.queueId == q.id && m.deletedAt.None? && m.retentionDeadline > now && m.availableAt <= now
      && (m.visibilityDeadline.Some? ==> m.visibilityDeadline.value <= now)
      && (p.Some? && p.value.targetArn != "" && p.value.maxReceiveCount > 0 ==> m.receiveCount < p.value.maxReceiveCount)
  {
    SelectedPairs(cfg, t, q, r, timeout, handles, now, result, chosen, rounds, t', i);
    RoundsKeyed(cfg, t, q, MaxOf(r), now, rounds);
    SelectedAreVisible(AfterRounds(cfg, t, q, MaxOf(r), now, rounds), q, MaxOf(r), now);
    assert chosen[i] in chosen;
    DeliveredBelowLimit(cfg, t, q, MaxOf(r), now, rounds, chosen[i]);
  }
}
