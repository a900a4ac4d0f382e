/** The whole of a receive request: maintenance, checks, replay, and the turns of its polling loop. */
module ReceiveRequests {
  import opened Records
  import opened Sequences
  import opened Tables
  import opened Storage
  import opened QueueAttributes
  import opened Plane
  import opened Integrity
  import opened Redrive
  import opened Runs
  import opened Traces
  import opened Receiving
  import opened ReceiveRuns
  import opened Upkeeping
  import opened Requests

  /** What a receive request asks for. */
  datatype ReceiveRequest = ReceiveRequest(
    maxMessages: Option<int>,
    waitTime: Option<int>,
    visibilityTimeout: Option<int>,
    attemptId: string
  )

  function MaxOf(r: ReceiveRequest): int { if r.maxMessages.Some? then r.maxMessages.value else 1 }

  function WaitOf(q: Queue, r: ReceiveRequest): int { if r.waitTime.Some? then r.waitTime.value else WaitTime(q) }

  function TimeoutOf(q: Queue, r: ReceiveRequest): int {
    if r.visibilityTimeout.Some? then r.visibilityTimeout.value else VisibilityTimeout(q)
  }

  predicate ValidReceive(q: Queue, r: ReceiveRequest) {
    && 1 <= MaxOf(r) <= 10 && 0 <= WaitOf(q, r) <= 20 && 0 <= TimeoutOf(q, r) <= MAX_TIMEOUT
    && (r.attemptId == "" || (q.fifo && |r.attemptId| <= 128))
  }

  /** The cached attempt, if the request names one. */
  ghost function Cached(t: Tables, q: Queue, r: ReceiveRequest, now: int): Option<ReceiveAttempt> {
    if r.attemptId == "" then None else FindAttempt(t, AttemptKey(q.id, r.attemptId), now)
  }

  /** The cached attempt is answered without selecting anything. */
  ghost predicate Replays(t: Tables, q: Queue, r: ReceiveRequest, now: int) {
    Cached(t, q, r, now).Some? && AllRefreshed(t, q.id, Cached(t, q, r, now).value.response, TimeoutOf(q, r), now)
  }

  /** The tables after the attempt to replay, successful or not. */
  ghost function AfterReplay(t: Tables, q: Queue, r: ReceiveRequest, now: int): Tables {
    if Cached(t, q, r, now).None? then t
    else Refreshed(t, q.id, Cached(t, q, r, now).value.response, TimeoutOf(q, r), now)
  }

  lemma {:induction false} RefreshedKeyed(cfg: Config, t: Tables, queueId: int, response: seq<Delivery>, timeout: int, now: int)
    requires Keyed(cfg, t)
    ensures Keyed(cfg, Refreshed(t, queueId, response, timeout, now))
    decreases |response|
  {
    if response != [] && Refreshable(t, queueId, response[0].receiptHandle, now) {
      var t1 := SetLease(t, response[0].receiptHandle, LeaseEnd(now, timeout), true);
      SetLeaseRows(t, response[0].receiptHandle, LeaseEnd(now, timeout), true);
      ReceiptEventKeyed(cfg, t, t1);
      RefreshedKeyed(cfg, t1, queueId, response[1..], timeout, now);
    }
  }

  /** The checks of a receive request. */
  method CheckReceive(queue: Queue, request: ReceiveRequest) returns (valid: bool)
    ensures valid <==> ValidReceive(queue, request)
  {
    var max := if request.maxMessages.Some? then request.maxMessages.value else 1;
    if max < 1 || max > 10 {
      return false;
    }
    var wait := if request.waitTime.Some? then request.waitTime.value else WaitTime(queue);
    if wait < 0 || wait > 20 {
      return false;
    }
    var timeout := if request.visibilityTimeout.Some? then request.visibilityTimeout.value else VisibilityTimeout(queue);
    if timeout < 0 || timeout > 43200 {
      return false;
    }
    valid := request.attemptId == "" || (queue.fifo && |request.attemptId| <= 128);
  }

  /** The part of `ReceiveMessage` before its polling loop: checks and replay. `None` means that the loop is entered. */
  method CheckAndReplay(store: Store, ghost cfg: Config, queue: Queue, request: ReceiveRequest, now: int)
    returns (answer: Option<Result<seq<Delivery>>>)
    requires Keyed(cfg, store.View())
    modifies store
    ensures Keyed(cfg, store.View())
    ensures var t := old(store.View());
      if !ValidReceive(queue, request) then answer == Some(Err(InvalidParameterValue)) && store.View() == t
      else
        && store.View() == AfterReplay(t, queue, request, now)
        && answer == if Replays(t, queue, request, now) then Some(Ok(Cached(t, queue, request, now).value.response)) else None
  {
    var valid := CheckReceive(queue, request);
    if !valid {
      return Some(Err(InvalidParameterValue));
    }
    if request.attemptId == "" {
      return None;
    }
    ghost var t := store.View();
    var timeout := if request.visibilityTimeout.Some? then request.visibilityTimeout.value else VisibilityTimeout(queue);
    var output := ReplayReceiveAttempt(store, queue.id, request.attemptId, timeout, now);
    if Cached(t, queue, request, now).Some? {
      RefreshedKeyed(cfg, t, queue.id, Cached(t, queue, request, now).value.response, timeout, now);
    }
    answer := if output.Some? then Some(Ok(output.value)) else None;
  }

  // ---- one turn -------------------------------------------------------------------------------

  /** What one turn of the polling loop does with a live queue, maintenance done: select and lease. */
  ghost predicate Selected(cfg: Config, t: Tables, q: Queue, r: ReceiveRequest, timeout: int, handles: seq<Handle>, now: int,
                           result: seq<Delivery>, chosen: seq<Message>, rounds: nat, t': Tables)
  {
    && MaxOf(r) >= 0 && StopsAfter(cfg, t, q, MaxOf(r), now, rounds)
    && var t1 := AfterRounds(cfg, t, q, MaxOf(r), now, rounds);
    && chosen == CandidatesOf(t1, q, MaxOf(r), now)
    && |chosen| <= |handles| && result == Deliveries(chosen, handles[..|chosen|])
    && t' == if chosen == [] then t1 else Lease(t1, q.id, chosen, handles[..|chosen|], r.attemptId, LeaseEnd(now, timeout), now)
  }

  /** One turn of the polling loop: maintenance again, lookup again, select and lease. */
  ghost predicate Polled(cfg: Config, t: Tables, url: string, r: ReceiveRequest, timeout: int, handles: seq<Handle>, now: int,
                         result: Result<seq<Delivery>>, chosen: seq<Message>, rounds: nat, t': Tables)
  {
    var t1 := Maintained(t, now);
    match Found(t1, url)
    case Err(e) => result == Err(e) && t' == t1
    case Ok(q) => result.Ok? && Selected(cfg, t1, q, r, timeout, handles, now, result.value, chosen, rounds, t')
  }

  /** The dead-letter queue does not keep the selection from ending. */
  ghost predicate PollEnds(cfg: Config, t: Tables, url: string, r: ReceiveRequest, now: int) {
    var t1 := Maintained(t, now);
    Found(t1, url).Ok? && MaxOf(r) >= 0 ==>
      Settled(cfg, t1, Found(t1, url).value, MaxOf(r), now) || Diverts(cfg, t1, Found(t1, url).value)
  }

  /**
   * One turn of the polling loop. A request that waits has further turns at later instants, with other requests in
   * between.
   */
  method Poll(store: Store, cfg: Config, url: string, request: ReceiveRequest, timeout: int, handles: seq<Handle>, now: int)
    returns (result: Result<seq<Delivery>>, ghost chosen: seq<Message>, ghost rounds: nat)
    requires Keyed(cfg, store.View()) && PollEnds(cfg, store.View(), url, request, now)
    requires 1 <= MaxOf(request) <= |handles| && Unrepeated(handles)
    modifies store
    ensures Polled(cfg, old(store.View()), url, request, timeout, handles, now, result, chosen, rounds, store.View())
  {
    chosen, rounds := [], 0;
    var queue := Open(store, cfg, url, now);
    if queue.Err? {
      return Err(queue.error), chosen, rounds;
    }
    var messages;
    messages, chosen, rounds := PollOnce(store, cfg, queue.value, MaxOf(request), timeout, request.attemptId, handles, now);
    result := Ok(messages);
  }

  // ---- the request ----------------------------------------------------------------------------

  /**
   * What a receive request does up to the end of its first turn. `chosen` and `rounds` are those of the selection, if it comes
   * to one.
   */
  ghost predicate Received(cfg: Config, t: Tables, url: string, r: ReceiveRequest, handles: seq<Handle>, now: int,
                           result: Result<seq<Delivery>>, chosen: seq<Message>, rounds: nat, t': Tables)
  {
    var t1 := Maintained(t, now);
    match Ready(t1, url, now)
    case Err(e) => result == Err(e) && t' == t1
    case Ok(q) =>
      if !ValidReceive(q, r) then result == Err(InvalidParameterValue) && t' == t1
      else if Replays(t1, q, r, now) then result == Ok(Cached(t1, q, r, now).value.response) && t' == AfterReplay(t1, q, r, now)
      else Polled(cfg, AfterReplay(t1, q, r, now), q.url, r, TimeoutOf(q, r), handles, now, result, chosen, rounds, t')
  }

  /** The request is answered: it is refused, replayed, or its selection ends. */
  ghost predicate ReceiveEnds(cfg: Config, t: Tables, url: string, r: ReceiveRequest, now: int) {
    var t1 := Maintained(t, now);
    match Ready(t1, url, now)
    case Err(_) => true
    case Ok(q) => ValidReceive(q, r) && !Replays(t1, q, r, now) ==> PollEnds(cfg, AfterReplay(t1, q, r, now), q.url, r, now)
  }

  /**
   * `ReceiveMessage`, to the end of its first turn. `handles` is the supply of random handles. The condition on the
   * dead-letter queue is the one under which the request is answered at all.
   */
  method ReceiveMessage(store: Store, cfg: Config, url: string, request: ReceiveRequest, handles: seq<Handle>, now: int)
    returns (result: Result<seq<Delivery>>, ghost chosen: seq<Message>, ghost rounds: nat)
    requires Keyed(cfg, store.View()) && |handles| >= 10 && Unrepeated(handles)
    requires ReceiveEnds(cfg, store.View(), url, request, now)
    modifies store
    ensures Received(cfg, old(store.View()), url, request, handles, now, result, chosen, rounds, store.View())
  {
    chosen, rounds := [], 0;
    var queue := OpenReady(store, cfg, url, now);
    if queue.Err? {
      return Err(queue.error), chosen, rounds;
    }
    var answer := CheckAndReplay(store, cfg, queue.value, request, now);
    if answer.Some? {
      return answer.value, chosen, rounds;
    }
    var timeout := if request.visibilityTimeout.Some? then request.visibilityTimeout.value else VisibilityTimeout(queue.value);
    result, chosen, rounds := Poll(store, cfg, queue.value.url, request, timeout, handles, now);
  }

  // ---- a receive is a run ---------------------------------------------------------------------

  lemma FreshPrefix(t: Tables, handles: seq<Handle>, n: nat)
    requires Fresh(t, handles) && n <= |handles|
    ensures Fresh(t, handles[..n])
  {
    UnrepeatedPrefix(handles, n);
  }

  /** Selecting and leasing is a run. */
  lemma SelectedLeads(cfg: Config, t: Tables, q: Queue, r: ReceiveRequest, timeout: int, handles: seq<Handle>, now: int,
                      result: seq<Delivery>, chosen: seq<Message>, rounds: nat, t': Tables)
    returns (trace: seq<Event>)
    requires Keyed(cfg, t) && Stored(t, q) && 0 <= timeout <= MAX_TIMEOUT && Fresh(t, handles)
    requires Selected(cfg, t, q, r, timeout, handles, now, result, chosen, rounds, t')
    ensures Leads(cfg, t, now, trace, t')
  {
    if chosen == [] {
      trace := RoundsLead(cfg, t, q, MaxOf(r), now, rounds);
    } else {
      FreshPrefix(t, handles, |chosen|);
      trace := ReceiveLeads(cfg, t, q, MaxOf(r), now, rounds, timeout, r.attemptId, handles[..|chosen|]);
    }
  }

  /** One turn of the polling loop is a run of events. */
  lemma PollLeads(cfg: Config, t: Tables, url: string, r: ReceiveRequest, timeout: int, handles: seq<Handle>, now: int,
                  result: Result<seq<Delivery>>, chosen: seq<Message>, rounds: nat, t': Tables)
    returns (trace: seq<Event>)
    requires Keyed(cfg, t) && 0 <= timeout <= MAX_TIMEOUT && Fresh(t, handles)
    requires Polled(cfg, t, url, r, timeout, handles, now, result, chosen, rounds, t')
    ensures trace != [] && Leads(cfg, t, now, trace, t')
  {
    var t1, work := Maintained(t, now), [];
    MaintainedKeyed(cfg, t, now);
    MaintainedIssued(t, now);
    LeadsNowhere(cfg, t1, now);
    if Found(t1, url).Ok? {
      var q := Found(t1, url).value;
      FoundStored(cfg, t1, url);
      work := SelectedLeads(cfg, t1, q, r, timeout, handles, now, result.value, chosen, rounds, t');
    }
    trace := MaintainedLeads(cfg, t, now, work, t');
  }

  /** The attempt to replay, successful or not, is a run, and draws no handle. */
  lemma AfterReplayLeads(cfg: Config, t: Tables, q: Queue, r: ReceiveRequest, now: int) returns (trace: seq<Event>)
    requires Stored(t, q) && 0 <= TimeoutOf(q, r) <= MAX_TIMEOUT
    ensures Leads(cfg, t, now, trace, AfterReplay(t, q, r, now)) && AfterReplay(t, q, r, now).issued == t.issued
  {
    if Cached(t, q, r, now).None? {
      LeadsNowhere(cfg, t, now);
      trace := [];
    } else {
      trace := ReplayLeads(cfg, t, q, r.attemptId, Cached(t, q, r, now).value.response, TimeoutOf(q, r), now);
      ReplayOnlyDeadlines(t, q.id, Cached(t, q, r, now).value.response, TimeoutOf(q, r), now);
    }
  }

  /** What follows on the maintenance of a valid receive: the replay, and a turn of the loop unless that answered. */
  lemma ReadyLeads(cfg: Config, t: Tables, q: Queue, r: ReceiveRequest, handles: seq<Handle>, now: int,
                   result: Result<seq<Delivery>>, chosen: seq<Message>, rounds: nat, t': Tables)
    returns (trace: seq<Event>)
    requires Keyed(cfg, t) && Stored(t, q) && ValidReceive(q, r) && Fresh(t, handles)
    requires if Replays(t, q, r, now) then t' == AfterReplay(t, q, r, now)
             else Polled(cfg, AfterReplay(t, q, r, now), q.url, r, TimeoutOf(q, r), handles, now, result, chosen, rounds, t')
    ensures Leads(cfg, t, now, trace, t')
  {
    var t1 := AfterReplay(t, q, r, now);
    trace := AfterReplayLeads(cfg, t, q, r, now);
    if !Replays(t, q, r, now) {
      LeadsKeyed(cfg, t, now, trace, t1);
      var turn := PollLeads(cfg, t1, q.url, r, TimeoutOf(q, r), handles, now, result, chosen, rounds, t');
      LeadsOn(cfg, t, now, trace, t1, turn, t');
      trace := trace + turn;
    }
  }

  /** A whole receive request is a run of events. */
  lemma ReceivedLeads(cfg: Config, t: Tables, url: string, r: ReceiveRequest, handles: seq<Handle>, now: int,
                      result: Result<seq<Delivery>>, chosen: seq<Message>, rounds: nat, t': Tables)
    returns (trace: seq<Event>)
    requires Keyed(cfg, t) && Fresh(t, handles)
    requires Received(cfg, t, url, r, handles, now, result, chosen, rounds, t')
    ensures trace != [] && Leads(cfg, t, now, trace, t')
  {
    var t1, work := Maintained(t, now), [];
    MaintainedKeyed(cfg, t, now);
    MaintainedIssued(t, now);
    LeadsNowhere(cfg, t1, now);
    if Ready(t1, url, now).Ok? && ValidReceive(Ready(t1, url, now).value, r) {
      FoundStored(cfg, t1, url);
      work := ReadyLeads(cfg, t1, Ready(t1, url, now).value, r, handles, now, result, chosen, rounds, t');
    }
    trace := MaintainedLeads(cfg, t, now, work, t');
  }
}
