/** The receive handler: select, redriving as needed, and lease. */
module Receiving {
  import opened Records
  import opened Sequences
  import opened Tables
  import opened Storage
  import opened QueueAttributes
  import opened Deliverable
  import opened DeliveryLaws
  import opened Plane
  import opened Integrity
  import opened Leases
  import opened Redrive
  import opened Runs
  import opened Traces

  // ---- select -------------------------------------------------------------------------

  /** `redriveMessage`: does nothing when the dead-letter queue is missing or deleted. */
  method RedriveToTarget(store: Store, cfg: Config, queue: Queue, message: Message, now: int)
    requires QueuesKeyed(cfg, store.View())
    requires message.rowId in store.messages && store.messages[message.rowId] == message
    modifies store
    ensures var t := old(store.View());
      store.View() == match RedriveTarget(cfg, t, queue)
        case Some(target) => RedriveRows(t, queue.arn, target.id, {message.rowId}, now)
        case None => t
  {
    ghost var t := store.View();
    var policy := PolicyOf(cfg, queue);
    if policy.None? {
      return;
    }
    var target := store.FindByArn(cfg, policy.value.targetArn);
    if !IsLive(target) {
      return;
    }
    store.DeactivateReceiptsByMessage(message.rowId);
    store.UpdateMessage(message.(queueId := target.value.id, availableAt := now, visibilityDeadline := None,
                                 deadLetterSourceArn := queue.arn));
    assert store.messages == RedriveRows(t, queue.arn, target.value.id, {message.rowId}, now).messages;
  }

  /** After redriving `rows`, or after nothing if there is no queue to redrive to. */
  ghost function Redriven(cfg: Config, t: Tables, q: Queue, rows: set<int>, now: int): Tables {
    match RedriveTarget(cfg, t, q)
    case Some(target) => RedriveRows(t, q.arn, target.id, rows, now)
    case None => t
  }

  lemma RedrivenMore(cfg: Config, t: Tables, q: Queue, rows: set<int>, row: int, now: int)
    requires QueuesKeyed(cfg, t)
    ensures var t1 := Redriven(cfg, t, q, rows, now);
      Redriven(cfg, t1, q, {row}, now) == Redriven(cfg, t, q, rows + {row}, now)
    ensures QueuesKeyed(cfg, Redriven(cfg, t, q, rows, now))
  {
    var t1 := Redriven(cfg, t, q, rows, now);
    TargetStays(cfg, t, t1, q);
    if RedriveTarget(cfg, t, q).Some? {
      RedriveTwice(t, q.arn, RedriveTarget(cfg, t, q).value.id, rows, {row}, now);
    }
  }

  lemma RedrivenNone(cfg: Config, t: Tables, q: Queue, now: int)
    ensures Redriven(cfg, t, q, {}, now) == t
  {
    if RedriveTarget(cfg, t, q).Some? {
      RedriveNone(t, q.arn, RedriveTarget(cfg, t, q).value.id, now);
    }
  }

  lemma RowIdsSnoc(rows: seq<Message>, m: Message)
    ensures RowIds(rows + [m]) == RowIds(rows) + {m.rowId}
  {
    if rows == [] {
      assert RowIds([m]) == {m.rowId} + RowIds([m][1..]);
    } else {
      assert (rows + [m])[1..] == rows[1..] + [m];
      RowIdsSnoc(rows[1..], m);
    }
  }

  lemma RedrivenRow(cfg: Config, t: Tables, q: Queue, rows: set<int>, now: int, m: Message)
    requires m.rowId in t.messages && t.messages[m.rowId] == m && m.rowId !in rows
    ensures m.rowId in Redriven(cfg, t, q, rows, now).messages && Redriven(cfg, t, q, rows, now).messages[m.rowId] == m
  {
  }

  lemma NewInFront(rows: seq<Message>, i: nat, keep: Message -> bool)
    requires OneEach(rows) && i < |rows|
    ensures rows[i].rowId !in RowIds(Filter(rows[..i], keep))
  {
    if rows[i].rowId in RowIds(Filter(rows[..i], keep)) {
      var k := RowIdAt(Filter(rows[..i], keep), rows[i].rowId);
      var j := IndexOf(rows[..i], Filter(rows[..i], keep)[k]);
      OneEachAt(rows, j, i);
    }
  }

  lemma OverSnoc(candidates: seq<Message>, i: nat, over: Message -> bool)
    requires i < |candidates|
    ensures var front := Filter(candidates[..i], over);
      if over(candidates[i]) then
        && Filter(candidates[..i + 1], over) == front + [candidates[i]]
        && RowIds(Filter(candidates[..i + 1], over)) == RowIds(front) + {candidates[i].rowId}
      else Filter(candidates[..i + 1], over) == front
  {
    FilterSnoc(candidates, i, over);
    RowIdsSnoc(Filter(candidates[..i], over), candidates[i]);
    assert Filter(candidates[..i], over) + [] == Filter(candidates[..i], over);
  }

  ghost predicate RowsOf(messages: map<int, Message>, rows: seq<Message>) {
    forall i :: 0 <= i < |rows| ==> rows[i].rowId in messages && messages[rows[i].rowId] == rows[i]
  }

  lemma CandidatesStored(t: Tables, q: Queue, max: nat, now: int)
    requires MessagesKeyed(t)
    ensures OneEach(CandidatesOf(t, q, max, now)) && RowsOf(t.messages, CandidatesOf(t, q, max, now))
  {
    var rows := CandidatesOf(t, q, max, now);
    CandidateRows(t, q, max, now);
    forall i | 0 <= i < |rows| ensures rows[i].rowId in t.messages && t.messages[rows[i].rowId] == rows[i] {
      assert rows[i] in rows;
    }
  }

  /** The rows to redrive among the first `i` candidates. */
  ghost function OverFront(cfg: Config, q: Queue, candidates: seq<Message>, i: nat): set<int>
    requires i <= |candidates|
  {
    RowIds(Filter(candidates[..i], Over(cfg, q)))
  }

  /** Whether there are any. */
  ghost predicate AnyOver(cfg: Config, q: Queue, candidates: seq<Message>, i: nat)
    requires i <= |candidates|
  {
    Filter(candidates[..i], Over(cfg, q)) != []
  }

  lemma OverStep(cfg: Config, q: Queue, candidates: seq<Message>, i: nat)
    requires OneEach(candidates) && i < |candidates|
    ensures candidates[i].rowId !in OverFront(cfg, q, candidates, i)
    ensures if ShouldRedrive(cfg, q, candidates[i])
      then OverFront(cfg, q, candidates, i + 1) == OverFront(cfg, q, candidates, i) + {candidates[i].rowId} && AnyOver(cfg, q, candidates, i + 1)
      else OverFront(cfg, q, candidates, i + 1) == OverFront(cfg, q, candidates, i)
           && (AnyOver(cfg, q, candidates, i + 1) <==> AnyOver(cfg, q, candidates, i))
  {
    NewInFront(candidates, i, Over(cfg, q));
    OverSnoc(candidates, i, Over(cfg, q));
  }

  /** The rows redriven before the `i`th candidate do not touch it; redriving it too adds its row. */
  lemma RedriveStep(cfg: Config, t: Tables, q: Queue, rows: set<int>, m: Message, now: int)
    requires QueuesKeyed(cfg, t) && m.rowId !in rows && m.rowId in t.messages && t.messages[m.rowId] == m
    ensures var t1 := Redriven(cfg, t, q, rows, now);
      && QueuesKeyed(cfg, t1) && m.rowId in t1.messages && t1.messages[m.rowId] == m
      && Redriven(cfg, t, q, rows + {m.rowId}, now) == Redriven(cfg, t1, q, {m.rowId}, now)
  {
    RedrivenRow(cfg, t, q, rows, now, m);
    RedrivenMore(cfg, t, q, rows, m.rowId, now);
  }

  /** The loop over the candidates: redrive those received too often. */
  method RedriveCandidates(store: Store, cfg: Config, queue: Queue, candidates: seq<Message>, now: int)
    returns (redriven: bool)
    requires QueuesKeyed(cfg, store.View()) && OneEach(candidates)
    requires RowsOf(store.messages, candidates)
    modifies store
    ensures redriven <==> Filter(candidates, Over(cfg, queue)) != []
    ensures redriven <==>
      var p := cfg.readRedrivePolicy(if "RedrivePolicy" in queue.attributes then queue.attributes["RedrivePolicy"] else "");
      p.Some? && p.value.targetArn != "" && p.value.maxReceiveCount > 0
      && exists m :: m in candidates && m.receiveCount >= p.value.maxReceiveCount
    ensures store.View() == Redriven(cfg, old(store.View()), queue, RowIds(Filter(candidates, Over(cfg, queue))), now)
  {
    ghost var t := store.View();
    redriven := false;
    assert candidates[..0] == [] && OverFront(cfg, queue, candidates, 0) == {};
    RedrivenNone(cfg, t, queue, now);
    for i := 0 to |candidates|
      invariant redriven <==> AnyOver(cfg, queue, candidates, i)
      invariant store.View() == Redriven(cfg, t, queue, OverFront(cfg, queue, candidates, i), now)
    {
      OverStep(cfg, queue, candidates, i);
      RedriveStep(cfg, t, queue, OverFront(cfg, queue, candidates, i), candidates[i], now);
      if ShouldRedrive(cfg, queue, candidates[i]) {
        RedriveToTarget(store, cfg, queue, candidates[i], now);
        redriven := true;
      }
    }
    assert candidates[..|candidates|] == candidates;
    AnyAtLimit(cfg, queue, candidates);
  }

  lemma AnyAtLimit(cfg: Config, q: Queue, candidates: seq<Message>)
    ensures Filter(candidates, Over(cfg, q)) != [] <==>
      var p := cfg.readRedrivePolicy(if "RedrivePolicy" in q.attributes then q.attributes["RedrivePolicy"] else "");
      p.Some? && p.value.targetArn != "" && p.value.maxReceiveCount > 0
      && exists m :: m in candidates && m.receiveCount >= p.value.maxReceiveCount
  {
    var over := Filter(candidates, Over(cfg, q));
    assert over != [] ==> over[0] in over;
    assert forall m :: m in candidates && Over(cfg, q)(m) ==> m in over;
  }

  lemma RoundIsRedriven(cfg: Config, t: Tables, q: Queue, max: nat, now: int)
    ensures Round(cfg, t, q, max, now) == Redriven(cfg, t, q, OverRows(cfg, t, q, max, now), now)
  {
  }

  lemma {:induction false} RoundsSnoc(cfg: Config, t: Tables, q: Queue, max: nat, now: int, n: nat)
    ensures AfterRounds(cfg, t, q, max, now, n + 1) == Round(cfg, AfterRounds(cfg, t, q, max, now, n), q, max, now)
    decreases n
  {
    if n > 0 { RoundsSnoc(cfg, Round(cfg, t, q, max, now), q, max, now, n - 1); }
  }

  ghost predicate MaySettle(cfg: Config, t: Tables, q: Queue, max: nat, now: int) {
    MessagesKeyed(t) && QueuesKeyed(cfg, t) && (Settled(cfg, t, q, max, now) || Diverts(cfg, t, q))
  }

  lemma RoundMaySettle(cfg: Config, t: Tables, q: Queue, max: nat, now: int)
    requires MaySettle(cfg, t, q, max, now) && !Settled(cfg, t, q, max, now)
    ensures MaySettle(cfg, Round(cfg, t, q, max, now), q, max, now)
    ensures |Redrivable(cfg, Round(cfg, t, q, max, now), q, now)| < |Redrivable(cfg, t, q, now)|
  {
    RoundKept(cfg, t, q, max, now);
    RoundShrinks(cfg, t, q, max, now);
  }

  /**
   * One turn of the loop of `selectMessagesForReceive`: list, select, redrive. `candidates` is the answer
   * unless something was redriven.
   */
  method SelectOnce(store: Store, cfg: Config, queue: Queue, max: nat, now: int)
    returns (candidates: seq<Message>, redriven: bool)
    requires MessagesKeyed(store.View()) && QueuesKeyed(cfg, store.View()) && max >= 1
    modifies store
    ensures candidates == CandidatesOf(old(store.View()), queue, max, now)
    ensures redriven <==> !Settled(cfg, old(store.View()), queue, max, now)
    ensures store.View() == if redriven then Round(cfg, old(store.View()), queue, max, now) else old(store.View())
  {
    ghost var t := store.View();
    var messages := store.ListMessagesByQueue(queue.id);
    MessagesOfRows(t, queue.id);
    LiveOfListing(messages, now);
    candidates := CandidateMessages(queue.fifo, messages, max, now);
    CandidatesStored(t, queue, max, now);
    RoundIsRedriven(cfg, t, queue, max, now);
    OverRowsRedrivable(cfg, t, queue, max, now);
    RedrivenNone(cfg, t, queue, now);
    assert RowIds(Filter(candidates, Over(cfg, queue))) == {} <==> Filter(candidates, Over(cfg, queue)) == [];
    redriven := RedriveCandidates(store, cfg, queue, candidates, now);
  }

  /**
   * `selectMessagesForReceive`. It returns exactly under the condition of `LoopEnds`; then the state is the
   * one after a number of rounds that leads to a settled scan, and the answer is that scan's. The number does not
   * matter: by `SettledStays` further rounds would change nothing.
   */
  method SelectMessagesForReceive(store: Store, cfg: Config, queue: Queue, max: nat, now: int)
    returns (chosen: seq<Message>, ghost rounds: nat)
    requires MaySettle(cfg, store.View(), queue, max, now) && max >= 1
    modifies store
    ensures store.View() == AfterRounds(cfg, old(store.View()), queue, max, now, rounds)
    ensures StopsAfter(cfg, old(store.View()), queue, max, now, rounds)
    ensures chosen == CandidatesOf(store.View(), queue, max, now)
    ensures PolicyOf(cfg, queue).Some? ==> forall m :: m in chosen ==> m.receiveCount < PolicyOf(cfg, queue).value.maxReceiveCount
    ensures MessagesKeyed(store.View()) && QueuesKeyed(cfg, store.View())
  {
    ghost var t := store.View();
    rounds := 0;
    while true
      invariant store.View() == AfterRounds(cfg, t, queue, max, now, rounds)
      invariant MaySettle(cfg, store.View(), queue, max, now)
      decreases |Redrivable(cfg, store.View(), queue, now)|
    {
      ghost var before := store.View();
      RoundsSnoc(cfg, t, queue, max, now, rounds);
      var candidates, redriven := SelectOnce(store, cfg, queue, max, now);
      if redriven {
        RoundMaySettle(cfg, before, queue, max, now);
        rounds := rounds + 1;
        continue;
      }
      return candidates, rounds;
    }
  }

  // ---- lease --------------------------------------------------------------------------

  lemma LeaseMessagesMore(messages: map<int, Message>, rows: set<int>, m: Message, deadline: int, now: int)
    requires m.rowId in messages && messages[m.rowId] == m && m.rowId !in rows
    ensures LeaseMessages(messages, rows, deadline, now)[m.rowId := LeaseMessage(m, deadline, now)]
            == LeaseMessages(messages, rows + {m.rowId}, deadline, now)
  {
  }

  lemma IndexOfPrefix(handles: seq<Handle>, i: nat, h: Handle)
    requires i <= |handles| && h in handles[..i]
    ensures IndexOf(handles, h) == IndexOf(handles[..i], h)
  {
    var a, b := IndexOf(handles, h), IndexOf(handles[..i], h);
    assert forall j :: 0 <= j < i ==> handles[..i][j] == handles[j];
  }

  lemma IndexInPrefixes(handles: seq<Handle>, i: nat)
    requires i < |handles| && Unrepeated(handles)
    ensures handles[i] in handles[..i + 1] && IndexOf(handles[..i + 1], handles[i]) == i
    ensures forall h :: h in handles[..i + 1] <==> h in handles[..i] || h == handles[i]
    ensures forall h :: h in handles[..i] ==> h != handles[i] && IndexOf(handles[..i + 1], h) == IndexOf(handles[..i], h)
  {
    FrontStep(handles, i);
    IndexOfUnrepeated(handles, i);
    IndexOfPrefix(handles, i + 1, handles[i]);
    forall h | h in handles[..i] ensures h != handles[i] && IndexOf(handles[..i + 1], h) == IndexOf(handles[..i], h) {
      IndexOfPrefix(handles, i, h);
      IndexOfPrefix(handles, i + 1, h);
    }
  }

  lemma NewReceiptsMore(queueId: int, rows: seq<Message>, handles: seq<Handle>, attemptId: string, deadline: int,
                        now: int, call: nat, i: nat)
    requires |handles| == |rows| && i < |rows| && Unrepeated(handles)
    ensures NewReceipts(queueId, rows[..i + 1], handles[..i + 1], attemptId, deadline, now, call) ==
            NewReceipts(queueId, rows[..i], handles[..i], attemptId, deadline, now, call)[
              handles[i] := Receipt(queueId, rows[i].rowId, handles[i], now, deadline, true, attemptId, call, false)]
  {
    IndexInPrefixes(handles, i);
  }

  /** Deactivating one more row leaves the receipts just issued for other rows alone. */
  lemma DeactivateMixed(receipts: map<Handle, Receipt>, added: map<Handle, Receipt>, rows: set<int>, row: int)
    requires forall h :: h in added ==> added[h].messageRowId != row
    ensures Deactivate(Deactivate(receipts, rows) + added, {row}) == Deactivate(receipts, rows + {row}) + added
  {
    var a, b := Deactivate(Deactivate(receipts, rows) + added, {row}), Deactivate(receipts, rows + {row}) + added;
    assert a.Keys == b.Keys;
    forall h | h in a ensures a[h] == b[h] {
      if h in added { assert b[h] == added[h]; }
    }
  }

  lemma RowIdsPrefix(rows: seq<Message>, i: nat)
    requires i < |rows| && OneEach(rows)
    ensures RowIds(rows[..i + 1]) == RowIds(rows[..i]) + {rows[i].rowId} && rows[i].rowId !in RowIds(rows[..i])
  {
    assert rows[..i + 1] == rows[..i] + [rows[i]];
    RowIdsSnoc(rows[..i], rows[i]);
    FrontLacks(rows, rows[..i], i);
  }

  lemma FrontLacks(rows: seq<Message>, front: seq<Message>, i: nat)
    requires i < |rows| && front == rows[..i] && OneEach(rows)
    ensures rows[i].rowId !in RowIds(front)
  {
    if rows[i].rowId in RowIds(front) {
      var j := RowIdAt(front, rows[i].rowId);
      OneEachAt(rows, j, i);
    }
  }

  /** The receipt table after the first `i` leases. */
  ghost function ReceiptsUpTo(receipts: map<Handle, Receipt>, queueId: int, rows: seq<Message>, handles: seq<Handle>,
                              attemptId: string, deadline: int, now: int, call: nat, i: nat): map<Handle, Receipt>
    requires |handles| == |rows| && i <= |rows|
  {
    Deactivate(receipts, RowIds(rows[..i])) + NewReceipts(queueId, rows[..i], handles[..i], attemptId, deadline, now, call)
  }

  lemma EarlierRowsAdded(queueId: int, rows: seq<Message>, handles: seq<Handle>, attemptId: string, deadline: int,
                         now: int, call: nat, i: nat)
    requires |handles| == |rows| && i < |rows| && OneEach(rows)
    ensures var added := NewReceipts(queueId, rows[..i], handles[..i], attemptId, deadline, now, call);
      forall h :: h in added ==> added[h].messageRowId != rows[i].rowId
  {
    forall h | h in handles[..i] ensures rows[IndexOf(handles[..i], h)].rowId != rows[i].rowId {
      if rows[IndexOf(handles[..i], h)].rowId == rows[i].rowId { OneEachAt(rows, IndexOf(handles[..i], h), i); }
    }
  }

  lemma ReceiptsUpToMore(receipts: map<Handle, Receipt>, queueId: int, rows: seq<Message>, handles: seq<Handle>,
                         attemptId: string, deadline: int, now: int, call: nat, i: nat)
    requires |handles| == |rows| && i < |rows| && Unrepeated(handles) && OneEach(rows)
    ensures Deactivate(ReceiptsUpTo(receipts, queueId, rows, handles, attemptId, deadline, now, call, i), {rows[i].rowId})[
              handles[i] := Receipt(queueId, rows[i].rowId, handles[i], now, deadline, true, attemptId, call, false)]
            == ReceiptsUpTo(receipts, queueId, rows, handles, attemptId, deadline, now, call, i + 1)
  {
    var added := NewReceipts(queueId, rows[..i], handles[..i], attemptId, deadline, now, call);
    var receipt := Receipt(queueId, rows[i].rowId, handles[i], now, deadline, true, attemptId, call, false);
    RowIdsPrefix(rows, i);
    EarlierRowsAdded(queueId, rows, handles, attemptId, deadline, now, call, i);
    DeactivateMixed(receipts, added, RowIds(rows[..i]), rows[i].rowId);
    NewReceiptsMore(queueId, rows, handles, attemptId, deadline, now, call, i);
    UpdateAdded(Deactivate(receipts, RowIds(rows[..i]) + {rows[i].rowId}), added, handles[i], receipt);
  }

  lemma UpdateAdded(a: map<Handle, Receipt>, b: map<Handle, Receipt>, h: Handle, r: Receipt)
    ensures (a + b)[h := r] == a + b[h := r]
  {
  }

  ghost function WithLease(t: Tables, queueId: int, m: Message, handle: Handle, attemptId: string, deadline: int,
                           call: nat, now: int): Tables {
    t.(
      messages := t.messages[m.rowId := LeaseMessage(m, deadline, now)],
      receipts := Deactivate(t.receipts, {m.rowId})[
        handle := Receipt(queueId, m.rowId, handle, now, deadline, true, attemptId, call, false)],
      issued := t.issued + {handle})
  }

  /** The body of the leasing loop: one message and its receipt. */
  method LeaseOne(store: Store, queueId: int, candidate: Message, handle: Handle, attemptId: string, deadline: int,
                  call: nat, now: int)
    returns (delivery: Delivery)
    requires candidate.rowId in store.messages
    modifies store
    ensures delivery == Delivery(candidate.messageId, candidate.body, handle, candidate.receiveCount + 1)
    ensures store.View() == WithLease(old(store.View()), queueId, candidate, handle, attemptId, deadline, call, now)
  {
    store.DeactivateReceiptsByMessage(candidate.rowId);
    var message := candidate.(
      receiveCount := candidate.receiveCount + 1,
      firstReceivedAt := if candidate.firstReceivedAt.None? then Some(now) else candidate.firstReceivedAt,
      visibilityDeadline := Some(deadline));
    store.UpdateMessage(message);
    store.InsertReceipt(Receipt(queueId, message.rowId, handle, now, deadline, true, attemptId, call, false));
    delivery := Delivery(message.messageId, message.body, handle, message.receiveCount);
  }

  lemma LeasedMessages(messages: map<int, Message>, rows: seq<Message>, deadline: int, now: int, i: nat)
    requires i < |rows| && OneEach(rows)
    requires rows[i].rowId in messages && messages[rows[i].rowId] == rows[i]
    ensures LeaseMessages(messages, RowIds(rows[..i]), deadline, now)[rows[i].rowId := LeaseMessage(rows[i], deadline, now)]
            == LeaseMessages(messages, RowIds(rows[..i + 1]), deadline, now)
  {
    RowIdsPrefix(rows, i);
    LeaseMessagesMore(messages, RowIds(rows[..i]), rows[i], deadline, now);
  }

  lemma DrawnMore(handles: seq<Handle>, i: nat)
    requires i < |handles|
    ensures Drawn(handles[..i + 1]) == Drawn(handles[..i]) + {handles[i]}
  {
    assert handles[..i + 1] == handles[..i] + [handles[i]];
  }

  /** The leasing loop, lease by lease. */
  ghost function LeaseInTurn(t: Tables, queueId: int, rows: seq<Message>, handles: seq<Handle>, attemptId: string,
                             deadline: int, now: int, i: nat): (t': Tables)
    requires |handles| == |rows| && i <= |rows|
    ensures t'.messages.Keys >= t.messages.Keys
    decreases i
  {
    if i == 0 then t.(nextCall := t.nextCall + 1)
    else WithLease(LeaseInTurn(t, queueId, rows, handles, attemptId, deadline, now, i - 1),
                   queueId, rows[i - 1], handles[i - 1], attemptId, deadline, t.nextCall, now)
  }

  lemma {:induction false} MessagesInTurn(t: Tables, queueId: int, rows: seq<Message>, handles: seq<Handle>, attemptId: string,
                                          deadline: int, now: int, i: nat)
    requires |handles| == |rows| && i <= |rows| && OneEach(rows) && RowsOf(t.messages, rows)
    ensures LeaseInTurn(t, queueId, rows, handles, attemptId, deadline, now, i).messages ==
            LeaseMessages(t.messages, RowIds(rows[..i]), deadline, now)
    decreases i
  {
    if i == 0 {
      assert LeaseMessages(t.messages, {}, deadline, now) == t.messages;
    } else {
      MessagesInTurn(t, queueId, rows, handles, attemptId, deadline, now, i - 1);
      LeasedMessages(t.messages, rows, deadline, now, i - 1);
    }
  }

  lemma {:induction false} ReceiptsInTurn(t: Tables, queueId: int, rows: seq<Message>, handles: seq<Handle>, attemptId: string,
                                          deadline: int, now: int, i: nat)
    requires |handles| == |rows| && i <= |rows| && Unrepeated(handles) && OneEach(rows)
    ensures LeaseInTurn(t, queueId, rows, handles, attemptId, deadline, now, i).receipts ==
            ReceiptsUpTo(t.receipts, queueId, rows, handles, attemptId, deadline, now, t.nextCall, i)
    decreases i
  {
    if i == 0 {
      assert Deactivate(t.receipts, {}) == t.receipts;
    } else {
      ReceiptsInTurn(t, queueId, rows, handles, attemptId, deadline, now, i - 1);
      ReceiptsUpToMore(t.receipts, queueId, rows, handles, attemptId, deadline, now, t.nextCall, i - 1);
    }
  }

  lemma {:induction false} OthersInTurn(t: Tables, queueId: int, rows: seq<Message>, handles: seq<Handle>, attemptId: string,
                                        deadline: int, now: int, i: nat)
    requires |handles| == |rows| && i <= |rows|
    ensures var t' := LeaseInTurn(t, queueId, rows, handles, attemptId, deadline, now, i);
      t' == t.(messages := t'.messages, receipts := t'.receipts, issued := t.issued + Drawn(handles[..i]), nextCall := t.nextCall + 1)
    decreases i
  {
    if i > 0 {
      OthersInTurn(t, queueId, rows, handles, attemptId, deadline, now, i - 1);
      DrawnMore(handles, i - 1);
    }
  }

  ghost function WithAttempt(t: Tables, queueId: int, rows: seq<Message>, handles: seq<Handle>, attemptId: string, now: int): Tables
    requires |handles| == |rows|
  {
    t.(attempts := if attemptId == "" || rows == [] then t.attempts
      else t.attempts[AttemptKey(queueId, attemptId) := ReceiveAttempt(Deliveries(rows, handles), WindowEnd(now), None)])
  }

  /** All of `rows` leased, the attempt not yet cached. */
  ghost predicate AllLeased(t: Tables, queueId: int, rows: seq<Message>, handles: seq<Handle>, attemptId: string,
                            deadline: int, now: int, t': Tables)
    requires |handles| == |rows|
  {
    && t'.messages == LeaseMessages(t.messages, RowIds(rows), deadline, now)
    && t'.receipts == Deactivate(t.receipts, RowIds(rows))
                      + NewReceipts(queueId, rows, handles, attemptId, deadline, now, t.nextCall)
    && t' == t.(messages := t'.messages, receipts := t'.receipts, issued := t.issued + Drawn(handles), nextCall := t.nextCall + 1)
  }

  lemma LeasedFrom(t: Tables, queueId: int, rows: seq<Message>, handles: seq<Handle>, attemptId: string, deadline: int, now: int,
                   t': Tables)
    requires |handles| == |rows| && AllLeased(t, queueId, rows, handles, attemptId, deadline, now, t')
    ensures Lease(t, queueId, rows, handles, attemptId, deadline, now) == WithAttempt(t', queueId, rows, handles, attemptId, now)
  {
  }

  /** Leasing in turn comes to leasing all at once. */
  lemma AllInTurn(t: Tables, queueId: int, rows: seq<Message>, handles: seq<Handle>, attemptId: string, deadline: int, now: int,
                  t': Tables)
    requires |handles| == |rows| && Unrepeated(handles) && OneEach(rows) && RowsOf(t.messages, rows)
    requires t' == LeaseInTurn(t, queueId, rows, handles, attemptId, deadline, now, |rows|)
    ensures AllLeased(t, queueId, rows, handles, attemptId, deadline, now, t')
  {
    assert rows[..|rows|] == rows && handles[..|handles|] == handles;
    MessagesInTurn(t, queueId, rows, handles, attemptId, deadline, now, |rows|);
    ReceiptsInTurn(t, queueId, rows, handles, attemptId, deadline, now, |rows|);
    OthersInTurn(t, queueId, rows, handles, attemptId, deadline, now, |rows|);
  }

  lemma LeaseIsInTurn(t: Tables, queueId: int, rows: seq<Message>, handles: seq<Handle>, attemptId: string, deadline: int, now: int,
                      t': Tables)
    requires |handles| == |rows| && Unrepeated(handles) && OneEach(rows) && RowsOf(t.messages, rows)
    requires t' == LeaseInTurn(t, queueId, rows, handles, attemptId, deadline, now, |rows|)
    ensures Lease(t, queueId, rows, handles, attemptId, deadline, now) == WithAttempt(t', queueId, rows, handles, attemptId, now)
  {
    AllInTurn(t, queueId, rows, handles, attemptId, deadline, now, t');
    LeasedFrom(t, queueId, rows, handles, attemptId, deadline, now, t');
  }

  /** The leasing loop of `ReceiveMessage`. */
  method LeaseEach(store: Store, queueId: int, candidates: seq<Message>, handles: seq<Handle>, attemptId: string,
                   deadline: int, now: int)
    returns (messages: seq<Delivery>)
    requires |handles| == |candidates| && RowsOf(store.messages, candidates)
    modifies store
    ensures messages == Deliveries(candidates, handles)
    ensures |messages| == |candidates| && forall i :: 0 <= i < |messages| ==>
      messages[i] == Delivery(candidates[i].messageId, candidates[i].body, handles[i], candidates[i].receiveCount + 1)
    ensures store.View() ==
            LeaseInTurn(old(store.View()), queueId, candidates, handles, attemptId, deadline, now, |candidates|)
  {
    ghost var t := store.View();
    var call := store.BeginCall();
    messages := [];
    for i := 0 to |candidates|
      invariant messages == Deliveries(candidates, handles)[..i]
      invariant store.View() == LeaseInTurn(t, queueId, candidates, handles, attemptId, deadline, now, i)
    {
      var delivery := LeaseOne(store, queueId, candidates[i], handles[i], attemptId, deadline, call, now);
      assert delivery == Deliveries(candidates, handles)[i];
      messages := messages + [delivery];
    }
  }

  /**
   * Each delivery has the handle of its own message: the receipt under that handle is active, and names the row that has the
   * message id, the body and the receive count of the delivery.
   */
  ghost predicate Paired(t: Tables, queueId: int, m: Message, d: Delivery, attemptId: string, deadline: int, now: int) {
    && d.receiptHandle in t.receipts && m.rowId in t.messages
    && t.receipts[d.receiptHandle].active && t.receipts[d.receiptHandle].queueId == queueId
    && t.receipts[d.receiptHandle].messageRowId == m.rowId && t.receipts[d.receiptHandle].receiveAttemptId == attemptId
    && t.receipts[d.receiptHandle].issuedAt == now && t.receipts[d.receiptHandle].visibilityDeadline == deadline
    && t.messages[m.rowId].messageId == d.messageId == m.messageId && t.messages[m.rowId].body == d.body == m.body
    && t.messages[m.rowId].receiveCount == d.receiveCount == m.receiveCount + 1
    && t.messages[m.rowId].visibilityDeadline == Some(deadline)
  }

  lemma LeasePairs(t: Tables, queueId: int, rows: seq<Message>, handles: seq<Handle>, attemptId: string, deadline: int, now: int, i: nat)
    requires |handles| == |rows| && Unrepeated(handles) && RowsOf(t.messages, rows) && i < |rows|
    ensures Paired(Lease(t, queueId, rows, handles, attemptId, deadline, now), queueId, rows[i], Deliveries(rows, handles)[i],
                   attemptId, deadline, now)
  {
    IndexOfUnrepeated(handles, i);
    RowIdIn(rows, i);
    assert handles[i] in handles;
  }

  /** What a lease leaves alone: all other messages, and of all other receipts everything but that those of its messages end. */
  lemma LeaseOnly(t: Tables, queueId: int, rows: seq<Message>, handles: seq<Handle>, attemptId: string, deadline: int, now: int)
    requires |handles| == |rows| && RowsOf(t.messages, rows)
    ensures var t' := Lease(t, queueId, rows, handles, attemptId, deadline, now);
      && t'.messages.Keys == t.messages.Keys
      && (forall id :: id in t.messages && (forall i :: 0 <= i < |rows| ==> rows[i].rowId != id) ==> t'.messages[id] == t.messages[id])
      && (forall h :: h in t'.receipts <==> h in t.receipts || h in handles)
      && (forall h :: h in t.receipts && h !in handles ==>
            t'.receipts[h] == t.receipts[h].(active := t.receipts[h].active
                                             && forall i :: 0 <= i < |rows| ==> rows[i].rowId != t.receipts[h].messageRowId))
  {
    forall id ensures id in RowIds(rows) <==> exists i :: 0 <= i < |rows| && rows[i].rowId == id {
      if id in RowIds(rows) { var i := RowIdAt(rows, id); }
      if i :| 0 <= i < |rows| && rows[i].rowId == id { RowIdIn(rows, i); }
    }
  }

  /** Leasing and the caching of the attempt. `handles` are drawn at random. */
  method LeaseCandidates(store: Store, queueId: int, candidates: seq<Message>, handles: seq<Handle>, attemptId: string,
                         deadline: int, now: int)
    returns (messages: seq<Delivery>)
    requires |handles| == |candidates| && Unrepeated(handles) && OneEach(candidates) && RowsOf(store.messages, candidates)
    modifies store
    ensures messages == Deliveries(candidates, handles)
    ensures store.View() == Lease(old(store.View()), queueId, candidates, handles, attemptId, deadline, now)
    ensures |messages| == |candidates| && forall i :: 0 <= i < |messages| ==>
      Paired(store.View(), queueId, candidates[i], messages[i], attemptId, deadline, now)
  {
    ghost var t := store.View();
    messages := LeaseEach(store, queueId, candidates, handles, attemptId, deadline, now);
    LeaseIsInTurn(t, queueId, candidates, handles, attemptId, deadline, now, store.View());
    forall i | 0 <= i < |candidates|
      ensures Paired(Lease(t, queueId, candidates, handles, attemptId, deadline, now), queueId, candidates[i], messages[i],
                     attemptId, deadline, now)
    {
      LeasePairs(t, queueId, candidates, handles, attemptId, deadline, now, i);
    }
    if attemptId != "" && messages != [] {
      store.InsertReceiveAttempt(AttemptKey(queueId, attemptId), ReceiveAttempt(messages, WindowEnd(now), None));
    }
  }

  // ---- replay -------------------------------------------------------------------------

  /** The receipts of a cached response, refreshed one after the other until one cannot be. */
  ghost function Refreshed(t: Tables, queueId: int, response: seq<Delivery>, timeout: int, now: int): Tables
    decreases |response|
  {
    if response == [] || !Refreshable(t, queueId, response[0].receiptHandle, now) then t
    else Refreshed(SetLease(t, response[0].receiptHandle, LeaseEnd(now, timeout), true), queueId, response[1..], timeout, now)
  }

  /** All of them could be refreshed. */
  ghost predicate AllRefreshed(t: Tables, queueId: int, response: seq<Delivery>, timeout: int, now: int)
    decreases |response|
  {
    response == [] || (
      && Refreshable(t, queueId, response[0].receiptHandle, now)
      && AllRefreshed(SetLease(t, response[0].receiptHandle, LeaseEnd(now, timeout), true), queueId, response[1..], timeout, now))
  }

  lemma {:induction false} RefreshedSplit(t: Tables, queueId: int, a: seq<Delivery>, b: seq<Delivery>, timeout: int, now: int)
    requires AllRefreshed(t, queueId, a, timeout, now)
    ensures Refreshed(t, queueId, a + b, timeout, now) == Refreshed(Refreshed(t, queueId, a, timeout, now), queueId, b, timeout, now)
    ensures AllRefreshed(t, queueId, a + b, timeout, now) <==>
            AllRefreshed(Refreshed(t, queueId, a, timeout, now), queueId, b, timeout, now)
    decreases |a|
  {
    if a == [] {
      assert a + b == b;
    } else {
      assert (a + b)[0] == a[0] && (a + b)[1..] == a[1..] + b;
      RefreshedSplit(SetLease(t, a[0].receiptHandle, LeaseEnd(now, timeout), true), queueId, a[1..], b, timeout, now);
    }
  }

  /** The body of the loop of `replayReceiveAttempt`. */
  method RefreshReceipt(store: Store, queueId: int, handle: Handle, timeout: int, now: int) returns (ok: bool)
    modifies store
    ensures ok <==> Refreshable(old(store.View()), queueId, handle, now)
    ensures store.View() == if ok then SetLease(old(store.View()), handle, LeaseEnd(now, timeout), true) else old(store.View())
  {
    if handle !in store.receipts {
      return false;
    }
    var receipt := store.receipts[handle];
    if !receipt.active || receipt.visibilityDeadline <= now {
      return false;
    }
    if receipt.messageRowId !in store.messages {
      return false;
    }
    var message := store.messages[receipt.messageRowId];
    if message.queueId != queueId || message.deletedAt.Some? || message.retentionDeadline <= now {
      return false;
    }
    receipt := receipt.(visibilityDeadline := LeaseEnd(now, timeout), replayed := true);
    store.receipts := store.receipts[handle := receipt];
    store.messages := store.messages[receipt.messageRowId := message.(visibilityDeadline := Some(receipt.visibilityDeadline))];
    ok := true;
  }

  /**
   * `replayReceiveAttempt`. If it gives up halfway, the receipts before the one that failed stay refreshed.
   */
  method ReplayReceiveAttempt(store: Store, queueId: int, attemptId: string, timeout: int, now: int)
    returns (output: Option<seq<Delivery>>)
    modifies store
    ensures var t := old(store.View());
      var attempt := FindAttempt(t, AttemptKey(queueId, attemptId), now);
      if attempt.None? then output == None && store.View() == t
      else
        && output == (if AllRefreshed(t, queueId, attempt.value.response, timeout, now) then Some(attempt.value.response) else None)
        && store.View() == Refreshed(t, queueId, attempt.value.response, timeout, now)
  {
    var key := AttemptKey(queueId, attemptId);
    if key !in store.attempts || store.attempts[key].expiresAt <= now || store.attempts[key].invalidatedAt.Some? {
      return None;
    }
    ghost var t := store.View();
    var response := store.attempts[key].response;
    for i := 0 to |response|
      invariant AllRefreshed(t, queueId, response[..i], timeout, now)
      invariant store.View() == Refreshed(t, queueId, response[..i], timeout, now)
    {
      assert response[..i + 1] == response[..i] + [response[i]] && response == response[..i] + response[i..];
      RefreshedSplit(t, queueId, response[..i], [response[i]], timeout, now);
      RefreshedSplit(t, queueId, response[..i], response[i..], timeout, now);
      var ok := RefreshReceipt(store, queueId, response[i].receiptHandle, timeout, now);
      if !ok {
        return None;
      }
    }
    assert response[..|response|] == response;
    output := Some(response);
  }

  /** Both deadlines of the lease. */
  ghost predicate LeasedUntil(t: Tables, queueId: int, handle: Handle, deadline: int, now: int) {
    && handle in t.receipts && t.receipts[handle].active && t.receipts[handle].visibilityDeadline == deadline
    && t.receipts[handle].messageRowId in t.messages
    && t.messages[t.receipts[handle].messageRowId].queueId == queueId
    && Live(t.messages[t.receipts[handle].messageRowId], now)
    && t.messages[t.receipts[handle].messageRowId].visibilityDeadline == Some(deadline)
  }

  lemma {:induction false} RefreshedKeeps(t: Tables, queueId: int, response: seq<Delivery>, timeout: int, now: int, handle: Handle)
    requires LeasedUntil(t, queueId, handle, LeaseEnd(now, timeout), now)
    ensures LeasedUntil(Refreshed(t, queueId, response, timeout, now), queueId, handle, LeaseEnd(now, timeout), now)
    decreases |response|
  {
    if response != [] && Refreshable(t, queueId, response[0].receiptHandle, now) {
      RefreshedKeeps(SetLease(t, response[0].receiptHandle, LeaseEnd(now, timeout), true), queueId, response[1..], timeout, now, handle);
    }
  }

  /**
   * A successful replay: every handle of the response is the active receipt of a live message of the queue, and
   * both deadlines of its lease are the replay's instant plus the timeout.
   */
  lemma {:induction false} ReplayLeases(t: Tables, queueId: int, response: seq<Delivery>, timeout: int, now: int, i: nat)
    requires AllRefreshed(t, queueId, response, timeout, now) && i < |response|
    ensures LeasedUntil(Refreshed(t, queueId, response, timeout, now), queueId, response[i].receiptHandle, LeaseEnd(now, timeout), now)
    decreases |response|
  {
    var t1 := SetLease(t, response[0].receiptHandle, LeaseEnd(now, timeout), true);
    if i == 0 {
      RefreshedKeeps(t1, queueId, response[1..], timeout, now, response[0].receiptHandle);
    } else {
      ReplayLeases(t1, queueId, response[1..], timeout, now, i - 1);
    }
  }

  /** A replay, even an abandoned one, issues no receipt and changes nothing but deadlines. */
  ghost predicate OnlyDeadlines(t: Tables, t': Tables) {
    && t' == t.(receipts := t'.receipts, messages := t'.messages)
    && t'.receipts.Keys == t.receipts.Keys && t'.messages.Keys == t.messages.Keys
    && (forall h :: h in t.receipts ==>
          t'.receipts[h] == t.receipts[h].(visibilityDeadline := t'.receipts[h].visibilityDeadline, replayed := t'.receipts[h].replayed))
    && (forall id :: id in t.messages ==>
          t'.messages[id] == t.messages[id].(visibilityDeadline := t'.messages[id].visibilityDeadline))
  }

  lemma {:induction false} ReplayOnlyDeadlines(t: Tables, queueId: int, response: seq<Delivery>, timeout: int, now: int)
    ensures OnlyDeadlines(t, Refreshed(t, queueId, response, timeout, now))
    decreases |response|
  {
    if response != [] && Refreshable(t, queueId, response[0].receiptHandle, now) {
      ReplayOnlyDeadlines(SetLease(t, response[0].receiptHandle, LeaseEnd(now, timeout), true), queueId, response[1..], timeout, now);
    }
  }

  // ---- receive ------------------------------------------------------------------------

  lemma {:induction false} UnrepeatedPrefix(handles: seq<Handle>, n: nat)
    requires Unrepeated(handles) && n <= |handles|
    ensures Unrepeated(handles[..n])
  {
    if n > 0 {
      UnrepeatedPrefix(handles[1..], n - 1);
      assert handles[..n][0] == handles[0] && handles[..n][1..] == handles[1..][..n - 1];
    }
  }

  /**
   * One polling iteration of `ReceiveMessage`, after its maintenance: select, then lease what was selected.
   * `handles` is the supply of random handles.
   */
  method PollOnce(store: Store, cfg: Config, queue: Queue, max: nat, timeout: int, attemptId: string, handles: seq<Handle>, now: int)
    returns (messages: seq<Delivery>, ghost chosen: seq<Message>, ghost rounds: nat)
    requires MaySettle(cfg, store.View(), queue, max, now) && 1 <= max <= |handles| && Unrepeated(handles)
    modifies store
    ensures StopsAfter(cfg, old(store.View()), queue, max, now, rounds)
    ensures chosen == CandidatesOf(AfterRounds(cfg, old(store.View()), queue, max, now, rounds), queue, max, now)
    ensures messages == Deliveries(chosen, handles[..|chosen|])
    ensures var t1 := AfterRounds(cfg, old(store.View()), queue, max, now, rounds);
      store.View() == if chosen == [] then t1 else Lease(t1, queue.id, chosen, handles[..|chosen|], attemptId, LeaseEnd(now, timeout), now)
  {
    var candidates;
    candidates, rounds := SelectMessagesForReceive(store, cfg, queue, max, now);
    chosen := candidates;
    if candidates == [] {
      return [], chosen, rounds;
    }
    CandidatesStored(store.View(), queue, max, now);
    UnrepeatedPrefix(handles, |candidates|);
    messages := LeaseCandidates(store, queue.id, candidates, handles[..|candidates|], attemptId, LeaseEnd(now, timeout), now);
  }
}
