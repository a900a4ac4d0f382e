/** Message move tasks: what one pass conserves, how soon a task completes, and what holds of tasks over runs. */
module MoveTasks {
  import opened Records
  import opened Sequences
  import opened Numerals
  import opened Tables
  import opened QueueAttributes
  import opened Deliverable
  import opened DeliveryLaws
  import opened Plane
  import opened Integrity
  import opened Leases
  import opened Fates
  import opened Runs

  // ---- counting ---------------------------------------------------------------------

  /** The rows of the live messages of a queue. */
  ghost function LiveIds(messages: map<int, Message>, queueId: int, now: int): set<int> {
    set id | id in messages && messages[id].queueId == queueId && Live(messages[id], now)
  }

  lemma {:induction false} OneEachCount(rows: seq<Message>)
    requires OneEach(rows)
    ensures |RowIds(rows)| == |rows|
  {
    if rows != [] { OneEachCount(rows[1..]); }
  }

  lemma LiveRows(t: Tables, queueId: int, now: int)
    requires MessagesKeyed(t)
    ensures OneEach(LiveOf(t, queueId, now))
    ensures forall m :: m in LiveOf(t, queueId, now) <==>
      m.rowId in t.messages && t.messages[m.rowId] == m && m.queueId == queueId && Live(m, now)
  {
    MessagesOfRows(t, queueId);
    FilterDistinct(MessagesOf(t, queueId), LiveAt(now));
    DistinctUnrepeated(LiveOf(t, queueId, now));
    RowsOneEach(t, LiveOf(t, queueId, now));
  }

  /** The live listing has one entry for each live row. */
  lemma LiveCount(t: Tables, queueId: int, now: int)
    requires MessagesKeyed(t)
    ensures RowIds(LiveOf(t, queueId, now)) == LiveIds(t.messages, queueId, now)
    ensures |LiveOf(t, queueId, now)| == |LiveIds(t.messages, queueId, now)|
  {
    var live := LiveOf(t, queueId, now);
    LiveRows(t, queueId, now);
    OneEachCount(live);
    forall id | id in RowIds(live) ensures id in LiveIds(t.messages, queueId, now) {
      var i := RowIdAt(live, id);
      assert live[i] in live;
    }
    forall id | id in LiveIds(t.messages, queueId, now) ensures id in RowIds(live) {
      RowIdIn(live, IndexOf(live, t.messages[id]));
    }
  }

  lemma MovedCount(t: Tables, task: MoveTask, now: int)
    requires MessagesKeyed(t)
    ensures |RowIds(MovedBy(t, task, now))| == |MovedBy(t, task, now)|
    ensures RowIds(MovedBy(t, task, now)) <= LiveIds(t.messages, task.sourceQueueId, now)
  {
    var moved := MovedBy(t, task, now);
    MessagesOfRows(t, task.sourceQueueId);
    FilterDistinct(MessagesOf(t, task.sourceQueueId), LiveAt(now));
    FilterDistinct(LiveOf(t, task.sourceQueueId, now), Movable(t, task));
    DistinctUnrepeated(moved);
    MovedByRows(t, task, now);
    RowsOneEach(t, moved);
    OneEachCount(moved);
    forall id | id in RowIds(moved) ensures id in LiveIds(t.messages, task.sourceQueueId, now) {
      MovedByIds(t, task, now, id);
    }
  }

  // ---- one pass -----------------------------------------------------------------------

  /** The moved rows that end up where they came from. */
  ghost function Returned(t: Tables, task: MoveTask, now: int): set<int> {
    set id | id in RowIds(MovedBy(t, task, now)) && GoesTo(t, task, id, task.sourceQueueId)
  }

  /** A pass over a live source led from `t` to `t'`: it rewrote the moved rows and the move task. */
  ghost predicate Passed(t: Tables, task: MoveTask, now: int, t': Tables) {
    var live, moved := LiveOf(t, task.sourceQueueId, now), MovedBy(t, task, now);
    && task.id in t.tasks && IsLive(QueueById(t, task.sourceQueueId))
    && t'.messages == MoveRows(t, task, RowIds(moved), now)
    && t'.tasks == t.tasks[task.id := AdvanceTask(task, |moved|, |live| - |moved|, now)]
    && t'.queues == t.queues && t'.nextRowId == t.nextRowId && t'.nextTaskId == t.nextTaskId
  }

  lemma PassIsPassed(t: Tables, task: MoveTask, now: int)
    requires task.id in t.tasks && IsLive(QueueById(t, task.sourceQueueId))
    ensures Passed(t, task, now, MovePass(t, task, now))
  {
  }

  /** The queue the move task would move this row to. */
  ghost predicate GoesTo(t: Tables, task: MoveTask, id: int, queueId: int) {
    && id in t.messages && Destination(t, task, t.messages[id]).Some?
    && Destination(t, task, t.messages[id]).value.id == queueId
  }

  ghost predicate Resolves(t: Tables, task: MoveTask, id: int) {
    id in t.messages && Destination(t, task, t.messages[id]).Some?
  }

  lemma MovedResolve(t: Tables, task: MoveTask, now: int)
    requires MessagesKeyed(t)
    ensures forall id :: id in RowIds(MovedBy(t, task, now)) ==>
      Resolves(t, task, id) && t.messages[id].queueId == task.sourceQueueId && Live(t.messages[id], now)
  {
    forall id | id in RowIds(MovedBy(t, task, now))
      ensures Resolves(t, task, id) && t.messages[id].queueId == task.sourceQueueId && Live(t.messages[id], now)
    {
      MovedByIds(t, task, now, id);
    }
  }

  /** What is live in the source later was live there and not moved, or was moved to where it was. */
  lemma LiveAfter(t: Tables, task: MoveTask, now: int, later: int, moved: set<int>, returned: set<int>)
    requires forall id :: id in moved ==> Resolves(t, task, id)
    requires forall id :: id in moved && GoesTo(t, task, id, task.sourceQueueId) ==> id in returned
    requires now <= later
    ensures LiveIds(MoveRows(t, task, moved, now), task.sourceQueueId, later) <=
      (LiveIds(t.messages, task.sourceQueueId, now) - moved) + returned
  {
    var messages' := MoveRows(t, task, moved, now);
    forall id | id in LiveIds(messages', task.sourceQueueId, later)
      ensures id in (LiveIds(t.messages, task.sourceQueueId, now) - moved) + returned
    {
      if id in moved {
        assert Resolves(t, task, id);
        assert GoesTo(t, task, id, task.sourceQueueId);
      }
    }
  }

  /** At the pass's own instant the inclusion is an equation. */
  lemma LiveAfterNow(t: Tables, task: MoveTask, now: int, moved: set<int>, returned: set<int>)
    requires forall id :: id in moved ==> Resolves(t, task, id)
    requires forall id :: id in returned <==> id in moved && GoesTo(t, task, id, task.sourceQueueId)
    requires forall id :: id in moved ==> id in t.messages && Live(t.messages[id], now)
    ensures LiveIds(MoveRows(t, task, moved, now), task.sourceQueueId, now) ==
      (LiveIds(t.messages, task.sourceQueueId, now) - moved) + returned
  {
    LiveAfter(t, task, now, now, moved, returned);
    var messages' := MoveRows(t, task, moved, now);
    forall id | id in returned ensures id in LiveIds(messages', task.sourceQueueId, now) {
      assert Resolves(t, task, id);
    }
  }

  /** The moved row: the same message, live at its destination. */
  ghost predicate MovedTo(t: Tables, task: MoveTask, id: int, m': Message, now: int) {
    && GoesTo(t, task, id, m'.queueId)
    && SameIdentity(t.messages[id], m') && Live(m', now) && m'.availableAt <= now
    && m'.receiveCount == 0 && m'.deadLetterSourceArn == "" && m'.visibilityDeadline.None?
  }

  lemma MovedKeep(t: Tables, task: MoveTask, now: int, moved: set<int>)
    requires MessagesKeyed(t)
    requires forall id :: id in moved ==> Resolves(t, task, id) && Live(t.messages[id], now)
    ensures var messages' := MoveRows(t, task, moved, now);
      && (forall id :: id in t.messages && id !in moved ==> messages'[id] == t.messages[id])
      && (forall id :: id in moved ==> id in messages' && MovedTo(t, task, id, messages'[id], now))
  {
    forall id | id in moved ensures id in t.messages && MovedTo(t, task, id, MoveRows(t, task, moved, now)[id], now) {
      assert Resolves(t, task, id);
    }
  }

  /**
   * The moved rows are live in their destination with everything that identifies them; every other row is untouched;
   * and what stays live in the source is what was not moved, or was moved to where it was.
   */
  ghost predicate Conserved(t: Tables, task: MoveTask, moved: set<int>, messages': map<int, Message>, now: int) {
    && messages'.Keys == t.messages.Keys
    && (forall id :: id in t.messages && id !in moved ==> messages'[id] == t.messages[id])
    && (forall id :: id in moved ==> id in messages' && MovedTo(t, task, id, messages'[id], now))
    && LiveIds(messages', task.sourceQueueId, now) ==
       (LiveIds(t.messages, task.sourceQueueId, now) - moved) + Returned(t, task, now)
  }

  /** The move task's books after a pass: what it moved and what was left of the live messages. */
  ghost predicate Counted(task: MoveTask, task': MoveTask, moved: int, live: int) {
    && task'.moved == task.moved + moved && task'.toMove == Some(live - moved)
    && (IsRunning(task') <==> IsRunning(task) && task.status != Cancelling && live != moved)
  }

  lemma PassMoves(t: Tables, task: MoveTask, now: int)
    requires MessagesKeyed(t)
    ensures var moved := RowIds(MovedBy(t, task, now));
      Conserved(t, task, moved, MoveRows(t, task, moved, now), now)
  {
    var moved := RowIds(MovedBy(t, task, now));
    MovedResolve(t, task, now);
    MovedKeep(t, task, now, moved);
    LiveAfterNow(t, task, now, moved, Returned(t, task, now));
  }

  lemma AdvanceCounts(task: MoveTask, moved: nat, live: nat, now: int)
    requires moved <= live
    ensures Counted(task, AdvanceTask(task, moved, live - moved, now), moved, live)
  {
  }

  /** A pass conserves messages. */
  lemma PassConserves(t: Tables, task: MoveTask, now: int, t': Tables)
    requires MessagesKeyed(t) && Passed(t, task, now, t')
    ensures Conserved(t, task, RowIds(MovedBy(t, task, now)), t'.messages, now)
  {
    PassMoves(t, task, now);
  }

  /** The move task counts exactly the rows it moved and the live ones it left. */
  lemma PassCounts(t: Tables, task: MoveTask, now: int, t': Tables)
    requires MessagesKeyed(t) && Passed(t, task, now, t')
    ensures task.id in t'.tasks
    ensures Counted(task, t'.tasks[task.id], |RowIds(MovedBy(t, task, now))|, |LiveIds(t.messages, task.sourceQueueId, now)|)
  {
    LiveCount(t, task.sourceQueueId, now);
    MovedCount(t, task, now);
    AdvanceCounts(task, |MovedBy(t, task, now)|, |LiveOf(t, task.sourceQueueId, now)|, now);
  }

  /**
   * The move task's count of messages still to move is the number of live messages left in the source exactly when
   * no message was moved back into it.
   */
  lemma PassCountsRemaining(t: Tables, task: MoveTask, now: int, t': Tables)
    requires MessagesKeyed(t) && Passed(t, task, now, t')
    ensures task.id in t'.tasks
    ensures t'.tasks[task.id].toMove == Some(|LiveIds(t'.messages, task.sourceQueueId, now)|)
            <==> Returned(t, task, now) == {}
  {
    PassCounts(t, task, now, t');
    PassLeft(t, task, now, t');
    CountIsRight(task, t'.tasks[task.id], LiveIds(t.messages, task.sourceQueueId, now), RowIds(MovedBy(t, task, now)),
                 Returned(t, task, now), LiveIds(t'.messages, task.sourceQueueId, now));
  }

  lemma CountIsRight(task: MoveTask, task': MoveTask, live: set<int>, moved: set<int>, returned: set<int>, left: set<int>)
    requires Counted(task, task', |moved|, |live|) && returned <= moved <= live && left == (live - moved) + returned
    ensures task'.toMove == Some(|left|) <==> returned == {}
  {
    RemainingCount(live, moved, returned);
  }

  lemma PassLeft(t: Tables, task: MoveTask, now: int, t': Tables)
    requires MessagesKeyed(t) && Passed(t, task, now, t')
    ensures Returned(t, task, now) <= RowIds(MovedBy(t, task, now)) <= LiveIds(t.messages, task.sourceQueueId, now)
    ensures LiveIds(t'.messages, task.sourceQueueId, now) ==
            (LiveIds(t.messages, task.sourceQueueId, now) - RowIds(MovedBy(t, task, now))) + Returned(t, task, now)
  {
    PassConserves(t, task, now, t');
    MovedCount(t, task, now);
  }

  lemma RemainingCount(live: set<int>, moved: set<int>, returned: set<int>)
    requires returned <= moved <= live
    ensures |(live - moved) + returned| == |live| - |moved| + |returned|
    ensures |returned| == 0 <==> returned == {}
  {
    assert (live - moved) !! returned;
    assert |(live - moved) + returned| == |live - moved| + |returned|;
    assert live == (live - moved) + moved && (live - moved) !! moved;
  }

  /** The moved messages are the first that can be moved, and all of them unless the limit is reached. */
  lemma PassTakesFirst(t: Tables, task: MoveTask, now: int, m: Message)
    requires MessagesKeyed(t)
    requires m in LiveOf(t, task.sourceQueueId, now) && Movable(t, task)(m) && m !in MovedBy(t, task, now)
    ensures |MovedBy(t, task, now)| >= MoveLimit(task, |MessagesOf(t, task.sourceQueueId)|)
    ensures forall x :: x in MovedBy(t, task, now) ==> x.sentAt < m.sentAt || (x.sentAt == m.sentAt && x.rowId < m.rowId)
  {
    var all := Filter(LiveOf(t, task.sourceQueueId, now), Movable(t, task));
    MessagesOfRows(t, task.sourceQueueId);
    FilterIncreasing(MessagesOf(t, task.sourceQueueId), LiveAt(now), SentBefore);
    FilterIncreasing(LiveOf(t, task.sourceQueueId, now), Movable(t, task), SentBefore);
    NotTaken(all, |MovedBy(t, task, now)|, m);
  }

  lemma NotTaken(xs: seq<Message>, n: nat, x: Message)
    requires Increasing(xs, SentBefore) && n <= |xs| && x in xs && x !in xs[..n]
    ensures n < |xs| && forall y :: y in xs[..n] ==> SentBefore(y, x)
  {
    var i := IndexOf(xs, x);
    assert forall j :: 0 <= j < n ==> xs[j] in xs[..n];
  }

  // ---- progress -----------------------------------------------------------------------

  /** Running, from a live queue to another live queue. */
  ghost predicate Going(t: Tables, id: int) {
    && id in t.tasks && t.tasks[id].id == id && t.tasks[id].status == Running
    && IsLive(QueueById(t, t.tasks[id].sourceQueueId))
    && t.tasks[id].destinationQueueId.Some? && IsLive(QueueById(t, t.tasks[id].destinationQueueId.value))
    && QueueById(t, t.tasks[id].destinationQueueId.value).value.id != t.tasks[id].sourceQueueId
  }

  /** The task moves at most `m` messages a pass. */
  ghost predicate Rated(task: MoveTask, m: int) { task.maxMessagesPerSecond == Some(m) && m >= 1 }

  /** The task has no rate: a pass may move whatever is listed. */
  ghost predicate Unrated(task: MoveTask) { task.maxMessagesPerSecond.Some? ==> task.maxMessagesPerSecond.value <= 0 }

  /** The live messages the task still has to move. */
  ghost function ToMove(t: Tables, id: int, now: int): nat
    requires id in t.tasks
  {
    |LiveIds(t.messages, t.tasks[id].sourceQueueId, now)|
  }

  /** Passes of one task at the given instants, for as long as it runs. */
  ghost function Passes(t: Tables, id: int, times: seq<int>): Tables
    decreases |times|
  {
    if times == [] || id !in t.tasks || !IsRunning(t.tasks[id]) then t
    else Passes(MovePass(t, t.tasks[id], times[0]), id, times[1..])
  }

  lemma AllMovable(t: Tables, task: MoveTask, now: int)
    requires task.destinationQueueId.Some? && IsLive(QueueById(t, task.destinationQueueId.value))
    ensures Filter(LiveOf(t, task.sourceQueueId, now), Movable(t, task)) == LiveOf(t, task.sourceQueueId, now)
  {
    FilterAll(LiveOf(t, task.sourceQueueId, now), Movable(t, task));
  }

  /** How much one pass of the task can move: its rate, or without one whatever there is. */
  ghost predicate Covers(task: MoveTask, m: nat, n: nat) {
    Rated(task, m) || (Unrated(task) && n <= m)
  }

  lemma MovesUpTo(t: Tables, id: int, m: nat, now: int)
    requires MessagesKeyed(t) && Going(t, id) && Covers(t.tasks[id], m, ToMove(t, id, now))
    ensures |MovedBy(t, t.tasks[id], now)| == if ToMove(t, id, now) <= m then ToMove(t, id, now) else m
  {
    var task := t.tasks[id];
    LiveCount(t, task.sourceQueueId, now);
    AllMovable(t, task, now);
  }

  lemma PassLeaves(t: Tables, id: int, m: nat, now: int, later: int, t': Tables)
    requires MessagesKeyed(t) && Going(t, id) && Covers(t.tasks[id], m, ToMove(t, id, now)) && now <= later
    requires Passed(t, t.tasks[id], now, t')
    ensures var moved := MovedBy(t, t.tasks[id], now);
      && |moved| == (if ToMove(t, id, now) <= m then ToMove(t, id, now) else m)
      && |LiveIds(t'.messages, t.tasks[id].sourceQueueId, later)| <= ToMove(t, id, now) - |moved|
  {
    var task := t.tasks[id];
    var moved, live := RowIds(MovedBy(t, task, now)), LiveIds(t.messages, task.sourceQueueId, now);
    MovesUpTo(t, id, m, now);
    MovedCount(t, task, now);
    MovedResolve(t, task, now);
    LiveAfter(t, task, now, later, moved, {});
    SubsetCount(LiveIds(t'.messages, task.sourceQueueId, later), live - moved);
    RemainingCount(live, moved, {});
  }

  /** After the pass the same task goes on, with nothing changed that it depends on. */
  ghost predicate GoesOn(t: Tables, id: int, t': Tables)
    requires id in t.tasks
  {
    && Going(t', id) && t'.tasks[id].sourceQueueId == t.tasks[id].sourceQueueId
    && t'.tasks[id].maxMessagesPerSecond == t.tasks[id].maxMessagesPerSecond
  }

  /** One pass moves `m` messages or all there are, and is the last one if it leaves none. */
  ghost predicate Progressed(t: Tables, id: int, m: nat, now: int, later: int, t': Tables)
    requires id in t.tasks
  {
    && MessagesKeyed(t') && id in t'.tasks && t'.tasks[id].sourceQueueId == t.tasks[id].sourceQueueId
    && ToMove(t', id, later) <= (if ToMove(t, id, now) <= m then 0 else ToMove(t, id, now) - m)
    && (if ToMove(t, id, now) <= m then t'.tasks[id].status == Completed else GoesOn(t, id, t'))
  }

  lemma PassProgress(t: Tables, id: int, m: nat, now: int, later: int, t': Tables)
    requires MessagesKeyed(t) && MessagesKeyed(t') && Going(t, id) && Covers(t.tasks[id], m, ToMove(t, id, now)) && now <= later
    requires Passed(t, t.tasks[id], now, t')
    ensures Progressed(t, id, m, now, later, t')
  {
    PassLeaves(t, id, m, now, later, t');
    LiveCount(t, t.tasks[id].sourceQueueId, now);
  }

  lemma MovePassProgress(t: Tables, id: int, m: nat, now: int, later: int)
    requires MessagesKeyed(t) && Going(t, id) && Covers(t.tasks[id], m, ToMove(t, id, now)) && now <= later
    ensures Progressed(t, id, m, now, later, MovePass(t, t.tasks[id], now))
  {
    PassIsPassed(t, t.tasks[id], now);
    MovePassRows(t, t.tasks[id], now);
    PassProgress(t, id, m, now, later, MovePass(t, t.tasks[id], now));
  }

  lemma SubsetCount<T>(a: set<T>, b: set<T>)
    requires a <= b
    ensures |a| <= |b|
  {
    assert b == a + (b - a) && a !! (b - a);
  }

  ghost predicate Ascends(times: seq<int>) {
    forall i :: 0 < i < |times| ==> times[i - 1] <= times[i]
  }

  lemma PassesOn(t: Tables, id: int, times: seq<int>)
    requires |times| > 1 && Ascends(times) && id in t.tasks && IsRunning(t.tasks[id])
    ensures Passes(t, id, times) == Passes(MovePass(t, t.tasks[id], times[0]), id, times[1..])
    ensures Ascends(times[1..]) && times[1..][0] == times[1] >= times[0] && times[1..][|times[1..]| - 1] == times[|times| - 1]
  {
  }

  /**
   * A task that moves `m` messages a pass completes its `n` messages within max(1, ceil(n/m)) passes, whenever
   * those happen, and leaves no live message behind.
   */
  lemma {:induction false} PassesComplete(t: Tables, id: int, m: nat, times: seq<int>)
    requires MessagesKeyed(t) && Going(t, id) && Rated(t.tasks[id], m) && times != [] && Ascends(times)
    requires |times| >= Rounds(ToMove(t, id, times[0]), m)
    ensures Finished(Passes(t, id, times), id, t.tasks[id].sourceQueueId, times[|times| - 1])
    decreases |times|
  {
    if ToMove(t, id, times[0]) <= m {
      LastPass(t, id, m, times);
    } else {
      PassesOn(t, id, times);
      NextPass(t, id, m, times[0], times[1]);
      PassesComplete(MovePass(t, t.tasks[id], times[0]), id, m, times[1..]);
    }
  }

  /** A task without a rate completes in its first pass, however many messages there are. */
  lemma UnratedCompletes(t: Tables, id: int, times: seq<int>)
    requires MessagesKeyed(t) && Going(t, id) && Unrated(t.tasks[id]) && times != [] && Ascends(times)
    ensures Finished(Passes(t, id, times), id, t.tasks[id].sourceQueueId, times[|times| - 1])
  {
    LastPass(t, id, ToMove(t, id, times[0]), times);
  }

  lemma LastPass(t: Tables, id: int, m: nat, times: seq<int>)
    requires MessagesKeyed(t) && Going(t, id) && times != [] && Ascends(times)
    requires Covers(t.tasks[id], m, ToMove(t, id, times[0])) && ToMove(t, id, times[0]) <= m
    ensures Finished(Passes(t, id, times), id, t.tasks[id].sourceQueueId, times[|times| - 1])
  {
    Ascending(times, 0);
    MovePassProgress(t, id, m, times[0], times[|times| - 1]);
    StoppedPasses(MovePass(t, t.tasks[id], times[0]), id, times[1..]);
  }

  lemma StoppedPasses(t: Tables, id: int, times: seq<int>)
    requires id in t.tasks && !IsRunning(t.tasks[id])
    ensures Passes(t, id, times) == t
  {
  }

  lemma NextPass(t: Tables, id: int, m: nat, now: int, later: int)
    requires MessagesKeyed(t) && Going(t, id) && Rated(t.tasks[id], m) && now <= later && ToMove(t, id, now) > m
    ensures var t' := MovePass(t, t.tasks[id], now);
      && MessagesKeyed(t') && GoesOn(t, id, t') && Rounds(ToMove(t', id, later), m) < Rounds(ToMove(t, id, now), m)
  {
    MovePassProgress(t, id, m, now, later);
    FewerRounds(ToMove(MovePass(t, t.tasks[id], now), id, later), ToMove(t, id, now), m);
  }

  lemma FewerRounds(a: nat, b: nat, m: nat)
    requires m >= 1 && b > m && a <= b - m
    ensures Rounds(a, m) < Rounds(b, m)
  {
    RoundsGrow(a, b - m, m);
  }

  ghost predicate Finished(t: Tables, id: int, source: int, now: int) {
    id in t.tasks && t.tasks[id].status == Completed && LiveIds(t.messages, source, now) == {}
  }

  lemma {:induction false} Ascending(times: seq<int>, i: nat)
    requires Ascends(times) && i < |times|
    ensures times[i] <= times[|times| - 1]
    decreases |times| - i
  {
    if i + 1 < |times| { Ascending(times, i + 1); }
  }

  // ---- tasks over runs ------------------------------------------------------------------

  /** A source queue has at most one running task. */
  ghost predicate OneRunning(tasks: map<int, MoveTask>) {
    forall a, b :: (a in tasks && b in tasks && IsRunning(tasks[a]) && IsRunning(tasks[b])
                    && tasks[a].sourceQueueId == tasks[b].sourceQueueId) ==> a == b
  }

  /** Tasks keep their source; a task that stopped stays stopped and its count stays. */
  ghost predicate TasksContinue(tasks: map<int, MoveTask>, tasks': map<int, MoveTask>, next: int) {
    forall id :: id in tasks' && id < next ==>
      && id in tasks && tasks'[id].sourceQueueId == tasks[id].sourceQueueId
      && tasks'[id].moved >= tasks[id].moved
      && (!IsRunning(tasks[id]) ==> !IsRunning(tasks'[id]) && tasks'[id].moved == tasks[id].moved)
  }

  lemma OneRunningKept(tasks: map<int, MoveTask>, tasks': map<int, MoveTask>, next: int)
    requires OneRunning(tasks) && TasksContinue(tasks, tasks', next)
    requires forall id :: id in tasks' ==> id < next
    ensures OneRunning(tasks')
  {
  }

  lemma TaskReplaced(tasks: map<int, MoveTask>, task: MoveTask, next: int)
    requires task.id in tasks && IsRunning(tasks[task.id])
    requires task.sourceQueueId == tasks[task.id].sourceQueueId && task.moved >= tasks[task.id].moved
    ensures TasksContinue(tasks, tasks[task.id := task], next) && tasks[task.id := task].Keys == tasks.Keys
  {
  }

  lemma PassTaskRow(t: Tables, task: MoveTask, now: int)
    requires task.id in t.tasks
    ensures var t' := MovePass(t, task, now);
      && task.id in t'.tasks && t'.tasks[task.id].id == task.id && t'.tasks == t.tasks[task.id := t'.tasks[task.id]]
      && t'.tasks[task.id].sourceQueueId == task.sourceQueueId && t'.tasks[task.id].moved >= task.moved
      && t'.nextTaskId == t.nextTaskId
  {
    if IsLive(QueueById(t, task.sourceQueueId)) {
      PassIsPassed(t, task, now);
    }
  }

  lemma PassTasks(t: Tables, task: MoveTask, now: int)
    requires TasksKeyed(t) && task.id in t.tasks && t.tasks[task.id] == task && IsRunning(task)
    ensures var t' := MovePass(t, task, now);
      t'.tasks.Keys == t.tasks.Keys && TasksContinue(t.tasks, t'.tasks, t.nextTaskId) && t'.nextTaskId == t.nextTaskId
  {
    PassTaskRow(t, task, now);
    TaskReplaced(t.tasks, MovePass(t, task, now).tasks[task.id], t.nextTaskId);
  }

  lemma StartTasks(t: Tables, sourceId: int, destinationId: Option<int>, perSecond: Option<int>, handle: string, now: int)
    requires TasksKeyed(t) && OneRunning(t.tasks)
    ensures var t' := StartTask(t, sourceId, destinationId, perSecond, handle, now);
      OneRunning(t'.tasks) && TasksContinue(t.tasks, t'.tasks, t.nextTaskId) && t.nextTaskId <= t'.nextTaskId
  {
  }

  lemma CreateTasks(cfg: Config, t: Tables, name: string, attributes: map<string, string>, stamps: map<string, string>, now: int)
    requires TasksKeyed(t)
    ensures var t' := CreateQueue(cfg, t, name, attributes, stamps, now);
      TasksContinue(t.tasks, t'.tasks, t.nextTaskId) && t'.nextTaskId == t.nextTaskId
  {
  }

  lemma QueueTasks(cfg: Config, t: Tables, now: int, e: QueueEvent)
    requires Keyed(cfg, t) && OneRunning(t.tasks) && QueueEnabled(t, e)
    ensures var t' := QueueStep(cfg, t, now, e);
      OneRunning(t'.tasks) && TasksContinue(t.tasks, t'.tasks, t.nextTaskId) && t.nextTaskId <= t'.nextTaskId
  {
    var t' := QueueStep(cfg, t, now, e);
    QueueKeyed(cfg, t, now, e);
    match e
    case Create(name, attributes, stamps) =>
      CreateTasks(cfg, t, name, attributes, stamps, now);
      OneRunningKept(t.tasks, t'.tasks, t.nextTaskId);
    case Start(source, destination, perSecond, handle) => StartTasks(t, source, destination, perSecond, handle, now);
    case Cancel(id) => OneRunningKept(t.tasks, t'.tasks, t.nextTaskId);
    case _ => assert t'.tasks == t.tasks;
  }

  lemma MessageTasks(cfg: Config, t: Tables, now: int, e: MessageEvent)
    requires MessageEnabled(cfg, t, now, e)
    ensures var t' := MessageStep(cfg, t, now, e); t'.tasks == t.tasks && t'.nextTaskId == t.nextTaskId
  {
  }

  lemma StepTasks(cfg: Config, t: Tables, now: int, e: Event)
    requires Keyed(cfg, t) && OneRunning(t.tasks) && Enabled(cfg, t, now, e)
    ensures var t' := Step(cfg, t, now, e);
      OneRunning(t'.tasks) && TasksContinue(t.tasks, t'.tasks, t.nextTaskId) && t.nextTaskId <= t'.nextTaskId
  {
    var t' := Step(cfg, t, now, e);
    match e
    case OnMessages(m) => MessageTasks(cfg, t, now, m);
    case Upkeep(PassOne(id)) =>
      PassTasks(t, t.tasks[id], now);
      OneRunningKept(t.tasks, t'.tasks, t.nextTaskId);
    case Upkeep(ApplyMutations) => ApplyPatchesFrame(t, DuePatches(t, now), now);
    case Upkeep(_) =>
    case OnQueues(q) => QueueTasks(cfg, t, now, q);
  }

  /** The run has a pass of the move task. */
  ghost predicate PassIn(run: seq<Tick>, id: int) {
    run != [] && (run[0].event == Upkeep(PassOne(id)) || PassIn(run[1..], id))
  }

  /** Over any run no source queue gets a second running task, and a task that has stopped never counts a message again. */
  lemma {:induction false} RunTasks(cfg: Config, t: Tables, now: int, run: seq<Tick>)
    requires Sound(cfg, t, now) && OneRunning(t.tasks) && Legal(cfg, t, now, run)
    ensures var t' := After(cfg, t, now, run);
      OneRunning(t'.tasks) && TasksContinue(t.tasks, t'.tasks, t.nextTaskId) && t.nextTaskId <= t'.nextTaskId
    decreases |run|
  {
    if run != [] {
      var t1, t' := Step(cfg, t, run[0].at, run[0].event), After(cfg, t, now, run);
      StepTasks(cfg, t, run[0].at, run[0].event);
      StepSound(cfg, t, now, run[0]);
      RunTasks(cfg, t1, run[0].at, run[1..]);
      assert t' == After(cfg, t1, run[0].at, run[1..]);
      TasksContinueOn(t.tasks, t1.tasks, t'.tasks, t.nextTaskId, t1.nextTaskId);
    }
  }

  lemma TasksContinueOn(a: map<int, MoveTask>, b: map<int, MoveTask>, c: map<int, MoveTask>, next: int, next': int)
    requires TasksContinue(a, b, next) && TasksContinue(b, c, next') && next <= next'
    ensures TasksContinue(a, c, next)
  {
  }

  /** A task that is not running moves nothing any more: no later run has a pass of it. */
  lemma {:induction false} StoppedStaysStill(cfg: Config, t: Tables, now: int, run: seq<Tick>, id: int)
    requires Sound(cfg, t, now) && OneRunning(t.tasks) && Legal(cfg, t, now, run)
    requires id < t.nextTaskId && (id in t.tasks ==> !IsRunning(t.tasks[id]))
    ensures !PassIn(run, id)
    decreases |run|
  {
    if run != [] {
      StepTasks(cfg, t, run[0].at, run[0].event);
      StepSound(cfg, t, now, run[0]);
      StoppedStaysStill(cfg, Step(cfg, t, run[0].at, run[0].event), run[0].at, run[1..], id);
    }
  }

  /** In every state that a run leads to, no source queue has two running tasks. */
  lemma ReachableOneRunning(cfg: Config, t: Tables, now: int)
    requires Reachable(cfg, t, now)
    ensures OneRunning(t.tasks)
  {
    var start, run :| Legal(cfg, EMPTY, start, run) && After(cfg, EMPTY, start, run) == t && EndOf(start, run) == now;
    RunTasks(cfg, EMPTY, start, run);
  }

  /** So the bookkeeping of tasks needs no hypothesis: it holds of every run from every state that a run leads to. */
  lemma ReachableTasks(cfg: Config, t: Tables, now: int, run: seq<Tick>, id: int)
    requires Reachable(cfg, t, now) && Legal(cfg, t, now, run)
    ensures var t' := After(cfg, t, now, run); OneRunning(t'.tasks) && TasksContinue(t.tasks, t'.tasks, t.nextTaskId)
    ensures id < t.nextTaskId && (id in t.tasks ==> !IsRunning(t.tasks[id])) ==> !PassIn(run, id)
  {
    ReachableSound(cfg, t, now);
    ReachableOneRunning(cfg, t, now);
    RunTasks(cfg, t, now, run);
    if id < t.nextTaskId && (id in t.tasks ==> !IsRunning(t.tasks[id])) { StoppedStaysStill(cfg, t, now, run, id); }
  }
}
