/**
 * The message plane as a state machine. An `Event` is one atomic effect of a request on the tables;
 * every handler is a sequence of events, all at the request's one instant.
 */
module Plane {
  import opened Records
  import opened Sequences
  import opened Tables
  import opened QueueAttributes
  import opened Deliverable

  const DEDUP_WINDOW: int := 5 * 60 * 1000
  /** When what is remembered at this instant is forgotten. */
  function WindowEnd(at: int): int { at + DEDUP_WINDOW }

  const MAX_LEASE: int := 12 * 60 * 60 * 1000
  const MAX_TIMEOUT: int := 43200

  // ---- send -------------------------------------------------------------------

  /** What the service works out about the attributes of an entry: their size, and the digests of both kinds. */
  datatype Content = Content(size: nat, md5: string, systemMd5: string)

  /**
   * One entry of a send request. `content` is the outcome of the checks of its text and attributes; `messageId` and
   * `sequenceNumber` are drawn at random by the service.
   */
  datatype Entry = Entry(
    body: string,
    content: Result<Content>,
    delaySeconds: Option<int>,
    groupId: string,
    dedupId: string,
    messageId: string,
    sequenceNumber: string
  )

  function EntryDelay(q: Queue, e: Entry): int {
    if e.delaySeconds.Some? then e.delaySeconds.value else DelaySeconds(q)
  }

  function EntryDedupId(cfg: Config, q: Queue, e: Entry): string {
    if q.fifo && e.dedupId == "" then cfg.sha256Hex(e.body) else e.dedupId
  }

  /** Why `sendMessageEntry` refuses an entry, checked in the order of the source. */
  function EntryError(q: Queue, e: Entry): Option<ApiError> {
    if e.body == "" || |e.body| > MaximumMessageSize(q) then Some(InvalidParameterValue)
    else if e.content.Err? then Some(e.content.error)
    else if |e.body| + e.content.value.size > MaximumMessageSize(q) then Some(InvalidParameterValue)
    else if q.fifo && e.delaySeconds.Some? then Some(InvalidParameterValue)
    else if EntryDelay(q, e) < 0 || EntryDelay(q, e) > 900 then Some(InvalidParameterValue)
    else if q.fifo && e.groupId == "" then Some(MissingParameter)
    else if q.fifo && e.dedupId == "" && Attribute(q, "ContentBasedDeduplication") != "true" then Some(InvalidParameterValue)
    else if !q.fifo && e.dedupId != "" then Some(InvalidParameterValue)
    else None
  }

  function EntryKey(cfg: Config, q: Queue, e: Entry): LedgerKey {
    LedgerKey(q.id, DedupScopeKey(q, e.groupId), EntryDedupId(cfg, q, e))
  }

  function EntryResponse(cfg: Config, q: Queue, e: Entry): SendResponse
    requires e.content.Ok?
  {
    SendResponse(e.messageId, cfg.md5Hex(e.body), e.content.value.md5, e.content.value.systemMd5,
                 if q.fifo then e.sequenceNumber else "")
  }

  /** The entry is accepted and no earlier send covers it. */
  predicate Inserts(cfg: Config, t: Tables, q: Queue, e: Entry, now: int) {
    EntryError(q, e).None? && !(q.fifo && FindEntry(t, EntryKey(cfg, q, e), now).Some?)
  }

  function SendResult(cfg: Config, t: Tables, q: Queue, e: Entry, now: int): Result<SendResponse> {
    if EntryError(q, e).Some? then Err(EntryError(q, e).value)
    else if Inserts(cfg, t, q, e, now) then Ok(EntryResponse(cfg, q, e))
    else Ok(FindEntry(t, EntryKey(cfg, q, e), now).value.response)
  }

  function NewMessage(cfg: Config, q: Queue, e: Entry, rowId: int, now: int): Message {
    Message(rowId, q.id, e.messageId, e.body, now, now, None, 0, now + EntryDelay(q, e) * 1000, None,
            now + RetentionSeconds(q) * 1000, None, e.groupId, EntryDedupId(cfg, q, e), "")
  }

  /** The tables with the message of the entry and, on a FIFO queue, its ledger entry. */
  function WithEntry(cfg: Config, t: Tables, q: Queue, e: Entry, now: int): Tables
    requires e.content.Ok?
  {
    t.(
      messages := t.messages[t.nextRowId := NewMessage(cfg, q, e, t.nextRowId, now)],
      nextRowId := t.nextRowId + 1,
      ledger := if q.fifo
      then t.ledger[EntryKey(cfg, q, e) := DedupEntry(EntryResponse(cfg, q, e), WindowEnd(now))]
      else t.ledger)
  }

  function Send(cfg: Config, t: Tables, q: Queue, e: Entry, now: int): Tables {
    if Inserts(cfg, t, q, e, now) then WithEntry(cfg, t, q, e, now) else t
  }

  // ---- receive ----------------------------------------------------------------

  /** When a lease that starts now ends; visibility timeouts are in seconds. */
  function LeaseEnd(now: int, timeout: int): int { now + timeout * 1000 }

  function RowIds(rows: seq<Message>): set<int> {
    if rows == [] then {} else {rows[0].rowId} + RowIds(rows[1..])
  }

  lemma {:induction false} RowIdIn(rows: seq<Message>, i: nat)
    requires i < |rows|
    ensures rows[i].rowId in RowIds(rows)
  {
    if i > 0 { RowIdIn(rows[1..], i - 1); }
  }

  lemma {:induction false} RowIdAt(rows: seq<Message>, id: int) returns (i: nat)
    requires id in RowIds(rows)
    ensures i < |rows| && rows[i].rowId == id
  {
    if rows[0].rowId == id {
      i := 0;
    } else {
      i := RowIdAt(rows[1..], id);
      i := i + 1;
    }
  }

  /** No row twice. */
  ghost predicate OneEach(rows: seq<Message>) {
    rows == [] || (rows[0].rowId !in RowIds(rows[1..]) && OneEach(rows[1..]))
  }

  lemma {:induction false} OneEachAt(rows: seq<Message>, i: nat, j: nat)
    requires OneEach(rows) && i < |rows| && j < |rows| && rows[i].rowId == rows[j].rowId
    ensures i == j
  {
    if i == 0 && j > 0 {
      RowIdIn(rows[1..], j - 1);
    } else if j == 0 && i > 0 {
      RowIdIn(rows[1..], i - 1);
    } else if i > 0 && j > 0 {
      OneEachAt(rows[1..], i - 1, j - 1);
    }
  }

  function LeaseMessage(m: Message, deadline: int, now: int): Message {
    m.(
      receiveCount := m.receiveCount + 1,
      firstReceivedAt := if m.firstReceivedAt.None? then Some(now) else m.firstReceivedAt,
      visibilityDeadline := Some(deadline))
  }

  function LeaseMessages(messages: map<int, Message>, rows: set<int>, deadline: int, now: int): (r: map<int, Message>)
    ensures r.Keys == messages.Keys && forall id :: id in r ==> r[id].rowId == messages[id].rowId
  {
    map id | id in messages :: if id in rows then LeaseMessage(messages[id], deadline, now) else messages[id]
  }

  /** The receipts for `rows`, one for each, under the handles drawn for them. */
  function NewReceipts(queueId: int, rows: seq<Message>, handles: seq<Handle>, attemptId: string,
                       deadline: int, now: int, call: nat): map<Handle, Receipt>
    requires |handles| == |rows|
  {
    map h | h in handles ::
      Receipt(queueId, rows[IndexOf(handles, h)].rowId, h, now, deadline, true, attemptId, call, false)
  }

  function Deliveries(rows: seq<Message>, handles: seq<Handle>): (r: seq<Delivery>)
    requires |handles| == |rows|
    ensures |r| == |rows|
  {
    seq(|rows|, i requires 0 <= i < |rows| =>
      Delivery(rows[i].messageId, rows[i].body, handles[i], rows[i].receiveCount + 1))
  }

  function Drawn(handles: seq<Handle>): set<Handle> { set h | h in handles }

  function Lease(t: Tables, queueId: int, rows: seq<Message>, handles: seq<Handle>, attemptId: string,
                 deadline: int, now: int): Tables
    requires |handles| == |rows|
  {
    t.(
      messages := LeaseMessages(t.messages, RowIds(rows), deadline, now),
      receipts := Deactivate(t.receipts, RowIds(rows))
                  + NewReceipts(queueId, rows, handles, attemptId, deadline, now, t.nextCall),
      attempts := if attemptId == "" || rows == [] then t.attempts
      else t.attempts[AttemptKey(queueId, attemptId) := ReceiveAttempt(Deliveries(rows, handles), WindowEnd(now), None)],
      issued := t.issued + Drawn(handles),
      nextCall := t.nextCall + 1)
  }

  /** The live messages of a queue in (sent_at, id) order. */
  ghost function LiveOf(t: Tables, queueId: int, now: int): seq<Message> {
    Filter(MessagesOf(t, queueId), LiveAt(now))
  }

  ghost function CandidatesOf(t: Tables, q: Queue, max: nat, now: int): seq<Message> {
    Candidates(q.fifo, LiveOf(t, q.id, now), max, now)
  }

  // ---- redrive ------------------------------------------------------------------

  function RedriveMessage(m: Message, sourceArn: string, targetId: int, now: int): Message {
    m.(queueId := targetId, availableAt := now, visibilityDeadline := None, deadLetterSourceArn := sourceArn)
  }

  function RedriveRows(t: Tables, sourceArn: string, targetId: int, rows: set<int>, now: int): Tables {
    t.(
      messages := map id | id in t.messages ::
        if id in rows then RedriveMessage(t.messages[id], sourceArn, targetId, now) else t.messages[id],
      receipts := Deactivate(t.receipts, rows))
  }

  /** The live queue a redrive goes to, if there is one. */
  ghost function RedriveTarget(cfg: Config, t: Tables, q: Queue): Option<Queue> {
    if PolicyOf(cfg, q).None? then None
    else
      var found := QueueByArn(t, PolicyOf(cfg, q).value.targetArn);
      if IsLive(found) then found else None
  }

  // ---- replay, delete, change visibility --------------------------------------------

  /** The receipt and message a replay may refresh. */
  predicate Refreshable(t: Tables, queueId: int, handle: Handle, now: int) {
    && handle in t.receipts
    && t.receipts[handle].active && t.receipts[handle].visibilityDeadline > now
    && t.receipts[handle].messageRowId in t.messages
    && t.messages[t.receipts[handle].messageRowId].queueId == queueId
    && Live(t.messages[t.receipts[handle].messageRowId], now)
  }

  /** Sets the lease behind a receipt to a new deadline, in both tables. */
  function SetLease(t: Tables, handle: Handle, deadline: int, replayed: bool): Tables
    requires handle in t.receipts && t.receipts[handle].messageRowId in t.messages
  {
    var r := t.receipts[handle];
    t.(
      receipts := t.receipts[handle := r.(visibilityDeadline := deadline, replayed := r.replayed || replayed)],
      messages := t.messages[r.messageRowId := t.messages[r.messageRowId].(visibilityDeadline := Some(deadline))])
  }

  function DeleteResult(t: Tables, queueId: int, handle: Handle, now: int): Result<()> {
    if handle !in t.receipts || t.receipts[handle].queueId != queueId then Err(ReceiptHandleIsInvalid)
    else if !t.receipts[handle].active then Ok(())
    else if t.receipts[handle].visibilityDeadline <= now then Err(MessageNotInflight)
    else Ok(())
  }

  /** The handle is an active receipt of this queue whose lease has not run out. */
  predicate LeaseHeld(t: Tables, queueId: int, handle: Handle, now: int) {
    && handle in t.receipts && t.receipts[handle].queueId == queueId
    && t.receipts[handle].active && t.receipts[handle].visibilityDeadline > now
  }

  /** The delete finds a held lease, and a message that is not deleted yet. */
  predicate Deletes(t: Tables, queueId: int, handle: Handle, now: int) {
    && LeaseHeld(t, queueId, handle, now)
    && t.receipts[handle].messageRowId in t.messages
    && t.messages[t.receipts[handle].messageRowId].deletedAt.None?
  }

  function Delete(t: Tables, queueId: int, handle: Handle, now: int): Tables {
    if Deletes(t, queueId, handle, now) then
      var r := t.receipts[handle];
      t.(
        receipts := DeactivateOne(t.receipts, handle),
        messages := t.messages[r.messageRowId :=
          t.messages[r.messageRowId].(deletedAt := Some(now), visibilityDeadline := None)],
        attempts := InvalidateAttempts(t.attempts, queueId, now))
    else if LeaseHeld(t, queueId, handle, now) then
      t.(receipts := DeactivateOne(t.receipts, handle))
    else t
  }

  function ChangeResult(t: Tables, queueId: int, handle: Handle, timeout: int, now: int): Result<()> {
    if handle !in t.receipts || t.receipts[handle].queueId != queueId then Err(ReceiptHandleIsInvalid)
    else if !t.receipts[handle].active || t.receipts[handle].visibilityDeadline <= now then Err(MessageNotInflight)
    else if timeout * 1000 > t.receipts[handle].issuedAt + MAX_LEASE - now then Err(InvalidParameterValue)
    else if t.receipts[handle].messageRowId !in t.messages
            || t.messages[t.receipts[handle].messageRowId].deletedAt.Some? then Err(MessageNotInflight)
    else Ok(())
  }

  function ChangeVisibility(t: Tables, queueId: int, handle: Handle, timeout: int, now: int): Tables {
    if ChangeResult(t, queueId, handle, timeout, now).Err? then t
    else
      var t1 := SetLease(t, handle, LeaseEnd(now, timeout), false);
      t1.(attempts := InvalidateAttempts(t.attempts, queueId, now))
  }

  // ---- maintenance --------------------------------------------------------------------

  function ExpiredRows(messages: map<int, Message>, queueId: int, now: int): set<int> {
    set id | id in messages
             && messages[id].queueId == queueId && messages[id].deletedAt.None? && messages[id].retentionDeadline <= now
  }

  function Expire(messages: map<int, Message>, rows: set<int>, now: int): (r: map<int, Message>)
    ensures r.Keys == messages.Keys && forall id :: id in r ==> r[id].rowId == messages[id].rowId
  {
    map id | id in messages ::
      if id in rows then messages[id].(deletedAt := Some(now), visibilityDeadline := None) else messages[id]
  }

  predicate PurgePending(q: Queue) {
    q.purgeRequestedAt.Some? && q.purgeExpiresAt.Some?
  }

  function Reap(t: Tables, q: Queue, now: int): Tables {
    var expired := ExpiredRows(t.messages, q.id, now);
    var messages := Expire(t.messages, expired, now);
    t.(
      messages := if PurgePending(q) then MarkDeletedBefore(messages, q.id, q.purgeExpiresAt.value) else messages,
      receipts := Deactivate(t.receipts, expired),
      queues := if PurgePending(q) && q.purgeExpiresAt.value <= now && q.id in t.queues
      then t.queues[q.id := q.(purgeRequestedAt := None, purgeExpiresAt := None)] else t.queues)
  }

  /** The destination of one message under a move task. */
  ghost function Destination(t: Tables, task: MoveTask, m: Message): Option<Queue> {
    var found :=
      if task.destinationQueueId.Some? then QueueById(t, task.destinationQueueId.value)
      else if m.deadLetterSourceArn == "" then None
      else QueueByArn(t, m.deadLetterSourceArn);
    if IsLive(found) then found else None
  }

  ghost function Movable(t: Tables, task: MoveTask): Message -> bool {
    (m: Message) => Destination(t, task, m).Some?
  }

  function MoveLimit(task: MoveTask, listed: nat): int {
    if task.maxMessagesPerSecond.Some? && task.maxMessagesPerSecond.value > 0
    then task.maxMessagesPerSecond.value else listed
  }

  /** The messages one pass of the move task moves: the first movable live ones, up to the limit. */
  ghost function MovedBy(t: Tables, task: MoveTask, now: int): (r: seq<Message>)
    ensures |r| <= |LiveOf(t, task.sourceQueueId, now)|
  {
    var limit := MoveLimit(task, |MessagesOf(t, task.sourceQueueId)|);
    Take(Filter(LiveOf(t, task.sourceQueueId, now), Movable(t, task)), if limit < 0 then 0 else limit)
  }

  function MoveMessage(m: Message, destination: Queue, now: int): Message {
    m.(
      queueId := destination.id,
      sentAt := now,
      originalSentAt := now,
      firstReceivedAt := None,
      receiveCount := 0,
      availableAt := now,
      visibilityDeadline := None,
      retentionDeadline := now + RetentionSeconds(destination) * 1000,
      deletedAt := None,
      deadLetterSourceArn := "")
  }

  ghost function MoveRows(t: Tables, task: MoveTask, rows: set<int>, now: int): (r: map<int, Message>)
    ensures r.Keys == t.messages.Keys && forall id :: id in r ==> r[id].rowId == t.messages[id].rowId
  {
    map id | id in t.messages ::
      if id in rows && Destination(t, task, t.messages[id]).Some?
      then MoveMessage(t.messages[id], Destination(t, task, t.messages[id]).value, now) else t.messages[id]
  }

  function FailTask(task: MoveTask, now: int): MoveTask {
    task.(status := Failed, failureReason := "Source queue no longer exists.",
          completedAt := Some(Seconds(now)), updatedAt := Seconds(now))
  }

  function AdvanceTask(task: MoveTask, moved: nat, remaining: nat, now: int): MoveTask {
    var next := task.(moved := task.moved + moved, toMove := Some(remaining), updatedAt := Seconds(now));
    if task.status == Cancelling then next.(status := Cancelled, completedAt := Some(Seconds(now)))
    else if remaining == 0 then next.(status := Completed, completedAt := Some(Seconds(now)))
    else next
  }

  ghost function MovePass(t: Tables, task: MoveTask, now: int): Tables {
    if !IsLive(QueueById(t, task.sourceQueueId)) then
      t.(tasks := if task.id in t.tasks then t.tasks[task.id := FailTask(task, now)] else t.tasks)
    else
      var moved := MovedBy(t, task, now);
      var remaining := |LiveOf(t, task.sourceQueueId, now)| - |moved|;
      t.(
        messages := MoveRows(t, task, RowIds(moved), now),
        receipts := Deactivate(t.receipts, RowIds(moved)),
        tasks := if task.id in t.tasks
        then t.tasks[task.id := AdvanceTask(task, |moved|, remaining, now)] else t.tasks)
  }

  /** Applies one patch; if its queue is gone it stays pending. */
  function ApplyPatch(t: Tables, p: Patch, now: int): Tables {
    if p.queueId in t.queues then
      var q := t.queues[p.queueId];
      t.(
        queues := t.queues[p.queueId := q.(attributes := q.attributes + p.attributes, lastModifiedAt := Seconds(now))],
        pending := t.pending - {p.id})
    else t
  }

  function ApplyPatches(t: Tables, patches: seq<Patch>, now: int): Tables
    decreases |patches|
  {
    if patches == [] then t else ApplyPatches(ApplyPatch(t, patches[0], now), patches[1..], now)
  }

  ghost function ApplyDue(t: Tables, now: int): Tables {
    ApplyPatches(t, DuePatches(t, now), now)
  }

  // ---- queues and move tasks ----------------------------------------------------------

  const BOOKKEEPING: set<string> := {"CreatedTimestamp", "LastModifiedTimestamp", "QueueArn"}

  predicate Equivalent(q: Queue, attributes: map<string, string>) {
    var current, expected := q.attributes - BOOKKEEPING, attributes - BOOKKEEPING;
    && |current| == |expected|
    && forall k :: k in expected ==> (if k in current then current[k] else "") == expected[k]
  }

  ghost predicate Blocked(t: Tables, name: string, now: int) {
    var q := QueueByName(t, name);
    q.Some? && q.value.deletedAt.Some? && q.value.reuseBlockedTill.Some? && now < q.value.reuseBlockedTill.value
  }

  ghost function CreateResult(cfg: Config, t: Tables, name: string, attributes: map<string, string>, now: int): Result<string> {
    var existing := QueueByName(t, name);
    if Blocked(t, name, now) then Err(QueueDeletedRecently)
    else if IsLive(existing) && !Equivalent(existing.value, attributes) then Err(QueueNameExists)
    else if IsLive(existing) then Ok(existing.value.url)
    else Ok(QueueUrl(cfg, name))
  }

  function NewQueue(cfg: Config, id: int, name: string, attributes: map<string, string>, now: int,
                    stamps: map<string, string>): Queue {
    Queue(id, name, QueueUrl(cfg, name), QueueArn(cfg, name),
          "FifoQueue" in attributes && attributes["FifoQueue"] == "true",
          attributes + stamps, Seconds(now + cfg.createPropagation), Seconds(now), None, None, None, None)
  }

  /** `stamps` are the ARN and creation-time attributes the service adds. */
  ghost function CreateQueue(cfg: Config, t: Tables, name: string, attributes: map<string, string>,
                             stamps: map<string, string>, now: int): Tables {
    var existing := QueueByName(t, name);
    if Blocked(t, name, now) || IsLive(existing) then t
    else
      var t1 := if existing.Some? then RemoveQueue(t, existing.value.id) else t;
      t1.(
        queues := t1.queues[t1.nextQueueId := NewQueue(cfg, t1.nextQueueId, name, attributes, now, stamps)],
        nextQueueId := t1.nextQueueId + 1)
  }

  function Touch(q: Queue, stamp: map<string, string>, now: int): Queue {
    q.(attributes := q.attributes + stamp, lastModifiedAt := Seconds(now))
  }

  function DeleteQueue(cfg: Config, t: Tables, q: Queue, stamp: map<string, string>, now: int): Tables
  {
    t.(queues := t.queues[q.id := Touch(q, stamp, now).(
      deletedAt := Some(Seconds(now)), reuseBlockedTill := Some(Seconds(now + cfg.deleteCooldown)))])
  }

  predicate PurgeRunning(q: Queue, now: int) {
    q.purgeExpiresAt.Some? && now < q.purgeExpiresAt.value
  }

  function PurgeQueue(cfg: Config, t: Tables, q: Queue, stamp: map<string, string>, now: int): Tables
  {
    if PurgeRunning(q, now) then t
    else t.(queues := t.queues[q.id := Touch(q, stamp, now).(
      purgeRequestedAt := Some(Seconds(now)), purgeExpiresAt := Some(Seconds(now + cfg.purgeCooldown)))])
  }

  predicate OnlyRetention(patch: map<string, string>) {
    |patch| == 1 && "MessageRetentionPeriod" in patch && patch["MessageRetentionPeriod"] != ""
  }

  function SetAttributes(cfg: Config, t: Tables, q: Queue, patch: map<string, string>, stamp: map<string, string>, now: int): Tables
  {
    if patch == map[] then t
    else
      var effectiveAt := now + if OnlyRetention(patch) then cfg.retentionPropagation else cfg.attributePropagation;
      t.(
        queues := t.queues[q.id := Touch(q, stamp, now)],
        pending := t.pending[t.nextPatchId := Patch(t.nextPatchId, q.id, patch, Seconds(effectiveAt))],
        nextPatchId := t.nextPatchId + 1)
  }

  ghost predicate HasRunningTask(t: Tables, sourceId: int) {
    exists id :: id in t.tasks && t.tasks[id].sourceQueueId == sourceId && IsRunning(t.tasks[id])
  }

  function NewTask(id: int, handle: string, sourceId: int, destinationId: Option<int>, perSecond: Option<int>,
                   toMove: nat, now: int): MoveTask {
    MoveTask(id, handle, sourceId, destinationId, Running, perSecond, 0, Some(toMove), "", Seconds(now), Seconds(now), None)
  }

  /** A source that already has a running task gets no second one. */
  ghost function StartTask(t: Tables, sourceId: int, destinationId: Option<int>, perSecond: Option<int>,
                           handle: string, now: int): Tables {
    if HasRunningTask(t, sourceId) then t
    else t.(
      tasks := t.tasks[t.nextTaskId :=
        NewTask(t.nextTaskId, handle, sourceId, destinationId, perSecond, |LiveOf(t, sourceId, now)|, now)],
      nextTaskId := t.nextTaskId + 1)
  }

  function CancelTask(t: Tables, id: int, now: int): Tables
    requires id in t.tasks
  {
    t.(tasks := t.tasks[id := t.tasks[id].(
      status := Cancelled, completedAt := Some(Seconds(now)), updatedAt := Seconds(now))])
  }

  // ---- events ---------------------------------------------------------------------------

  datatype MessageEvent =
    | SendOne(queueId: int, entry: Entry)
    | LeaseSome(queueId: int, max: nat, timeout: int, attemptId: string, handles: seq<Handle>)
    | RedriveOne(queueId: int, rowId: int)
    | RefreshOne(queueId: int, attemptId: string, handle: Handle, timeout: int)
    | DeleteOne(queueId: int, handle: Handle)
    | ChangeOne(queueId: int, handle: Handle, timeout: int)

  datatype UpkeepEvent =
    | ApplyMutations
    | DropLedger
    | ReapOne(queueId: int)
    | PassOne(taskId: int)

  datatype QueueEvent =
    | Create(name: string, attributes: map<string, string>, stamps: map<string, string>)
    | Tombstone(queueId: int, stamps: map<string, string>)
    | Purge(queueId: int, stamps: map<string, string>)
    | Patching(queueId: int, patch: map<string, string>, stamps: map<string, string>)
    | Start(sourceId: int, destinationId: Option<int>, perSecond: Option<int>, taskHandle: string)
    | Cancel(taskId: int)

  datatype Event = OnMessages(message: MessageEvent) | Upkeep(upkeep: UpkeepEvent) | OnQueues(queue: QueueEvent)

  /** Handles are drawn at random: they are distinct and never drawn before. */
  ghost predicate Fresh(t: Tables, handles: seq<Handle>) {
    Unrepeated(handles) && forall h :: h in handles ==> h !in t.issued
  }

  /** When the service produces the event. */
  ghost predicate MessageEnabled(cfg: Config, t: Tables, now: int, e: MessageEvent) {
    && IsLive(QueueById(t, e.queueId))
    && match e
       case SendOne(_, _) => true
       case LeaseSome(id, max, timeout, attemptId, handles) =>
         && 0 <= timeout <= MAX_TIMEOUT
         && (forall m :: m in CandidatesOf(t, t.queues[id], max, now) ==> !ShouldRedrive(cfg, t.queues[id], m))
         && |handles| == |CandidatesOf(t, t.queues[id], max, now)| && Fresh(t, handles)
       case RedriveOne(id, row) =>
         && RedriveTarget(cfg, t, t.queues[id]).Some?
         && row in t.messages && t.messages[row].queueId == id && Visible(t.messages[row], now)
         && ShouldRedrive(cfg, t.queues[id], t.messages[row])
       case RefreshOne(id, attemptId, handle, timeout) =>
         && 0 <= timeout <= MAX_TIMEOUT
         && FindAttempt(t, AttemptKey(id, attemptId), now).Some?
         && (exists d :: d in FindAttempt(t, AttemptKey(id, attemptId), now).value.response && d.receiptHandle == handle)
         && Refreshable(t, id, handle, now)
       case DeleteOne(_, _) => true
       case ChangeOne(_, _, timeout) => 0 <= timeout <= MAX_TIMEOUT
  }

  ghost function MessageStep(cfg: Config, t: Tables, now: int, e: MessageEvent): Tables
    requires MessageEnabled(cfg, t, now, e)
  {
    match e
    case SendOne(id, entry) => Send(cfg, t, t.queues[id], entry, now)
    case LeaseSome(id, max, timeout, attemptId, handles) =>
      Lease(t, id, CandidatesOf(t, t.queues[id], max, now), handles, attemptId, LeaseEnd(now, timeout), now)
    case RedriveOne(id, row) =>
      RedriveRows(t, t.queues[id].arn, RedriveTarget(cfg, t, t.queues[id]).value.id, {row}, now)
    case RefreshOne(_, _, handle, timeout) => SetLease(t, handle, LeaseEnd(now, timeout), true)
    case DeleteOne(id, handle) => Delete(t, id, handle, now)
    case ChangeOne(id, handle, timeout) => ChangeVisibility(t, id, handle, timeout, now)
  }

  ghost predicate UpkeepEnabled(t: Tables, e: UpkeepEvent) {
    match e
    case ApplyMutations => true
    case DropLedger => true
    case ReapOne(id) => IsLive(QueueById(t, id))
    case PassOne(id) => id in t.tasks && IsRunning(t.tasks[id])
  }

  ghost function UpkeepStep(t: Tables, now: int, e: UpkeepEvent): Tables
    requires UpkeepEnabled(t, e)
  {
    match e
    case ApplyMutations => ApplyDue(t, now)
    case DropLedger => t.(ledger := DropExpired(t.ledger, now))
    case ReapOne(id) => Reap(t, t.queues[id], now)
    case PassOne(id) => MovePass(t, t.tasks[id], now)
  }

  ghost predicate QueueEnabled(t: Tables, e: QueueEvent) {
    match e
    case Create(_, _, _) => true
    case Tombstone(id, _) => IsLive(QueueById(t, id))
    case Purge(id, _) => IsLive(QueueById(t, id))
    case Patching(id, _, _) => IsLive(QueueById(t, id))
    case Start(source, destination, _, _) =>
      IsLive(QueueById(t, source)) && (destination.Some? ==> IsLive(QueueById(t, destination.value)))
    case Cancel(id) => id in t.tasks
  }

  ghost function QueueStep(cfg: Config, t: Tables, now: int, e: QueueEvent): Tables
    requires QueueEnabled(t, e)
  {
    match e
    case Create(name, attributes, stamps) => CreateQueue(cfg, t, name, attributes, stamps, now)
    case Tombstone(id, stamps) => DeleteQueue(cfg, t, t.queues[id], stamps, now)
    case Purge(id, stamps) => PurgeQueue(cfg, t, t.queues[id], stamps, now)
    case Patching(id, patch, stamps) => SetAttributes(cfg, t, t.queues[id], patch, stamps, now)
    case Start(source, destination, perSecond, taskHandle) =>
      StartTask(t, source, destination, perSecond, taskHandle, now)
    case Cancel(id) => CancelTask(t, id, now)
  }

  ghost predicate Enabled(cfg: Config, t: Tables, now: int, e: Event) {
    match e
    case OnMessages(m) => MessageEnabled(cfg, t, now, m)
    case Upkeep(u) => UpkeepEnabled(t, u)
    case OnQueues(q) => QueueEnabled(t, q)
  }

  /** What the event does to the tables. */
  ghost function Step(cfg: Config, t: Tables, now: int, e: Event): Tables
    requires Enabled(cfg, t, now, e)
  {
    match e
    case OnMessages(m) => MessageStep(cfg, t, now, m)
    case Upkeep(u) => UpkeepStep(t, now, u)
    case OnQueues(q) => QueueStep(cfg, t, now, q)
  }
}
