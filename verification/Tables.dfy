/**
 * The store's tables as one value, and the meaning of each SQL statement on them.
 * A table with a UNIQUE column is a map keyed by that column.
 */
module Tables {
  import opened Records
  import opened Sequences
  import opened Strings
  import AttributeSizes

  datatype RedrivePolicy = RedrivePolicy(targetArn: string, maxReceiveCount: int)

  /** What the service is configured with, and the library calls whose results it only passes on. */
  datatype Config = Config(
    publicBaseUrl: string,
    accountId: string,
    region: string,
    createPropagation: int,
    deleteCooldown: int,
    purgeCooldown: int,
    attributePropagation: int,
    retentionPropagation: int,
    sha256Hex: string -> string,
    md5Hex: string -> string,
    readRedrivePolicy: string -> Option<RedrivePolicy>,
    checks: AttributeSizes.Checks
  )

  datatype Tables = Tables(
    queues: map<int, Queue>,
    nextQueueId: int,
    pending: map<int, Patch>,
    nextPatchId: int,
    tasks: map<int, MoveTask>,
    nextTaskId: int,
    messages: map<int, Message>,
    nextRowId: int,
    receipts: map<Handle, Receipt>,
    ledger: map<LedgerKey, DedupEntry>,
    attempts: map<AttemptKey, ReceiveAttempt>,
    issued: set<Handle>,  // every receipt handle ever drawn: handles are random and never repeat
    nextCall: nat         // numbers the receive calls
  )

  const EMPTY := Tables(map[], 1, map[], 1, map[], 1, map[], 1, map[], map[], map[], {}, 0)

  // ---- names ----------------------------------------------------------------

  function QueueUrl(cfg: Config, name: string): string {
    cfg.publicBaseUrl + "/" + cfg.accountId + "/" + name
  }

  function QueueArn(cfg: Config, name: string): string {
    "arn:aws:sqs:" + cfg.region + ":" + cfg.accountId + ":" + name
  }

  lemma SuffixesDiffer(prefix: string, a: string, b: string)
    requires prefix + a == prefix + b
    ensures a == b
  {
    assert a == (prefix + a)[|prefix|..];
    assert b == (prefix + b)[|prefix|..];
  }

  lemma NamesFromUrls(cfg: Config, a: string, b: string)
    ensures QueueUrl(cfg, a) == QueueUrl(cfg, b) ==> a == b
    ensures QueueArn(cfg, a) == QueueArn(cfg, b) ==> a == b
  {
    if QueueUrl(cfg, a) == QueueUrl(cfg, b) {
      SuffixesDiffer(cfg.publicBaseUrl + "/" + cfg.accountId + "/", a, b);
    }
    if QueueArn(cfg, a) == QueueArn(cfg, b) {
      SuffixesDiffer("arn:aws:sqs:" + cfg.region + ":" + cfg.accountId + ":", a, b);
    }
  }

  // ---- integrity of keys ------------------------------------------------------

  ghost predicate MessageKeys(messages: map<int, Message>, next: int) {
    forall id :: id in messages ==> messages[id].rowId == id && id < next
  }

  ghost predicate QueueKeys(cfg: Config, queues: map<int, Queue>, next: int) {
    && (forall id :: id in queues ==>
          && queues[id].id == id < next
          && queues[id].url == QueueUrl(cfg, queues[id].name)
          && queues[id].arn == QueueArn(cfg, queues[id].name))
    && (forall a, b :: a in queues && b in queues && queues[a].name == queues[b].name ==> a == b)
  }

  ghost predicate TaskKeys(tasks: map<int, MoveTask>, next: int) {
    forall id :: id in tasks ==> tasks[id].id == id < next
  }

  ghost predicate PatchKeys(pending: map<int, Patch>, next: int) {
    forall id :: id in pending ==> pending[id].id == id < next
  }

  ghost predicate ReceiptKeys(receipts: map<Handle, Receipt>, nextRow: int, issued: set<Handle>, nextCall: nat) {
    forall h :: h in receipts ==>
      h in issued && receipts[h].handle == h && receipts[h].messageRowId < nextRow && receipts[h].call < nextCall
  }

  ghost predicate MessagesKeyed(t: Tables) { MessageKeys(t.messages, t.nextRowId) }

  ghost predicate QueuesKeyed(cfg: Config, t: Tables) { QueueKeys(cfg, t.queues, t.nextQueueId) }

  ghost predicate TasksKeyed(t: Tables) { TaskKeys(t.tasks, t.nextTaskId) && PatchKeys(t.pending, t.nextPatchId) }

  ghost predicate ReceiptsKeyed(t: Tables) { ReceiptKeys(t.receipts, t.nextRowId, t.issued, t.nextCall) }

  ghost predicate Keyed(cfg: Config, t: Tables) {
    MessagesKeyed(t) && QueuesKeyed(cfg, t) && TasksKeyed(t) && ReceiptsKeyed(t)
  }

  // ---- queues -----------------------------------------------------------------

  ghost function QueueByUrl(t: Tables, url: string): (q: Option<Queue>)
    ensures q.Some? ==> exists id :: id in t.queues && t.queues[id] == q.value && q.value.url == url
    ensures q.None? ==> forall id :: id in t.queues ==> t.queues[id].url != url
  {
    if id :| id in t.queues && t.queues[id].url == url then Some(t.queues[id]) else None
  }

  ghost function QueueByArn(t: Tables, arn: string): (q: Option<Queue>)
    ensures q.Some? ==> exists id :: id in t.queues && t.queues[id] == q.value && q.value.arn == arn
    ensures q.None? ==> forall id :: id in t.queues ==> t.queues[id].arn != arn
  {
    if id :| id in t.queues && t.queues[id].arn == arn then Some(t.queues[id]) else None
  }

  ghost function QueueByName(t: Tables, name: string): (q: Option<Queue>)
    ensures q.Some? ==> exists id :: id in t.queues && t.queues[id] == q.value && q.value.name == name
    ensures q.None? ==> forall id :: id in t.queues ==> t.queues[id].name != name
  {
    if id :| id in t.queues && t.queues[id].name == name then Some(t.queues[id]) else None
  }

  function QueueById(t: Tables, id: int): Option<Queue> {
    if id in t.queues then Some(t.queues[id]) else None
  }

  predicate NamedBefore(a: Queue, b: Queue) {
    Less(a.name, b.name)
  }

  function QueueSet(t: Tables): set<Queue> {
    set id | id in t.queues :: t.queues[id]
  }

  /** All queues, `ORDER BY name`. */
  ghost function QueuesOf(t: Tables): seq<Queue> {
    Listed(QueueSet(t), NamedBefore)
  }

  lemma NamesOrder(cfg: Config, t: Tables)
    requires QueuesKeyed(cfg, t)
    ensures StrictWeak(NamedBefore) && Separates(QueueSet(t), NamedBefore)
  {
    LessOrders();
    forall a, b | a in QueueSet(t) && b in QueueSet(t) && a != b ensures NamedBefore(a, b) || NamedBefore(b, a) {
      LessDecides(a.name, b.name);
    }
  }

  predicate IsLive(q: Option<Queue>) {
    q.Some? && q.value.deletedAt.None?
  }

  /** `DELETE FROM queues` with the cascades its foreign keys declare. */
  function RemoveQueue(t: Tables, queueId: int): Tables {
    var doomed := set id | id in t.messages && t.messages[id].queueId == queueId;
    t.(
      queues := t.queues - {queueId},
      pending := map id | id in t.pending && t.pending[id].queueId != queueId :: t.pending[id],
      tasks := map id | id in t.tasks && t.tasks[id].sourceQueueId != queueId ::
        if t.tasks[id].destinationQueueId == Some(queueId)
        then t.tasks[id].(destinationQueueId := None) else t.tasks[id],
      messages := t.messages - doomed,
      receipts := map h | h in t.receipts
                          && t.receipts[h].queueId != queueId && t.receipts[h].messageRowId !in doomed :: t.receipts[h],
      ledger := map k | k in t.ledger && k.queueId != queueId :: t.ledger[k],
      attempts := map k | k in t.attempts && k.queueId != queueId :: t.attempts[k]
    )
  }

  // ---- messages ---------------------------------------------------------------

  predicate SentBefore(a: Message, b: Message) {
    a.sentAt < b.sentAt || (a.sentAt == b.sentAt && a.rowId < b.rowId)
  }

  function Rows(messages: map<int, Message>, queueId: int): set<Message> {
    set id | id in messages && messages[id].queueId == queueId :: messages[id]
  }

  /** The rows of one queue, `ORDER BY sent_at, id`. */
  ghost function MessagesOf(t: Tables, queueId: int): seq<Message> {
    Listed(Rows(t.messages, queueId), SentBefore)
  }

  lemma SentBeforeOrders(t: Tables, queueId: int)
    requires MessagesKeyed(t)
    ensures StrictWeak(SentBefore) && Separates(Rows(t.messages, queueId), SentBefore)
  {
  }

  lemma MessagesOfRows(t: Tables, queueId: int)
    requires MessagesKeyed(t)
    ensures var ms := MessagesOf(t, queueId);
      && Increasing(ms, SentBefore)
      && (forall m :: m in ms <==> m.rowId in t.messages && t.messages[m.rowId] == m && m.queueId == queueId)
  {
    SentBeforeOrders(t, queueId);
    ListedRows(Rows(t.messages, queueId), SentBefore);
  }

  lemma MessagesOfUnique(t: Tables, queueId: int, ms: seq<Message>)
    requires MessagesKeyed(t)
    requires Increasing(ms, SentBefore)
    requires forall m :: m in ms <==> m.rowId in t.messages && t.messages[m.rowId] == m && m.queueId == queueId
    ensures ms == MessagesOf(t, queueId)
  {
    SentBeforeOrders(t, queueId);
    ListedUnique(ms, Rows(t.messages, queueId), SentBefore);
  }

  function MarkDeletedBefore(messages: map<int, Message>, queueId: int, cutoff: int): (r: map<int, Message>)
    ensures r.Keys == messages.Keys && forall id :: id in r ==> r[id].rowId == messages[id].rowId
  {
    map id | id in messages ::
      if messages[id].queueId == queueId && messages[id].deletedAt.None? && messages[id].sentAt <= cutoff
      then messages[id].(deletedAt := Some(cutoff)) else messages[id]
  }

  // ---- receipts ---------------------------------------------------------------

  function Deactivate(receipts: map<Handle, Receipt>, rows: set<int>): (r: map<Handle, Receipt>)
    ensures r.Keys == receipts.Keys
    ensures forall h :: h in r ==> r[h].handle == receipts[h].handle && r[h].messageRowId == receipts[h].messageRowId
    ensures forall h :: h in r ==> r[h].call == receipts[h].call
  {
    map h | h in receipts ::
      if receipts[h].messageRowId in rows then receipts[h].(active := false) else receipts[h]
  }

  function DeactivateOne(receipts: map<Handle, Receipt>, handle: Handle): map<Handle, Receipt>
    requires handle in receipts
  {
    receipts[handle := receipts[handle].(active := false)]
  }

  lemma DeactivateMore(receipts: map<Handle, Receipt>, rows: set<int>, row: int)
    ensures Deactivate(Deactivate(receipts, rows), {row}) == Deactivate(receipts, rows + {row})
  {
  }

  // ---- deduplication ledger and receive attempts ------------------------------

  function FindEntry(t: Tables, key: LedgerKey, now: int): Option<DedupEntry> {
    if key in t.ledger && t.ledger[key].expiresAt > now then Some(t.ledger[key]) else None
  }

  function DropExpired(ledger: map<LedgerKey, DedupEntry>, now: int): map<LedgerKey, DedupEntry> {
    map k | k in ledger && ledger[k].expiresAt > now :: ledger[k]
  }

  function FindAttempt(t: Tables, key: AttemptKey, now: int): Option<ReceiveAttempt> {
    if key in t.attempts && t.attempts[key].expiresAt > now && t.attempts[key].invalidatedAt.None?
    then Some(t.attempts[key]) else None
  }

  function InvalidateAttempts(attempts: map<AttemptKey, ReceiveAttempt>, queueId: int, at: int): map<AttemptKey, ReceiveAttempt> {
    map k | k in attempts ::
      if k.queueId == queueId && attempts[k].invalidatedAt.None?
      then attempts[k].(invalidatedAt := Some(at)) else attempts[k]
  }

  // ---- pending attribute patches and move tasks ---------------------------------

  predicate EffectiveBefore(a: Patch, b: Patch) {
    a.effectiveAt < b.effectiveAt || (a.effectiveAt == b.effectiveAt && a.id < b.id)
  }

  function DueSet(t: Tables, now: int): set<Patch> {
    set id | id in t.pending && t.pending[id].effectiveAt <= Seconds(now) :: t.pending[id]
  }

  /** The patches due at `now`, `ORDER BY effective_at, id`. */
  ghost function DuePatches(t: Tables, now: int): seq<Patch> {
    Listed(DueSet(t, now), EffectiveBefore)
  }

  predicate IsRunning(task: MoveTask) {
    task.status == Running || task.status == Cancelling
  }

  predicate StartedBefore(a: MoveTask, b: MoveTask) {
    a.startedAt < b.startedAt || (a.startedAt == b.startedAt && a.id < b.id)
  }

  function RunningSet(t: Tables): set<MoveTask> {
    set id | id in t.tasks && IsRunning(t.tasks[id]) :: t.tasks[id]
  }

  ghost function RunningTasks(t: Tables): seq<MoveTask> {
    Listed(RunningSet(t), StartedBefore)
  }

  predicate StartedAfter(a: MoveTask, b: MoveTask) {
    a.startedAt > b.startedAt || (a.startedAt == b.startedAt && a.id > b.id)
  }

  function TasksFrom(t: Tables, sourceId: int): set<MoveTask> {
    set id | id in t.tasks && t.tasks[id].sourceQueueId == sourceId :: t.tasks[id]
  }

  /** The newest tasks of a source, `ORDER BY started_at DESC LIMIT ?`. */
  ghost function NewestTasks(t: Tables, sourceId: int, limit: nat): seq<MoveTask> {
    Take(Listed(TasksFrom(t, sourceId), StartedAfter), limit)
  }

  /** The newest running task of a source. */
  ghost function RunningTask(t: Tables, sourceId: int): Option<MoveTask> {
    var running := Filter(Listed(TasksFrom(t, sourceId), StartedAfter), IsRunning);
    if running == [] then None else Some(running[0])
  }

  lemma NewestListed(t: Tables, sourceId: int)
    requires TasksKeyed(t)
    ensures StrictWeak(StartedAfter) && Separates(TasksFrom(t, sourceId), StartedAfter)
    ensures forall task :: task in Listed(TasksFrom(t, sourceId), StartedAfter) <==>
      task.id in t.tasks && t.tasks[task.id] == task && task.sourceQueueId == sourceId
  {
    ListedRows(TasksFrom(t, sourceId), StartedAfter);
  }

  lemma TaskOrders(t: Tables, now: int)
    requires TasksKeyed(t)
    ensures StrictWeak(EffectiveBefore) && Separates(DueSet(t, now), EffectiveBefore)
    ensures StrictWeak(StartedBefore) && Separates(RunningSet(t), StartedBefore)
  {
  }
}
