/** What a send accepts, and the row and the answer it makes, in columns; and how queue attributes are read. */
module SendLaws {
  import opened Records
  import opened Numerals
  import opened Tables
  import opened QueueAttributes
  import opened Plane
  import opened Integrity

  // ---- attributes -----------------------------------------------------------------------------

  /** The attribute says this number. */
  predicate Says(q: Queue, name: string, n: int) {
    MIN_INT64 <= n <= MAX_INT64 && name in q.attributes && q.attributes[name] == IntText(n)
  }

  lemma NumberSaid(q: Queue, name: string, least: int, default: int, n: int)
    ensures Says(q, name, n) ==> NumberOr(q, name, least, default) == if n >= least then n else default
    ensures name !in q.attributes ==> NumberOr(q, name, least, default) == default
  {
    if Says(q, name, n) { ParseIntText(n); }
  }

  /** The numbers of a queue: what its attributes say, and in their absence, or if they say too little, the default. */
  lemma NumbersRead(q: Queue, n: int)
    ensures Says(q, "VisibilityTimeout", n) ==> VisibilityTimeout(q) == if n >= 0 then n else 30
    ensures "VisibilityTimeout" !in q.attributes ==> VisibilityTimeout(q) == 30
    ensures Says(q, "MaximumMessageSize", n) ==> MaximumMessageSize(q) == if n >= 1 then n else 1048576
    ensures "MaximumMessageSize" !in q.attributes ==> MaximumMessageSize(q) == 1048576
    ensures Says(q, "MessageRetentionPeriod", n) ==> RetentionSeconds(q) == if n >= 1 then n else 345600
    ensures "MessageRetentionPeriod" !in q.attributes ==> RetentionSeconds(q) == 345600
    ensures Says(q, "DelaySeconds", n) ==> DelaySeconds(q) == if n >= 0 then n else 0
    ensures "DelaySeconds" !in q.attributes ==> DelaySeconds(q) == 0
    ensures Says(q, "ReceiveMessageWaitTimeSeconds", n) ==> WaitTime(q) == if n >= 0 then n else 0
    ensures "ReceiveMessageWaitTimeSeconds" !in q.attributes ==> WaitTime(q) == 0
  {
    NumberSaid(q, "VisibilityTimeout", 0, 30, n);
    NumberSaid(q, "MaximumMessageSize", 1, 1024 * 1024, n);
    NumberSaid(q, "MessageRetentionPeriod", 1, 345600, n);
    NumberSaid(q, "DelaySeconds", 0, 0, n);
    NumberSaid(q, "ReceiveMessageWaitTimeSeconds", 0, 0, n);
  }

  // ---- what is accepted -----------------------------------------------------------------------

  /**
   * An entry is accepted if and only if its body is there and with its attributes not too long, text and attributes are
   * acceptable, the delay is at most fifteen minutes and not asked for on a FIFO queue, a FIFO entry has a group and a
   * deduplication id or a queue that makes one, and a standard entry has no deduplication id.
   */
  lemma AcceptedExactly(q: Queue, e: Entry)
    ensures EntryError(q, e).None? <==>
      && 1 <= |e.body| && e.content.Ok? && |e.body| + e.content.value.size <= MaximumMessageSize(q)
      && 0 <= (if e.delaySeconds.Some? then e.delaySeconds.value else DelaySeconds(q)) <= 900
      && (if !q.fifo then e.dedupId == "" else
            && e.delaySeconds.None? && e.groupId != ""
            && (e.dedupId != "" || ("ContentBasedDeduplication" in q.attributes && q.attributes["ContentBasedDeduplication"] == "true")))
  {
  }

  /** Why it is refused: a group is missing only if all comes before is right, and otherwise some value is wrong. */
  lemma RefusedBecause(q: Queue, e: Entry)
    ensures 1 <= |e.body| <= MaximumMessageSize(q) && e.content.Err? ==> EntryError(q, e) == Some(e.content.error)
    ensures !(1 <= |e.body| <= MaximumMessageSize(q)) ==> EntryError(q, e) == Some(InvalidParameterValue)
    ensures EntryError(q, e) == Some(MissingParameter) && e.content.Ok? ==> q.fifo && e.groupId == ""
    ensures
      (q.fifo && e.groupId == "" && e.delaySeconds.None? && 0 <= DelaySeconds(q) <= 900
       && 1 <= |e.body| && e.content.Ok? && |e.body| + e.content.value.size <= MaximumMessageSize(q)) ==>
      EntryError(q, e) == Some(MissingParameter)
    ensures EntryError(q, e).Some? && e.content.Ok? ==> EntryError(q, e).value in {MissingParameter, InvalidParameterValue}
  {
  }

  // ---- what is stored -------------------------------------------------------------------------

  /**
   * A send that adds a message adds this row, visible when its delay is over and live until its retention is, and on a FIFO queue
   * a ledger entry for five minutes; it answers with the digests. Every other send leaves the tables as they were.
   */
  lemma SentRow(cfg: Config, t: Tables, q: Queue, e: Entry, now: int)
    requires MessagesKeyed(t)
    ensures var t' := Send(cfg, t, q, e, now);
      if t'.messages.Keys == t.messages.Keys then t' == t
      else
        && e.content.Ok?
        && var dedupId := if q.fifo && e.dedupId == "" then cfg.sha256Hex(e.body) else e.dedupId;
        && var response := SendResponse(e.messageId, cfg.md5Hex(e.body), e.content.value.md5, e.content.value.systemMd5,
                                        if q.fifo then e.sequenceNumber else "");
        && SendResult(cfg, t, q, e, now) == Ok(response)
        && t'.messages == t.messages[t.nextRowId := Message(
             t.nextRowId, q.id, e.messageId, e.body, now, now, None, 0,
             now + (if e.delaySeconds.Some? then e.delaySeconds.value else DelaySeconds(q)) * 1000, None,
             now + RetentionSeconds(q) * 1000, None, e.groupId, dedupId, "")]
        && t' == t.(messages := t'.messages, nextRowId := t.nextRowId + 1, ledger := t'.ledger)
        && var scope := if Attribute(q, "DeduplicationScope") == "messageGroup" then e.groupId else q.name;
        && t'.ledger == (if q.fifo then t.ledger[LedgerKey(q.id, scope, dedupId) := DedupEntry(response, now + 5 * 60 * 1000)] else t.ledger)
  {
    if Inserts(cfg, t, q, e, now) { assert t.nextRowId in Send(cfg, t, q, e, now).messages; }
  }
}
