/** What a receipt handle can do, in columns: delete its message, or move the end of its lease. */
module HandleLaws {
  import opened Records
  import opened Tables
  import opened Plane
  import opened Integrity
  import opened Acknowledging

  /**
   * A delete is refused if the handle is none of this queue's, or its lease has run out, and answers Ok in all other cases,
   * also when the receipt is no longer active.
   */
  lemma DeleteAnswers(t: Tables, queueId: int, handle: Handle, now: int)
    ensures var known := handle in t.receipts && t.receipts[handle].queueId == queueId;
      && (DeleteResult(t, queueId, handle, now) == Err(ReceiptHandleIsInvalid) <==> !known)
      && (DeleteResult(t, queueId, handle, now) == Err(MessageNotInflight) <==>
            known && t.receipts[handle].active && t.receipts[handle].visibilityDeadline <= now)
      && (DeleteResult(t, queueId, handle, now) == Ok(()) <==>
            known && (!t.receipts[handle].active || t.receipts[handle].visibilityDeadline > now))
  {
  }

  /**
   * A delete through an active receipt whose lease runs ends the message it names, unless that is deleted, and the receipt, and
   * makes the cached attempts of the queue invalid. Every other delete changes at most the receipt.
   */
  lemma DeleteEnds(t: Tables, queueId: int, handle: Handle, now: int)
    ensures var t' := Delete(t, queueId, handle, now);
      if handle in t.receipts && t.receipts[handle].queueId == queueId && t.receipts[handle].active
         && t.receipts[handle].visibilityDeadline > now then
        var r := t.receipts[handle];
        && t'.receipts == t.receipts[handle := r.(active := false)]
        && if r.messageRowId in t.messages && t.messages[r.messageRowId].deletedAt.None? then
             && t'.messages == t.messages[r.messageRowId :=
                  t.messages[r.messageRowId].(deletedAt := Some(now), visibilityDeadline := None)]
             && t'.attempts.Keys == t.attempts.Keys
             && (forall k :: k in t.attempts ==>
                   t'.attempts[k] == if k.queueId == queueId && t.attempts[k].invalidatedAt.None?
                                     then t.attempts[k].(invalidatedAt := Some(now)) else t.attempts[k])
             && t' == t.(receipts := t'.receipts, messages := t'.messages, attempts := t'.attempts)
           else t' == t.(receipts := t'.receipts)
      else t' == t
  {
    DeleteParts(t, queueId, handle, now);
  }

  /**
   * A change of visibility is accepted exactly if the timeout is at most twelve hours, the handle is that of an active receipt
   * of the queue whose lease runs, the new lease ends within twelve hours of the issue of the receipt, and its message is not
   * deleted. It then moves the end of the lease in both tables and makes the cached attempts of the queue invalid; a refused
   * one changes nothing.
   */
  lemma ChangeMoves(t: Tables, queueId: int, c: Change, now: int)
    ensures var t', result := OneChange(t, queueId, c, now), OneChangeResult(t, queueId, c, now);
      && (result.Ok? <==>
            && 0 <= c.timeout <= 12 * 60 * 60 && c.handle in t.receipts && t.receipts[c.handle].queueId == queueId
            && t.receipts[c.handle].active && t.receipts[c.handle].visibilityDeadline > now
            && now + c.timeout * 1000 <= t.receipts[c.handle].issuedAt + 12 * 60 * 60 * 1000
            && t.receipts[c.handle].messageRowId in t.messages && t.messages[t.receipts[c.handle].messageRowId].deletedAt.None?)
      && if result.Err? then t' == t else
           && c.handle in t.receipts && t.receipts[c.handle].messageRowId in t.messages
           && var r := t.receipts[c.handle];
           && t'.receipts == t.receipts[c.handle := r.(visibilityDeadline := now + c.timeout * 1000)]
           && t'.messages == t.messages[r.messageRowId := t.messages[r.messageRowId].(visibilityDeadline := Some(now + c.timeout * 1000))]
           && t'.attempts.Keys == t.attempts.Keys
           && (forall k :: k in t.attempts ==>
                 t'.attempts[k] == if k.queueId == queueId && t.attempts[k].invalidatedAt.None?
                                   then t.attempts[k].(invalidatedAt := Some(now)) else t.attempts[k])
           && t' == t.(receipts := t'.receipts, messages := t'.messages, attempts := t'.attempts)
  {
  }

  /** Why it is refused: of a wrong value and a lease that has run out, the one that is checked first. */
  lemma ChangeRefused(t: Tables, queueId: int, c: Change, now: int)
    ensures var result := OneChangeResult(t, queueId, c, now);
      && (result == Err(ReceiptHandleIsInvalid) <==>
            0 <= c.timeout <= 43200 && !(c.handle in t.receipts && t.receipts[c.handle].queueId == queueId))
      && (result == Err(InvalidParameterValue) <==>
            !(0 <= c.timeout <= 43200)
            || (c.handle in t.receipts && t.receipts[c.handle].queueId == queueId
                && t.receipts[c.handle].active && t.receipts[c.handle].visibilityDeadline > now
                && now + c.timeout * 1000 > t.receipts[c.handle].issuedAt + 43200 * 1000))
      && (result.Err? ==> result.error in {ReceiptHandleIsInvalid, InvalidParameterValue, MessageNotInflight})
  {
  }
}
