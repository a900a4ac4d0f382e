/** What the requests on queues do, in columns: creation, tombstones, purge windows, scheduled patches. */
module QueueLaws {
  import opened Records
  import opened Sequences
  import opened Tables
  import opened QueueAttributes
  import opened Plane
  import opened Integrity
  import opened Maintenance
  import opened QueueHandlers

  // ---- creation ---------------------------------------------------------------------------------

  /** The same attributes, but for those that the service keeps itself. */
  ghost predicate SameSettings(a: map<string, string>, b: map<string, string>) {
    forall k :: k != "CreatedTimestamp" && k != "LastModifiedTimestamp" && k != "QueueArn" ==>
      (k in a <==> k in b) && (k in a ==> a[k] == b[k])
  }

  lemma EquivalentSame(q: Queue, attributes: map<string, string>)
    requires forall k :: k in attributes && attributes[k] == "" ==> k in q.attributes
    ensures Equivalent(q, attributes) <==> SameSettings(q.attributes, attributes)
  {
    var current, expected := q.attributes - BOOKKEEPING, attributes - BOOKKEEPING;
    CountedSame(current, expected);
    SettingsSame(q.attributes, attributes);
  }

  lemma SettingsSame(a: map<string, string>, b: map<string, string>)
    ensures a - BOOKKEEPING == b - BOOKKEEPING <==> SameSettings(a, b)
  {
    var current, expected := a - BOOKKEEPING, b - BOOKKEEPING;
    if current == expected {
      forall k | k != "CreatedTimestamp" && k != "LastModifiedTimestamp" && k != "QueueArn"
        ensures (k in a <==> k in b) && (k in a ==> a[k] == b[k])
      {
        assert (k in current <==> k in a) && (k in expected <==> k in b);
      }
    }
    if SameSettings(a, b) {
      assert forall k :: k in current <==> k in expected;
    }
  }

  /** As many attributes, and each expected one there, are the same attributes. */
  lemma CountedSame(current: map<string, string>, expected: map<string, string>)
    requires forall k :: k in expected && expected[k] == "" ==> k in current
    ensures (|current| == |expected| && forall k :: k in expected ==> (if k in current then current[k] else "") == expected[k])
            <==> current == expected
  {
    if |current| == |expected| && forall k :: k in expected ==> (if k in current then current[k] else "") == expected[k] {
      SameKeys(current.Keys, expected.Keys);
    }
  }

  lemma SameKeys(current: set<string>, expected: set<string>)
    requires expected <= current && |current| == |expected|
    ensures current == expected
  {
    assert current == expected + (current - expected) && expected !! (current - expected);
    assert |current - expected| == 0;
  }

  /** The queue of this name, if there is one. */
  lemma NamedQueue(cfg: Config, t: Tables, id: int)
    requires QueuesKeyed(cfg, t) && id in t.queues
    ensures QueueByName(t, t.queues[id].name) == Some(t.queues[id])
  {
  }

  /**
   * A name that no queue has, or only a tombstone that no longer blocks it, gets a new queue, empty and live, under the next id;
   * the tombstone and all that belonged to it go. The URL and the ARN are made from the name.
   */
  lemma CreationAdds(cfg: Config, t: Tables, name: string, attributes: map<string, string>, stamps: map<string, string>, now: int)
    requires QueuesKeyed(cfg, t)
    requires forall id :: id in t.queues && t.queues[id].name == name ==>
      t.queues[id].deletedAt.Some? && (t.queues[id].reuseBlockedTill.Some? ==> t.queues[id].reuseBlockedTill.value <= now)
    ensures CreateResult(cfg, t, name, attributes, now) == Ok(cfg.publicBaseUrl + "/" + cfg.accountId + "/" + name)
    ensures var t' := CreateQueue(cfg, t, name, attributes, stamps, now);
      && t.nextQueueId in t'.queues && t'.nextQueueId == t.nextQueueId + 1
      && t'.queues[t.nextQueueId] == Queue(
           t.nextQueueId, name, cfg.publicBaseUrl + "/" + cfg.accountId + "/" + name,
           "arn:aws:sqs:" + cfg.region + ":" + cfg.accountId + ":" + name,
           "FifoQueue" in attributes && attributes["FifoQueue"] == "true", attributes + stamps,
           (now + cfg.createPropagation) / 1000 * 1000, now / 1000 * 1000, None, None, None, None)
      && (forall id :: id in t'.queues && id != t.nextQueueId <==> id in t.queues && t.queues[id].name != name)
      && (forall id :: id in t'.queues && id != t.nextQueueId ==> t'.queues[id] == t.queues[id])
      && (forall m :: m in t'.messages <==>
            m in t.messages && !(t.messages[m].queueId in t.queues && t.queues[t.messages[m].queueId].name == name))
      && (forall m :: m in t'.messages ==> t'.messages[m] == t.messages[m])
  {
    var existing := QueueByName(t, name);
    if existing.Some? {
      assert forall id :: id in t.queues && t.queues[id].name == name ==> id == existing.value.id;
    }
  }

  /** A name that is taken: by a live queue, whose URL is the answer if its settings are the same, or by a tombstone that blocks it. */
  lemma CreationFinds(cfg: Config, t: Tables, id: int, attributes: map<string, string>, stamps: map<string, string>, now: int)
    requires QueuesKeyed(cfg, t) && id in t.queues
    ensures var q := t.queues[id];
      && (q.deletedAt.Some? && q.reuseBlockedTill.Some? && now < q.reuseBlockedTill.value ==>
            CreateResult(cfg, t, q.name, attributes, now) == Err(QueueDeletedRecently)
            && CreateQueue(cfg, t, q.name, attributes, stamps, now) == t)
      && (q.deletedAt.None? && (forall k :: k in attributes && attributes[k] == "" ==> k in q.attributes) ==>
            CreateResult(cfg, t, q.name, attributes, now)
              == (if SameSettings(q.attributes, attributes) then Ok(q.url) else Err(QueueNameExists))
            && CreateQueue(cfg, t, q.name, attributes, stamps, now) == t)
  {
    var q := t.queues[id];
    NamedQueue(cfg, t, id);
    if forall k :: k in attributes && attributes[k] == "" ==> k in q.attributes { EquivalentSame(q, attributes); }
  }

  /** What goes with the row of a queue: everything that refers to it, and the destinations that tasks have in it. */
  lemma RemovalCascades(t: Tables, queueId: int)
    ensures var t' := RemoveQueue(t, queueId);
      && (forall id :: id in t'.queues <==> id in t.queues && id != queueId) && (forall id :: id in t'.queues ==> t'.queues[id] == t.queues[id])
      && (forall id :: id in t'.pending <==> id in t.pending && t.pending[id].queueId != queueId)
      && (forall id :: id in t'.messages <==> id in t.messages && t.messages[id].queueId != queueId)
      && (forall id :: id in t'.messages ==> t'.messages[id] == t.messages[id])
      && (forall h :: h in t'.receipts <==> h in t.receipts && t.receipts[h].queueId != queueId
                                            && !(t.receipts[h].messageRowId in t.messages
                                                 && t.messages[t.receipts[h].messageRowId].queueId == queueId))
      && (forall h :: h in t'.receipts ==> t'.receipts[h] == t.receipts[h])
      && (forall k :: k in t'.ledger <==> k in t.ledger && k.queueId != queueId)
      && (forall k :: k in t'.attempts <==> k in t.attempts && k.queueId != queueId)
      && (forall id :: id in t'.tasks <==> id in t.tasks && t.tasks[id].sourceQueueId != queueId)
      && (forall id :: id in t'.tasks ==>
            t'.tasks[id] == if t.tasks[id].destinationQueueId == Some(queueId) then t.tasks[id].(destinationQueueId := None) else t.tasks[id])
  {
  }

  // ---- the row of one queue -----------------------------------------------------------------------

  /**
   * A deletion leaves the row as a tombstone that blocks its name for the cooldown, and all other rows and tables alone. The
   * queue is then found by no request.
   */
  lemma DeletionBuries(cfg: Config, t: Tables, q: Queue, stamp: map<string, string>, now: int)
    requires q.id in t.queues
    ensures var t' := DeleteQueue(cfg, t, q, stamp, now);
      && t' == t.(queues := t.queues[q.id := q.(
           attributes := q.attributes + stamp, lastModifiedAt := now / 1000 * 1000,
           deletedAt := Some(now / 1000 * 1000), reuseBlockedTill := Some((now + cfg.deleteCooldown) / 1000 * 1000))])
      && !IsLive(QueueById(t', q.id))
  {
  }

  /** A purge is refused while a window is open, and else opens one, from now to the end of the cooldown; it takes no message yet. */
  lemma PurgeOpens(cfg: Config, t: Tables, q: Queue, stamp: map<string, string>, now: int)
    requires q.id in t.queues
    ensures var t' := PurgeQueue(cfg, t, q, stamp, now);
      && (PurgeRunning(q, now) <==> q.purgeExpiresAt.Some? && now < q.purgeExpiresAt.value)
      && t' == if q.purgeExpiresAt.Some? && now < q.purgeExpiresAt.value then t else
           t.(queues := t.queues[q.id := q.(
             attributes := q.attributes + stamp, lastModifiedAt := now / 1000 * 1000,
             purgeRequestedAt := Some(now / 1000 * 1000), purgeExpiresAt := Some((now + cfg.purgeCooldown) / 1000 * 1000))])
  {
  }

  /**
   * A change of attributes is pending until its propagation delay is over, which is shorter if it is of the retention period
   * alone; until then the attributes are as they were.
   */
  lemma PatchWaits(cfg: Config, t: Tables, q: Queue, patch: map<string, string>, stamp: map<string, string>, now: int)
    requires q.id in t.queues
    ensures patch == map[] ==> SetAttributes(cfg, t, q, patch, stamp, now) == t
    ensures patch != map[] ==>
      var t' := SetAttributes(cfg, t, q, patch, stamp, now);
      var delay := if patch.Keys == {"MessageRetentionPeriod"} && patch["MessageRetentionPeriod"] != ""
                   then cfg.retentionPropagation else cfg.attributePropagation;
      && t'.pending == t.pending[t.nextPatchId := Patch(t.nextPatchId, q.id, patch, (now + delay) / 1000 * 1000)]
      && t'.queues == t.queues[q.id := q.(attributes := q.attributes + stamp, lastModifiedAt := now / 1000 * 1000)]
      && t' == t.(queues := t'.queues, pending := t'.pending, nextPatchId := t.nextPatchId + 1)
  {
    if |patch| == 1 && "MessageRetentionPeriod" in patch {
      OnlyKey(patch.Keys, "MessageRetentionPeriod");
    }
  }

  lemma OnlyKey(keys: set<string>, k: string)
    requires |keys| == 1 && k in keys
    ensures keys == {k}
  {
    assert |keys - {k}| == 0;
    assert keys == {k} + (keys - {k});
  }
}
