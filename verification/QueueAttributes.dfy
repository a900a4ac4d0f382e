/** Reading a queue's string attributes: a missing or malformed value falls back to a default. */
module QueueAttributes {
  import opened Records
  import opened Numerals
  import opened Tables

  function Attribute(q: Queue, name: string): string {
    if name in q.attributes then q.attributes[name] else ""
  }

  /** The attribute as a number that is at least `least`, else the default. */
  function NumberOr(q: Queue, name: string, least: int, default: int): (n: int)
    ensures least <= default ==> least <= n
  {
    match ParseInt(Attribute(q, name))
    case Some(v) => if v < least then default else v
    case None => default
  }

  function VisibilityTimeout(q: Queue): int { NumberOr(q, "VisibilityTimeout", 0, 30) }

  function MaximumMessageSize(q: Queue): int { NumberOr(q, "MaximumMessageSize", 1, 1024 * 1024) }

  function RetentionSeconds(q: Queue): int { NumberOr(q, "MessageRetentionPeriod", 1, 345600) }

  function DelaySeconds(q: Queue): int { NumberOr(q, "DelaySeconds", 0, 0) }

  function WaitTime(q: Queue): int { NumberOr(q, "ReceiveMessageWaitTimeSeconds", 0, 0) }

  function DedupScopeKey(q: Queue, groupId: string): string {
    if Attribute(q, "DeduplicationScope") == "messageGroup" then groupId else q.name
  }

  function PolicyOf(cfg: Config, q: Queue): Option<RedrivePolicy> {
    match cfg.readRedrivePolicy(Attribute(q, "RedrivePolicy"))
    case Some(p) => if p.targetArn == "" || p.maxReceiveCount <= 0 then None else Some(p)
    case None => None
  }

  predicate ShouldRedrive(cfg: Config, q: Queue, m: Message) {
    PolicyOf(cfg, q).Some? && m.receiveCount >= PolicyOf(cfg, q).value.maxReceiveCount
  }
}
