/** The rows the store keeps. Instants are milliseconds; see `Seconds` for columns kept in seconds. */
module Records {

  datatype Option<+T> = None | Some(value: T)

  datatype Result<+T> = Ok(value: T) | Err(error: ApiError)

  datatype ApiError =
    | QueueDoesNotExist
    | QueueDeletedRecently
    | QueueNameExists
    | ReceiptHandleIsInvalid
    | MessageNotInflight
    | PurgeQueueInProgress
    | ResourceNotFound
    | MissingParameter
    | InvalidParameterValue
    | InvalidMessageContents
    | EmptyBatchRequest
    | TooManyEntriesInBatchRequest
    | InvalidBatchEntryId
    | BatchEntryIdsNotDistinct
    | BatchRequestTooLong

  /** Queue and task instants are stored in whole seconds. */
  function Seconds(at: int): (r: int)
    ensures r <= at < r + 1000
  {
    at / 1000 * 1000
  }

  /** A receipt handle. The service only ever compares them. */
  newtype Handle = int

  datatype Queue = Queue(
    id: int,
    name: string,
    url: string,
    arn: string,
    fifo: bool,
    attributes: map<string, string>,
    availableAt: int,
    lastModifiedAt: int,
    deletedAt: Option<int>,
    reuseBlockedTill: Option<int>,
    purgeRequestedAt: Option<int>,
    purgeExpiresAt: Option<int>
  )

  datatype Patch = Patch(
    id: int,
    queueId: int,
    attributes: map<string, string>,
    effectiveAt: int
  )

  datatype TaskStatus = Running | Cancelling | Completed | Cancelled | Failed

  datatype MoveTask = MoveTask(
    id: int,
    handle: string,
    sourceQueueId: int,
    destinationQueueId: Option<int>,
    status: TaskStatus,
    maxMessagesPerSecond: Option<int>,
    moved: int,
    toMove: Option<int>,
    failureReason: string,
    startedAt: int,
    updatedAt: int,
    completedAt: Option<int>
  )

  datatype Message = Message(
    rowId: int,
    queueId: int,
    messageId: string,
    body: string,
    sentAt: int,
    originalSentAt: int,
    firstReceivedAt: Option<int>,
    receiveCount: int,
    availableAt: int,
    visibilityDeadline: Option<int>,
    retentionDeadline: int,
    deletedAt: Option<int>,
    groupId: string,
    dedupId: string,
    deadLetterSourceArn: string
  )

  /**
   * A receipt. `call` numbers the receive call that issued it and `replayed` says whether a replayed
   * receive attempt has refreshed it; both are bookkeeping of this model, no handler reads them.
   */
  datatype Receipt = Receipt(
    queueId: int,
    messageRowId: int,
    handle: Handle,
    issuedAt: int,
    visibilityDeadline: int,
    active: bool,
    receiveAttemptId: string,
    call: nat,
    replayed: bool
  )

  datatype SendResponse = SendResponse(
    messageId: string,
    md5OfMessageBody: string,
    md5OfMessageAttributes: string,
    md5OfSystemAttributes: string,
    sequenceNumber: string
  )

  datatype LedgerKey = LedgerKey(queueId: int, scopeKey: string, dedupId: string)

  datatype DedupEntry = DedupEntry(response: SendResponse, expiresAt: int)

  /** One message of a receive response. */
  datatype Delivery = Delivery(messageId: string, body: string, receiptHandle: Handle, receiveCount: int)

  datatype AttemptKey = AttemptKey(queueId: int, attemptId: string)

  datatype ReceiveAttempt = ReceiveAttempt(response: seq<Delivery>, expiresAt: int, invalidatedAt: Option<int>)
}
