/** The entities of internal/domain/notification.go and internal/queue/message.go.
    Channel, Priority and Status are the enumerations the database CHECK constraints allow. */
module Domain {

  datatype Option<+T> = None | Some(value: T)

  type Id = nat     // a UUID, ordered as its text is
  type Time = nat   // nanoseconds since the Unix epoch

  datatype Channel = SMS | Email | Push
  datatype Priority = High | Normal | Low
  datatype Status = Pending | Scheduled | Queued | Processing | Sent | Failed | Cancelled

  /** Priority.Score: the lower, the sooner. */
  function Level(p: Priority): nat {
    match p
    case High => 0
    case Normal => 1
    case Low => 2
  }

  datatype Message = Message(id: Id, channel: Channel, priority: Priority, scheduledAt: Option<Time>)

  /** The columns of the notifications table that decide what the pipeline does. */
  datatype Row = Row(channel: Channel, priority: Priority, status: Status, scheduledAt: Option<Time>,
                     attempts: nat, maxAttempts: nat, lastError: Option<string>, providerMsgId: Option<string>)

  datatype DeadLetter = DeadLetter(id: Id, lastError: string, attempts: nat)

  /** What one call of the provider returns. */
  datatype Outcome = Delivered(msgId: string) | Errored(err: string)

  /** The WHERE guard of the two claim statements. */
  predicate Claimable(st: Status) {
    st == Pending || st == Queued
  }

  /** The statuses the Cancel handler accepts. */
  predicate Cancellable(st: Status) {
    st == Pending || st == Scheduled || st == Queued
  }

  /** MaxAttempts as buildNotification sets it. */
  const MAX_ATTEMPTS: nat := 5
}
