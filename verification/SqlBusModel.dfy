/**
 The tables of the distributed bus and the meaning of each SQL statement that
 sqlbus/store_sql.go issues against them. One statement is one atomic step, so
 each is a function from the tables before it to the tables after it.

 Times are integers. A NULL column is None, and a comparison against NULL is
 never true, as in SQL.
 */
module SqlBusModel {
  import opened Wrappers

  type Time = int
  type MessageId = int
  type Token = nat

  datatype Ordering = Unordered | Fifo

  datatype Mode = Competing | Broadcast

  datatype Status = Pending | Processing | Completed | Failed | Exhausted

  datatype Message = Message(eventType: string, payload: string, date: Time)

  /** One consumer of a listener: the instance is empty for a competing listener. */
  datatype ConsumerId = ConsumerId(listener: string, instance: string)

  datatype ConsumerKey = ConsumerKey(id: ConsumerId, eventType: string)

  datatype Consumer = Consumer(mode: Mode, boundary: Time, frontier: Time, heartbeat: Time)

  datatype DeliveryKey = DeliveryKey(message: MessageId, consumer: ConsumerId)

  datatype Delivery = Delivery(
    status: Status,
    attempts: nat,
    claimToken: Option<Token>,
    claimDate: Option<Time>,
    nextAttemptDate: Option<Time>,
    completionDate: Option<Time>,
    lastError: string)

  datatype Database = Database(
    messages: map<MessageId, Message>,
    consumers: map<ConsumerKey, Consumer>,
    deliveries: map<DeliveryKey, Delivery>)

  const PENDING_DELIVERY := Delivery(Pending, 0, None, None, None, None, "")

  // ---------------------------------------------------------------- conditions

  /** The deliveries that are ready to claim. */
  predicate Due(d: Delivery, now: Time, leaseCutoff: Time) {
    || d.status == Pending
    || (d.status == Failed && d.nextAttemptDate.Some? && d.nextAttemptDate.value <= now)
    || (d.status == Processing && d.claimDate.Some? && d.claimDate.value < leaseCutoff)
  }

  /** The statuses that hold a FIFO queue back. */
  predicate Incomplete(status: Status) {
    status == Pending || status == Processing || status == Failed
  }

  /** The total order (publication date, message identifier). */
  predicate Before(date: Time, id: MessageId, otherDate: Time, otherId: MessageId) {
    date < otherDate || (date == otherDate && id < otherId)
  }

  predicate EarlierIncompleteExists(db: Database, consumer: ConsumerId, date: Time, id: MessageId) {
    exists k | k in db.deliveries ::
      && k.consumer == consumer
      && Incomplete(db.deliveries[k].status)
      && k.message in db.messages
      && Before(db.messages[k.message].date, k.message, date, id)
  }

  predicate LiveClaim(d: Delivery, leaseCutoff: Time) {
    d.status == Processing && d.claimDate.Some? && d.claimDate.value >= leaseCutoff
  }

  predicate ConcurrentProcessingExists(
    db: Database, consumer: ConsumerId, other: MessageId, leaseCutoff: Time)
  {
    exists k | k in db.deliveries ::
      && k.consumer == consumer
      && k.message != other
      && LiveClaim(db.deliveries[k], leaseCutoff)
  }

  predicate Claimable(db: Database, key: DeliveryKey, attempts: nat, now: Time, leaseCutoff: Time) {
    && key in db.deliveries
    && db.deliveries[key].attempts == attempts
    && Due(db.deliveries[key], now, leaseCutoff)
  }

  predicate ClaimableInOrder(
    db: Database, key: DeliveryKey, attempts: nat, now: Time, leaseCutoff: Time, date: Time)
  {
    && Claimable(db, key, attempts, now, leaseCutoff)
    && !EarlierIncompleteExists(db, key.consumer, date, key.message)
    && !ConcurrentProcessingExists(db, key.consumer, key.message, leaseCutoff)
  }

  /** The claim-token fence of the settlement statements. */
  predicate HoldsClaim(db: Database, key: DeliveryKey, token: Token) {
    && key in db.deliveries
    && db.deliveries[key].status == Processing
    && db.deliveries[key].claimToken == Some(token)
  }

  predicate Resubmittable(db: Database, key: DeliveryKey) {
    key in db.deliveries && db.deliveries[key].status in {Failed, Exhausted}
  }

  /** A consumer that covers the message and has no completed delivery of it. */
  predicate PinnedBy(db: Database, key: ConsumerKey, id: MessageId)
    requires key in db.consumers && id in db.messages
  {
    && key.eventType == db.messages[id].eventType
    && db.consumers[key].boundary <= db.messages[id].date
    && !(DeliveryKey(id, key.id) in db.deliveries
         && db.deliveries[DeliveryKey(id, key.id)].status == Completed)
  }

  predicate Settled(db: Database, id: MessageId, olderThan: Time)
    requires id in db.messages
  {
    && db.messages[id].date < olderThan
    && !exists key | key in db.consumers :: PinnedBy(db, key, id)
  }

  /** The messages the materialization scan of the consumer reaches. */
  predicate Scanned(db: Database, key: ConsumerKey, id: MessageId) {
    && key in db.consumers
    && id in db.messages
    && db.messages[id].eventType == key.eventType
    && db.consumers[key].frontier <= db.messages[id].date
  }

  /** The rows FindDueDeliveries may return. */
  predicate Findable(
    db: Database, key: ConsumerKey, ordering: Ordering, id: MessageId, now: Time, leaseCutoff: Time)
  {
    var k := DeliveryKey(id, key.id);
    && k in db.deliveries
    && id in db.messages
    && Due(db.deliveries[k], now, leaseCutoff)
    && (ordering == Fifo ==>
          && key in db.consumers
          && db.messages[id].date < db.consumers[key].frontier
          && !EarlierIncompleteExists(db, key.id, db.messages[id].date, id))
  }

  /**
   What FindDueDeliveries returns: findable rows in the total order, up to the
   limit, and none left out that comes before one of them.
   */
  ghost predicate IsDueListing(
    db: Database, key: ConsumerKey, ordering: Ordering, now: Time, leaseCutoff: Time, limit: nat, ids: seq<MessageId>)
  {
    && |ids| <= limit
    && (forall i | 0 <= i < |ids| :: Findable(db, key, ordering, ids[i], now, leaseCutoff))
    && InTotalOrder(db, ids)
    && (forall id | Findable(db, key, ordering, id, now, leaseCutoff) && id !in ids ::
          && |ids| == limit
          && forall i | 0 <= i < |ids| && ids[i] in db.messages ::
               Before(db.messages[ids[i]].date, ids[i], db.messages[id].date, id))
  }

  ghost predicate InTotalOrder(db: Database, ids: seq<MessageId>) {
    && (forall i | 0 <= i < |ids| :: ids[i] in db.messages)
    && (forall i, j | 0 <= i < j < |ids| ::
          Before(db.messages[ids[i]].date, ids[i], db.messages[ids[j]].date, ids[j]))
  }

  predicate Registered(db: Database, consumer: ConsumerId) {
    exists key | key in db.consumers :: key.id == consumer
  }

  // ---------------------------------------------------------------- statements

  function KeySet(keys: seq<DeliveryKey>): set<DeliveryKey> {
    set k | k in keys
  }

  function PendingRows(keys: set<DeliveryKey>): map<DeliveryKey, Delivery> {
    map k | k in keys :: PENDING_DELIVERY
  }

  /** The commit of publications: their messages and their pre-created rows together. */
  function InsertPublications(
    db: Database, messages: map<MessageId, Message>, keys: set<DeliveryKey>): Database
  {
    db.(messages := db.messages + messages, deliveries := PendingRows(keys) + db.deliveries)
  }

  /** First registration wins; registering again only refreshes the heartbeat. */
  function RegisterConsumer(db: Database, key: ConsumerKey, consumer: Consumer): Database {
    var row := if key in db.consumers
               then db.consumers[key].(heartbeat := consumer.heartbeat) else consumer;
    db.(consumers := db.consumers[key := row])
  }

  function Heartbeat(db: Database, key: ConsumerKey, at: Time): Database {
    if key in db.consumers
    then db.(consumers := db.consumers[key := db.consumers[key].(heartbeat := at)])
    else db
  }

  function RemoveListener(db: Database, listener: string): Database {
    db.(consumers := map key | key in db.consumers && key.id.listener != listener :: db.consumers[key])
  }

  function ExpireBroadcastConsumers(db: Database, cutoff: Time): Database {
    db.(consumers := map key | key in db.consumers
                     && !(db.consumers[key].mode == Broadcast && db.consumers[key].heartbeat < cutoff)
                     :: db.consumers[key])
  }

  function MaterializeDeliveries(db: Database, key: ConsumerKey): Database {
    db.(deliveries := (map id | id in db.messages && Scanned(db, key, id)
                       :: DeliveryKey(id, key.id) := PENDING_DELIVERY) + db.deliveries)
  }

  function AdvanceFrontier(db: Database, key: ConsumerKey, frontier: Time): Database {
    if key in db.consumers && db.consumers[key].frontier < frontier
    then db.(consumers := db.consumers[key := db.consumers[key].(frontier := frontier)])
    else db
  }

  function SetDelivery(db: Database, key: DeliveryKey, d: Delivery): Database {
    db.(deliveries := db.deliveries[key := d])
  }

  /** The row a successful claim leaves. */
  function ClaimedRow(d: Delivery, token: Token, now: Time): Delivery {
    d.(status := Processing, attempts := d.attempts + 1, claimToken := Some(token), claimDate := Some(now))
  }

  function ClaimDelivery(
    db: Database, key: DeliveryKey, token: Token, now: Time, leaseCutoff: Time, attempts: nat): Database
  {
    if Claimable(db, key, attempts, now, leaseCutoff)
    then SetDelivery(db, key, ClaimedRow(db.deliveries[key], token, now)) else db
  }

  function ClaimDeliveryInOrder(
    db: Database, key: DeliveryKey, token: Token, now: Time, leaseCutoff: Time, attempts: nat, date: Time)
    : Database
  {
    if ClaimableInOrder(db, key, attempts, now, leaseCutoff, date)
    then SetDelivery(db, key, ClaimedRow(db.deliveries[key], token, now)) else db
  }

  function CompleteDelivery(db: Database, key: DeliveryKey, token: Token, at: Time): Database {
    if HoldsClaim(db, key, token)
    then SetDelivery(db, key,
           db.deliveries[key].(status := Completed, completionDate := Some(at), lastError := ""))
    else db
  }

  function FailedStatus(attempts: nat, maximumAttempts: nat): Status {
    if attempts >= maximumAttempts then Exhausted else Failed
  }

  function FailDelivery(
    db: Database, key: DeliveryKey, token: Token, cause: string, next: Time,
    attempts: nat, maximumAttempts: nat): Database
  {
    if HoldsClaim(db, key, token)
    then SetDelivery(db, key,
           db.deliveries[key].(status := FailedStatus(attempts, maximumAttempts),
                               lastError := cause, nextAttemptDate := Some(next)))
    else db
  }

  function ResubmitDelivery(db: Database, key: DeliveryKey): Database {
    if Resubmittable(db, key)
    then SetDelivery(db, key,
           db.deliveries[key].(status := Pending, attempts := 0, nextAttemptDate := None, lastError := ""))
    else db
  }

  function DeleteSettledMessages(db: Database, olderThan: Time): Database {
    db.(messages := map id | id in db.messages && !Settled(db, id, olderThan) :: db.messages[id])
  }

  function DeleteMessagesOlderThan(db: Database, cutoff: Time): Database {
    db.(messages := map id | id in db.messages && db.messages[id].date >= cutoff :: db.messages[id])
  }

  function DeleteDeliveriesWithoutMessage(db: Database): Database {
    db.(deliveries := map k | k in db.deliveries && k.message in db.messages :: db.deliveries[k])
  }

  function DeleteDeliveriesWithoutConsumer(db: Database): Database {
    db.(deliveries := map k | k in db.deliveries && Registered(db, k.consumer) :: db.deliveries[k])
  }
}
