/**
 One node of sqlbus/bridge.go and sqlbus/dispatcher.go working on the shared
 tables. Beside its tables a node keeps, as ghosts, the run of SqlBusProtocol that
 brought the cluster there: whatever its loops do is a continuation of that run,
 under the same premises, so every theorem about runs holds of this code.
 */
module SqlBusDispatcher {
  import opened Wrappers
  import opened SqlBusModel
  import opened SqlBusProtocol
  import opened SqlBusFrontier
  import opened SqlBusStore

  /** What the handler of one attempt does; Interrupted is a failure while the node shuts down. */
  datatype Handling = Delivered | Refused(cause: string) | Interrupted

  const MAXIMUM_BATCHES_PER_PASS: nat := 16

  function Claimed(cfg: Config, db: Database, work: Work, token: Token, now: Time): Database
    requires work.key.consumer.listener in cfg.listeners
  {
    if cfg.listeners[work.key.consumer.listener].ordering == Fifo
    then ClaimDeliveryInOrder(db, work.key, token, now, now - cfg.lease, work.attempts, work.date)
    else ClaimDelivery(db, work.key, token, now, now - cfg.lease, work.attempts)
  }

  function AfterHandling(
    cfg: Config, db: Database, work: Work, token: Token, now: Time, handling: Handling, retryDelay: nat): Database
    requires work.key.consumer.listener in cfg.listeners
  {
    match handling
    case Delivered => CompleteDelivery(db, work.key, token, now)
    case Refused(cause) =>
      FailDelivery(db, work.key, token, cause, now + retryDelay, work.attempts + 1,
                   cfg.listeners[work.key.consumer.listener].maximumAttempts)
    case Interrupted => db
  }

  /** The tables after one dispatch: claim, then settle what the handler did. */
  function Dispatched(
    cfg: Config, db: Database, work: Work, token: Token, now: Time, handling: Handling, retryDelay: nat): Database
    requires work.key.consumer.listener in cfg.listeners
  {
    if CanClaim(cfg, db, work, now)
    then AfterHandling(cfg, Claimed(cfg, db, work, token, now), work, token, now, handling, retryDelay) else db
  }

  predicate CanClaim(cfg: Config, db: Database, work: Work, now: Time)
    requires work.key.consumer.listener in cfg.listeners
  {
    if cfg.listeners[work.key.consumer.listener].ordering == Fifo
    then ClaimableInOrder(db, work.key, work.attempts, now, now - cfg.lease, work.date)
    else Claimable(db, work.key, work.attempts, now, now - cfg.lease)
  }

  predicate DueAt(cfg: Config, db: Database, key: ConsumerKey, id: MessageId, now: Time) {
    Findable(db, key, OrderingOf(cfg, key.id.listener), id, now, now - cfg.lease)
  }

  predicate HasRow(db: Database, key: ConsumerKey, id: MessageId) {
    DeliveryKey(id, key.id) in db.deliveries && id in db.messages
  }

  ghost predicate AllDue(cfg: Config, db: Database, key: ConsumerKey, ids: seq<MessageId>, now: Time) {
    forall i | 0 <= i < |ids| :: HasRow(db, key, ids[i]) && DueAt(cfg, db, key, ids[i], now)
  }

  /** What the query reads of a row. */
  function WorkAt(db: Database, key: ConsumerKey, id: MessageId): Work
    requires HasRow(db, key, id)
  {
    Work(DeliveryKey(id, key.id), db.deliveries[DeliveryKey(id, key.id)].attempts, db.messages[id].date)
  }

  predicate IsCompleted(db: Database, key: DeliveryKey) {
    key in db.deliveries && db.deliveries[key].status == Completed
  }

  /** Only the rows of these messages for this consumer may differ. */
  ghost predicate SameBut(before: Database, after: Database, consumer: ConsumerId, ids: seq<MessageId>) {
    && after.messages == before.messages && after.consumers == before.consumers
    && after.deliveries.Keys == before.deliveries.Keys
    && forall k | k in before.deliveries && !(k.consumer == consumer && k.message in ids) ::
         after.deliveries[k] == before.deliveries[k]
  }

  lemma DispatchedOne(
    cfg: Config, db: Database, work: Work, token: Token, now: Time, handling: Handling, retryDelay: nat)
    requires work.key.consumer.listener in cfg.listeners && work.key in db.deliveries
    ensures SameBut(db, Dispatched(cfg, db, work, token, now, handling, retryDelay),
                    work.key.consumer, [work.key.message])
    ensures CanClaim(cfg, db, work, now) && handling == Delivered ==>
              IsCompleted(Dispatched(cfg, db, work, token, now, handling, retryDelay), work.key)
  {
  }

  lemma DispatchedElsewhere(
    cfg: Config, db: Database, work: Work, token: Token, now: Time, handling: Handling, retryDelay: nat)
    requires work.key.consumer.listener in cfg.listeners
    ensures var after := Dispatched(cfg, db, work, token, now, handling, retryDelay);
            && after.deliveries.Keys == db.deliveries.Keys
            && forall k | k in db.deliveries && k != work.key :: after.deliveries[k] == db.deliveries[k]
  {
    ClaimedElsewhere(cfg, db, work, token, now);
    SettledElsewhere(cfg, Claimed(cfg, db, work, token, now), work, token, now, handling, retryDelay);
    hide Claimed, AfterHandling, CanClaim;
  }

  lemma ClaimedElsewhere(cfg: Config, db: Database, work: Work, token: Token, now: Time)
    requires work.key.consumer.listener in cfg.listeners
    ensures var after := Claimed(cfg, db, work, token, now);
            && after.deliveries.Keys == db.deliveries.Keys
            && forall k | k in db.deliveries && k != work.key :: after.deliveries[k] == db.deliveries[k]
  {
  }

  lemma SettledElsewhere(
    cfg: Config, db: Database, work: Work, token: Token, now: Time, handling: Handling, retryDelay: nat)
    requires work.key.consumer.listener in cfg.listeners
    ensures var after := AfterHandling(cfg, db, work, token, now, handling, retryDelay);
            && after.deliveries.Keys == db.deliveries.Keys
            && forall k | k in db.deliveries && k != work.key :: after.deliveries[k] == db.deliveries[k]
  {
  }

  /** The row counts the attempt under the token of the claim, won at this time. */
  predicate Attempted(row: Delivery, work: Work, token: Token, now: Time) {
    row.attempts == work.attempts + 1 && row.claimToken == Some(token) && row.claimDate == Some(now)
  }

  /**
   The row after an attempt that did not succeed: left processing by a node that
   shuts down; otherwise a dead letter when the budget is spent, and else failed,
   to be claimed again exactly from the end of its backoff on.
   */
  ghost predicate Unsuccessful(
    cfg: Config, row: Delivery, work: Work, now: Time, handling: Handling, retryDelay: nat)
    requires work.key.consumer.listener in cfg.listeners
  {
    match handling
    case Delivered => false
    case Interrupted => row.status == Processing
    case Refused(cause) =>
      && row.lastError == cause
      && (work.attempts + 1 >= cfg.listeners[work.key.consumer.listener].maximumAttempts ==> row.status == Exhausted)
      && (work.attempts + 1 < cfg.listeners[work.key.consumer.listener].maximumAttempts ==>
            && row.status == Failed
            && forall t, leaseCutoff :: Ready(row, t, leaseCutoff) <==> t >= now + retryDelay)
  }

  /** The row after an attempt that was made at this time. */
  ghost predicate Handled(cfg: Config, row: Delivery, work: Work, now: Time, handling: Handling, retryDelay: nat)
    requires work.key.consumer.listener in cfg.listeners
  {
    && row.attempts == work.attempts + 1 && row.claimDate == Some(now)
    && (handling == Delivered ==> row.status == Completed && row.completionDate == Some(now))
    && (handling != Delivered ==> Unsuccessful(cfg, row, work, now, handling, retryDelay))
  }

  /** The first n of the found rows have been attempted, and show what their handler made of it. */
  ghost predicate AllHandled(
    cfg: Config, before: Database, rows: map<DeliveryKey, Delivery>, key: ConsumerKey, ids: seq<MessageId>, n: nat,
    now: Time, handler: (DeliveryKey, nat) -> Handling, retryDelay: nat -> nat)
    requires n <= |ids| && Typed(cfg, key) && AllDue(cfg, before, key, ids, now)
  {
    forall i | 0 <= i < n ::
      var work := WorkAt(before, key, ids[i]);
      && work.key in rows
      && Handled(cfg, rows[work.key], work, now, handler(work.key, work.attempts + 1), retryDelay(work.attempts + 1))
  }

  lemma NoneHandled(
    cfg: Config, before: Database, rows: map<DeliveryKey, Delivery>, key: ConsumerKey, ids: seq<MessageId>,
    now: Time, handler: (DeliveryKey, nat) -> Handling, retryDelay: nat -> nat)
    requires Typed(cfg, key) && AllDue(cfg, before, key, ids, now)
    ensures AllHandled(cfg, before, rows, key, ids, 0, now, handler, retryDelay)
  {
  }

  /** Handling one more row leaves the others as they are. */
  lemma OneMoreHandled(
    cfg: Config, before: Database, rows: map<DeliveryKey, Delivery>, after: map<DeliveryKey, Delivery>,
    key: ConsumerKey, ids: seq<MessageId>, i: nat,
    now: Time, handler: (DeliveryKey, nat) -> Handling, retryDelay: nat -> nat)
    requires i < |ids| && Typed(cfg, key) && AllDue(cfg, before, key, ids, now) && InTotalOrder(before, ids)
    requires after.Keys == rows.Keys && forall k | k in after && k.message != ids[i] :: after[k] == rows[k]
    requires AllHandled(cfg, before, rows, key, ids, i, now, handler, retryDelay)
    requires var work := WorkAt(before, key, ids[i]);
             && work.key in after
             && Handled(cfg, after[work.key], work, now, handler(work.key, work.attempts + 1),
                        retryDelay(work.attempts + 1))
    ensures AllHandled(cfg, before, after, key, ids, i + 1, now, handler, retryDelay)
  {
    hide Handled;
    forall k | 0 <= k < i ensures ids[k] != ids[i] {
    }
  }

  lemma NextHandled(
    cfg: Config, before: Database, current: Database, key: ConsumerKey, ids: seq<MessageId>, i: nat, token: Token,
    now: Time, handler: (DeliveryKey, nat) -> Handling, retryDelay: nat -> nat)
    requires i < |ids| && Typed(cfg, key) && AllDue(cfg, before, key, ids, now) && InTotalOrder(before, ids)
    requires SameBut(before, current, key.id, ids[..i])
    ensures var work := WorkAt(before, key, ids[i]);
            var after := Dispatched(cfg, current, work, token, now, handler(work.key, work.attempts + 1),
                                    retryDelay(work.attempts + 1));
            Idle(cfg, before, key, now)
            && AllHandled(cfg, before, current.deliveries, key, ids, i, now, handler, retryDelay) ==>
              AllHandled(cfg, before, after.deliveries, key, ids, i + 1, now, handler, retryDelay)
  {
    var work := WorkAt(before, key, ids[i]);
    var handling, delay := handler(work.key, work.attempts + 1), retryDelay(work.attempts + 1);
    var after := Dispatched(cfg, current, work, token, now, handling, delay);
    if Idle(cfg, before, key, now)
       && AllHandled(cfg, before, current.deliveries, key, ids, i, now, handler, retryDelay)
    {
      FoundCanBeClaimed(cfg, before, current, key, ids, i, now);
      DispatchedColumns(cfg, current, work, token, now, handling, delay);
      DispatchedElsewhere(cfg, current, work, token, now, handling, delay);
      hide Dispatched, Handled, AllHandled, AllDue, SameBut, Idle, InTotalOrder, CanClaim;
      OneMoreHandled(cfg, before, current.deliveries, after.deliveries, key, ids, i, now, handler, retryDelay);
    }
  }

  /** What one dispatch leaves: an attempt on the row if the claim won, and nothing else. */
  ghost predicate Outcome(
    cfg: Config, before: Database, after: Database, work: Work, token: Token, now: Time, handling: Handling,
    retryDelay: nat)
    requires work.key.consumer.listener in cfg.listeners
  {
    && after.messages == before.messages && after.consumers == before.consumers
    && after.deliveries.Keys == before.deliveries.Keys
    && (forall k | k in before.deliveries && k != work.key :: after.deliveries[k] == before.deliveries[k])
    && (!CanClaim(cfg, before, work, now) ==> after.deliveries == before.deliveries)
    && (CanClaim(cfg, before, work, now) ==>
          && work.key in after.deliveries
          && after.deliveries[work.key].claimToken == Some(token)
          && Handled(cfg, after.deliveries[work.key], work, now, handling, retryDelay))
  }

  lemma DispatchedOutcome(
    cfg: Config, db: Database, work: Work, token: Token, now: Time, handling: Handling, retryDelay: nat)
    requires work.key.consumer.listener in cfg.listeners
    ensures Outcome(cfg, db, Dispatched(cfg, db, work, token, now, handling, retryDelay), work, token, now, handling,
                    retryDelay)
  {
    DispatchedColumns(cfg, db, work, token, now, handling, retryDelay);
    DispatchedElsewhere(cfg, db, work, token, now, handling, retryDelay);
    OtherTables(cfg, db, work, token, now, handling, retryDelay);
    hide Dispatched, Handled, CanClaim;
  }

  lemma OtherTables(
    cfg: Config, db: Database, work: Work, token: Token, now: Time, handling: Handling, retryDelay: nat)
    requires work.key.consumer.listener in cfg.listeners
    ensures Dispatched(cfg, db, work, token, now, handling, retryDelay).messages == db.messages
    ensures Dispatched(cfg, db, work, token, now, handling, retryDelay).consumers == db.consumers
  {
  }

  /** A FIFO consumer has no row running under a live lease. */
  predicate Idle(cfg: Config, db: Database, key: ConsumerKey, now: Time) {
    OrderingOf(cfg, key.id.listener) == Fifo ==>
      forall k | k in db.deliveries && k.consumer == key.id
                 && db.deliveries[k].status == Processing && db.deliveries[k].claimDate.Some? ::
        db.deliveries[k].claimDate.value < now - cfg.lease
  }

  lemma DispatchedColumns(
    cfg: Config, db: Database, work: Work, token: Token, now: Time, handling: Handling, retryDelay: nat)
    requires work.key.consumer.listener in cfg.listeners
    ensures var after := Dispatched(cfg, db, work, token, now, handling, retryDelay).deliveries;
            if !CanClaim(cfg, db, work, now) then after == db.deliveries
            else
              && work.key in after && Attempted(after[work.key], work, token, now)
              && Handled(cfg, after[work.key], work, now, handling, retryDelay)
  {
    ClaimedColumns(cfg, db, work, token, now);
    SettledColumns(cfg, Claimed(cfg, db, work, token, now), work, token, now, handling, retryDelay);
    hide Claimed, AfterHandling, CanClaim, Handled;
  }

  lemma ClaimedColumns(cfg: Config, db: Database, work: Work, token: Token, now: Time)
    requires work.key.consumer.listener in cfg.listeners
    ensures CanClaim(cfg, db, work, now) ==>
              var rows := Claimed(cfg, db, work, token, now).deliveries;
              && work.key in rows && Attempted(rows[work.key], work, token, now)
              && rows[work.key].status == Processing
  {
  }

  lemma SettledColumns(
    cfg: Config, db: Database, work: Work, token: Token, now: Time, handling: Handling, retryDelay: nat)
    requires work.key.consumer.listener in cfg.listeners
    ensures work.key in db.deliveries && Attempted(db.deliveries[work.key], work, token, now)
            && db.deliveries[work.key].status == Processing ==>
              var rows := AfterHandling(cfg, db, work, token, now, handling, retryDelay).deliveries;
              && work.key in rows && Attempted(rows[work.key], work, token, now)
              && Handled(cfg, rows[work.key], work, now, handling, retryDelay)
  {
  }

  /** A delivery of an unordered listener that no one has attempted yet, or that was resubmitted. */
  predicate IsFresh(cfg: Config, rows: map<DeliveryKey, Delivery>, k: DeliveryKey, now: Time) {
    && k.consumer.listener in cfg.listeners && cfg.listeners[k.consumer.listener].ordering != Fifo
    && k in rows && rows[k].attempts == 0 && Ready(rows[k], now, now - cfg.lease)
  }

  lemma FreshCanBeClaimed(cfg: Config, db: Database, k: DeliveryKey, now: Time)
    requires k.consumer.listener in cfg.listeners && cfg.listeners[k.consumer.listener].ordering != Fifo
    ensures CanClaim(cfg, db, Work(k, 0, 0), now) <==> IsFresh(cfg, db.deliveries, k, now)
  {
  }

  lemma HandledIsNotFresh(
    cfg: Config, before: map<DeliveryKey, Delivery>, after: map<DeliveryKey, Delivery>, k: DeliveryKey, now: Time,
    handling: Handling, retryDelay: nat)
    requires k.consumer.listener in cfg.listeners
    ensures k in after && Handled(cfg, after[k], Work(k, 0, 0), now, handling, retryDelay) ==>
              !IsFresh(cfg, after, k, now)
  {
  }

  /** A row found due can still be claimed when its turn comes. */
  lemma FoundCanBeClaimed(
    cfg: Config, before: Database, current: Database, key: ConsumerKey, ids: seq<MessageId>, i: nat, now: Time)
    requires i < |ids| && InTotalOrder(before, ids) && key.id.listener in cfg.listeners
    requires AllDue(cfg, before, key, ids, now) && SameBut(before, current, key.id, ids[..i])
    ensures Idle(cfg, before, key, now) ==> CanClaim(cfg, current, WorkAt(before, key, ids[i]), now)
  {
    var work := WorkAt(before, key, ids[i]);
    assert ids[i] !in ids[..i];
    assert DueAt(cfg, before, key, ids[i], now);
    if OrderingOf(cfg, key.id.listener) == Fifo {
      if i > 0 {
        assert HasRow(before, key, ids[0]) && DueAt(cfg, before, key, ids[0], now);
        NothingBefore(before, key, ids[i], now, now - cfg.lease, DeliveryKey(ids[0], key.id));
        assert false;
      }
      assert ids[..0] == [];
      assert current == before;
    }
  }

  /** One turn of the loop over the found rows, undisturbed since the query. */
  lemma DispatchStep(
    cfg: Config, before: Database, current: Database, key: ConsumerKey, ids: seq<MessageId>, i: nat,
    token: Token, now: Time, handling: Handling, retryDelay: nat)
    requires i < |ids| && InTotalOrder(before, ids) && key.id.listener in cfg.listeners
    requires AllDue(cfg, before, key, ids, now)
    requires SameBut(before, current, key.id, ids[..i])
    ensures var after := Dispatched(cfg, current, WorkAt(before, key, ids[i]), token, now, handling, retryDelay);
            && SameBut(before, after, key.id, ids[..i + 1])
            && (Idle(cfg, before, key, now) ==> CanClaim(cfg, current, WorkAt(before, key, ids[i]), now))
  {
    var work := WorkAt(before, key, ids[i]);
    forall k | 0 <= k < i ensures ids[k] != ids[i] {
    }
    assert ids[i] !in ids[..i];
    FoundCanBeClaimed(cfg, before, current, key, ids, i, now);
    DispatchedOne(cfg, current, work, token, now, handling, retryDelay);
    assert ids[..i + 1] == ids[..i] + [ids[i]];
    hide Dispatched;
  }

  /** These events keep every premise: they commit, register, remove and revive nothing. */
  lemma WorkKeepsPremises(cfg: Config, premises: set<Premise>, w: World, e: Event)
    requires Enabled(cfg, w, e)
    requires !e.Commit? && !e.Attach? && !e.DeleteForced? && !e.Resubmit? && !e.Detach? && !e.Expire?
    ensures Step(cfg, premises, w, e)
  {
  }

  lemma PresentRegistrationIsClean(cfg: Config, premises: set<Premise>, w: World, e: Event)
    requires Bounds(cfg, w) && Enabled(cfg, w, e) && e.Attach? && e.now == w.clock
    ensures Step(cfg, premises, w, e)
  {
  }

  lemma NewPendingRows(before: map<DeliveryKey, Delivery>, keys: seq<DeliveryKey>)
    ensures var after := PendingRows(KeySet(keys)) + before;
            && (forall k | k in before :: k in after && after[k] == before[k])
            && (forall k | k in after && k !in before :: k in keys && after[k].status == Pending)
            && (forall k | k in keys :: k in after)
  {
  }

  /** Publishing at the present time and committing at once are steps under any premises. */
  lemma PublishedNow(
    cfg: Config, premises: set<Premise>, w: World, id: MessageId, message: Message, consumers: set<ConsumerId>,
    keys: seq<DeliveryKey>)
    requires id !in w.published && message.date == w.clock
    requires forall c | c in consumers :: ConsumerKey(c, message.eventType) in w.attached
    requires forall k :: k in keys <==> k.message == id && k.consumer in consumers
    ensures Step(cfg, premises, w, Event.Publish(id, message, consumers))
    ensures var drafted := Apply(cfg, w, Event.Publish(id, message, consumers));
            && Step(cfg, premises, drafted, Commit({id}))
            && var committed := Apply(cfg, drafted, Commit({id}));
               && committed.db == Database(w.db.messages[id := message], w.db.consumers,
                                           PendingRows(KeySet(keys)) + w.db.deliveries)
               && committed.clock == w.clock && committed.issued == w.issued
  {
    DraftedNow(cfg, premises, w, id, message, consumers);
    var drafted := Apply(cfg, w, Event.Publish(id, message, consumers));
    hide Respects;
    CommittedNow(cfg, premises, drafted, id, message, consumers);
    hide Apply, Enabled, Step;
    forall k ensures k in RowsOf(drafted, {id}) <==> k in KeySet(keys) {
      assert k.message == id && k.consumer in consumers ==> k == DeliveryKey(id, k.consumer);
    }
    assert RowsOf(drafted, {id}) == KeySet(keys);
  }

  lemma DraftedNow(
    cfg: Config, premises: set<Premise>, w: World, id: MessageId, message: Message, consumers: set<ConsumerId>)
    requires id !in w.published && message.date == w.clock
    requires forall c | c in consumers :: ConsumerKey(c, message.eventType) in w.attached
    ensures Step(cfg, premises, w, Event.Publish(id, message, consumers))
    ensures var drafted := Apply(cfg, w, Event.Publish(id, message, consumers));
            && drafted.db == w.db && drafted.clock == w.clock && drafted.issued == w.issued
            && id in drafted.open && drafted.open[id] == consumers
            && id in drafted.published && drafted.published[id] == message
  {
    hide NextPasses, NextFailures;
  }

  lemma CommittedNow(
    cfg: Config, premises: set<Premise>, w: World, id: MessageId, message: Message, consumers: set<ConsumerId>)
    requires id in w.open && w.open[id] == consumers
    requires id in w.published && w.published[id] == message && message.date == w.clock
    ensures Step(cfg, premises, w, Commit({id}))
    ensures var committed := Apply(cfg, w, Commit({id}));
            && committed.db == Database(w.db.messages[id := message], w.db.consumers,
                                        PendingRows(RowsOf(w, {id})) + w.db.deliveries)
            && committed.clock == w.clock && committed.issued == w.issued
  {
    assert MessagesOf(w, {id}) == map[id := message];
    assert w.db.messages + map[id := message] == w.db.messages[id := message];
    hide NextPasses, NextFailures, RowsOf, PendingRows;
  }

  /** Premises that the age cap and the expiry of registrations cannot break. */
  predicate AllowsMaintenance(premises: set<Premise>) {
    forall p | p in premises :: !p.NoUnfinishedDeletion? && !p.Persists?
  }

  lemma MaintenanceKeepsPremises(cfg: Config, premises: set<Premise>, w: World, e: Event)
    requires Enabled(cfg, w, e) && AllowsMaintenance(premises)
    requires e.Expire? || e.DeleteSettled? || e.DeleteForced? || e.SweepWithoutMessage? || e.SweepWithoutConsumer?
    ensures Step(cfg, premises, w, e)
  {
  }

  class Node {
    const cfg: Config
    const store: SqlStore
    const batchSize: nat
    const handler: (DeliveryKey, nat) -> Handling
    const retryDelay: nat -> nat
    var clock: Time
    var nextToken: Token
    ghost const premises: set<Premise>
    ghost var events: seq<Event>
    ghost var world: World

    constructor (
      cfg: Config, store: SqlStore, batchSize: nat, handler: (DeliveryKey, nat) -> Handling, retryDelay: nat -> nat,
      ghost premises: set<Premise>)
      requires store.Tables() == Database(map[], map[], map[])
      ensures Valid() && this.cfg == cfg && this.store == store && this.premises == premises && events == []
    {
      this.cfg, this.store, this.batchSize, this.handler, this.retryDelay := cfg, store, batchSize, handler, retryDelay;
      this.premises := premises;
      clock, nextToken := 0, 0;
      events, world := [], Init();
    }

    /** The tables are where the recorded run led, and the node's clock and tokens are the cluster's. */
    ghost predicate Valid()
      reads this, store
    {
      && Exec(cfg, premises, events) == Some(world)
      && world.db == store.Tables()
      && world.clock == clock
      && forall token | token in world.issued :: token < nextToken
    }

    /** Records the statement the node just ran as the next event of the run. */
    ghost method Record(e: Event)
      requires Exec(cfg, premises, events) == Some(world) && Step(cfg, premises, world, e)
      modifies `events, `world
      ensures events == old(events) + [e] && world == Apply(cfg, old(world), e)
      ensures Exec(cfg, premises, events) == Some(world)
    {
      assert (events + [e])[..|events + [e]| - 1] == events;
      events, world := events + [e], Apply(cfg, world, e);
    }

    ghost method RecordStep(e: Event)
      requires Exec(cfg, premises, events) == Some(world) && Enabled(cfg, world, e)
      requires !e.Commit? && !e.Attach? && !e.DeleteForced? && !e.Resubmit? && !e.Detach? && !e.Expire?
      modifies `events, `world
      ensures events == old(events) + [e] && world == Apply(cfg, old(world), e)
      ensures Exec(cfg, premises, events) == Some(world)
    {
      WorkKeepsPremises(cfg, premises, world, e);
      Record(e);
    }

    method Tick(delta: nat)
      requires Valid()
      modifies `events, `world, `clock
      ensures Valid() && old(events) <= events && clock == old(clock) + delta
      ensures world.attached == old(world.attached) && world.found == old(world.found)
    {
      hide Exec;
      clock := clock + delta;
      RecordStep(Event.Tick(delta));
    }

    /**
     Registers a consumer at the present time. Such a registration is always clean:
     every scan in flight ends at least the grace behind the clock.
     */
    method Attach(key: ConsumerKey, mode: Mode)
      requires Valid() && Typed(cfg, key)
      modifies `events, `world, store`consumers
      ensures Valid() && old(events) <= events && key in world.attached
      ensures key in store.consumers
      ensures key !in old(store.consumers) ==>
                store.consumers[key] == Consumer(mode, clock - cfg.grace, clock - cfg.grace, clock)
      ensures key in old(store.consumers) ==>
                && store.consumers[key].boundary == old(store.consumers)[key].boundary
                && store.consumers[key].frontier == old(store.consumers)[key].frontier
    {
      BoundsHold(cfg, premises, events);
      hide Exec;
      store.RegisterConsumer(key, FreshConsumer(cfg, mode, clock));
      PresentRegistrationIsClean(cfg, premises, world, Event.Attach(key, mode, clock));
      Record(Event.Attach(key, mode, clock));
    }

    /**
     Publishes in a transaction that commits at once: the message becomes visible
     together with a pending row for each local listener, and nothing else changes.
     Such a commit is timely under any premises.
     */
    method Publish(id: MessageId, eventType: string, payload: string, local: seq<ConsumerId>)
      requires Valid() && id !in world.published && id !in store.messages
      requires forall c | c in local :: ConsumerKey(c, eventType) in world.attached
      modifies `events, `world, store`messages, store`deliveries
      ensures Valid() && old(events) <= events
      ensures store.messages == old(store.messages)[id := Message(eventType, payload, clock)]
      ensures forall k | k in old(store.deliveries) ::
                k in store.deliveries && store.deliveries[k] == old(store.deliveries)[k]
      ensures forall k | k in store.deliveries && k !in old(store.deliveries) ::
                k.message == id && k.consumer in local && store.deliveries[k].status == Pending
      ensures forall c | c in local :: DeliveryKey(id, c) in store.deliveries
    {
      var keys := KeysFor(id, local);
      hide *;
      StoreAndCommit(id, Message(eventType, payload, clock), keys, set c | c in local);
      NewPendingRows(old(store.deliveries), keys);
    }

    method KeysFor(id: MessageId, local: seq<ConsumerId>) returns (keys: seq<DeliveryKey>)
      ensures forall k :: k in keys <==> k.message == id && k.consumer in local
    {
      keys := [];
      for i := 0 to |local|
        invariant forall k :: k in keys <==> k.message == id && k.consumer in local[..i]
      {
        assert local[..i + 1] == local[..i] + [local[i]];
        assert forall k: DeliveryKey :: k.message == id && k.consumer == local[i] <==> k == DeliveryKey(id, local[i]);
        keys := keys + [DeliveryKey(id, local[i])];
      }
      assert local[..|local|] == local;
    }

    method StoreAndCommit(id: MessageId, message: Message, keys: seq<DeliveryKey>, ghost consumers: set<ConsumerId>)
      requires Valid() && id !in world.published && id !in store.messages && message.date == clock
      requires forall c | c in consumers :: ConsumerKey(c, message.eventType) in world.attached
      requires forall k :: k in keys <==> k.message == id && k.consumer in consumers
      modifies `events, `world, store`messages, store`deliveries
      ensures Valid() && old(events) <= events
      ensures store.messages == old(store.messages)[id := message]
      ensures store.deliveries == PendingRows(KeySet(keys)) + old(store.deliveries)
    {
      PublishedNow(cfg, premises, world, id, message, consumers, keys);
      hide Exec, Step, Enabled, Apply, PendingRows, KeySet;
      store.CreateMessage(id, message);
      store.CreateDeliveries(keys);
      Record(Event.Publish(id, message, consumers));
      Record(Commit({id}));
    }

    method TakeClaim(work: Work, token: Token) returns (claimed: bool)
      requires Valid() && work.key.consumer.listener in cfg.listeners && token !in world.issued && token < nextToken
      requires cfg.listeners[work.key.consumer.listener].ordering == Fifo ==> work in world.found
      modifies `events, `world, store`deliveries
      ensures Valid() && old(events) <= events
      ensures world.found == old(world.found) && world.attached == old(world.attached)
      ensures claimed == CanClaim(cfg, old(store.Tables()), work, clock)
      ensures store.Tables() == Claimed(cfg, old(store.Tables()), work, token, clock)
      ensures claimed ==>
                && token in world.running && token in world.claims
                && world.claims[token] == Claim(work.key, work.attempts + 1, clock)
    {
      hide Exec, ClaimableInOrder, Claimable, SqlBusModel.ClaimDelivery, SqlBusModel.ClaimDeliveryInOrder;
      if cfg.listeners[work.key.consumer.listener].ordering == Fifo {
        claimed := TakeInOrder(work, token);
      } else {
        claimed := TakeAny(work, token);
      }
    }

    method TakeInOrder(work: Work, token: Token) returns (claimed: bool)
      requires Valid() && work in world.found && token !in world.issued && token < nextToken
      requires OrderingOf(cfg, work.key.consumer.listener) == Fifo
      modifies `events, `world, store`deliveries
      ensures Valid() && old(events) <= events
      ensures world.found == old(world.found) && world.attached == old(world.attached)
      ensures claimed ==
              ClaimableInOrder(old(store.Tables()), work.key, work.attempts, clock, clock - cfg.lease, work.date)
      ensures store.Tables() ==
              SqlBusModel.ClaimDeliveryInOrder(old(store.Tables()), work.key, token, clock, clock - cfg.lease,
                                               work.attempts, work.date)
      ensures claimed ==>
                && token in world.running && token in world.claims
                && world.claims[token] == Claim(work.key, work.attempts + 1, clock)
    {
      hide Exec;
      claimed := store.ClaimDeliveryInOrder(work.key, token, clock, clock - cfg.lease, work.attempts, work.date);
      RecordStep(ClaimInOrder(work, token, clock));
    }

    method TakeAny(work: Work, token: Token) returns (claimed: bool)
      requires Valid() && token !in world.issued && token < nextToken
      requires OrderingOf(cfg, work.key.consumer.listener) == Unordered
      modifies `events, `world, store`deliveries
      ensures Valid() && old(events) <= events
      ensures world.found == old(world.found) && world.attached == old(world.attached)
      ensures claimed == Claimable(old(store.Tables()), work.key, work.attempts, clock, clock - cfg.lease)
      ensures store.Tables() ==
              SqlBusModel.ClaimDelivery(old(store.Tables()), work.key, token, clock, clock - cfg.lease, work.attempts)
      ensures claimed ==>
                && token in world.running && token in world.claims
                && world.claims[token] == Claim(work.key, work.attempts + 1, clock)
    {
      hide Exec;
      claimed := store.ClaimDelivery(work.key, token, clock, clock - cfg.lease, work.attempts);
      RecordStep(ClaimAny(work.key, work.attempts, token, clock));
    }

    method Settle(work: Work, token: Token, handling: Handling)
      requires Valid() && work.key.consumer.listener in cfg.listeners
      requires token in world.running && token in world.claims
      requires world.claims[token].key == work.key && world.claims[token].attempts == work.attempts + 1
      modifies `events, `world, store`deliveries
      ensures Valid() && old(events) <= events
      ensures world.found == old(world.found) && world.attached == old(world.attached)
      ensures store.Tables() ==
              AfterHandling(cfg, old(store.Tables()), work, token, clock, handling, retryDelay(work.attempts + 1))
    {
      hide Exec;
      match handling {
        case Delivered => CompleteWork(work, token);
        case Refused(cause) => FailWork(work, token, cause);
        case Interrupted => RecordStep(Abandon(token));
      }
    }

    method CompleteWork(work: Work, token: Token)
      requires Valid() && token in world.running && token in world.claims && world.claims[token].key == work.key
      modifies `events, `world, store`deliveries
      ensures Valid() && old(events) <= events
      ensures world.found == old(world.found) && world.attached == old(world.attached)
      ensures store.Tables() == SqlBusModel.CompleteDelivery(old(store.Tables()), work.key, token, clock)
    {
      hide Exec;
      var settled := store.CompleteDelivery(work.key, token, clock);
      RecordStep(Complete(token, clock));
    }

    method FailWork(work: Work, token: Token, cause: string)
      requires Valid() && work.key.consumer.listener in cfg.listeners
      requires token in world.running && token in world.claims
      requires world.claims[token].key == work.key && world.claims[token].attempts == work.attempts + 1
      modifies `events, `world, store`deliveries
      ensures Valid() && old(events) <= events
      ensures world.found == old(world.found) && world.attached == old(world.attached)
      ensures store.Tables() ==
              SqlBusModel.FailDelivery(old(store.Tables()), work.key, token, cause,
                                       clock + retryDelay(work.attempts + 1), work.attempts + 1,
                                       cfg.listeners[work.key.consumer.listener].maximumAttempts)
    {
      hide Exec;
      var next := clock + retryDelay(work.attempts + 1);
      var maximumAttempts := cfg.listeners[work.key.consumer.listener].maximumAttempts;
      var settled := store.FailDelivery(work.key, token, cause, next, work.attempts + 1, maximumAttempts);
      RecordStep(Event.Fail(token, cause, next));
    }

    /** Claim, deliver, settle; a row that cannot be claimed is another dispatcher's work. */
    method DispatchDelivery(work: Work) returns (failed: bool)
      requires Valid() && work.key.consumer.listener in cfg.listeners
      requires cfg.listeners[work.key.consumer.listener].ordering == Fifo ==> work in world.found
      modifies `events, `world, `nextToken, store`deliveries
      ensures Valid() && old(events) <= events
      ensures world.found == old(world.found) && world.attached == old(world.attached)
      ensures store.Tables() ==
              Dispatched(cfg, old(store.Tables()), work, old(nextToken), clock, handler(work.key, work.attempts + 1),
                         retryDelay(work.attempts + 1))
      ensures failed <==>
              CanClaim(cfg, old(store.Tables()), work, clock) && handler(work.key, work.attempts + 1) != Delivered
      ensures Outcome(cfg, old(store.Tables()), store.Tables(), work, old(nextToken), clock,
                      handler(work.key, work.attempts + 1), retryDelay(work.attempts + 1))
    {
      DispatchedOutcome(cfg, store.Tables(), work, nextToken, clock, handler(work.key, work.attempts + 1),
                        retryDelay(work.attempts + 1));
      hide Exec, CanClaim, Outcome;
      var token := nextToken;
      nextToken := nextToken + 1;
      var claimed := TakeClaim(work, token);
      if !claimed {
        return false;
      }
      var handling := handler(work.key, work.attempts + 1);
      Settle(work, token, handling);
      failed := handling != Delivered;
    }

    /** Remembers the rows a query returned. */
    ghost method RecordFound(key: ConsumerKey, ids: seq<MessageId>)
      requires Valid() && Typed(cfg, key)
      requires AllDue(cfg, store.Tables(), key, ids, clock)
      modifies `events, `world
      ensures Valid() && old(events) <= events && world.attached == old(world.attached)
      ensures forall i | 0 <= i < |ids| :: WorkAt(store.Tables(), key, ids[i]) in world.found
    {
      hide Exec, Findable, WorkAt;
      for i := 0 to |ids|
        invariant Valid() && old(events) <= events && world.attached == old(world.attached)
        invariant forall k | 0 <= k < i :: WorkAt(store.Tables(), key, ids[k]) in world.found
      {
        RecordFind(key, ids[i]);
      }
    }

    ghost method RecordFind(key: ConsumerKey, id: MessageId)
      requires Valid() && Typed(cfg, key)
      requires HasRow(store.Tables(), key, id) && DueAt(cfg, store.Tables(), key, id, clock)
      modifies `events, `world
      ensures Valid() && old(events) <= events && world.attached == old(world.attached)
      ensures world.found == old(world.found) + {WorkAt(store.Tables(), key, id)}
    {
      hide Exec;
      RecordStep(Find(key, id, clock));
    }

    method ReadWorks(key: ConsumerKey, ids: seq<MessageId>) returns (works: seq<Work>)
      requires AllDue(cfg, store.Tables(), key, ids, clock)
      ensures |works| == |ids| && forall i | 0 <= i < |ids| :: works[i] == WorkAt(store.Tables(), key, ids[i])
    {
      works := [];
      for i := 0 to |ids|
        invariant |works| == i && forall k | 0 <= k < i :: works[k] == WorkAt(store.Tables(), key, ids[k])
      {
        works := works + [WorkAt(store.Tables(), key, ids[i])];
      }
    }

    ghost predicate DeliversAll() {
      forall key, attempt :: handler(key, attempt) == Delivered
    }

    /** Finds due deliveries and dispatches them one by one. */
    method Batch(key: ConsumerKey) returns (ids: seq<MessageId>)
      requires Valid() && Typed(cfg, key)
      modifies `events, `world, `nextToken, store`deliveries
      ensures Valid() && old(events) <= events && world.attached == old(world.attached)
      ensures IsDueListing(old(store.Tables()), key, OrderingOf(cfg, key.id.listener), clock, clock - cfg.lease,
                           batchSize, ids)
      ensures SameBut(old(store.Tables()), store.Tables(), key.id, ids)
      ensures store.deliveries.Keys == old(store.deliveries).Keys
      ensures AllDue(cfg, old(store.Tables()), key, ids, clock)
      ensures Idle(cfg, old(store.Tables()), key, clock) ==>
                AllHandled(cfg, old(store.Tables()), store.Tables().deliveries, key, ids, |ids|, clock, handler,
                           retryDelay)
    {
      ids := FindDue(key);
      hide *;
      var works := ReadWorks(key, ids);
      RecordFound(key, ids);
      DispatchFound(key, ids, works);
    }

    /** The query, as the rest of the batch uses it. */
    method FindDue(key: ConsumerKey) returns (ids: seq<MessageId>)
      ensures IsDueListing(store.Tables(), key, OrderingOf(cfg, key.id.listener), clock, clock - cfg.lease,
                           batchSize, ids)
      ensures AllDue(cfg, store.Tables(), key, ids, clock) && InTotalOrder(store.Tables(), ids)
    {
      ids := store.FindDueDeliveries(key, OrderingOf(cfg, key.id.listener), clock, clock - cfg.lease, batchSize);
    }

    /** One turn of the loop over the found rows. */
    method DispatchNext(key: ConsumerKey, ids: seq<MessageId>, work: Work, i: nat, ghost before: Database)
      requires Valid() && Typed(cfg, key) && AllDue(cfg, before, key, ids, clock) && InTotalOrder(before, ids)
      requires i < |ids| && work == WorkAt(before, key, ids[i]) && work in world.found
      requires SameBut(before, store.Tables(), key.id, ids[..i])
      modifies `events, `world, `nextToken, store`deliveries
      ensures Valid() && old(events) <= events && world.attached == old(world.attached)
      ensures world.found == old(world.found)
      ensures SameBut(before, store.Tables(), key.id, ids[..i + 1])
      ensures store.Tables() ==
              Dispatched(cfg, old(store.Tables()), work, old(nextToken), clock, handler(work.key, work.attempts + 1),
                         retryDelay(work.attempts + 1))
    {
      assert key.id.listener in cfg.listeners && work.key.consumer == key.id;
      hide *;
      DispatchStep(cfg, before, store.Tables(), key, ids, i, nextToken, clock,
                   handler(work.key, work.attempts + 1), retryDelay(work.attempts + 1));
      var failed := DispatchDelivery(work);
    }

    /** The same, with what the rows show afterwards. */
    method HandleNext(key: ConsumerKey, ids: seq<MessageId>, work: Work, i: nat, ghost before: Database)
      requires Valid() && Typed(cfg, key) && AllDue(cfg, before, key, ids, clock) && InTotalOrder(before, ids)
      requires i < |ids| && work == WorkAt(before, key, ids[i]) && work in world.found
      requires SameBut(before, store.Tables(), key.id, ids[..i])
      modifies `events, `world, `nextToken, store`deliveries
      ensures Valid() && old(events) <= events && world.attached == old(world.attached)
      ensures world.found == old(world.found)
      ensures SameBut(before, store.Tables(), key.id, ids[..i + 1])
      ensures Idle(cfg, before, key, clock)
              && AllHandled(cfg, before, old(store.Tables()).deliveries, key, ids, i, clock, handler, retryDelay) ==>
                AllHandled(cfg, before, store.Tables().deliveries, key, ids, i + 1, clock, handler, retryDelay)
    {
      hide *;
      NextHandled(cfg, before, store.Tables(), key, ids, i, nextToken, clock, handler, retryDelay);
      DispatchNext(key, ids, work, i, before);
    }

    method DispatchFound(key: ConsumerKey, ids: seq<MessageId>, works: seq<Work>)
      requires Valid() && Typed(cfg, key) && AllDue(cfg, store.Tables(), key, ids, clock)
      requires InTotalOrder(store.Tables(), ids) && |works| == |ids|
      requires forall i | 0 <= i < |ids| :: works[i] == WorkAt(store.Tables(), key, ids[i]) && works[i] in world.found
      modifies `events, `world, `nextToken, store`deliveries
      ensures Valid() && old(events) <= events && world.attached == old(world.attached)
      ensures SameBut(old(store.Tables()), store.Tables(), key.id, ids)
      ensures store.deliveries.Keys == old(store.deliveries).Keys
      ensures Idle(cfg, old(store.Tables()), key, clock) ==>
                AllHandled(cfg, old(store.Tables()), store.Tables().deliveries, key, ids, |ids|, clock, handler,
                           retryDelay)
    {
      ghost var before := store.Tables();
      hide Findable, Dispatched, SameBut, InTotalOrder, Exec, Idle, AllHandled;
      SameAtFirst(before, key.id);
      NoneHandled(cfg, before, store.deliveries, key, ids, clock, handler, retryDelay);
      for i := 0 to |ids|
        invariant Valid() && old(events) <= events && world.attached == old(world.attached)
        invariant SameBut(before, store.Tables(), key.id, ids[..i])
        invariant forall k | 0 <= k < |ids| :: works[k] in world.found
        invariant Idle(cfg, before, key, clock) ==>
                    AllHandled(cfg, before, store.Tables().deliveries, key, ids, i, clock, handler, retryDelay)
      {
        HandleNext(key, ids, works[i], i, before);
      }
      assert ids[..|ids|] == ids;
      SameKeys(before, store.Tables(), key.id, ids);
    }

    /** A first attempt, with the position of the message left out: the claim of an unordered listener ignores it. */
    method DispatchFresh(key: DeliveryKey) returns (failed: bool)
      requires Valid() && key.consumer.listener in cfg.listeners
      requires cfg.listeners[key.consumer.listener].ordering != Fifo
      modifies `events, `world, `nextToken, store`deliveries
      ensures Valid() && old(events) <= events && store.deliveries.Keys == old(store.deliveries).Keys
      ensures forall k | k in store.deliveries && k != key :: store.deliveries[k] == old(store.deliveries)[k]
      ensures IsFresh(cfg, old(store.deliveries), key, clock) ==>
                Handled(cfg, store.deliveries[key], Work(key, 0, 0), clock, handler(key, 1), retryDelay(1))
      ensures !IsFresh(cfg, old(store.deliveries), key, clock) ==> store.deliveries == old(store.deliveries)
      ensures failed <==> IsFresh(cfg, old(store.deliveries), key, clock) && handler(key, 1) != Delivered
    {
      var work := Work(key, 0, 0);
      FreshCanBeClaimed(cfg, store.Tables(), key, clock);
      hide Exec, Dispatched, CanClaim, Handled, IsFresh;
      failed := DispatchDelivery(work);
    }

    /** The fast path after a commit: the fresh deliveries of unordered listeners, never those of FIFO listeners. */
    method DispatchLocal(keys: seq<DeliveryKey>) returns (failures: seq<DeliveryKey>)
      requires Valid()
      modifies `events, `world, `nextToken, store`deliveries
      ensures Valid() && old(events) <= events && store.deliveries.Keys == old(store.deliveries).Keys
      ensures forall k | k in old(store.deliveries)
                && (|| k !in keys
                    || OrderingOf(cfg, k.consumer.listener) == Fifo || k.consumer.listener !in cfg.listeners) ::
                store.deliveries[k] == old(store.deliveries)[k]
      ensures forall k | k in keys && IsFresh(cfg, old(store.deliveries), k, clock) ::
                Handled(cfg, store.deliveries[k], Work(k, 0, 0), clock, handler(k, 1), retryDelay(1))
      ensures forall k :: k in failures <==>
                k in keys && IsFresh(cfg, old(store.deliveries), k, clock) && handler(k, 1) != Delivered
    {
      failures := [];
      ghost var before := store.deliveries;
      hide Exec, Handled;
      for i := 0 to |keys|
        invariant Valid() && old(events) <= events && store.deliveries.Keys == before.Keys
        invariant forall k | k in before && (k !in keys[..i] || !IsFresh(cfg, before, k, clock)) ::
                    store.deliveries[k] == before[k]
        invariant forall k | k in keys[..i] && IsFresh(cfg, before, k, clock) ::
                    Handled(cfg, store.deliveries[k], Work(k, 0, 0), clock, handler(k, 1), retryDelay(1))
        invariant forall k :: k in failures <==>
                    k in keys[..i] && IsFresh(cfg, before, k, clock) && handler(k, 1) != Delivered
      {
        Appended(keys, i);
        if keys[i].consumer.listener in cfg.listeners
           && cfg.listeners[keys[i].consumer.listener].ordering != Fifo
        {
          HandledIsNotFresh(cfg, before, store.deliveries, keys[i], clock, handler(keys[i], 1), retryDelay(1));
          var failed := DispatchFresh(keys[i]);
          if failed {
            failures := failures + [keys[i]];
          }
        }
      }
      assert keys[..|keys|] == keys;
    }

    /**
     Materializes, advances the frontier to a ceiling captured before that scan,
     and works through batches of due deliveries, at most sixteen. Drained tells
     that the last query showed the end of the queue.
     */
    method ProcessAttachment(key: ConsumerKey) returns (drained: bool)
      requires Valid() && Typed(cfg, key) && key in world.attached
      modifies `events, `world, `nextToken, store`deliveries, store`consumers
      ensures Valid() && old(events) <= events
      ensures store.messages == old(store.messages)
      ensures store.consumers == SqlBusModel.AdvanceFrontier(old(store.Tables()), key, clock - cfg.grace).consumers
      ensures forall id | Scanned(old(store.Tables()), key, id) :: DeliveryKey(id, key.id) in store.deliveries
      ensures drained && DeliversAll() && batchSize > 0 ==> forall id :: !DueAt(cfg, store.Tables(), key, id, clock)
      ensures !drained && DeliversAll() && batchSize > 0 ==>
                Progressed(cfg, old(store.Tables()), store.Tables(), key, clock, batchSize, 16)
    {
      var ceiling := clock - cfg.grace;
      assert MAXIMUM_BATCHES_PER_PASS == 16;
      hide *;
      ghost var before := store.Tables();
      PrepareRows(key, ceiling);
      ghost var prepared := store.Tables();
      drained := RunBatches(key);
      SameProgress(cfg, before, prepared, store.Tables(), key, clock, batchSize, MAXIMUM_BATCHES_PER_PASS);
    }

    /** The statements before the batch loop, and what they mean for it. */
    method PrepareRows(key: ConsumerKey, ceiling: Time)
      requires Valid() && key in world.attached && ceiling == clock - cfg.grace
      modifies `events, `world, store`deliveries, store`consumers
      ensures Valid() && old(events) <= events && store.messages == old(store.messages)
      ensures store.consumers == SqlBusModel.AdvanceFrontier(old(store.Tables()), key, ceiling).consumers
      ensures forall id | Scanned(old(store.Tables()), key, id) :: DeliveryKey(id, key.id) in store.deliveries
      ensures Prepared(cfg, old(store.Tables()), store.Tables(), key, clock)
    {
      NewRowsArePending(cfg, store.Tables(), key, ceiling, clock);
      hide Exec, Prepared, Scanned;
      Prepare(key, ceiling);
    }

    method RunBatches(key: ConsumerKey) returns (drained: bool)
      requires Valid() && Typed(cfg, key)
      modifies `events, `world, `nextToken, store`deliveries
      ensures Valid() && old(events) <= events && store.deliveries.Keys == old(store.deliveries).Keys
      ensures drained && DeliversAll() && batchSize > 0 ==> forall id :: !DueAt(cfg, store.Tables(), key, id, clock)
      ensures !drained && DeliversAll() && batchSize > 0 ==>
                Progressed(cfg, old(store.Tables()), store.Tables(), key, clock, batchSize, 16)
    {
      drained := false;
      ghost var initial := store.Tables();
      hide Exec, Findable, DueAt, Progressed;
      NoProgress(cfg, initial, key, clock, batchSize);
      for batch := 0 to MAXIMUM_BATCHES_PER_PASS
        invariant Valid() && old(events) <= events && !drained
        invariant store.deliveries.Keys == old(store.deliveries).Keys
        invariant DeliversAll() && batchSize > 0 ==>
                    Progressed(cfg, initial, store.Tables(), key, clock, batchSize, batch)
      {
        ghost var before := store.Tables();
        var last := NextBatch(key);
        if last {
          drained := true;
          break;
        }
        MoreProgress(cfg, initial, before, store.Tables(), key, clock, batchSize, batch);
      }
    }

    /** One batch; the last one shows the end of the queue, any other completes what it found. */
    method NextBatch(key: ConsumerKey) returns (last: bool)
      requires Valid() && Typed(cfg, key)
      modifies `events, `world, `nextToken, store`deliveries
      ensures Valid() && old(events) <= events && store.deliveries.Keys == old(store.deliveries).Keys
      ensures last && DeliversAll() && batchSize > 0 ==> forall id :: !DueAt(cfg, store.Tables(), key, id, clock)
      ensures !last && DeliversAll() && batchSize > 0 ==>
                Progressed(cfg, old(store.Tables()), store.Tables(), key, clock, batchSize, 1)
    {
      hide Exec, Findable, DueAt, IsDueListing, SameBut, Done, Idle, AllHandled, AllDue, InTotalOrder;
      ghost var before := store.Tables();
      var ids := Batch(key);
      ListingIsOrdered(before, key, OrderingOf(cfg, key.id.listener), clock, clock - cfg.lease, batchSize, ids);
      Drains(cfg, before, store.Tables(), key, ids, batchSize, clock, handler, retryDelay);
      Progresses(cfg, before, store.Tables(), key, ids, clock, handler, retryDelay);
      UnorderedIsIdle(cfg, before, key, clock);
      last := |ids| == 0 || (OrderingOf(cfg, key.id.listener) != Fifo && |ids| < batchSize);
    }

    /** The statements before the batch loop. */
    method Prepare(key: ConsumerKey, ceiling: Time)
      requires Valid() && key in world.attached && ceiling == clock - cfg.grace
      modifies `events, `world, store`deliveries, store`consumers
      ensures Valid() && old(events) <= events
      ensures store.Tables() ==
              SqlBusModel.AdvanceFrontier(SqlBusModel.MaterializeDeliveries(old(store.Tables()), key), key, ceiling)
    {
      hide Exec;
      ghost var pass := AboveAll(world.passes.Keys);
      RecordStep(CaptureCeiling(pass, key));
      MaterializeNow(key, pass);
      AdvanceNow(key, ceiling, pass);
    }

    method MaterializeNow(key: ConsumerKey, ghost pass: nat)
      requires Valid() && pass in world.passes && world.passes[pass].key == key && !world.passes[pass].materialized
      modifies `events, `world, store`deliveries
      ensures Valid() && old(events) <= events
      ensures pass in world.passes && world.passes[pass] == old(world.passes[pass]).(materialized := true)
      ensures store.Tables() == SqlBusModel.MaterializeDeliveries(old(store.Tables()), key)
    {
      hide Exec;
      store.MaterializeDeliveries(key);
      RecordStep(Materialize(pass));
    }

    method AdvanceNow(key: ConsumerKey, ceiling: Time, ghost pass: nat)
      requires Valid() && pass in world.passes && world.passes[pass] == Pass(key, ceiling, true)
      modifies `events, `world, store`consumers
      ensures Valid() && old(events) <= events
      ensures store.Tables() == SqlBusModel.AdvanceFrontier(old(store.Tables()), key, ceiling)
    {
      hide Exec;
      store.AdvanceFrontier(key, ceiling);
      RecordStep(Advance(pass));
    }

    ghost method RecordMaintenance(e: Event)
      requires Exec(cfg, premises, events) == Some(world) && Enabled(cfg, world, e) && AllowsMaintenance(premises)
      requires e.Expire? || e.DeleteSettled? || e.DeleteForced? || e.SweepWithoutMessage? || e.SweepWithoutConsumer?
      modifies `events, `world
      ensures events == old(events) + [e] && world == Apply(cfg, old(world), e)
      ensures Exec(cfg, premises, events) == Some(world)
    {
      MaintenanceKeepsPremises(cfg, premises, world, e);
      Record(e);
    }

    /**
     The background duties in their order: expiry, retention, age cap, and the
     sweep of orphan rows only after messages are gone.
     */
    method Maintain(broadcastCutoff: Time, settledCutoff: Time, ageCutoff: Time)
      requires Valid() && AllowsMaintenance(premises)
      modifies `events, `world, store
      ensures Valid() && old(events) <= events
      ensures forall key | key in store.consumers ::
                key in old(store.consumers) && store.consumers[key] == old(store.consumers)[key]
      ensures forall key | key in old(store.consumers) ::
                key !in store.consumers <==>
                old(store.consumers)[key].mode == Broadcast && old(store.consumers)[key].heartbeat < broadcastCutoff
      ensures forall id | id in store.messages ::
                id in old(store.messages) && store.messages[id] == old(store.messages)[id]
      ensures forall id | id in old(store.messages) ::
                id !in store.messages <==>
                || old(store.messages)[id].date < ageCutoff
                || (old(store.messages)[id].date < settledCutoff
                    && forall key | key in store.consumers
                                    && Covering(store.consumers[key], key, old(store.messages)[id]) ::
                         IsCompleted(old(store.Tables()), DeliveryKey(id, key.id)))
      ensures forall k | k in old(store.deliveries) ::
                k in store.deliveries <==>
                k.message in store.messages && exists key | key in store.consumers :: key.id == k.consumer
      ensures forall k | k in store.deliveries ::
                k in old(store.deliveries) && store.deliveries[k] == old(store.deliveries)[k]
    {
      hide Exec;
      store.ExpireBroadcastConsumers(broadcastCutoff);
      RecordMaintenance(Expire(broadcastCutoff));
      Retain(settledCutoff, ageCutoff);
      Sweep();
    }

    method Retain(settledCutoff: Time, ageCutoff: Time)
      requires Valid() && AllowsMaintenance(premises)
      modifies `events, `world, store`messages
      ensures Valid() && old(events) <= events
      ensures forall id | id in store.messages ::
                id in old(store.messages) && store.messages[id] == old(store.messages)[id]
      ensures forall id | id in old(store.messages) ::
                id !in store.messages <==>
                || old(store.messages)[id].date < ageCutoff
                || (old(store.messages)[id].date < settledCutoff
                    && forall key | key in store.consumers
                                    && Covering(store.consumers[key], key, old(store.messages)[id]) ::
                         IsCompleted(store.Tables(), DeliveryKey(id, key.id)))
    {
      hide Exec;
      store.DeleteSettledMessages(settledCutoff);
      RecordMaintenance(DeleteSettled(settledCutoff));
      var forced := store.DeleteMessagesOlderThan(ageCutoff);
      RecordMaintenance(DeleteForced(ageCutoff));
    }

    method Sweep()
      requires Valid() && AllowsMaintenance(premises)
      modifies `events, `world, store`deliveries
      ensures Valid() && old(events) <= events
      ensures store.deliveries ==
              map k | k in old(store.deliveries) && k.message in store.messages
                      && Registered(store.Tables(), k.consumer)
                :: old(store.deliveries)[k]
    {
      hide Exec;
      store.DeleteOrphanDeliveries();
      RecordMaintenance(SweepWithoutMessage);
      RecordMaintenance(SweepWithoutConsumer);
    }
  }

  /** A pass number that no pass at work has. */
  lemma {:induction false} AboveAll(used: set<nat>) returns (r: nat)
    ensures forall n | n in used :: n < r
    decreases |used|
  {
    r := 0;
    if used != {} {
      var n :| n in used;
      var rest := AboveAll(used - {n});
      assert forall m | m in used :: m == n || m in used - {n};
      r := if n < rest then rest else n + 1;
    }
  }

  /** The completed deliveries of a consumer. */
  ghost function Done(db: Database, consumer: ConsumerId): set<DeliveryKey> {
    set k | k in db.deliveries && k.consumer == consumer && db.deliveries[k].status == Completed
  }

  function KeysOf(key: ConsumerKey, ids: seq<MessageId>): set<DeliveryKey> {
    set id | id in ids :: DeliveryKey(id, key.id)
  }

  lemma {:induction false} KeysAreDistinct(db: Database, key: ConsumerKey, ids: seq<MessageId>)
    requires InTotalOrder(db, ids)
    ensures |KeysOf(key, ids)| == |ids|
  {
    if ids != [] {
      var front, last := ids[..|ids| - 1], ids[|ids| - 1];
      KeysAreDistinct(db, key, front);
      assert ids == front + [last];
      assert KeysOf(key, ids) == KeysOf(key, front) + {DeliveryKey(last, key.id)};
      assert forall i | 0 <= i < |front| :: ids[i] != last;
    }
  }

  lemma HandledIsCompleted(
    cfg: Config, before: Database, after: Database, key: ConsumerKey, ids: seq<MessageId>, now: Time,
    handler: (DeliveryKey, nat) -> Handling, retryDelay: nat -> nat)
    requires Typed(cfg, key) && AllDue(cfg, before, key, ids, now)
    requires AllHandled(cfg, before, after.deliveries, key, ids, |ids|, now, handler, retryDelay)
    requires forall k, attempt :: handler(k, attempt) == Delivered
    ensures forall id | id in ids :: IsCompleted(after, DeliveryKey(id, key.id))
  {
    forall id | id in ids ensures IsCompleted(after, DeliveryKey(id, key.id)) {
      var i :| 0 <= i < |ids| && ids[i] == id;
      assert WorkAt(before, key, ids[i]).key == DeliveryKey(id, key.id);
    }
  }

  /** The tables differ only in what is neither completed nor running. */
  ghost predicate Prepared(cfg: Config, before: Database, after: Database, key: ConsumerKey, now: Time) {
    Done(after, key.id) == Done(before, key.id) && (Idle(cfg, before, key, now) ==> Idle(cfg, after, key, now))
  }

  /** Materializing makes only pending rows, one for every scanned message. */
  lemma NewRowsArePending(cfg: Config, db: Database, key: ConsumerKey, ceiling: Time, now: Time)
    ensures var after := AdvanceFrontier(MaterializeDeliveries(db, key), key, ceiling);
            && Prepared(cfg, db, after, key, now)
            && after.messages == db.messages && after.consumers == AdvanceFrontier(db, key, ceiling).consumers
            && forall id | Scanned(db, key, id) :: DeliveryKey(id, key.id) in after.deliveries
  {
  }

  /**
   Each of n batches completed a full batch of deliveries, or one of a FIFO
   consumer, if the consumer was idle; and it is idle again.
   */
  ghost predicate Progressed(
    cfg: Config, before: Database, after: Database, key: ConsumerKey, now: Time, batchSize: nat, n: nat)
  {
    Idle(cfg, before, key, now) ==>
      && Idle(cfg, after, key, now)
      && |Done(after, key.id)|
         >= |Done(before, key.id)| + n * (if OrderingOf(cfg, key.id.listener) == Fifo then 1 else batchSize)
  }

  lemma UnorderedIsIdle(cfg: Config, db: Database, key: ConsumerKey, now: Time)
    ensures OrderingOf(cfg, key.id.listener) == Unordered ==> Idle(cfg, db, key, now)
  {
  }

  lemma NoProgress(cfg: Config, db: Database, key: ConsumerKey, now: Time, batchSize: nat)
    ensures Progressed(cfg, db, db, key, now, batchSize, 0)
  {
  }

  lemma MoreProgress(
    cfg: Config, a: Database, b: Database, c: Database, key: ConsumerKey, now: Time, batchSize: nat, n: nat)
    ensures Progressed(cfg, a, b, key, now, batchSize, n) && Progressed(cfg, b, c, key, now, batchSize, 1) ==>
              Progressed(cfg, a, c, key, now, batchSize, n + 1)
  {
    hide Idle, Done;
    var step := if OrderingOf(cfg, key.id.listener) == Fifo then 1 else batchSize;
    assert (n + 1) * step == n * step + step;
  }

  lemma SameProgress(
    cfg: Config, a: Database, b: Database, c: Database, key: ConsumerKey, now: Time, batchSize: nat, n: nat)
    requires Prepared(cfg, a, b, key, now)
    ensures Progressed(cfg, b, c, key, now, batchSize, n) ==> Progressed(cfg, a, c, key, now, batchSize, n)
  {
  }

  lemma ListingIsOrdered(
    db: Database, key: ConsumerKey, ordering: Ordering, now: Time, leaseCutoff: Time, limit: nat, ids: seq<MessageId>)
    requires IsDueListing(db, key, ordering, now, leaseCutoff, limit, ids)
    ensures InTotalOrder(db, ids)
  {
  }

  /** A batch of succeeding handlers completes every row it found, and keeps a FIFO consumer idle. */
  lemma Progresses(
    cfg: Config, before: Database, after: Database, key: ConsumerKey, ids: seq<MessageId>, now: Time,
    handler: (DeliveryKey, nat) -> Handling, retryDelay: nat -> nat)
    requires Typed(cfg, key) && AllDue(cfg, before, key, ids, now) && InTotalOrder(before, ids)
    requires SameBut(before, after, key.id, ids)
    ensures Idle(cfg, before, key, now) && (forall k, attempt :: handler(k, attempt) == Delivered)
            && AllHandled(cfg, before, after.deliveries, key, ids, |ids|, now, handler, retryDelay) ==>
              Idle(cfg, after, key, now) && |Done(after, key.id)| >= |Done(before, key.id)| + |ids|
  {
    if Idle(cfg, before, key, now) && (forall k, attempt :: handler(k, attempt) == Delivered)
       && AllHandled(cfg, before, after.deliveries, key, ids, |ids|, now, handler, retryDelay)
    {
      HandledIsCompleted(cfg, before, after, key, ids, now, handler, retryDelay);
      KeysAreDistinct(before, key, ids);
      FoundAreNotDone(cfg, before, key, ids, now);
      assert Done(before, key.id) + KeysOf(key, ids) <= Done(after, key.id);
      MoreElements(Done(before, key.id) + KeysOf(key, ids), Done(after, key.id));
      StillIdle(cfg, before, after, key, ids, now);
    }
  }

  lemma StillIdle(
    cfg: Config, before: Database, after: Database, key: ConsumerKey, ids: seq<MessageId>, now: Time)
    requires SameBut(before, after, key.id, ids) && Idle(cfg, before, key, now)
    requires forall id | id in ids :: IsCompleted(after, DeliveryKey(id, key.id))
    ensures Idle(cfg, after, key, now)
  {
    assert forall k: DeliveryKey :: k.consumer == key.id ==> k == DeliveryKey(k.message, key.id);
  }

  lemma FoundAreNotDone(cfg: Config, db: Database, key: ConsumerKey, ids: seq<MessageId>, now: Time)
    requires AllDue(cfg, db, key, ids, now)
    ensures Done(db, key.id) !! KeysOf(key, ids)
  {
    forall id | id in ids ensures DeliveryKey(id, key.id) !in Done(db, key.id) {
      var i :| 0 <= i < |ids| && ids[i] == id;
      assert DueAt(cfg, db, key, ids[i], now);
    }
  }

  lemma {:induction false} MoreElements<T>(a: set<T>, b: set<T>)
    requires a <= b
    ensures |a| <= |b|
    decreases |a|
  {
    if a != {} {
      var x :| x in a;
      MoreElements(a - {x}, b - {x});
    }
  }

  /** A batch that shows the end of the queue leaves nothing due, if every handler succeeded. */
  lemma Drains(
    cfg: Config, before: Database, after: Database, key: ConsumerKey, ids: seq<MessageId>, batchSize: nat, now: Time,
    handler: (DeliveryKey, nat) -> Handling, retryDelay: nat -> nat)
    requires Typed(cfg, key) && AllDue(cfg, before, key, ids, now)
    requires IsDueListing(before, key, OrderingOf(cfg, key.id.listener), now, now - cfg.lease, batchSize, ids)
    requires SameBut(before, after, key.id, ids)
    ensures ids == [] && batchSize > 0 ==> forall id :: !DueAt(cfg, after, key, id, now)
    ensures
      && OrderingOf(cfg, key.id.listener) == Unordered && |ids| < batchSize
      && (forall k, attempt :: handler(k, attempt) == Delivered)
      && AllHandled(cfg, before, after.deliveries, key, ids, |ids|, now, handler, retryDelay)
      ==> forall id :: !DueAt(cfg, after, key, id, now)
  {
    if ids == [] {
      assert after == before;
    }
    if && OrderingOf(cfg, key.id.listener) == Unordered && |ids| < batchSize
       && (forall k, attempt :: handler(k, attempt) == Delivered)
       && AllHandled(cfg, before, after.deliveries, key, ids, |ids|, now, handler, retryDelay)
    {
      HandledIsCompleted(cfg, before, after, key, ids, now, handler, retryDelay);
    }
    forall id | OrderingOf(cfg, key.id.listener) == Unordered && DueAt(cfg, after, key, id, now)
      ensures id in ids || DueAt(cfg, before, key, id, now)
    {
      var k := DeliveryKey(id, key.id);
      assert k in before.deliveries;
    }
  }

  lemma Appended<T>(s: seq<T>, i: nat)
    requires i < |s|
    ensures s[..i + 1] == s[..i] + [s[i]] && forall x :: x in s[..i + 1] <==> x in s[..i] || x == s[i]
  {
    assert s[..i + 1] == s[..i] + [s[i]];
  }

  lemma SameKeys(before: Database, after: Database, consumer: ConsumerId, ids: seq<MessageId>)
    requires SameBut(before, after, consumer, ids)
    ensures after.deliveries.Keys == before.deliveries.Keys
  {
  }

  lemma SameAtFirst(db: Database, consumer: ConsumerId)
    ensures forall ids: seq<MessageId> :: SameBut(db, db, consumer, ids)
  {
  }

  /**
   From empty tables to a working consumer: a new node attaches a listener, lets
   time pass and works through its queue, and all of it is a run under any premises.
   */
  method StartNode(
    cfg: Config, store: SqlStore, batchSize: nat, handler: (DeliveryKey, nat) -> Handling, retryDelay: nat -> nat,
    key: ConsumerKey, mode: Mode, delay: nat, ghost premises: set<Premise>)
    returns (node: Node, drained: bool)
    requires store.Tables() == Database(map[], map[], map[]) && Typed(cfg, key)
    modifies store`deliveries, store`consumers
    ensures node.Valid() && node.premises == premises && node.store == store && node.clock == delay
    ensures key in store.consumers && store.consumers[key].boundary == 0 - cfg.grace
    ensures store.consumers[key].frontier == delay - cfg.grace
  {
    node := new Node(cfg, store, batchSize, handler, retryDelay, premises);
    hide Exec;
    node.Attach(key, mode);
    node.Tick(delay);
    drained := node.ProcessAttachment(key);
  }
}
