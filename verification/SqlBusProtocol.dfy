/**
 The cluster as one state machine. Any number of nodes share the tables; each
 event is one SQL statement or one node-local action, and a run interleaves
 them freely. What a node keeps in memory between two statements (a captured
 ceiling, found work, a claim it is executing) is part of the state, so every
 statement may act on something that has gone stale.

 The environment's promises are premises that a theorem names when it needs
 them; everything else holds for all runs.
 */
module SqlBusProtocol {
  import opened Wrappers
  import opened SqlBusModel

  datatype ListenerConfig = ListenerConfig(ordering: Ordering, eventType: string, maximumAttempts: nat)

  /** What every node is configured with alike. */
  datatype Config = Config(lease: nat, grace: nat, listeners: map<string, ListenerConfig>)

  predicate ValidConfig(cfg: Config) {
    forall l | l in cfg.listeners :: cfg.listeners[l].maximumAttempts >= 1
  }

  /** One processAttachment call between its ceiling and its AdvanceFrontier. */
  datatype Pass = Pass(key: ConsumerKey, ceiling: Time, materialized: bool)

  /** A row that FindDueDeliveries returned. */
  datatype Work = Work(key: DeliveryKey, attempts: nat, date: Time)

  /** What the winner of a claim remembers: its delivery, its attempt, its claim date. */
  datatype Claim = Claim(key: DeliveryKey, attempts: nat, date: Time)

  datatype World = World(
    clock: Time,
    db: Database,
    published: map<MessageId, Message>,     // every message ever drafted
    open: map<MessageId, set<ConsumerId>>,  // drafts of open transactions and their local rows
    attached: set<ConsumerKey>,             // consumers some node has attached
    passes: map<nat, Pass>,
    found: set<Work>,
    issued: set<Token>,                     // every token ever drawn
    claims: map<Token, Claim>,              // the tokens that won a claim
    running: set<Token>,                    // the winners that have not settled yet
    claimLog: seq<Token>,                   // successful claims, in order
    completionLog: seq<DeliveryKey>,        // successful completions, in order
    settlementLog: seq<Token>,              // successful settlements, in order
    failures: map<DeliveryKey, nat>)        // failed settlements of a row since it was made or resubmitted

  datatype Event =
    | Tick(delta: nat)
    | Attach(key: ConsumerKey, mode: Mode, now: Time)
    | Beat(key: ConsumerKey, at: Time)
    | Detach(listener: string)
    | Expire(cutoff: Time)
    | Publish(id: MessageId, message: Message, consumers: set<ConsumerId>)
    | Commit(ids: set<MessageId>)
    | Rollback(ids: set<MessageId>)
    | CaptureCeiling(pass: nat, key: ConsumerKey)
    | Materialize(pass: nat)
    | Advance(pass: nat)
    | Find(key: ConsumerKey, id: MessageId, now: Time)
    | ClaimAny(delivery: DeliveryKey, attempts: nat, token: Token, now: Time)
    | ClaimInOrder(work: Work, token: Token, now: Time)
    | Complete(token: Token, at: Time)
    | Fail(token: Token, cause: string, next: Time)
    | Abandon(token: Token)
    | Resubmit(delivery: DeliveryKey)
    | DeleteSettled(olderThan: Time)
    | DeleteForced(cutoff: Time)
    | SweepWithoutMessage
    | SweepWithoutConsumer

  function Init(): World {
    World(0, Database(map[], map[], map[]), map[], map[], {}, map[], {}, {}, map[], {}, [], [], [], map[])
  }

  // ---------------------------------------------------------------- local state

  function OrderingOf(cfg: Config, listener: string): Ordering {
    if listener in cfg.listeners then cfg.listeners[listener].ordering else Unordered
  }

  predicate Typed(cfg: Config, key: ConsumerKey) {
    key.id.listener in cfg.listeners && cfg.listeners[key.id.listener].eventType == key.eventType
  }

  function RowsOf(w: World, ids: set<MessageId>): set<DeliveryKey> {
    set id, c | id in ids && id in w.open && c in w.open[id] :: DeliveryKey(id, c)
  }

  function MessagesOf(w: World, ids: set<MessageId>): map<MessageId, Message> {
    map id | id in ids && id in w.published :: w.published[id]
  }

  function FailuresOf(w: World, key: DeliveryKey): nat {
    if key in w.failures then w.failures[key] else 0
  }

  function FreshConsumer(cfg: Config, mode: Mode, now: Time): Consumer {
    Consumer(mode, now - cfg.grace, now - cfg.grace, now)
  }

  // ---------------------------------------------------------------- steps

  predicate Enabled(cfg: Config, w: World, e: Event) {
    match e
    case Tick(_) => true
    case Attach(key, _, now) => Typed(cfg, key) && now <= w.clock
    case Beat(_, at) => at <= w.clock
    case Detach(_) => true
    case Expire(_) => true
    case Publish(id, message, consumers) =>
      && id !in w.published
      && message.date <= w.clock
      && forall c | c in consumers :: ConsumerKey(c, message.eventType) in w.attached
    case Commit(ids) => ids <= w.open.Keys
    case Rollback(ids) => ids <= w.open.Keys
    case CaptureCeiling(pass, key) => pass !in w.passes && key in w.attached
    case Materialize(pass) => pass in w.passes && !w.passes[pass].materialized
    case Advance(pass) => pass in w.passes && w.passes[pass].materialized
    case Find(key, id, now) =>
      && now <= w.clock
      && Typed(cfg, key)
      && Findable(w.db, key, OrderingOf(cfg, key.id.listener), id, now, now - cfg.lease)
    case ClaimAny(key, _, token, now) =>
      && token !in w.issued
      && now <= w.clock
      && OrderingOf(cfg, key.consumer.listener) == Unordered
    case ClaimInOrder(work, token, now) =>
      && token !in w.issued
      && now <= w.clock
      && work in w.found
      && OrderingOf(cfg, work.key.consumer.listener) == Fifo
    case Complete(token, _) => token in w.running && token in w.claims
    case Fail(token, _, _) =>
      token in w.running && token in w.claims && w.claims[token].key.consumer.listener in cfg.listeners
    case Abandon(token) => token in w.running
    case Resubmit(_) => true
    case DeleteSettled(_) => true
    case DeleteForced(_) => true
    case SweepWithoutMessage => true
    case SweepWithoutConsumer => true
  }

  /** The claim statement affects its row. */
  predicate Wins(cfg: Config, w: World, e: Event) {
    match e
    case ClaimAny(key, attempts, _, now) => Claimable(w.db, key, attempts, now, now - cfg.lease)
    case ClaimInOrder(work, _, now) =>
      ClaimableInOrder(w.db, work.key, work.attempts, now, now - cfg.lease, work.date)
    case _ => false
  }

  /** The settlement statement passes the token fence and affects its row. */
  predicate Settles(w: World, e: Event) {
    (e.Complete? || e.Fail?) && e.token in w.claims && HoldsClaim(w.db, w.claims[e.token].key, e.token)
  }

  /** The statement each event sends to the database. */
  function NextTables(cfg: Config, w: World, e: Event): Database
    requires Enabled(cfg, w, e)
  {
    match e
    case Attach(key, mode, now) => RegisterConsumer(w.db, key, FreshConsumer(cfg, mode, now))
    case Beat(key, at) => Heartbeat(w.db, key, at)
    case Detach(listener) => RemoveListener(w.db, listener)
    case Expire(cutoff) => ExpireBroadcastConsumers(w.db, cutoff)
    case Commit(ids) => InsertPublications(w.db, MessagesOf(w, ids), RowsOf(w, ids))
    case Materialize(pass) => MaterializeDeliveries(w.db, w.passes[pass].key)
    case Advance(pass) => AdvanceFrontier(w.db, w.passes[pass].key, w.passes[pass].ceiling)
    case ClaimAny(key, attempts, token, now) =>
      ClaimDelivery(w.db, key, token, now, now - cfg.lease, attempts)
    case ClaimInOrder(work, token, now) =>
      ClaimDeliveryInOrder(w.db, work.key, token, now, now - cfg.lease, work.attempts, work.date)
    case Complete(token, at) => CompleteDelivery(w.db, w.claims[token].key, token, at)
    case Fail(token, cause, next) =>
      FailDelivery(w.db, w.claims[token].key, token, cause, next, w.claims[token].attempts,
                   cfg.listeners[w.claims[token].key.consumer.listener].maximumAttempts)
    case Resubmit(key) => ResubmitDelivery(w.db, key)
    case DeleteSettled(olderThan) => DeleteSettledMessages(w.db, olderThan)
    case DeleteForced(cutoff) => DeleteMessagesOlderThan(w.db, cutoff)
    case SweepWithoutMessage => DeleteDeliveriesWithoutMessage(w.db)
    case SweepWithoutConsumer => DeleteDeliveriesWithoutConsumer(w.db)
    case _ => w.db
  }

  function NextPasses(cfg: Config, w: World, e: Event): map<nat, Pass>
    requires Enabled(cfg, w, e)
  {
    match e
    case CaptureCeiling(pass, key) => w.passes[pass := Pass(key, w.clock - cfg.grace, false)]
    case Materialize(pass) => w.passes[pass := w.passes[pass].(materialized := true)]
    case Advance(pass) => w.passes - {pass}
    case _ => w.passes
  }

  /** What the winner of a claim records: the attempt it observed, plus its own. */
  function ClaimOf(e: Event): Claim
    requires e.ClaimAny? || e.ClaimInOrder?
  {
    match e
    case ClaimAny(key, attempts, _, now) => Claim(key, attempts + 1, now)
    case ClaimInOrder(work, _, now) => Claim(work.key, work.attempts + 1, now)
  }

  function WorkOf(w: World, key: ConsumerKey, id: MessageId): Work
    requires DeliveryKey(id, key.id) in w.db.deliveries && id in w.db.messages
  {
    Work(DeliveryKey(id, key.id), w.db.deliveries[DeliveryKey(id, key.id)].attempts, w.db.messages[id].date)
  }

  function NextFailures(cfg: Config, w: World, e: Event): map<DeliveryKey, nat>
    requires Enabled(cfg, w, e)
  {
    match e
    case Fail(token, _, _) =>
      var key := w.claims[token].key;
      if Settles(w, e) then w.failures[key := FailuresOf(w, key) + 1] else w.failures
    case Resubmit(key) => if Resubmittable(w.db, key) then w.failures[key := 0] else w.failures
    case SweepWithoutMessage => map k | k in w.failures && k in NextTables(cfg, w, e).deliveries :: w.failures[k]
    case SweepWithoutConsumer => map k | k in w.failures && k in NextTables(cfg, w, e).deliveries :: w.failures[k]
    case _ => w.failures
  }

  /** A claimant draws its token whether or not it wins; a holder stops whether or not it settles. */
  function Apply(cfg: Config, w: World, e: Event): World
    requires Enabled(cfg, w, e)
  {
    World(
      if e.Tick? then w.clock + e.delta else w.clock,
      NextTables(cfg, w, e),
      if e.Publish? then w.published[e.id := e.message] else w.published,
      if e.Publish? then w.open[e.id := e.consumers]
      else if e.Commit? || e.Rollback? then w.open - e.ids else w.open,
      if e.Attach? then w.attached + {e.key} else w.attached,
      NextPasses(cfg, w, e),
      if e.Find? then w.found + {WorkOf(w, e.key, e.id)} else w.found,
      if e.ClaimAny? || e.ClaimInOrder? then w.issued + {e.token} else w.issued,
      if Wins(cfg, w, e) then w.claims[e.token := ClaimOf(e)] else w.claims,
      if Wins(cfg, w, e) then w.running + {e.token}
      else if e.Complete? || e.Fail? || e.Abandon? then w.running - {e.token} else w.running,
      if Wins(cfg, w, e) then w.claimLog + [e.token] else w.claimLog,
      if e.Complete? && Settles(w, e) then w.completionLog + [w.claims[e.token].key] else w.completionLog,
      if Settles(w, e) then w.settlementLog + [e.token] else w.settlementLog,
      NextFailures(cfg, w, e))
  }

  // ---------------------------------------------------------------- premises and runs

  datatype Premise =
    | TimelyCommits                          // a transaction commits within the grace of its publications
    | TimelyCommit(id: MessageId)            // the commit of this message falls within its grace
    | NoUnfinishedDeletion                   // the age cap removes no message with an uncompleted delivery
    | NoRevival                              // no exhausted delivery is resubmitted
    | Persists(key: ConsumerKey)             // the registration is not removed once made
    | CleanRegistration(key: ConsumerKey)    // no finished scan reaches above the boundary of a new registration

  predicate Respects(cfg: Config, w: World, e: Event, premise: Premise)
    requires Enabled(cfg, w, e)
  {
    match premise
    case TimelyCommits =>
      e.Commit? ==> forall id | id in e.ids && id in w.published :: w.clock <= w.published[id].date + cfg.grace
    case TimelyCommit(id) =>
      e.Commit? && id in e.ids && id in w.published ==> w.clock <= w.published[id].date + cfg.grace
    case NoUnfinishedDeletion =>
      e.DeleteForced? ==>
        forall k | k in w.db.deliveries && w.db.deliveries[k].status != Completed && k.message in w.db.messages ::
          w.db.messages[k.message].date >= e.cutoff
    case NoRevival =>
      e.Resubmit? && e.delivery in w.db.deliveries ==> w.db.deliveries[e.delivery].status != Exhausted
    case Persists(key) =>
      key in w.db.consumers ==> key in Apply(cfg, w, e).db.consumers
    case CleanRegistration(key) =>
      e.Attach? && e.key == key && key !in w.db.consumers ==>
        forall pass | pass in w.passes && w.passes[pass].key == key && w.passes[pass].materialized ::
          w.passes[pass].ceiling <= e.now - cfg.grace
  }

  /** A step that the code can take and that keeps every named premise. */
  predicate Step(cfg: Config, premises: set<Premise>, w: World, e: Event) {
    Enabled(cfg, w, e) && forall p | p in premises :: Respects(cfg, w, e, p)
  }

  /** The state after a sequence of events, from empty tables; None if some event is not a step. */
  function Exec(cfg: Config, premises: set<Premise>, events: seq<Event>): Option<World> {
    if events == [] then Some(Init())
    else
      var last := |events| - 1;
      var before := Exec(cfg, premises, events[..last]);
      if before.Some? && Step(cfg, premises, before.value, events[last])
      then Some(Apply(cfg, before.value, events[last])) else None
  }
}
