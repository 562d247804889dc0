/**
 Runs that show why the premises of the other modules are needed, and where the
 code does less than its prose suggests.
 */
module SqlBusWitnesses {
  import opened Wrappers
  import opened SqlBusModel
  import opened SqlBusProtocol
  import opened SqlBusFrontier
  import SqlBusHandlers
  import SqlBusCompletions

  const CONSUMER := ConsumerId("listener", "")
  /** Everything but a premise on the registration. */
  const BUT_PERSISTENCE := {TimelyCommits, TimelyCommit(1), NoUnfinishedDeletion, NoRevival}

  const KEY := ConsumerKey(CONSUMER, "type")

  /** A lease of 1, a grace of 10, and one listener that is allowed one attempt. */
  function Cluster(ordering: Ordering): Config {
    Config(1, 10, map["listener" := ListenerConfig(ordering, "type", 1)])
  }

  /** A run so far, with the state it reaches. */
  ghost predicate At(cfg: Config, premises: set<Premise>, events: seq<Event>, w: World) {
    Exec(cfg, premises, events) == Some(w)
  }

  lemma Extend(cfg: Config, premises: set<Premise>, events: seq<Event>, w: World, e: Event)
    requires At(cfg, premises, events, w) && Step(cfg, premises, w, e)
    ensures At(cfg, premises, events + [e], Apply(cfg, w, e))
  {
    assert (events + [e])[..|events + [e]| - 1] == events;
  }

  // ---------------------------------------------------------------- single steps

  lemma DoTick(cfg: Config, premises: set<Premise>, events: seq<Event>, w: World, delta: nat)
    returns (later: seq<Event>)
    requires At(cfg, premises, events, w)
    ensures At(cfg, premises, later, w.(clock := w.clock + delta))
  {
    Extend(cfg, premises, events, w, Tick(delta));
    later := events + [Tick(delta)];
  }

  lemma DoAttach(cfg: Config, premises: set<Premise>, events: seq<Event>, w: World, now: Time)
    returns (later: seq<Event>)
    requires At(cfg, premises, events, w) && Typed(cfg, KEY) && now <= w.clock
    requires w.passes == map[] || CleanRegistration(KEY) !in premises
    ensures At(cfg, premises, later,
               w.(db := RegisterConsumer(w.db, KEY, FreshConsumer(cfg, Competing, now)),
                  attached := w.attached + {KEY}))
  {
    Extend(cfg, premises, events, w, Attach(KEY, Competing, now));
    later := events + [Attach(KEY, Competing, now)];
  }

  lemma DoPublish(
    cfg: Config, premises: set<Premise>, events: seq<Event>, w: World, id: MessageId, date: Time,
    consumers: set<ConsumerId>)
    returns (later: seq<Event>)
    requires At(cfg, premises, events, w) && id !in w.published && date <= w.clock
    requires consumers <= {CONSUMER} && KEY in w.attached
    ensures At(cfg, premises, later,
               w.(published := w.published[id := Message("type", "", date)], open := w.open[id := consumers]))
  {
    var e := Publish(id, Message("type", "", date), consumers);
    Extend(cfg, premises, events, w, e);
    later := events + [e];
  }

  lemma DoCommit(cfg: Config, premises: set<Premise>, events: seq<Event>, w: World, id: MessageId)
    returns (later: seq<Event>)
    requires At(cfg, premises, events, w) && id in w.open && id in w.published
    requires TimelyCommits in premises || TimelyCommit(id) in premises ==> w.clock <= w.published[id].date + cfg.grace
    ensures At(cfg, premises, later,
               w.(db := InsertPublications(w.db, MessagesOf(w, {id}), RowsOf(w, {id})), open := w.open - {id}))
  {
    Extend(cfg, premises, events, w, Commit({id}));
    later := events + [Commit({id})];
  }

  lemma DoCapture(cfg: Config, premises: set<Premise>, events: seq<Event>, w: World) returns (later: seq<Event>)
    requires At(cfg, premises, events, w) && w.passes == map[] && KEY in w.attached
    ensures At(cfg, premises, later, w.(passes := map[0 := Pass(KEY, w.clock - cfg.grace, false)]))
  {
    Extend(cfg, premises, events, w, CaptureCeiling(0, KEY));
    later := events + [CaptureCeiling(0, KEY)];
    assert map[][0 := Pass(KEY, w.clock - cfg.grace, false)] == map[0 := Pass(KEY, w.clock - cfg.grace, false)];
  }

  lemma DoMaterialize(cfg: Config, premises: set<Premise>, events: seq<Event>, w: World, ceiling: Time)
    returns (later: seq<Event>)
    requires At(cfg, premises, events, w) && w.passes == map[0 := Pass(KEY, ceiling, false)]
    ensures At(cfg, premises, later,
               w.(passes := map[0 := Pass(KEY, ceiling, true)], db := MaterializeDeliveries(w.db, KEY)))
  {
    Extend(cfg, premises, events, w, Materialize(0));
    later := events + [Materialize(0)];
    assert w.passes[0 := w.passes[0].(materialized := true)] == map[0 := Pass(KEY, ceiling, true)];
  }

  lemma DoAdvance(cfg: Config, premises: set<Premise>, events: seq<Event>, w: World) returns (later: seq<Event>)
    requires At(cfg, premises, events, w) && 0 in w.passes && w.passes[0].key == KEY && w.passes[0].materialized
    ensures At(cfg, premises, later,
               w.(passes := w.passes - {0}, db := AdvanceFrontier(w.db, KEY, w.passes[0].ceiling)))
  {
    Extend(cfg, premises, events, w, Advance(0));
    later := events + [Advance(0)];
  }

  lemma DoDetach(cfg: Config, premises: set<Premise>, events: seq<Event>, w: World) returns (later: seq<Event>)
    requires At(cfg, premises, events, w) && premises <= BUT_PERSISTENCE
    ensures At(cfg, premises, later, w.(db := RemoveListener(w.db, "listener")))
  {
    Extend(cfg, premises, events, w, Detach("listener"));
    later := events + [Detach("listener")];
  }

  lemma DoForced(cfg: Config, premises: set<Premise>, events: seq<Event>, w: World, cutoff: Time)
    returns (later: seq<Event>)
    requires At(cfg, premises, events, w) && NoUnfinishedDeletion !in premises
    ensures At(cfg, premises, later, w.(db := DeleteMessagesOlderThan(w.db, cutoff)))
  {
    Extend(cfg, premises, events, w, DeleteForced(cutoff));
    later := events + [DeleteForced(cutoff)];
  }

  lemma DoSweep(cfg: Config, premises: set<Premise>, events: seq<Event>, w: World) returns (later: seq<Event>)
    requires At(cfg, premises, events, w) && w.failures == map[]
    ensures At(cfg, premises, later, w.(db := DeleteDeliveriesWithoutMessage(w.db)))
  {
    Extend(cfg, premises, events, w, SweepWithoutMessage);
    later := events + [SweepWithoutMessage];
  }

  lemma DoSweepConsumers(cfg: Config, premises: set<Premise>, events: seq<Event>, w: World)
    returns (later: seq<Event>)
    requires At(cfg, premises, events, w) && w.failures == map[]
    ensures At(cfg, premises, later, w.(db := DeleteDeliveriesWithoutConsumer(w.db)))
  {
    Extend(cfg, premises, events, w, SweepWithoutConsumer);
    later := events + [SweepWithoutConsumer];
  }

  lemma DoFind(cfg: Config, premises: set<Premise>, events: seq<Event>, w: World, id: MessageId)
    returns (later: seq<Event>)
    requires At(cfg, premises, events, w) && Typed(cfg, KEY)
    requires Findable(w.db, KEY, Fifo, id, w.clock, w.clock - cfg.lease)
    ensures At(cfg, premises, later, w.(found := w.found + {WorkOf(w, KEY, id)}))
  {
    Extend(cfg, premises, events, w, Find(KEY, id, w.clock));
    later := events + [Find(KEY, id, w.clock)];
  }

  lemma DoOrderedClaim(cfg: Config, premises: set<Premise>, events: seq<Event>, w: World, work: Work, token: Token)
    returns (later: seq<Event>)
    requires At(cfg, premises, events, w) && token !in w.issued && work in w.found && work.key in w.db.deliveries
    requires OrderingOf(cfg, work.key.consumer.listener) == Fifo && work.attempts == w.db.deliveries[work.key].attempts
    requires ClaimableInOrder(w.db, work.key, work.attempts, w.clock, w.clock - cfg.lease, work.date)
    ensures At(cfg, premises, later, AfterClaim(w, work.key, token))
  {
    Extend(cfg, premises, events, w, ClaimInOrder(work, token, w.clock));
    later := events + [ClaimInOrder(work, token, w.clock)];
  }

  lemma DoComplete(cfg: Config, premises: set<Premise>, events: seq<Event>, w: World, token: Token)
    returns (later: seq<Event>)
    requires At(cfg, premises, events, w) && token in w.running && token in w.claims
    requires HoldsClaim(w.db, w.claims[token].key, token)
    ensures At(cfg, premises, later, AfterCompletion(w, token))
  {
    Extend(cfg, premises, events, w, Complete(token, w.clock));
    later := events + [Complete(token, w.clock)];
  }

  function AfterCompletion(w: World, token: Token): World
    requires token in w.claims
  {
    w.(db := CompleteDelivery(w.db, w.claims[token].key, token, w.clock), running := w.running - {token},
       completionLog := w.completionLog + [w.claims[token].key], settlementLog := w.settlementLog + [token])
  }

  function AfterClaim(w: World, k: DeliveryKey, token: Token): World
    requires k in w.db.deliveries
  {
    w.(db := SetDelivery(w.db, k, ClaimedRow(w.db.deliveries[k], token, w.clock)),
       issued := w.issued + {token},
       claims := w.claims[token := Claim(k, w.db.deliveries[k].attempts + 1, w.clock)],
       running := w.running + {token}, claimLog := w.claimLog + [token])
  }

  lemma DoClaim(cfg: Config, premises: set<Premise>, events: seq<Event>, w: World, k: DeliveryKey, token: Token)
    returns (later: seq<Event>)
    requires At(cfg, premises, events, w) && token !in w.issued && k in w.db.deliveries
    requires OrderingOf(cfg, k.consumer.listener) == Unordered
    requires Due(w.db.deliveries[k], w.clock, w.clock - cfg.lease)
    ensures At(cfg, premises, later, AfterClaim(w, k, token))
  {
    var e := ClaimAny(k, w.db.deliveries[k].attempts, token, w.clock);
    Extend(cfg, premises, events, w, e);
    later := events + [e];
  }

  // ---------------------------------------------------------------- whole runs

  /** A consumer with boundary and frontier -10, attached at time 0. */
  lemma Attached(cfg: Config, premises: set<Premise>) returns (events: seq<Event>, w: World)
    requires Typed(cfg, KEY) && cfg.grace == 10
    ensures At(cfg, premises, events, w)
    ensures w == Init().(attached := {KEY}, db := Database(map[], map[KEY := Consumer(Competing, -10, -10, 0)], map[]))
  {
    events := DoAttach(cfg, premises, [], Init(), 0);
    w := Init().(attached := {KEY}, db := Database(map[], map[KEY := Consumer(Competing, -10, -10, 0)], map[]));
    hide Exec;
    assert map[][KEY := FreshConsumer(cfg, Competing, 0)] == map[KEY := Consumer(Competing, -10, -10, 0)];
    assert Init().(db := RegisterConsumer(Init().db, KEY, FreshConsumer(cfg, Competing, 0)),
                   attached := Init().attached + {KEY}) == w;
  }

  /** A message drafted now, together with the row of the consumer, and committed at once. */
  lemma DoDeliver(cfg: Config, premises: set<Premise>, events: seq<Event>, w: World, id: MessageId)
    returns (later: seq<Event>)
    requires At(cfg, premises, events, w) && id !in w.published && id !in w.open && KEY in w.attached
    requires DeliveryKey(id, CONSUMER) !in w.db.deliveries
    ensures At(cfg, premises, later, AfterDelivery(w, id))
  {
    hide Exec, InsertPublications, Step;
    later := DoPublish(cfg, premises, events, w, id, w.clock, {CONSUMER});
    var drafted := Drafted(w, id);
    later := DoCommit(cfg, premises, later, drafted, id);
    CommitOfDraft(w, id);
    CommittedTables(w.db, id, Message("type", "", w.clock));
  }

  function Drafted(w: World, id: MessageId): World {
    w.(published := w.published[id := Message("type", "", w.clock)], open := w.open[id := {CONSUMER}])
  }

  lemma CommitOfDraft(w: World, id: MessageId)
    requires id !in w.open
    ensures RowsOf(Drafted(w, id), {id}) == {DeliveryKey(id, CONSUMER)}
    ensures MessagesOf(Drafted(w, id), {id}) == map[id := Message("type", "", w.clock)]
    ensures Drafted(w, id).open - {id} == w.open
  {
    assert CONSUMER in Drafted(w, id).open[id];
    assert DeliveryKey(id, CONSUMER) in RowsOf(Drafted(w, id), {id});
  }

  lemma CommittedTables(db: Database, id: MessageId, message: Message)
    requires DeliveryKey(id, CONSUMER) !in db.deliveries
    ensures InsertPublications(db, map[id := message], {DeliveryKey(id, CONSUMER)})
         == db.(messages := db.messages[id := message],
                deliveries := db.deliveries[DeliveryKey(id, CONSUMER) := PENDING_DELIVERY])
  {
    assert PendingRows({DeliveryKey(id, CONSUMER)}) + db.deliveries
        == db.deliveries[DeliveryKey(id, CONSUMER) := PENDING_DELIVERY];
    assert db.messages + map[id := message] == db.messages[id := message];
  }

  function AfterDelivery(w: World, id: MessageId): World {
    w.(published := w.published[id := Message("type", "", w.clock)],
       db := w.db.(messages := w.db.messages[id := Message("type", "", w.clock)],
                   deliveries := w.db.deliveries[DeliveryKey(id, CONSUMER) := PENDING_DELIVERY]))
  }

  /** Steals ignore the budget: with one attempt allowed, a second claim still succeeds. */
  lemma BudgetCanBeOverrun(premises: set<Premise>) returns (events: seq<Event>, w: World, k: DeliveryKey)
    ensures At(Cluster(Unordered), premises, events, w)
    ensures k in w.db.deliveries && k.consumer == CONSUMER
    ensures w.db.deliveries[k].attempts > Cluster(Unordered).listeners["listener"].maximumAttempts
  {
    var cfg := Cluster(Unordered);
    k := DeliveryKey(1, CONSUMER);
    var before, w0 := Attached(cfg, premises);
    before := DoDeliver(cfg, premises, before, w0, 1);
    w0 := AfterDelivery(w0, 1);
    before := DoClaim(cfg, premises, before, w0, k, 0);
    hide Exec;
    w := AfterClaim(w0, k, 0);
    before := DoTick(cfg, premises, before, w, 5);
    w := w.(clock := 5);
    events := DoClaim(cfg, premises, before, w, k, 1);
    w := AfterClaim(w, k, 1);
  }

  /** A pass that finds nothing to materialize, run to its advance. */
  lemma EmptyPass(cfg: Config, premises: set<Premise>, events: seq<Event>, w: World) returns (later: seq<Event>)
    requires At(cfg, premises, events, w) && w.passes == map[] && KEY in w.attached
    requires forall id | id in w.db.messages :: !Scanned(w.db, KEY, id)
    ensures At(cfg, premises, later, w.(passes := map[0 := Pass(KEY, w.clock - cfg.grace, true)]))
  {
    later := DoCapture(cfg, premises, events, w);
    var captured := w.(passes := map[0 := Pass(KEY, w.clock - cfg.grace, false)]);
    later := DoMaterialize(cfg, premises, later, captured, w.clock - cfg.grace);
    hide Exec;
    assert MaterializeDeliveries(w.db, KEY) == w.db;
  }

  /** One commit later than the grace strands its message, whatever else holds. */
  lemma LateCommitStrands(cfg: Config, premises: set<Premise>) returns (events: seq<Event>, w: World)
    requires Typed(cfg, KEY) && cfg.grace == 10 && TimelyCommits !in premises && TimelyCommit(1) !in premises
    ensures At(cfg, premises, events, w) && Stranded(w, KEY, 1)
  {
    events, w := Attached(cfg, premises);
    events := DoPublish(cfg, premises, events, w, 1, 0, {});
    w := w.(published := w.published[1 := Message("type", "", 0)], open := w.open[1 := {}]);
    events := DoTick(cfg, premises, events, w, 20);
    w := w.(clock := w.clock + 20);
    events := EmptyPass(cfg, premises, events, w);
    w := w.(passes := map[0 := Pass(KEY, w.clock - cfg.grace, true)]);
    events := DoCommit(cfg, premises, events, w, 1);
    hide Exec;
    assert RowsOf(w, {1}) == {};
    w := w.(db := InsertPublications(w.db, MessagesOf(w, {1}), RowsOf(w, {1})), open := w.open - {1});
    events := DoAdvance(cfg, premises, events, w);
    w := w.(passes := w.passes - {0}, db := AdvanceFrontier(w.db, KEY, w.passes[0].ceiling));
  }

  /**
   Timely commits are not enough for a registration that is reaped and made
   again between a pass's scan and its advance: the re-registration computes its
   boundary from a date captured before the ceiling of the pass.
   */
  lemma ReregistrationStrands(cfg: Config, premises: set<Premise>) returns (events: seq<Event>, w: World)
    requires Typed(cfg, KEY) && cfg.grace == 10 && premises <= BUT_PERSISTENCE
    ensures At(cfg, premises, events, w) && Stranded(w, KEY, 1)
  {
    events, w := Attached(cfg, premises);
    events := DoTick(cfg, premises, events, w, 100);
    w := w.(clock := w.clock + 100);
    events := DoPublish(cfg, premises, events, w, 1, 95, {});
    w := w.(published := w.published[1 := Message("type", "", 95)], open := w.open[1 := {}]);
    events := DoCommit(cfg, premises, events, w, 1);
    hide Exec;
    assert RowsOf(w, {1}) == {};
    w := w.(db := InsertPublications(w.db, MessagesOf(w, {1}), RowsOf(w, {1})), open := w.open - {1});
    events, w := Reregister(cfg, premises, events, w);
  }

  lemma Reregister(cfg: Config, premises: set<Premise>, before: seq<Event>, start: World)
    returns (events: seq<Event>, w: World)
    requires Typed(cfg, KEY) && cfg.grace == 10 && premises <= BUT_PERSISTENCE
    requires At(cfg, premises, before, start) && start.clock == 100 && start.passes == map[] && KEY in start.attached
    requires 1 in start.db.messages && start.db.messages[1] == Message("type", "", 95)
    requires DeliveryKey(1, CONSUMER) !in start.db.deliveries
    ensures At(cfg, premises, events, w) && Stranded(w, KEY, 1)
  {
    w := start;
    events := DoDetach(cfg, premises, before, w);
    w := w.(db := RemoveListener(w.db, "listener"));
    events := DoTick(cfg, premises, events, w, 10);
    w := w.(clock := w.clock + 10);
    hide Exec;
    events := EmptyPass(cfg, premises, events, w);
    w := w.(passes := map[0 := Pass(KEY, w.clock - cfg.grace, true)]);
    events := DoAttach(cfg, premises, events, w, 100);
    w := w.(db := RegisterConsumer(w.db, KEY, FreshConsumer(cfg, Competing, 100)), attached := w.attached + {KEY});
    events := DoAdvance(cfg, premises, events, w);
    w := w.(passes := w.passes - {0}, db := AdvanceFrontier(w.db, KEY, w.passes[0].ceiling));
  }

  const FIRST := DeliveryKey(1, CONSUMER)
  const SECOND := DeliveryKey(2, CONSUMER)

  /** Messages 1 and 2, dated 0 and 1, both pending below a frontier of 91. */
  lemma TwoQueued(cfg: Config, premises: set<Premise>) returns (events: seq<Event>, w: World)
    requires Typed(cfg, KEY) && cfg.grace == 10
    ensures At(cfg, premises, events, w) && w.clock == 101 && w.issued == {} && w.found == {} && w.claimLog == []
    ensures w.published == map[1 := Message("type", "", 0), 2 := Message("type", "", 1)]
    ensures w.db.messages == w.published
    ensures w.db.deliveries == map[FIRST := PENDING_DELIVERY, SECOND := PENDING_DELIVERY]
    ensures w.db.consumers.Keys == {KEY}
    ensures w.db.consumers[KEY].boundary == -10 && w.db.consumers[KEY].frontier == 91
    ensures w.claims == map[] && w.running == {} && w.completionLog == [] && w.failures == map[]
    ensures w.passes == map[] && KEY in w.attached
  {
    events, w := Attached(cfg, premises);
    hide Exec;
    events := DoDeliver(cfg, premises, events, w, 1);
    w := AfterDelivery(w, 1);
    events := DoTick(cfg, premises, events, w, 1);
    w := w.(clock := 1);
    events := DoDeliver(cfg, premises, events, w, 2);
    w := AfterDelivery(w, 2);
    events := DoTick(cfg, premises, events, w, 100);
    w := w.(clock := 101);
    events, w := WholePass(cfg, premises, events, w);
  }

  /** A pass over messages that all have their rows already, run to its advance. */
  lemma WholePass(cfg: Config, premises: set<Premise>, before: seq<Event>, start: World)
    returns (events: seq<Event>, w: World)
    requires At(cfg, premises, before, start) && start.passes == map[] && KEY in start.attached
    requires forall id | id in start.db.messages :: DeliveryKey(id, CONSUMER) in start.db.deliveries
    requires KEY in start.db.consumers && start.db.consumers[KEY].frontier < start.clock - cfg.grace
    ensures At(cfg, premises, events, w)
    ensures w == start.(db := AdvanceFrontier(start.db, KEY, start.clock - cfg.grace))
  {
    hide Exec;
    w := start;
    var ceiling := w.clock - cfg.grace;
    events := DoCapture(cfg, premises, before, w);
    w := w.(passes := map[0 := Pass(KEY, ceiling, false)]);
    events := DoMaterialize(cfg, premises, events, w, ceiling);
    assert MaterializeDeliveries(w.db, KEY).deliveries == w.db.deliveries;
    w := w.(passes := map[0 := Pass(KEY, ceiling, true)]);
    events := DoAdvance(cfg, premises, events, w);
    w := w.(passes := w.passes - {0}, db := AdvanceFrontier(w.db, KEY, ceiling));
    assert w.passes == start.passes;
  }

  /** The frontier does move, under any premises: messages 1 and 2 come to lie between boundary and frontier. */
  lemma FrontierCovers(cfg: Config, premises: set<Premise>) returns (events: seq<Event>, w: World)
    requires Typed(cfg, KEY) && cfg.grace == 10
    ensures At(cfg, premises, events, w) && KEY in w.db.consumers
    ensures forall id | id == 1 || id == 2 ::
              && id in w.db.messages && w.db.messages[id].eventType == KEY.eventType
              && w.db.consumers[KEY].boundary <= w.db.messages[id].date < w.db.consumers[KEY].frontier
  {
    events, w := TwoQueued(cfg, premises);
    hide Exec;
  }

  /** The queue head is found; then the age cap removes its message, and its successor is found. */
  lemma BothFound(cfg: Config, premises: set<Premise>) returns (events: seq<Event>, w: World)
    requires Typed(cfg, KEY) && OrderingOf(cfg, "listener") == Fifo && cfg.grace == 10
    requires NoUnfinishedDeletion !in premises
    ensures At(cfg, premises, events, w) && w.claimLog == [] && w.issued == {}
    ensures w.db.deliveries == map[FIRST := PENDING_DELIVERY, SECOND := PENDING_DELIVERY]
    ensures w.db.messages == map[2 := Message("type", "", 1)]
    ensures w.published == map[1 := Message("type", "", 0), 2 := Message("type", "", 1)]
    ensures Work(FIRST, 0, 0) in w.found && Work(SECOND, 0, 1) in w.found && w.clock >= 0
  {
    events, w := TwoQueued(cfg, premises);
    hide Exec;
    events := DoFind(cfg, premises, events, w, 1);
    w := w.(found := w.found + {Work(FIRST, 0, 0)});
    events := DoForced(cfg, premises, events, w, 1);
    w := w.(db := DeleteMessagesOlderThan(w.db, 1));
    events := DoFind(cfg, premises, events, w, 2);
    w := w.(found := w.found + {Work(SECOND, 0, 1)});
  }

  /** The successor is claimed first. */
  lemma SuccessorClaimed(cfg: Config, premises: set<Premise>) returns (events: seq<Event>, w: World)
    requires Typed(cfg, KEY) && OrderingOf(cfg, "listener") == Fifo && cfg.grace == 10
    requires NoUnfinishedDeletion !in premises
    ensures At(cfg, premises, events, w) && w.claimLog == [0] && w.issued == {0}
    ensures 0 in w.claims && w.claims[0].key == SECOND && w.running != {}
    ensures w.published == map[1 := Message("type", "", 0), 2 := Message("type", "", 1)]
    ensures w.db.messages == map[2 := Message("type", "", 1)]
    ensures Work(FIRST, 0, 0) in w.found && w.db.deliveries.Keys == {FIRST, SECOND}
    ensures w.db.deliveries[FIRST] == PENDING_DELIVERY
    ensures w.db.deliveries[SECOND].claimDate == Some(w.clock)
  {
    events, w := BothFound(cfg, premises);
    hide Exec;
    events := DoOrderedClaim(cfg, premises, events, w, Work(SECOND, 0, 1), 0);
    w := AfterClaim(w, SECOND, 0);
  }

  /**
   The ordered claim does not look at the message again, so the age cap can put a
   queue head behind its successor: its row, found before, is claimed after it.
   */
  lemma ForcedDeletionReorders(cfg: Config, premises: set<Premise>) returns (events: seq<Event>, w: World)
    requires Typed(cfg, KEY) && OrderingOf(cfg, "listener") == Fifo && cfg.grace == 10
    requires NoUnfinishedDeletion !in premises
    ensures At(cfg, premises, events, w) && w.claimLog == [0, 1] && 0 in w.claims && 1 in w.claims
    ensures w.claims[0].key == SECOND && w.claims[1].key == FIRST
    ensures w.published == map[1 := Message("type", "", 0), 2 := Message("type", "", 1)]
  {
    events, w := SuccessorClaimed(cfg, premises);
    hide Exec;
    events := DoTick(cfg, premises, events, w, cfg.lease + 1);
    w := w.(clock := w.clock + cfg.lease + 1);
    events := DoOrderedClaim(cfg, premises, events, w, Work(FIRST, 0, 0), 1);
    w := AfterClaim(w, FIRST, 1);
  }

  /** The queue head is claimed and its handler runs. */
  lemma FirstRunning(cfg: Config, premises: set<Premise>) returns (events: seq<Event>, w: World)
    requires Typed(cfg, KEY) && OrderingOf(cfg, "listener") == Fifo && cfg.grace == 10
    ensures At(cfg, premises, events, w) && w.issued == {0} && w.clock == 101 && w.failures == map[]
    ensures w.claims == map[0 := Claim(FIRST, 1, 101)] && w.running == {0} && Work(FIRST, 0, 0) in w.found
    ensures w.db.messages == map[1 := Message("type", "", 0), 2 := Message("type", "", 1)]
    ensures w.db.deliveries == map[FIRST := ClaimedRow(PENDING_DELIVERY, 0, 101), SECOND := PENDING_DELIVERY]
    ensures w.db.consumers.Keys == {KEY} && w.db.consumers[KEY].frontier == 91 && w.passes == map[]
    ensures KEY in w.attached && w.completionLog == [] && w.claimLog == [0]
    ensures w.published == w.db.messages
  {
    events, w := TwoQueued(cfg, premises);
    hide Exec;
    events := DoFind(cfg, premises, events, w, 1);
    w := w.(found := w.found + {Work(FIRST, 0, 0)});
    events := DoOrderedClaim(cfg, premises, events, w, Work(FIRST, 0, 0), 0);
    w := AfterClaim(w, FIRST, 0);
  }

  /** The queue head is claimed and completed. */
  lemma FirstCompleted(cfg: Config, premises: set<Premise>) returns (events: seq<Event>, w: World)
    requires Typed(cfg, KEY) && OrderingOf(cfg, "listener") == Fifo && cfg.grace == 10
    ensures At(cfg, premises, events, w) && w.claimLog == [0] && w.issued == {0}
    ensures 0 in w.claims && w.claims[0].key == FIRST
    ensures w.published == map[1 := Message("type", "", 0), 2 := Message("type", "", 1)]
    ensures w.db.messages == w.published && w.db.deliveries.Keys == {FIRST, SECOND} && w.clock == 101
    ensures w.db.deliveries[FIRST].status == Completed && w.db.deliveries[SECOND] == PENDING_DELIVERY
    ensures w.db.consumers.Keys == {KEY} && w.db.consumers[KEY].frontier == 91
    ensures w.completionLog == [FIRST] && w.failures == map[] && w.passes == map[] && KEY in w.attached
    ensures Work(FIRST, 0, 0) in w.found && w.running == {}
  {
    events, w := FirstRunning(cfg, premises);
    hide Exec;
    events := DoComplete(cfg, premises, events, w, 0);
    w := AfterCompletion(w, 0);
  }

  /** Two deliveries of a FIFO consumer claimed one after the other, under any premises. */
  lemma TwoClaimsInOrder(cfg: Config, premises: set<Premise>) returns (events: seq<Event>, w: World)
    requires Typed(cfg, KEY) && OrderingOf(cfg, "listener") == Fifo && cfg.grace == 10
    ensures At(cfg, premises, events, w) && w.claimLog == [0, 1] && 0 in w.claims && 1 in w.claims
    ensures w.claims[0].key == FIRST && w.claims[1].key == SECOND
  {
    events, w := FirstCompleted(cfg, premises);
    hide Exec;
    events := DoFind(cfg, premises, events, w, 2);
    w := w.(found := w.found + {Work(SECOND, 0, 1)});
    events := DoOrderedClaim(cfg, premises, events, w, Work(SECOND, 0, 1), 1);
    w := AfterClaim(w, SECOND, 1);
  }

  // ---------------------------------------------------------------- overlapping handlers

  /** The age cap takes the message of a running delivery and a sweep its row: its successor runs beside it. */
  lemma AgeCapOverlaps(cfg: Config, premises: set<Premise>) returns (events: seq<Event>, w: World)
    requires Typed(cfg, KEY) && OrderingOf(cfg, "listener") == Fifo && cfg.grace == 10
    requires NoUnfinishedDeletion !in premises
    ensures At(cfg, premises, events, w) && SqlBusHandlers.Overlap(cfg, w, CONSUMER)
    ensures w.claims.Keys == {0, 1} && w.claims[0].key == FIRST && w.claims[1].key == SECOND
  {
    events, w := FirstRunning(cfg, premises);
    hide Exec;
    events := DoForced(cfg, premises, events, w, 1);
    w := w.(db := DeleteMessagesOlderThan(w.db, 1));
    events := DoSweep(cfg, premises, events, w);
    w := w.(db := DeleteDeliveriesWithoutMessage(w.db));
    assert w.db.deliveries == map[SECOND := PENDING_DELIVERY];
    events := DoFind(cfg, premises, events, w, 2);
    w := w.(found := w.found + {Work(SECOND, 0, 1)});
    events := DoOrderedClaim(cfg, premises, events, w, Work(SECOND, 0, 1), 1);
    w := AfterClaim(w, SECOND, 1);
    assert SqlBusHandlers.Working(cfg, w, CONSUMER, 0) && SqlBusHandlers.Working(cfg, w, CONSUMER, 1);
  }

  /** The registration is removed, swept under a running delivery and made again: the same delivery runs twice. */
  lemma ReregistrationOverlaps(cfg: Config, premises: set<Premise>) returns (events: seq<Event>, w: World)
    requires Typed(cfg, KEY) && OrderingOf(cfg, "listener") == Fifo && cfg.grace == 10
    requires premises <= BUT_PERSISTENCE
    ensures At(cfg, premises, events, w) && SqlBusHandlers.Overlap(cfg, w, CONSUMER)
    ensures w.claims.Keys == {0, 1} && w.claims[0].key == FIRST && w.claims[1].key == FIRST
  {
    events, w := FirstRunning(cfg, premises);
    hide Exec;
    events, w := RemovedAndScanned(cfg, premises, events, w);
    events := DoOrderedClaim(cfg, premises, events, w, Work(FIRST, 0, 0), 1);
    w := AfterClaim(w, FIRST, 1);
    assert SqlBusHandlers.Working(cfg, w, CONSUMER, 0) && SqlBusHandlers.Working(cfg, w, CONSUMER, 1);
  }

  /** The registration is removed after a delivery completed, and made again below it: it completes again. */
  lemma ReregistrationCompletesAgain(cfg: Config, premises: set<Premise>) returns (events: seq<Event>, w: World)
    requires Typed(cfg, KEY) && OrderingOf(cfg, "listener") == Fifo && cfg.grace == 10
    requires premises <= BUT_PERSISTENCE
    ensures At(cfg, premises, events, w) && w.completionLog == [FIRST, FIRST]
    ensures !SqlBusCompletions.CompletedOnce(w, FIRST)
  {
    events, w := FirstCompleted(cfg, premises);
    hide Exec;
    events, w := RemovedAndScanned(cfg, premises, events, w);
    events := DoOrderedClaim(cfg, premises, events, w, Work(FIRST, 0, 0), 1);
    w := AfterClaim(w, FIRST, 1);
    events := DoComplete(cfg, premises, events, w, 1);
    w := AfterCompletion(w, 1);
    assert w.completionLog[0] == FIRST && w.completionLog[1] == FIRST;
  }

  /** The registration is removed, its rows are swept, and it is made again below its old messages. */
  lemma RemovedAndScanned(cfg: Config, premises: set<Premise>, before: seq<Event>, start: World)
    returns (events: seq<Event>, w: World)
    requires At(cfg, premises, before, start) && Typed(cfg, KEY) && cfg.grace == 10 && premises <= BUT_PERSISTENCE
    requires start.passes == map[] && start.failures == map[] && start.clock == 101 && KEY in start.attached
    requires start.db.messages == map[1 := Message("type", "", 0), 2 := Message("type", "", 1)]
    requires start.db.consumers.Keys == {KEY}
    ensures At(cfg, premises, events, w)
    ensures w == start.(db := w.db, attached := w.attached, passes := w.passes)
    ensures w.db.deliveries == map[FIRST := PENDING_DELIVERY, SECOND := PENDING_DELIVERY]
    ensures w.db.messages == start.db.messages
  {
    hide Exec;
    w := start;
    events := DoDetach(cfg, premises, before, w);
    w := w.(db := RemoveListener(w.db, "listener"));
    events := DoSweepConsumers(cfg, premises, events, w);
    w := w.(db := DeleteDeliveriesWithoutConsumer(w.db));
    assert w.db.deliveries == map[] && w.db.consumers == map[];
    events, w := ScannedAgain(cfg, premises, events, w);
  }

  /** A registration at a time read long ago, and a scan from its boundary. */
  lemma ScannedAgain(cfg: Config, premises: set<Premise>, before: seq<Event>, start: World)
    returns (events: seq<Event>, w: World)
    requires At(cfg, premises, before, start) && Typed(cfg, KEY) && cfg.grace == 10 && premises <= BUT_PERSISTENCE
    requires start.passes == map[] && start.clock == 101 && KEY in start.attached
    requires start.db.messages == map[1 := Message("type", "", 0), 2 := Message("type", "", 1)]
    requires start.db.deliveries == map[] && start.db.consumers == map[]
    ensures At(cfg, premises, events, w)
    ensures w == start.(db := w.db, attached := w.attached, passes := w.passes)
    ensures w.db.deliveries == map[FIRST := PENDING_DELIVERY, SECOND := PENDING_DELIVERY]
    ensures w.db.messages == start.db.messages
  {
    hide Exec;
    w := start;
    events := DoAttach(cfg, premises, before, w, 0);
    w := w.(db := RegisterConsumer(w.db, KEY, FreshConsumer(cfg, Competing, 0)), attached := w.attached + {KEY});
    events := DoCapture(cfg, premises, events, w);
    w := w.(passes := map[0 := Pass(KEY, 91, false)]);
    events := DoMaterialize(cfg, premises, events, w, 91);
    assert Scanned(w.db, KEY, 1) && Scanned(w.db, KEY, 2);
    w := w.(passes := map[0 := Pass(KEY, 91, true)], db := MaterializeDeliveries(w.db, KEY));
    assert w.db.deliveries == map[FIRST := PENDING_DELIVERY, SECOND := PENDING_DELIVERY];
  }
}
