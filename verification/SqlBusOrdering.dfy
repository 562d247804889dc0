/**
 FIFO consumers: their claims never go back in the total order (publication
 date, message identifier), and at most one of their deliveries executes under
 a live lease.
 */
module SqlBusOrdering {
  import opened Wrappers
  import opened SqlBusModel
  import opened SqlBusProtocol
  import opened SqlBusSettlement
  import opened SqlBusRepeats
  import opened SqlBusFrontier
  import opened SqlBusOvertaking

  // ---------------------------------------------------------------- one at a time

  /** At most one delivery of the consumer is processing under a lease that is live now. */
  ghost predicate Serial(cfg: Config, w: World, consumer: ConsumerId) {
    forall j, k | j in w.db.deliveries && k in w.db.deliveries
                  && j.consumer == consumer && k.consumer == consumer
                  && LiveClaim(w.db.deliveries[j], w.clock - cfg.lease)
                  && LiveClaim(w.db.deliveries[k], w.clock - cfg.lease) :: j == k
  }

  /** A row becomes live only by winning the ordered claim. */
  lemma LiveRow(cfg: Config, w: World, e: Event, k: DeliveryKey)
    requires Enabled(cfg, w, e) && OrderingOf(cfg, k.consumer.listener) == Fifo
    requires k in NextTables(cfg, w, e).deliveries
    requires LiveClaim(NextTables(cfg, w, e).deliveries[k], Apply(cfg, w, e).clock - cfg.lease)
    ensures (k in w.db.deliveries && LiveClaim(w.db.deliveries[k], w.clock - cfg.lease))
            || (e.ClaimInOrder? && Wins(cfg, w, e) && e.work.key == k)
  {
    if Touched(w, e) != Some(k) {
      OtherRows(cfg, w, e, k);
    }
  }

  /** The winner of an ordered claim saw no other live claim, even by its own stale clock. */
  lemma WinnerIsAlone(cfg: Config, w: World, e: Event, k: DeliveryKey)
    requires Enabled(cfg, w, e) && e.ClaimInOrder? && Wins(cfg, w, e)
    requires k in w.db.deliveries && k.consumer == e.work.key.consumer && k != e.work.key
    ensures !LiveClaim(w.db.deliveries[k], w.clock - cfg.lease)
  {
  }

  /** Two deliveries live after a step are the same one. */
  lemma SerialPair(cfg: Config, w: World, e: Event, consumer: ConsumerId, j: DeliveryKey, k: DeliveryKey)
    requires Enabled(cfg, w, e) && OrderingOf(cfg, consumer.listener) == Fifo && Serial(cfg, w, consumer)
    requires j in NextTables(cfg, w, e).deliveries && k in NextTables(cfg, w, e).deliveries
    requires j.consumer == consumer && k.consumer == consumer
    requires LiveClaim(NextTables(cfg, w, e).deliveries[j], Apply(cfg, w, e).clock - cfg.lease)
    requires LiveClaim(NextTables(cfg, w, e).deliveries[k], Apply(cfg, w, e).clock - cfg.lease)
    ensures j == k
  {
    hide NextTables, Wins, Apply;
    LiveRow(cfg, w, e, j);
    LiveRow(cfg, w, e, k);
    if j != k && e.ClaimInOrder? && Wins(cfg, w, e) {
      if e.work.key == k {
        WinnerIsAlone(cfg, w, e, j);
      } else if e.work.key == j {
        WinnerIsAlone(cfg, w, e, k);
      }
    }
  }

  lemma SerialStep(cfg: Config, w: World, e: Event, consumer: ConsumerId)
    requires Enabled(cfg, w, e) && OrderingOf(cfg, consumer.listener) == Fifo && Serial(cfg, w, consumer)
    ensures Serial(cfg, Apply(cfg, w, e), consumer)
  {
    var w' := Apply(cfg, w, e);
    hide NextTables, NextPasses, NextFailures, Wins, LiveClaim;
    forall j, k | j in w'.db.deliveries && k in w'.db.deliveries
                  && j.consumer == consumer && k.consumer == consumer
                  && LiveClaim(w'.db.deliveries[j], w'.clock - cfg.lease)
                  && LiveClaim(w'.db.deliveries[k], w'.clock - cfg.lease)
      ensures j == k
    {
      SerialPair(cfg, w, e, consumer, j, k);
    }
  }

  /**
   FIFO execution is serial in every reachable state, with no premise: claimants
   may act on stale captured times, and operators may revive predecessors.
   */
  lemma {:induction false} FifoIsSerial(
    cfg: Config, premises: set<Premise>, events: seq<Event>, consumer: ConsumerId)
    requires OrderingOf(cfg, consumer.listener) == Fifo && Exec(cfg, premises, events).Some?
    ensures Serial(cfg, Exec(cfg, premises, events).value, consumer)
  {
    if events != [] {
      var last := |events| - 1;
      FifoIsSerial(cfg, premises, events[..last], consumer);
      SerialStep(cfg, Exec(cfg, premises, events[..last]).value, events[last], consumer);
    }
  }

  // ---------------------------------------------------------------- rows keep their message

  /** A row of a persisting consumer is covered, and until it completes its message stays. */
  ghost predicate Pinned(w: World, key: ConsumerKey, k: DeliveryKey)
    requires k in w.db.deliveries
  {
    && key in w.db.consumers
    && k.message in w.published
    && w.published[k.message].eventType == key.eventType
    && w.db.consumers[key].boundary <= w.published[k.message].date
    && (w.db.deliveries[k].status != Completed ==> k.message in w.db.messages)
  }

  ghost predicate Pins(w: World, key: ConsumerKey) {
    && (key in w.attached ==> key in w.db.consumers)
    && forall k | k in w.db.deliveries && k.consumer == key.id :: Pinned(w, key, k)
  }

  const ORDERLY := {TimelyCommits, NoUnfinishedDeletion}

  /** Retention removes a message only after every covering consumer completed it. */
  lemma MessageOfRowStays(cfg: Config, premises: set<Premise>, w: World, e: Event, key: ConsumerKey, k: DeliveryKey)
    requires Identifiers(cfg, w) && Step(cfg, premises, w, e) && NoUnfinishedDeletion in premises
    requires k in w.db.deliveries && k.consumer == key.id && Pinned(w, key, k)
    requires w.db.deliveries[k].status != Completed
    ensures k.message in NextTables(cfg, w, e).messages
  {
    assert Respects(cfg, w, e, NoUnfinishedDeletion);
    hide NextPasses, NextFailures;
    if e.DeleteSettled? {
      RetentionSpares(cfg, w, e, key, k);
    } else if e.DeleteForced? {
      YoungMessagesStay(w.db, k.message, e.cutoff);
    } else {
      MessagesStay(cfg, w, e, k.message);
    }
  }

  lemma MessagesStay(cfg: Config, w: World, e: Event, id: MessageId)
    requires Enabled(cfg, w, e) && id in w.db.messages && !e.DeleteSettled? && !e.DeleteForced?
    ensures id in NextTables(cfg, w, e).messages
  {
  }

  lemma RetentionSpares(cfg: Config, w: World, e: Event, key: ConsumerKey, k: DeliveryKey)
    requires Identifiers(cfg, w) && Enabled(cfg, w, e) && e.DeleteSettled?
    requires k in w.db.deliveries && k.consumer == key.id && Pinned(w, key, k)
    requires w.db.deliveries[k].status != Completed
    ensures k.message in NextTables(cfg, w, e).messages
  {
    assert PinnedBy(w.db, key, k.message);
    hide Settled, PinnedBy, Identifiers;
    PinnedIsNotSettled(w.db, key, k.message, e.olderThan);
  }

  lemma YoungMessagesStay(db: Database, id: MessageId, cutoff: Time)
    requires id in db.messages && db.messages[id].date >= cutoff
    ensures id in DeleteMessagesOlderThan(db, cutoff).messages
  {
  }

  lemma PinnedIsNotSettled(db: Database, key: ConsumerKey, id: MessageId, olderThan: Time)
    requires key in db.consumers && id in db.messages && PinnedBy(db, key, id)
    ensures id in DeleteSettledMessages(db, olderThan).messages
  {
  }

  /** The event type of the listener is fixed, so its rows belong to its one registration. */
  lemma RowBelongs(cfg: Config, w: World, key: ConsumerKey, k: DeliveryKey)
    requires Identifiers(cfg, w) && Typed(cfg, key) && k in w.db.deliveries && k.consumer == key.id
    ensures key in w.attached && k.message in w.published && w.published[k.message].eventType == key.eventType
  {
    assert KnownRow(w, k);
  }

  /** A new row is dated at or above the frontier. */
  lemma NewRowIsAboveTheFrontier(
    cfg: Config, premises: set<Premise>, w: World, e: Event, key: ConsumerKey, k: DeliveryKey)
    requires Identifiers(cfg, w) && Bounds(cfg, w) && Typed(cfg, key) && key in w.db.consumers
    requires Step(cfg, premises, w, e) && TimelyCommits in premises
    requires k !in w.db.deliveries && k in NextTables(cfg, w, e).deliveries && k.consumer == key.id
    ensures k.message in w.published && k.message in NextTables(cfg, w, e).messages
    ensures w.db.consumers[key].frontier <= w.published[k.message].date
  {
    OtherRows(cfg, w, e, k);
    assert Respects(cfg, w, e, TimelyCommits);
    if e.Materialize? {
      assert w.passes[e.pass].key in w.attached;
    }
  }

  lemma PinnedStep(cfg: Config, premises: set<Premise>, w: World, e: Event, key: ConsumerKey, k: DeliveryKey)
    requires Identifiers(cfg, w) && Bounds(cfg, w) && Typed(cfg, key) && Pins(w, key)
    requires Step(cfg, premises, w, e) && ORDERLY + {Persists(key)} <= premises
    requires k in NextTables(cfg, w, e).deliveries && k.consumer == key.id
    ensures Pinned(Apply(cfg, w, e), key, k)
  {
    IdentifiersStep(cfg, w, e);
    AttachedIsRegistered(cfg, premises, w, e, key);
    hide NextTables;
    RowBelongs(cfg, Apply(cfg, w, e), key, k);
    ConsumerStep(cfg, w, e, key);
    if k in w.db.deliveries {
      RowBelongs(cfg, w, key, k);
      assert Pinned(w, key, k);
      if w.db.deliveries[k].status == Completed {
        CompletedRowStays(cfg, w, e, k);
      } else {
        MessageOfRowStays(cfg, premises, w, e, key, k);
      }
    } else {
      NewRowIsRegistered(cfg, w, e, key, k);
      NewRowIsAboveTheFrontier(cfg, premises, w, e, key, k);
    }
  }

  lemma NewRowIsRegistered(cfg: Config, w: World, e: Event, key: ConsumerKey, k: DeliveryKey)
    requires Identifiers(cfg, w) && Typed(cfg, key) && Enabled(cfg, w, e)
    requires k !in w.db.deliveries && k in NextTables(cfg, w, e).deliveries && k.consumer == key.id
    ensures key in w.attached
  {
    OtherRows(cfg, w, e, k);
    if e.Materialize? {
      assert w.passes[e.pass].key in w.attached;
    }
  }

  lemma {:induction false} PinsHold(cfg: Config, premises: set<Premise>, events: seq<Event>, key: ConsumerKey)
    requires ValidConfig(cfg) && Typed(cfg, key) && ORDERLY + {Persists(key)} <= premises
    requires Exec(cfg, premises, events).Some?
    ensures Pins(Exec(cfg, premises, events).value, key)
  {
    if events != [] {
      var last := |events| - 1;
      var w := Exec(cfg, premises, events[..last]).value;
      PinsHold(cfg, premises, events[..last], key);
      SettlementHolds(cfg, premises, events[..last]);
      BoundsHold(cfg, premises, events[..last]);
      AttachedIsRegistered(cfg, premises, w, events[last], key);
      forall k | k in NextTables(cfg, w, events[last]).deliveries && k.consumer == key.id
        ensures Pinned(Apply(cfg, w, events[last]), key, k)
      {
        PinnedStep(cfg, premises, w, events[last], key, k);
      }
    }
  }

  // ---------------------------------------------------------------- order over whole runs

  /** Found work is below the frontier and carries its true position. */
  ghost predicate FoundBelow(w: World, key: ConsumerKey) {
    && (key in w.attached ==> key in w.db.consumers)
    && forall work | work in w.found && work.key.consumer == key.id ::
         && key in w.db.consumers
         && work.key.message in w.published
         && work.date == DateOf(w, work.key.message) < w.db.consumers[key].frontier
  }

  /** Whatever the consumer has claimed is below its frontier. */
  ghost predicate ClaimedBelow(w: World, key: ConsumerKey) {
    forall i: nat | ClaimsOf(w, key.id, i) ::
      key in w.db.consumers && DateOf(w, ClaimedMessage(w, i)) < w.db.consumers[key].frontier
  }

  lemma FoundStep(cfg: Config, premises: set<Premise>, w: World, e: Event, key: ConsumerKey)
    requires Identifiers(cfg, w) && Typed(cfg, key) && OrderingOf(cfg, key.id.listener) == Fifo
    requires Step(cfg, premises, w, e) && Persists(key) in premises && FoundBelow(w, key)
    ensures FoundBelow(Apply(cfg, w, e), key)
  {
    AttachedIsRegistered(cfg, premises, w, e, key);
    var w' := Apply(cfg, w, e);
    if key in w'.db.consumers {
      ConsumerStep(cfg, w, e, key);
    }
    assert Respects(cfg, w, e, Persists(key));
    hide NextTables;
    forall work | work in w'.found && work.key.consumer == key.id
      ensures key in w'.db.consumers && work.key.message in w'.published
              && work.date == DateOf(w', work.key.message) < w'.db.consumers[key].frontier
    {
      if work !in w.found {
        assert Findable(w.db, e.key, Fifo, e.id, e.now, e.now - cfg.lease);
      }
    }
  }

  lemma StillRegistered(cfg: Config, premises: set<Premise>, w: World, e: Event, key: ConsumerKey)
    requires Step(cfg, premises, w, e) && Persists(key) in premises && key in w.db.consumers
    ensures key in NextTables(cfg, w, e).consumers
    ensures w.db.consumers[key].frontier <= NextTables(cfg, w, e).consumers[key].frontier
  {
    assert Respects(cfg, w, e, Persists(key));
    ConsumerStep(cfg, w, e, key);
  }

  lemma ClaimedBelowStep(cfg: Config, premises: set<Premise>, w: World, e: Event, key: ConsumerKey)
    requires Recorded(cfg, w) && FoundBelow(w, key) && ClaimedBelow(w, key)
    requires OrderingOf(cfg, key.id.listener) == Fifo && Step(cfg, premises, w, e) && Persists(key) in premises
    ensures ClaimedBelow(Apply(cfg, w, e), key)
  {
    var w' := Apply(cfg, w, e);
    LogStep(cfg, w, e);
    OneClaimAtMost(cfg, w, e, key.id);
    if key in w.db.consumers {
      StillRegistered(cfg, premises, w, e, key);
    }
    ClaimRecordsStay(cfg, w, e);
    hide Apply, NextTables, Enabled, Wins, Respects, Identifiers, Tokens;
    forall i: nat | ClaimsOf(w', key.id, i)
      ensures key in w'.db.consumers && DateOf(w', ClaimedMessage(w', i)) < w'.db.consumers[key].frontier
    {
      if i < |w.claimLog| {
        SameClaim(w, w', key.id, i);
      } else {
        assert e.work in w.found;
      }
    }
  }

  /** Everything an ordered run keeps. */
  ghost predicate Ordered(w: World, key: ConsumerKey) {
    Pins(w, key) && FoundBelow(w, key) && ClaimedBelow(w, key)
  }

  lemma {:induction false} OrderedHolds(cfg: Config, premises: set<Premise>, events: seq<Event>, key: ConsumerKey)
    requires ValidConfig(cfg) && Typed(cfg, key) && OrderingOf(cfg, key.id.listener) == Fifo
    requires ORDERLY + {Persists(key)} <= premises && Exec(cfg, premises, events).Some?
    ensures Ordered(Exec(cfg, premises, events).value, key)
  {
    PinsHold(cfg, premises, events, key);
    if events != [] {
      var last := |events| - 1;
      var w := Exec(cfg, premises, events[..last]).value;
      OrderedHolds(cfg, premises, events[..last], key);
      RecordedHolds(cfg, premises, events[..last]);
      hide Apply, Enabled, Respects;
      FoundStep(cfg, premises, w, events[last], key);
      ClaimedBelowStep(cfg, premises, w, events[last], key);
    }
  }

  /** A new row is above the frontier, and so above everything claimed. */
  lemma MadeRowIsNotOvertaken(
    cfg: Config, premises: set<Premise>, w: World, e: Event, key: ConsumerKey, k: DeliveryKey)
    requires Identifiers(cfg, w) && Bounds(cfg, w) && Typed(cfg, key) && ClaimedBelow(w, key)
    requires Step(cfg, premises, w, e) && TimelyCommits in premises && MakesRow(w, e, k) && k.consumer == key.id
    ensures !Overtaken(w, key.id, k.message)
  {
    if Overtaken(w, key.id, k.message) {
      var i: nat :| ClaimsOf(w, key.id, i) && Precedes(w, k.message, ClaimedMessage(w, i));
      NewRow(cfg, w, e, k);
      NewRowIsAboveTheFrontier(cfg, premises, w, e, key, k);
      assert false;
    }
  }

  /** The premises exclude each of the three kinds of steps. */
  lemma NothingOvertakes(
    cfg: Config, premises: set<Premise>, w: World, e: Event, key: ConsumerKey, k: DeliveryKey)
    requires Identifiers(cfg, w) && Bounds(cfg, w) && Typed(cfg, key) && Ordered(w, key) && k.consumer == key.id
    requires Step(cfg, premises, w, e) && ORDERLY + {NoRevival, Persists(key)} <= premises
    ensures !Overtakes(cfg, w, e, k)
  {
    if MakesRow(w, e, k) {
      MadeRowIsNotOvertaken(cfg, premises, w, e, key, k);
    }
    NothingRevives(cfg, premises, w, e, k);
    assert k in w.db.deliveries ==> Pinned(w, key, k);
    hide Apply, NextTables, Enabled, Wins, Identifiers, MakesRow, RevivesBehind, ClaimsLater, Overtaken, Respects;
  }

  lemma NothingRevives(cfg: Config, premises: set<Premise>, w: World, e: Event, k: DeliveryKey)
    requires Step(cfg, premises, w, e) && NoRevival in premises
    ensures !RevivesBehind(w, e, k)
  {
    assert Respects(cfg, w, e, NoRevival);
  }

  lemma NothingOvertakesAt(
    cfg: Config, premises: set<Premise>, events: seq<Event>, key: ConsumerKey, n: nat, k: DeliveryKey)
    requires ValidConfig(cfg) && Typed(cfg, key) && OrderingOf(cfg, key.id.listener) == Fifo
    requires ORDERLY + {NoRevival, Persists(key)} <= premises && Exec(cfg, premises, events).Some?
    requires k.consumer == key.id && n < |events|
    ensures !OvertakesAt(cfg, premises, events, n, k)
  {
    Prefixes(cfg, premises, events, n);
    OrderedHolds(cfg, premises, events[..n], key);
    SettlementHolds(cfg, premises, events[..n]);
    BoundsHold(cfg, premises, events[..n]);
    hide Exec, Apply, Enabled, Respects, Overtakes, Identifiers, Tokens, Budgets, Bounds, Ordered;
    NothingOvertakes(cfg, premises, Exec(cfg, premises, events[..n]).value, events[n], key, k);
  }

  /**
   FIFO over whole runs: across all nodes, the successful claims of a FIFO
   consumer never go back in (publication date, message identifier). Two claims at
   one position are of the same row, and between them its claim was settled or its
   lease ran out.
   */
  lemma FifoClaimsInOrder(
    cfg: Config, premises: set<Premise>, events: seq<Event>, w: World, key: ConsumerKey, i: nat, j: nat)
    requires ValidConfig(cfg) && Typed(cfg, key) && OrderingOf(cfg, key.id.listener) == Fifo
    requires ORDERLY + {NoRevival, Persists(key)} <= premises && Exec(cfg, premises, events) == Some(w)
    requires i < j && ClaimsOf(w, key.id, i) && ClaimsOf(w, key.id, j)
    ensures || Precedes(w, ClaimedMessage(w, i), ClaimedMessage(w, j))
            || (&& w.claims[w.claimLog[i]].key == w.claims[w.claimLog[j]].key
                && (w.claimLog[i] in w.settlementLog || Stolen(cfg, w, i, j + 1)))
  {
    forall n: nat, k: DeliveryKey | n < |events| && k.consumer == key.id
      ensures !OvertakesAt(cfg, premises, events, n, k)
    {
      NothingOvertakesAt(cfg, premises, events, key, n, k);
    }
    NothingOvertakesKeepsOrder(cfg, premises, events, w, key.id);
    hide Exec;
    if ClaimedMessage(w, i) == ClaimedMessage(w, j) {
      RepeatsAreRetriesOrSteals(cfg, premises, events, w, key, i, j);
    }
  }
}
