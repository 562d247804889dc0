/**
 The materialization frontier: below it every message a consumer covers is already
 visible and already has its delivery row. Two kinds of steps can break this for a
 message, a commit after the scan and a registration below a scan already made; it
 holds exactly of the runs without them.
 */
module SqlBusFrontier {
  import opened Wrappers
  import opened SqlBusModel
  import opened SqlBusProtocol
  import opened SqlBusSettlement

  // ---------------------------------------------------------------- time bounds

  /** No floor is ever younger than the grace. */
  ghost predicate Bounds(cfg: Config, w: World) {
    && (forall key | key in w.db.consumers ::
          w.db.consumers[key].boundary <= w.db.consumers[key].frontier <= w.clock - cfg.grace)
    && (forall pass | pass in w.passes :: w.passes[pass].ceiling <= w.clock - cfg.grace)
  }

  lemma BoundsStep(cfg: Config, w: World, e: Event)
    requires Bounds(cfg, w) && Enabled(cfg, w, e)
    ensures Bounds(cfg, Apply(cfg, w, e)) && w.clock <= Apply(cfg, w, e).clock
  {
    var w' := Apply(cfg, w, e);
    forall key | key in w'.db.consumers
      ensures w'.db.consumers[key].boundary <= w'.db.consumers[key].frontier <= w'.clock - cfg.grace
    {
      ConsumerStep(cfg, w, e, key);
    }
    hide NextTables;
  }

  /** A registration keeps its boundary, and its frontier only rises, to a ceiling of its own. */
  lemma ConsumerStep(cfg: Config, w: World, e: Event, key: ConsumerKey)
    requires Enabled(cfg, w, e) && key in NextTables(cfg, w, e).consumers
    ensures key in w.db.consumers ==>
              && NextTables(cfg, w, e).consumers[key].boundary == w.db.consumers[key].boundary
              && w.db.consumers[key].frontier <= NextTables(cfg, w, e).consumers[key].frontier
              && (NextTables(cfg, w, e).consumers[key].frontier == w.db.consumers[key].frontier
                  || (e.Advance? && w.passes[e.pass].key == key
                      && NextTables(cfg, w, e).consumers[key].frontier == w.passes[e.pass].ceiling))
    ensures key !in w.db.consumers ==>
              && e.Attach? && e.key == key
              && NextTables(cfg, w, e).consumers[key].boundary == NextTables(cfg, w, e).consumers[key].frontier
              && NextTables(cfg, w, e).consumers[key].frontier == e.now - cfg.grace
  {
  }

  lemma {:induction false} BoundsHold(cfg: Config, premises: set<Premise>, events: seq<Event>)
    requires Exec(cfg, premises, events).Some?
    ensures Bounds(cfg, Exec(cfg, premises, events).value)
  {
    if events != [] {
      var last := |events| - 1;
      BoundsHold(cfg, premises, events[..last]);
      BoundsStep(cfg, Exec(cfg, premises, events[..last]).value, events[last]);
    }
  }

  // ---------------------------------------------------------------- nothing arrives late

  /** A message that becomes visible in a timely step is dated inside the grace window. */
  lemma ArrivalIsRecent(cfg: Config, premises: set<Premise>, w: World, e: Event, id: MessageId)
    requires Step(cfg, premises, w, e) && TimelyCommit(id) in premises
    requires id in NextTables(cfg, w, e).messages && id !in w.db.messages
    ensures w.clock - cfg.grace <= NextTables(cfg, w, e).messages[id].date
  {
    assert Respects(cfg, w, e, TimelyCommit(id));
  }

  lemma MessageKept(cfg: Config, w: World, e: Event, id: MessageId)
    requires Identifiers(cfg, w) && Enabled(cfg, w, e)
    requires id in NextTables(cfg, w, e).messages && id in w.db.messages
    ensures NextTables(cfg, w, e).messages[id] == w.db.messages[id]
  {
  }

  /**
   A message that commits within its grace and is dated before some frontier was
   visible already when that frontier stood, if it is visible at any later time.
   */
  lemma {:induction false} NothingArrivesBelowTheFrontier(
    cfg: Config, premises: set<Premise>, events: seq<Event>, later: seq<Event>, key: ConsumerKey, id: MessageId)
    requires ValidConfig(cfg) && TimelyCommit(id) in premises
    requires Exec(cfg, premises, events).Some? && Exec(cfg, premises, events + later).Some?
    requires key in Exec(cfg, premises, events).value.db.consumers
    requires id in Exec(cfg, premises, events + later).value.db.messages
    requires Exec(cfg, premises, events + later).value.db.messages[id].date
             < Exec(cfg, premises, events).value.db.consumers[key].frontier
    ensures id in Exec(cfg, premises, events).value.db.messages
    ensures Exec(cfg, premises, events).value.clock <= Exec(cfg, premises, events + later).value.clock
    decreases |later|
  {
    if later == [] {
      assert events + later == events;
    } else {
      var last := |later| - 1;
      assert (events + later)[..|events + later| - 1] == events + later[..last];
      var w := Exec(cfg, premises, events + later[..last]).value;
      SettlementHolds(cfg, premises, events + later[..last]);
      BoundsHold(cfg, premises, events);
      ClockRises(cfg, premises, events, later[..last]);
      if id in w.db.messages {
        MessageKept(cfg, w, later[last], id);
        NothingArrivesBelowTheFrontier(cfg, premises, events, later[..last], key, id);
      } else {
        ArrivalIsRecent(cfg, premises, w, later[last], id);
      }
    }
  }

  lemma {:induction false} ClockRises(cfg: Config, premises: set<Premise>, events: seq<Event>, later: seq<Event>)
    requires Exec(cfg, premises, events).Some? && Exec(cfg, premises, events + later).Some?
    ensures Exec(cfg, premises, events).value.clock <= Exec(cfg, premises, events + later).value.clock
    decreases |later|
  {
    if later == [] {
      assert events + later == events;
    } else {
      var last := |later| - 1;
      assert (events + later)[..|events + later| - 1] == events + later[..last];
      ClockRises(cfg, premises, events, later[..last]);
    }
  }

  // ---------------------------------------------------------------- completeness

  /** The ground the consumer has scanned: its frontier, or the ceiling of a pass that has materialized. */
  ghost predicate Passed(w: World, key: ConsumerKey, date: Time) {
    && key in w.db.consumers
    && (date < w.db.consumers[key].frontier || ScannedTo(w, key, date))
  }

  /** A pass in flight has materialized and is about to advance beyond the date. */
  ghost predicate ScannedTo(w: World, key: ConsumerKey, date: Time) {
    exists pass | pass in w.passes ::
      w.passes[pass].key == key && w.passes[pass].materialized && date < w.passes[pass].ceiling
  }

  ghost predicate Covers(w: World, key: ConsumerKey, id: MessageId) {
    && key in w.db.consumers
    && id in w.db.messages
    && w.db.messages[id].eventType == key.eventType
    && w.db.consumers[key].boundary <= w.db.messages[id].date
  }

  /** A covered message behind the scan without a row. */
  ghost predicate Skipped(w: World, key: ConsumerKey, id: MessageId) {
    && Covers(w, key, id) && Passed(w, key, w.db.messages[id].date)
    && DeliveryKey(id, key.id) !in w.db.deliveries
  }

  /** A covered message below the frontier without a row, and so never delivered. */
  ghost predicate Stranded(w: World, key: ConsumerKey, id: MessageId) {
    && Covers(w, key, id) && w.db.messages[id].date < w.db.consumers[key].frontier
    && DeliveryKey(id, key.id) !in w.db.deliveries
  }

  // ---------------------------------------------------------------- the two steps that skip a message

  /** The commit publishes the message behind the scan of a consumer it has no local row for. */
  ghost predicate CommitsBehind(w: World, e: Event, key: ConsumerKey, id: MessageId) {
    && e.Commit? && id in e.ids && id in w.open && id in w.published
    && w.published[id].eventType == key.eventType
    && key in w.db.consumers && w.db.consumers[key].boundary <= w.published[id].date
    && Passed(w, key, w.published[id].date)
    && key.id !in w.open[id]
  }

  /** The registration covers a visible message below a scan that a pass made before it. */
  ghost predicate RegistersBehind(cfg: Config, w: World, e: Event, key: ConsumerKey, id: MessageId) {
    && e.Attach? && e.key == key && key !in w.db.consumers
    && id in w.db.messages && w.db.messages[id].eventType == key.eventType
    && e.now - cfg.grace <= w.db.messages[id].date
    && ScannedTo(w, key, w.db.messages[id].date)
    && DeliveryKey(id, key.id) !in w.db.deliveries
  }

  ghost predicate Skips(cfg: Config, w: World, e: Event, key: ConsumerKey, id: MessageId) {
    CommitsBehind(w, e, key, id) || RegistersBehind(cfg, w, e, key, id)
  }

  lemma RowOfMessageStays(cfg: Config, w: World, e: Event, key: ConsumerKey, id: MessageId)
    requires Enabled(cfg, w, e) && key in w.db.consumers
    requires DeliveryKey(id, key.id) in w.db.deliveries && id in NextTables(cfg, w, e).messages
    ensures DeliveryKey(id, key.id) in NextTables(cfg, w, e).deliveries
  {
    if DeliveryKey(id, key.id) !in NextTables(cfg, w, e).deliveries {
      SweptRowHasNoMessage(cfg, w, e, key, DeliveryKey(id, key.id));
    }
  }

  /** The scan inserts every covered row from the frontier up. */
  lemma ScanIsExhaustive(cfg: Config, w: World, e: Event, id: MessageId)
    requires Enabled(cfg, w, e) && e.Materialize? && Covers(w, w.passes[e.pass].key, id)
    requires w.db.consumers[w.passes[e.pass].key].frontier <= w.db.messages[id].date
    ensures DeliveryKey(id, w.passes[e.pass].key.id) in NextTables(cfg, w, e).deliveries
  {
    assert Scanned(w.db, w.passes[e.pass].key, id);
  }

  /** The scanned ground of a registration grows only by a finished scan. */
  lemma PassedStep(cfg: Config, w: World, e: Event, key: ConsumerKey, date: Time)
    requires Enabled(cfg, w, e) && key in w.db.consumers && key in NextTables(cfg, w, e).consumers
    ensures Passed(Apply(cfg, w, e), key, date)
       <==> Passed(w, key, date)
            || (e.Materialize? && w.passes[e.pass].key == key && date < w.passes[e.pass].ceiling)
  {
    ConsumerStep(cfg, w, e, key);
    PassesStep(cfg, w, e, key, date);
    FrontierStep(cfg, w, e, key);
    hide NextTables, NextPasses, Enabled;
  }

  lemma PassesStep(cfg: Config, w: World, e: Event, key: ConsumerKey, date: Time)
    requires Enabled(cfg, w, e)
    ensures ScannedTo(Apply(cfg, w, e), key, date) ==>
              || ScannedTo(w, key, date)
              || (e.Materialize? && w.passes[e.pass].key == key && date < w.passes[e.pass].ceiling)
    ensures ScannedTo(w, key, date) ==>
              || ScannedTo(Apply(cfg, w, e), key, date)
              || (e.Advance? && w.passes[e.pass].key == key && date < w.passes[e.pass].ceiling)
    ensures e.Materialize? && w.passes[e.pass].key == key && date < w.passes[e.pass].ceiling ==>
              ScannedTo(Apply(cfg, w, e), key, date)
    ensures e.Advance? ==> w.passes[e.pass].materialized
  {
    hide NextTables, NextFailures;
    var w' := Apply(cfg, w, e);
    if ScannedTo(w, key, date) {
      var pass :| pass in w.passes && w.passes[pass].key == key && w.passes[pass].materialized
                  && date < w.passes[pass].ceiling;
      assert pass in w'.passes ==> w'.passes[pass] == w.passes[pass];
    }
    if e.Materialize? {
      assert e.pass in w'.passes && w'.passes[e.pass].materialized;
    }
  }

  lemma FrontierStep(cfg: Config, w: World, e: Event, key: ConsumerKey)
    requires Enabled(cfg, w, e) && key in w.db.consumers && key in NextTables(cfg, w, e).consumers
    ensures e.Advance? && w.passes[e.pass].key == key ==>
              w.passes[e.pass].ceiling <= NextTables(cfg, w, e).consumers[key].frontier
  {
  }

  lemma OnlyCommitsPublish(cfg: Config, w: World, e: Event, id: MessageId)
    requires Enabled(cfg, w, e) && id in NextTables(cfg, w, e).messages && id !in w.db.messages
    ensures e.Commit? && id in e.ids && id in w.open && id in w.published
    ensures NextTables(cfg, w, e).messages[id] == w.published[id]
  {
  }

  lemma LocalRows(cfg: Config, w: World, e: Event, key: ConsumerKey, id: MessageId)
    requires Enabled(cfg, w, e) && e.Commit? && id in e.ids && DeliveryKey(id, key.id) !in w.db.deliveries
    ensures NextTables(cfg, w, e).consumers == w.db.consumers
    ensures DeliveryKey(id, key.id) in NextTables(cfg, w, e).deliveries <==> key.id in w.open[id]
  {
  }

  /** A message that a step makes visible was a draft of the committed transaction. */
  lemma ArrivalIsCommitted(cfg: Config, w: World, e: Event, key: ConsumerKey, id: MessageId)
    requires Identifiers(cfg, w) && Enabled(cfg, w, e)
    requires id in NextTables(cfg, w, e).messages && id !in w.db.messages
    ensures e.Commit? && id in e.ids && id in w.open && id in w.published
    ensures NextTables(cfg, w, e).messages[id] == w.published[id]
    ensures NextTables(cfg, w, e).consumers == w.db.consumers
    ensures DeliveryKey(id, key.id) in NextTables(cfg, w, e).deliveries <==> key.id in w.open[id]
  {
    OnlyCommitsPublish(cfg, w, e, id);
    assert DeliveryKey(id, key.id) in w.db.deliveries ==> KnownRow(w, DeliveryKey(id, key.id));
    LocalRows(cfg, w, e, key, id);
    hide NextTables, Enabled;
  }

  /** A row of a visible message comes only from the scan of its consumer. */
  lemma NewRowIsScanned(cfg: Config, w: World, e: Event, key: ConsumerKey, id: MessageId)
    requires Identifiers(cfg, w) && Enabled(cfg, w, e) && id in w.db.messages
    requires DeliveryKey(id, key.id) !in w.db.deliveries
    requires DeliveryKey(id, key.id) in NextTables(cfg, w, e).deliveries
    ensures e.Materialize? && w.passes[e.pass].key.id == key.id && Scanned(w.db, w.passes[e.pass].key, id)
  {
    var k := DeliveryKey(id, key.id);
    if Touched(w, e) == Some(k) {
      TouchedRowExists(cfg, w, e, k);
    } else {
      OtherRows(cfg, w, e, k);
    }
  }

  /**
   Which steps skip a message of a consumer: exactly a commit behind the scan
   without a local row, and a new registration below a scan already made.
   */
  lemma SkippedExactly(cfg: Config, w: World, e: Event, key: ConsumerKey, id: MessageId)
    requires Identifiers(cfg, w) && Enabled(cfg, w, e) && !Skipped(w, key, id)
    ensures Skipped(Apply(cfg, w, e), key, id) <==> Skips(cfg, w, e, key, id)
  {
    hide NextTables, NextPasses, Enabled, Identifiers, Skipped;
    if e.Commit? {
      SkippedByCommit(cfg, w, e, key, id);
    } else if key !in w.db.consumers {
      SkippedByAttach(cfg, w, e, key, id);
    } else {
      NotSkippedOtherwise(cfg, w, e, key, id);
    }
  }

  lemma SkippedByCommit(cfg: Config, w: World, e: Event, key: ConsumerKey, id: MessageId)
    requires Identifiers(cfg, w) && Enabled(cfg, w, e) && !Skipped(w, key, id) && e.Commit?
    ensures Skipped(Apply(cfg, w, e), key, id) <==> CommitsBehind(w, e, key, id)
  {
    var w' := Apply(cfg, w, e);
    assert id in e.ids && id in w.published ==> id in w'.db.messages;
    if id in w'.db.messages && id !in w.db.messages {
      ArrivalIsCommitted(cfg, w, e, key, id);
    }
    assert w'.passes == w.passes && w'.db.consumers == w.db.consumers;
    assert Passed(w', key, 0) <==> Passed(w, key, 0);
    if id in w.db.messages {
      assert id !in w.open && w'.db.messages[id] == w.db.messages[id];
    }
  }

  lemma SkippedByAttach(cfg: Config, w: World, e: Event, key: ConsumerKey, id: MessageId)
    requires Identifiers(cfg, w) && Enabled(cfg, w, e) && key !in w.db.consumers && !e.Commit?
    ensures Skipped(Apply(cfg, w, e), key, id) <==> RegistersBehind(cfg, w, e, key, id)
  {
    var w' := Apply(cfg, w, e);
    if key in w'.db.consumers {
      ConsumerStep(cfg, w, e, key);
      assert w'.passes == w.passes && w'.db.messages == w.db.messages && w'.db.deliveries == w.db.deliveries;
    }
  }

  lemma NotSkippedOtherwise(cfg: Config, w: World, e: Event, key: ConsumerKey, id: MessageId)
    requires Identifiers(cfg, w) && Enabled(cfg, w, e) && !Skipped(w, key, id)
    requires key in w.db.consumers && !e.Commit?
    ensures !Skipped(Apply(cfg, w, e), key, id)
  {
    var w' := Apply(cfg, w, e);
    if Skipped(w', key, id) {
      if id !in w.db.messages {
        ArrivalIsCommitted(cfg, w, e, key, id);
      }
      MessageKept(cfg, w, e, id);
      ConsumerStep(cfg, w, e, key);
      PassedStep(cfg, w, e, key, w.db.messages[id].date);
      if DeliveryKey(id, key.id) in w.db.deliveries {
        RowOfMessageStays(cfg, w, e, key, id);
      } else if w.db.consumers[key].frontier <= w.db.messages[id].date
                && e.Materialize? && w.passes[e.pass].key == key
      {
        ScanIsExhaustive(cfg, w, e, id);
      }
      assert false;
    }
  }

  /**
   Which steps strand a message: exactly a commit below the frontier without a
   local row, and an advance of the frontier over a message that was skipped.
   */
  lemma StrandedExactly(cfg: Config, w: World, e: Event, key: ConsumerKey, id: MessageId)
    requires Identifiers(cfg, w) && Enabled(cfg, w, e) && !Stranded(w, key, id)
    ensures Stranded(Apply(cfg, w, e), key, id)
       <==> || (CommitsBehind(w, e, key, id) && w.published[id].date < w.db.consumers[key].frontier)
            || (e.Advance? && w.passes[e.pass].key == key && Skipped(w, key, id)
                && w.db.messages[id].date < w.passes[e.pass].ceiling)
  {
    if e.Commit? {
      StrandedByCommit(cfg, w, e, key, id);
    } else if e.Advance? {
      StrandedByAdvance(cfg, w, e, key, id);
    } else {
      NotStrandedOtherwise(cfg, w, e, key, id);
    }
  }

  lemma StrandedByCommit(cfg: Config, w: World, e: Event, key: ConsumerKey, id: MessageId)
    requires Identifiers(cfg, w) && Enabled(cfg, w, e) && !Stranded(w, key, id) && e.Commit?
    ensures Stranded(Apply(cfg, w, e), key, id)
       <==> CommitsBehind(w, e, key, id) && w.published[id].date < w.db.consumers[key].frontier
  {
    var w' := Apply(cfg, w, e);
    assert id in e.ids && id in w.published ==> id in w'.db.messages;
    if id in w'.db.messages && id !in w.db.messages {
      ArrivalIsCommitted(cfg, w, e, key, id);
    }
    assert w'.db.consumers == w.db.consumers;
    if id in w.db.messages {
      assert id !in w.open && w'.db.messages[id] == w.db.messages[id];
    }
  }

  lemma StrandedByAdvance(cfg: Config, w: World, e: Event, key: ConsumerKey, id: MessageId)
    requires Enabled(cfg, w, e) && !Stranded(w, key, id) && e.Advance?
    ensures Stranded(Apply(cfg, w, e), key, id)
       <==> w.passes[e.pass].key == key && Skipped(w, key, id) && w.db.messages[id].date < w.passes[e.pass].ceiling
  {
    var w' := Apply(cfg, w, e);
    assert w'.db.messages == w.db.messages && w'.db.deliveries == w.db.deliveries;
    assert w'.db.consumers.Keys == w.db.consumers.Keys;
    if w.passes[e.pass].key == key && Covers(w, key, id) && w.db.messages[id].date < w.passes[e.pass].ceiling {
      assert ScannedTo(w, key, w.db.messages[id].date);
    }
  }

  lemma NotStrandedOtherwise(cfg: Config, w: World, e: Event, key: ConsumerKey, id: MessageId)
    requires Identifiers(cfg, w) && Enabled(cfg, w, e) && !Stranded(w, key, id) && !e.Commit? && !e.Advance?
    ensures !Stranded(Apply(cfg, w, e), key, id)
  {
    var w' := Apply(cfg, w, e);
    if Stranded(w', key, id) {
      if id !in w.db.messages {
        ArrivalIsCommitted(cfg, w, e, key, id);
      }
      MessageKept(cfg, w, e, id);
      ConsumerStep(cfg, w, e, key);
      RowOfMessageStays(cfg, w, e, key, id);
      assert false;
    }
  }

  /** A stranded message stays stranded while it and the registration last: no scan reaches it again. */
  lemma StrandedStays(cfg: Config, w: World, e: Event, key: ConsumerKey, id: MessageId)
    requires Identifiers(cfg, w) && Enabled(cfg, w, e) && Stranded(w, key, id)
    requires key in NextTables(cfg, w, e).consumers && id in NextTables(cfg, w, e).messages
    ensures Stranded(Apply(cfg, w, e), key, id)
  {
    MessageKept(cfg, w, e, id);
    ConsumerStep(cfg, w, e, key);
    if DeliveryKey(id, key.id) in NextTables(cfg, w, e).deliveries {
      NewRowIsScanned(cfg, w, e, key, id);
      assert false;
    }
  }

  // ---------------------------------------------------------------- runs

  lemma {:induction false} Prefixes(cfg: Config, premises: set<Premise>, events: seq<Event>, n: nat)
    requires Exec(cfg, premises, events).Some? && n <= |events|
    ensures Exec(cfg, premises, events[..n]).Some?
    ensures n < |events| ==>
              && Step(cfg, premises, Exec(cfg, premises, events[..n]).value, events[n])
              && Exec(cfg, premises, events[..n + 1]).Some?
              && Exec(cfg, premises, events[..n + 1]).value
                 == Apply(cfg, Exec(cfg, premises, events[..n]).value, events[n])
  {
    hide Apply, Enabled, Respects;
    if n == |events| {
      assert events[..n] == events;
    } else if n + 1 == |events| {
      assert events[..n + 1] == events;
    } else {
      var front := events[..|events| - 1];
      Prefixes(cfg, premises, front, n);
      assert front[..n] == events[..n] && front[..n + 1] == events[..n + 1];
    }
  }

  function StateAt(cfg: Config, premises: set<Premise>, events: seq<Event>, n: nat): Option<World> {
    if n <= |events| then Exec(cfg, premises, events[..n]) else None
  }

  ghost predicate SkippedAt(
    cfg: Config, premises: set<Premise>, events: seq<Event>, n: nat, key: ConsumerKey, id: MessageId)
  {
    StateAt(cfg, premises, events, n).Some? && Skipped(StateAt(cfg, premises, events, n).value, key, id)
  }

  ghost predicate SkipsAt(
    cfg: Config, premises: set<Premise>, events: seq<Event>, n: nat, key: ConsumerKey, id: MessageId)
  {
    && n < |events| && StateAt(cfg, premises, events, n).Some?
    && Skips(cfg, StateAt(cfg, premises, events, n).value, events[n], key, id)
  }

  /**
   Frontier completeness, exactly: over any run, a message is at no time behind
   the scan of a consumer without its row if and only if no step of the run
   commits it behind the scan without a local row or registers the consumer
   below a scan already made.
   */
  lemma NeverSkippedExactly(
    cfg: Config, premises: set<Premise>, events: seq<Event>, key: ConsumerKey, id: MessageId)
    requires ValidConfig(cfg) && Exec(cfg, premises, events).Some?
    ensures (forall n: nat | n <= |events| :: !SkippedAt(cfg, premises, events, n, key, id))
       <==> (forall n: nat | n < |events| :: !SkipsAt(cfg, premises, events, n, key, id))
  {
    if forall n: nat | n < |events| :: !SkipsAt(cfg, premises, events, n, key, id) {
      forall n: nat | n <= |events| ensures !SkippedAt(cfg, premises, events, n, key, id) {
        NotSkippedSoFar(cfg, premises, events, n, key, id);
      }
    }
    if forall n: nat | n <= |events| :: !SkippedAt(cfg, premises, events, n, key, id) {
      forall n: nat | n < |events| ensures !SkipsAt(cfg, premises, events, n, key, id) {
        SkipStep(cfg, premises, events, n, key, id);
        assert !SkippedAt(cfg, premises, events, n, key, id);
        assert !SkippedAt(cfg, premises, events, n + 1, key, id);
      }
    }
  }

  lemma SkipStep(
    cfg: Config, premises: set<Premise>, events: seq<Event>, n: nat, key: ConsumerKey, id: MessageId)
    requires ValidConfig(cfg) && Exec(cfg, premises, events).Some? && n < |events|
    ensures !SkippedAt(cfg, premises, events, n, key, id) ==>
              (SkippedAt(cfg, premises, events, n + 1, key, id) <==> SkipsAt(cfg, premises, events, n, key, id))
  {
    Prefixes(cfg, premises, events, n);
    SettlementHolds(cfg, premises, events[..n]);
    hide Exec, Apply, Enabled, Respects, Skipped, Skips, Identifiers, Tokens, Budgets;
    var w := Exec(cfg, premises, events[..n]).value;
    if !Skipped(w, key, id) {
      SkippedExactly(cfg, w, events[n], key, id);
    }
  }

  lemma {:induction false} NotSkippedSoFar(
    cfg: Config, premises: set<Premise>, events: seq<Event>, n: nat, key: ConsumerKey, id: MessageId)
    requires ValidConfig(cfg) && Exec(cfg, premises, events).Some? && n <= |events|
    requires forall k: nat | k < n :: !SkipsAt(cfg, premises, events, k, key, id)
    ensures !SkippedAt(cfg, premises, events, n, key, id)
  {
    if n == 0 {
      assert events[..0] == [];
    } else {
      NotSkippedSoFar(cfg, premises, events, n - 1, key, id);
      SkipStep(cfg, premises, events, n - 1, key, id);
    }
  }

  // ---------------------------------------------------------------- premises that exclude them

  /** A commit within the grace is never behind a scan: every floor is at least the grace old. */
  lemma TimelyCommitIsAhead(cfg: Config, premises: set<Premise>, w: World, e: Event, key: ConsumerKey, id: MessageId)
    requires Bounds(cfg, w) && Step(cfg, premises, w, e) && TimelyCommit(id) in premises
    ensures !CommitsBehind(w, e, key, id)
  {
    assert Respects(cfg, w, e, TimelyCommit(id));
  }

  lemma CleanRegistrationIsAhead(
    cfg: Config, premises: set<Premise>, w: World, e: Event, key: ConsumerKey, id: MessageId)
    requires Step(cfg, premises, w, e) && CleanRegistration(key) in premises
    ensures !RegistersBehind(cfg, w, e, key, id)
  {
    assert Respects(cfg, w, e, CleanRegistration(key));
  }

  lemma {:induction false} NeverSkipped(
    cfg: Config, premises: set<Premise>, events: seq<Event>, key: ConsumerKey, id: MessageId)
    requires ValidConfig(cfg) && TimelyCommit(id) in premises && CleanRegistration(key) in premises
    requires Exec(cfg, premises, events).Some?
    ensures !Skipped(Exec(cfg, premises, events).value, key, id)
  {
    if events != [] {
      var last := |events| - 1;
      var w := Exec(cfg, premises, events[..last]).value;
      NeverSkipped(cfg, premises, events[..last], key, id);
      SettlementHolds(cfg, premises, events[..last]);
      BoundsHold(cfg, premises, events[..last]);
      hide Apply, Enabled, Respects, Skipped, CommitsBehind, RegistersBehind, Identifiers, Tokens, Budgets, Bounds;
      TimelyCommitIsAhead(cfg, premises, w, events[last], key, id);
      CleanRegistrationIsAhead(cfg, premises, w, events[last], key, id);
      SkippedExactly(cfg, w, events[last], key, id);
    }
  }

  /**
   Frontier completeness, message by message: a message that commits within its
   grace, is covered by the consumer and is dated below its frontier, and that
   exists or will ever become visible, is already visible and already has its
   row. The registration may be removed and made again, as long as it is not made
   below a scan in flight.
   */
  lemma FrontierCompleteness(
    cfg: Config, premises: set<Premise>, events: seq<Event>, later: seq<Event>,
    w: World, w': World, key: ConsumerKey, id: MessageId)
    requires ValidConfig(cfg) && TimelyCommit(id) in premises && CleanRegistration(key) in premises
    requires Exec(cfg, premises, events) == Some(w) && Exec(cfg, premises, events + later) == Some(w')
    requires key in w.db.consumers && id in w'.db.messages
    requires w'.db.messages[id].eventType == key.eventType
    requires w.db.consumers[key].boundary <= w'.db.messages[id].date < w.db.consumers[key].frontier
    ensures id in w.db.messages && w.db.messages[id] == w'.db.messages[id]
    ensures DeliveryKey(id, key.id) in w.db.deliveries
  {
    hide Apply, Enabled, Respects;
    NothingArrivesBelowTheFrontier(cfg, premises, events, later, key, id);
    SettlementHolds(cfg, premises, events);
    SettlementHolds(cfg, premises, events + later);
    DraftsNeverChange(cfg, premises, events, later, id);
    NeverSkipped(cfg, premises, events, key, id);
    assert Covers(w, key, id);
  }

  /** Commits that are all timely are timely for each message; a persisting registration is made before any scan. */
  lemma {:induction false} PersistingRunsAreClean(
    cfg: Config, premises: set<Premise>, events: seq<Event>, key: ConsumerKey, id: MessageId)
    requires ValidConfig(cfg) && TimelyCommits in premises && Persists(key) in premises
    requires Exec(cfg, premises, events).Some?
    ensures Exec(cfg, premises + {TimelyCommit(id), CleanRegistration(key)}, events) == Exec(cfg, premises, events)
    ensures var w := Exec(cfg, premises, events).value; key in w.attached ==> key in w.db.consumers
  {
    if events != [] {
      var last := |events| - 1;
      var w := Exec(cfg, premises, events[..last]).value;
      PersistingRunsAreClean(cfg, premises, events[..last], key, id);
      SettlementHolds(cfg, premises, events[..last]);
      AttachedIsRegistered(cfg, premises, w, events[last], key);
      PersistingStepIsClean(cfg, premises, w, events[last], key, id);
    }
  }

  lemma PersistingStepIsClean(
    cfg: Config, premises: set<Premise>, w: World, e: Event, key: ConsumerKey, id: MessageId)
    requires Identifiers(cfg, w) && Step(cfg, premises, w, e) && TimelyCommits in premises
    requires key in w.attached ==> key in w.db.consumers
    ensures Step(cfg, premises + {TimelyCommit(id), CleanRegistration(key)}, w, e)
  {
    assert Respects(cfg, w, e, TimelyCommits);
    assert Respects(cfg, w, e, TimelyCommit(id));
    forall pass | pass in w.passes && w.passes[pass].key == key ensures key in w.db.consumers {
      assert w.passes[pass].key in w.attached;
    }
    assert Respects(cfg, w, e, CleanRegistration(key));
  }

  /** The same for a whole consumer: all commits timely, and its registration persists. */
  lemma PersistingFrontierCompleteness(
    cfg: Config, premises: set<Premise>, events: seq<Event>, later: seq<Event>,
    w: World, w': World, key: ConsumerKey, id: MessageId)
    requires ValidConfig(cfg) && TimelyCommits in premises && Persists(key) in premises
    requires Exec(cfg, premises, events) == Some(w) && Exec(cfg, premises, events + later) == Some(w')
    requires key in w.db.consumers && id in w'.db.messages
    requires w'.db.messages[id].eventType == key.eventType
    requires w.db.consumers[key].boundary <= w'.db.messages[id].date < w.db.consumers[key].frontier
    ensures id in w.db.messages && w.db.messages[id] == w'.db.messages[id]
    ensures DeliveryKey(id, key.id) in w.db.deliveries
  {
    PersistingRunsAreClean(cfg, premises, events, key, id);
    PersistingRunsAreClean(cfg, premises, events + later, key, id);
    hide Exec;
    FrontierCompleteness(cfg, premises + {TimelyCommit(id), CleanRegistration(key)}, events, later, w, w', key, id);
  }

  lemma {:induction false} DraftsNeverChange(
    cfg: Config, premises: set<Premise>, events: seq<Event>, later: seq<Event>, id: MessageId)
    requires Exec(cfg, premises, events).Some? && Exec(cfg, premises, events + later).Some?
    requires id in Exec(cfg, premises, events).value.published
    ensures id in Exec(cfg, premises, events + later).value.published
    ensures Exec(cfg, premises, events + later).value.published[id] == Exec(cfg, premises, events).value.published[id]
    decreases |later|
  {
    if later == [] {
      assert events + later == events;
    } else {
      var last := |later| - 1;
      assert (events + later)[..|events + later| - 1] == events + later[..last];
      DraftsNeverChange(cfg, premises, events, later[..last], id);
    }
  }
}
