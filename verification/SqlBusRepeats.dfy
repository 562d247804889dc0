/**
 What never comes back: a swept row does not, and a row is claimed again only
 after its claim was settled or its lease ran out.
 */
module SqlBusRepeats {
  import opened Wrappers
  import opened SqlBusModel
  import opened SqlBusProtocol
  import opened SqlBusSettlement

  // ---------------------------------------------------------------- swept rows

  /** Neither the row nor its message is there, and the message is no draft any more. */
  ghost predicate Gone(w: World, k: DeliveryKey) {
    k !in w.db.deliveries && k.message in w.published && k.message !in w.open && k.message !in w.db.messages
  }

  lemma GoneStep(cfg: Config, w: World, e: Event, k: DeliveryKey)
    requires Enabled(cfg, w, e) && Gone(w, k)
    ensures Gone(Apply(cfg, w, e), k)
  {
    GoneStaysGone(cfg, w, e, k.message);
    if k in NextTables(cfg, w, e).deliveries {
      if Touched(w, e) == Some(k) {
        TouchedRowExists(cfg, w, e, k);
      } else {
        OtherRows(cfg, w, e, k);
      }
    }
  }

  lemma {:induction false} GoneForGood(
    cfg: Config, premises: set<Premise>, events: seq<Event>, later: seq<Event>, w: World, w': World, k: DeliveryKey)
    requires Exec(cfg, premises, events) == Some(w) && Exec(cfg, premises, events + later) == Some(w')
    requires Gone(w, k)
    ensures Gone(w', k)
    decreases |later|
  {
    if later == [] {
      assert events + later == events;
    } else {
      var last := |later| - 1;
      assert (events + later)[..|events + later| - 1] == events + later[..last];
      var before := Exec(cfg, premises, events + later[..last]).value;
      GoneForGood(cfg, premises, events, later[..last], w, before, k);
      GoneStep(cfg, before, later[last], k);
    }
  }

  /**
   A row swept while its consumer is registered had lost its message, and is
   never there again: no scan and no commit brings it back.
   */
  lemma SweptForGood(
    cfg: Config, premises: set<Premise>, events: seq<Event>, e: Event, later: seq<Event>, w: World, w': World,
    key: ConsumerKey, k: DeliveryKey)
    requires ValidConfig(cfg) && Exec(cfg, premises, events) == Some(w) && Step(cfg, premises, w, e)
    requires Exec(cfg, premises, events + [e] + later) == Some(w')
    requires key in w.db.consumers && k.consumer == key.id
    requires k in w.db.deliveries && k !in NextTables(cfg, w, e).deliveries
    ensures k !in w'.db.deliveries && k.message !in w'.db.messages
  {
    var swept := Apply(cfg, w, e);
    SettlementHolds(cfg, premises, events);
    assert KnownRow(w, k);
    SweptRowHasNoMessage(cfg, w, e, key, k);
    GoneStaysGone(cfg, w, e, k.message);
    hide Apply, Enabled, NextTables, Respects;
    assert (events + [e])[..|events + [e]| - 1] == events;
    GoneForGood(cfg, premises, events + [e], later, swept, w', k);
  }

  /** A publication rolled back with its transaction never becomes visible, and no one ever gets a row for it. */
  lemma RolledBackForGood(
    cfg: Config, premises: set<Premise>, events: seq<Event>, ids: set<MessageId>, later: seq<Event>,
    w: World, w': World, k: DeliveryKey)
    requires ValidConfig(cfg) && Exec(cfg, premises, events) == Some(w)
    requires Exec(cfg, premises, events + [Rollback(ids)] + later) == Some(w')
    requires Step(cfg, premises, w, Rollback(ids)) && k.message in ids
    ensures k.message !in w'.db.messages && k !in w'.db.deliveries
  {
    SettlementHolds(cfg, premises, events);
    assert k in w.db.deliveries ==> KnownRow(w, k);
    var undone := Apply(cfg, w, Rollback(ids));
    assert Gone(undone, k);
    hide Apply, Enabled, NextTables, Respects;
    assert (events + [Rollback(ids)])[..|events + [Rollback(ids)]| - 1] == events;
    GoneForGood(cfg, premises, events + [Rollback(ids)], later, undone, w', k);
  }

  // ---------------------------------------------------------------- tokens that stopped

  /** The token was drawn, and its holder works no longer. */
  ghost predicate Stopped(w: World, token: Token) {
    token in w.issued && token !in w.running
  }

  lemma StoppedStep(cfg: Config, w: World, e: Event, token: Token)
    requires Tokens(w) && Enabled(cfg, w, e) && Stopped(w, token)
    ensures Stopped(Apply(cfg, w, e), token)
    ensures token in Apply(cfg, w, e).settlementLog <==> token in w.settlementLog
  {
    hide NextTables, NextPasses, NextFailures;
  }

  lemma {:induction false} StoppedForGood(
    cfg: Config, premises: set<Premise>, events: seq<Event>, later: seq<Event>, w: World, w': World, token: Token)
    requires ValidConfig(cfg) && Exec(cfg, premises, events) == Some(w)
    requires Exec(cfg, premises, events + later) == Some(w') && Stopped(w, token)
    ensures Stopped(w', token) && (token in w'.settlementLog <==> token in w.settlementLog)
    decreases |later|
  {
    if later == [] {
      assert events + later == events;
    } else {
      var last := |later| - 1;
      assert (events + later)[..|events + later| - 1] == events + later[..last];
      var before := Exec(cfg, premises, events + later[..last]).value;
      StoppedForGood(cfg, premises, events, later[..last], w, before, token);
      SettlementHolds(cfg, premises, events + later[..last]);
      hide Apply, Enabled, Respects, Identifiers, Tokens, Budgets;
      StoppedStep(cfg, before, later[last], token);
    }
  }

  /** A claim given up by a node that shuts down is never settled: its lease has to run out. */
  lemma AbandonedIsNeverSettled(
    cfg: Config, premises: set<Premise>, events: seq<Event>, token: Token, later: seq<Event>, w: World, w': World)
    requires ValidConfig(cfg) && Exec(cfg, premises, events) == Some(w)
    requires Step(cfg, premises, w, Abandon(token))
    requires Exec(cfg, premises, events + [Abandon(token)] + later) == Some(w')
    ensures token !in w'.settlementLog && token !in w'.running
  {
    SettlementHolds(cfg, premises, events);
    var stopped := Apply(cfg, w, Abandon(token));
    NeverSettled(w, token);
    assert Stopped(stopped, token) && stopped.settlementLog == w.settlementLog;
    hide Apply, Enabled, NextTables, Respects;
    assert (events + [Abandon(token)])[..|events + [Abandon(token)]| - 1] == events;
    StoppedForGood(cfg, premises, events + [Abandon(token)], later, stopped, w', token);
  }

  lemma NeverSettled(w: World, token: Token)
    requires Tokens(w) && token in w.running
    ensures token !in w.settlementLog && token in w.issued
  {
    forall i | 0 <= i < |w.settlementLog| ensures w.settlementLog[i] != token {
      assert Spent(w, w.settlementLog[i]);
    }
  }

  // ---------------------------------------------------------------- repeated claims

  /** A later claim of the same row found the lease of this one run out. */
  ghost predicate Stolen(cfg: Config, w: World, i: nat, j: nat)
    requires i < |w.claimLog| && j <= |w.claimLog|
  {
    exists m | i < m < j ::
      && w.claimLog[i] in w.claims && w.claimLog[m] in w.claims
      && w.claims[w.claimLog[m]].key == w.claims[w.claimLog[i]].key
      && w.claims[w.claimLog[i]].date < w.claims[w.claimLog[m]].date - cfg.lease
  }

  /** What became of a claim: it settled, it was stolen, it still holds its row, or the row is gone. */
  ghost predicate Trail(cfg: Config, w: World, i: nat)
    requires i < |w.claimLog|
  {
    && w.claimLog[i] in w.claims
    && (|| w.claimLog[i] in w.settlementLog
        || Stolen(cfg, w, i, |w.claimLog|)
        || HoldsClaim(w.db, w.claims[w.claimLog[i]].key, w.claimLog[i])
        || Gone(w, w.claims[w.claimLog[i]].key))
  }

  lemma StolenStays(cfg: Config, w: World, w': World, i: nat, j: nat)
    requires i < |w.claimLog| && j <= |w.claimLog| && w.claimLog <= w'.claimLog && Stolen(cfg, w, i, j)
    requires forall token | token in w.claims :: token in w'.claims && w'.claims[token] == w.claims[token]
    ensures Stolen(cfg, w', i, j) && Stolen(cfg, w', i, |w'.claimLog|)
  {
    var m :| i < m < j && w.claimLog[i] in w.claims && w.claimLog[m] in w.claims
      && w.claims[w.claimLog[m]].key == w.claims[w.claimLog[i]].key
      && w.claims[w.claimLog[i]].date < w.claims[w.claimLog[m]].date - cfg.lease;
    assert w'.claimLog[m] == w.claimLog[m] && w'.claimLog[i] == w.claimLog[i];
  }

  /** The logs only grow, and a won claim keeps its record. */
  lemma LogsGrow(cfg: Config, w: World, e: Event)
    requires Tokens(w) && Enabled(cfg, w, e)
    ensures var w' := Apply(cfg, w, e);
            && w.claimLog <= w'.claimLog
            && (forall token | token in w.settlementLog :: token in w'.settlementLog)
            && (forall token | token in w.claims :: token in w'.claims && w'.claims[token] == w.claims[token])
            && (w'.claimLog == if Wins(cfg, w, e) then w.claimLog + [e.token] else w.claimLog)
            && (Settles(w, e) ==> e.token in w'.settlementLog)
  {
    ClaimRecordsStay(cfg, w, e);
    hide NextTables, NextPasses, NextFailures;
    var w' := Apply(cfg, w, e);
    if Settles(w, e) {
      assert w'.settlementLog[|w.settlementLog|] == e.token;
    }
  }

  /** A claimed row is settled by its token, stolen once its lease ran out, or left as it is. */
  lemma HeldRowStep(cfg: Config, w: World, e: Event, k: DeliveryKey, token: Token)
    requires Tokens(w) && Enabled(cfg, w, e) && HoldsClaim(w.db, k, token) && k in NextTables(cfg, w, e).deliveries
    ensures || HoldsClaim(NextTables(cfg, w, e), k, token)
            || (Settles(w, e) && e.token == token)
            || (Wins(cfg, w, e) && ClaimOf(e).key == k && w.claims[token].date < ClaimOf(e).date - cfg.lease)
  {
    assert TokenOfRow(w, k);
    if Touched(w, e) == Some(k) {
      HeldRowTouched(cfg, w, e, k, token);
    } else {
      OtherRows(cfg, w, e, k);
    }
  }

  lemma HeldRowTouched(cfg: Config, w: World, e: Event, k: DeliveryKey, token: Token)
    requires Enabled(cfg, w, e) && HoldsClaim(w.db, k, token) && TokenOfRow(w, k) && Touched(w, e) == Some(k)
    ensures || HoldsClaim(NextTables(cfg, w, e), k, token)
            || (Settles(w, e) && e.token == token)
            || (Wins(cfg, w, e) && ClaimOf(e).key == k && w.claims[token].date < ClaimOf(e).date - cfg.lease)
  {
  }

  lemma WonClaim(cfg: Config, w: World, e: Event)
    requires Enabled(cfg, w, e) && Wins(cfg, w, e)
    ensures e.ClaimAny? || e.ClaimInOrder?
    ensures e.token in Apply(cfg, w, e).claims && Apply(cfg, w, e).claims[e.token] == ClaimOf(e)
    ensures HoldsClaim(NextTables(cfg, w, e), ClaimOf(e).key, e.token)
  {
    hide NextPasses, NextFailures;
  }

  lemma TrailStep(cfg: Config, w: World, e: Event, key: ConsumerKey, i: nat)
    requires Identifiers(cfg, w) && Tokens(w) && Enabled(cfg, w, e) && key in w.db.consumers
    requires i < |w.claimLog| && Trail(cfg, w, i) && w.claims[w.claimLog[i]].key.consumer == key.id
    ensures Trail(cfg, Apply(cfg, w, e), i)
  {
    var w' := Apply(cfg, w, e);
    var token := w.claimLog[i];
    var k := w.claims[token].key;
    LogsGrow(cfg, w, e);
    assert w'.claimLog[i] == token && w'.claims[token] == w.claims[token];
    if token in w.settlementLog {
    } else if Stolen(cfg, w, i, |w.claimLog|) {
      StolenStays(cfg, w, w', i, |w.claimLog|);
    } else if Gone(w, k) {
      GoneStep(cfg, w, e, k);
    } else {
      HeldTrail(cfg, w, e, key, i);
    }
  }

  lemma HeldTrail(cfg: Config, w: World, e: Event, key: ConsumerKey, i: nat)
    requires Identifiers(cfg, w) && Tokens(w) && Enabled(cfg, w, e) && key in w.db.consumers
    requires i < |w.claimLog| && w.claimLog[i] in w.claims && w.claims[w.claimLog[i]].key.consumer == key.id
    requires HoldsClaim(w.db, w.claims[w.claimLog[i]].key, w.claimLog[i])
    ensures Trail(cfg, Apply(cfg, w, e), i)
  {
    var w' := Apply(cfg, w, e);
    var token := w.claimLog[i];
    var k := w.claims[token].key;
    LogsGrow(cfg, w, e);
    assert KnownRow(w, k);
    if k in NextTables(cfg, w, e).deliveries {
      HeldRowStep(cfg, w, e, k, token);
      if Wins(cfg, w, e) {
        WonClaim(cfg, w, e);
        assert w'.claimLog[|w.claimLog|] == e.token;
      }
    } else {
      SweptRowHasNoMessage(cfg, w, e, key, k);
      GoneStaysGone(cfg, w, e, k.message);
    }
    assert w'.db == NextTables(cfg, w, e) by {
      ClaimRecordsStay(cfg, w, e);
    }
    hide Apply, NextTables, Enabled, Wins, Settles, Identifiers, Tokens;
  }

  predicate ClaimsOf(w: World, consumer: ConsumerId, i: nat) {
    i < |w.claimLog| && w.claimLog[i] in w.claims && w.claims[w.claimLog[i]].key.consumer == consumer
  }

  /** What every claim of the consumer has become, and what lies between two claims of one row. */
  ghost predicate Trails(cfg: Config, w: World, key: ConsumerKey) {
    && (key in w.attached ==> key in w.db.consumers)
    && (forall i | 0 <= i < |w.claimLog| :: w.claimLog[i] in w.claims)
    && (forall i: nat | ClaimsOf(w, key.id, i) :: key in w.attached && Trail(cfg, w, i))
    && (forall i: nat, j: nat | i < j && ClaimsOf(w, key.id, i) && ClaimsOf(w, key.id, j) :: RepeatOk(cfg, w, i, j))
  }

  /** Between two claims of one row the first was settled or stolen. */
  ghost predicate RepeatOk(cfg: Config, w: World, i: nat, j: nat)
    requires i < j < |w.claimLog| && w.claimLog[i] in w.claims && w.claimLog[j] in w.claims
  {
    w.claims[w.claimLog[i]].key == w.claims[w.claimLog[j]].key ==>
      w.claimLog[i] in w.settlementLog || Stolen(cfg, w, i, j + 1)
  }

  lemma ClaimantIsRegistered(cfg: Config, w: World, e: Event, key: ConsumerKey)
    requires Identifiers(cfg, w) && Typed(cfg, key) && Enabled(cfg, w, e) && Wins(cfg, w, e)
    requires ClaimOf(e).key.consumer == key.id
    ensures key in w.attached
  {
    assert KnownRow(w, ClaimOf(e).key);
  }

  lemma TrailsStepOne(cfg: Config, premises: set<Premise>, w: World, e: Event, key: ConsumerKey, i: nat)
    requires Identifiers(cfg, w) && Tokens(w) && Typed(cfg, key) && Trails(cfg, w, key)
    requires Step(cfg, premises, w, e) && ClaimsOf(Apply(cfg, w, e), key.id, i)
    ensures key in Apply(cfg, w, e).attached && Trail(cfg, Apply(cfg, w, e), i)
  {
    var w' := Apply(cfg, w, e);
    LogsGrow(cfg, w, e);
    if i < |w.claimLog| {
      assert ClaimsOf(w, key.id, i);
      TrailStep(cfg, w, e, key, i);
    } else {
      WonClaim(cfg, w, e);
      ClaimantIsRegistered(cfg, w, e, key);
    }
  }

  lemma RepeatStep(cfg: Config, premises: set<Premise>, w: World, e: Event, key: ConsumerKey, i: nat, j: nat)
    requires Identifiers(cfg, w) && Tokens(w) && Typed(cfg, key) && Trails(cfg, w, key) && Step(cfg, premises, w, e)
    requires i < j && ClaimsOf(Apply(cfg, w, e), key.id, i) && ClaimsOf(Apply(cfg, w, e), key.id, j)
    ensures RepeatOk(cfg, Apply(cfg, w, e), i, j)
  {
    var w' := Apply(cfg, w, e);
    LogsGrow(cfg, w, e);
    if j < |w.claimLog| {
      assert ClaimsOf(w, key.id, i) && ClaimsOf(w, key.id, j) && RepeatOk(cfg, w, i, j);
      if Stolen(cfg, w, i, j + 1) {
        StolenStays(cfg, w, w', i, j + 1);
      }
    } else {
      assert ClaimsOf(w, key.id, i);
      TrailsStepOne(cfg, premises, w, e, key, i);
      NewClaimIsAlone(cfg, w, e, w.claimLog[i]);
      assert Apply(cfg, w, e).db == NextTables(cfg, w, e) by {
        ClaimRecordsStay(cfg, w, e);
      }
      hide Apply, NextTables, Enabled, Wins, Settles, Identifiers, Tokens, Respects;
    }
  }

  lemma NewClaimIsAlone(cfg: Config, w: World, e: Event, token: Token)
    requires Tokens(w) && Enabled(cfg, w, e) && Wins(cfg, w, e) && token in w.claims
    ensures ClaimOf(e).key in NextTables(cfg, w, e).deliveries
    ensures !HoldsClaim(NextTables(cfg, w, e), ClaimOf(e).key, token)
    ensures e.token in Apply(cfg, w, e).claims && Apply(cfg, w, e).claims[e.token] == ClaimOf(e)
  {
    WonClaim(cfg, w, e);
  }

  lemma {:induction false} TrailsHold(cfg: Config, premises: set<Premise>, events: seq<Event>, key: ConsumerKey)
    requires ValidConfig(cfg) && Typed(cfg, key) && Persists(key) in premises && Exec(cfg, premises, events).Some?
    ensures Trails(cfg, Exec(cfg, premises, events).value, key)
  {
    if events != [] {
      var last := |events| - 1;
      TrailsHold(cfg, premises, events[..last], key);
      SettlementHolds(cfg, premises, events[..last]);
      TrailsStep(cfg, premises, Exec(cfg, premises, events[..last]).value, events[last], key);
    }
  }

  lemma TrailsStep(cfg: Config, premises: set<Premise>, w: World, e: Event, key: ConsumerKey)
    requires Identifiers(cfg, w) && Tokens(w) && Typed(cfg, key) && Trails(cfg, w, key)
    requires Step(cfg, premises, w, e) && Persists(key) in premises
    ensures Trails(cfg, Apply(cfg, w, e), key)
  {
    var w' := Apply(cfg, w, e);
    AttachedIsRegistered(cfg, premises, w, e, key);
    LogsGrow(cfg, w, e);
    if Wins(cfg, w, e) {
      WonClaim(cfg, w, e);
    }
    hide Apply, Enabled, Wins, Respects, Trail, RepeatOk;
    forall i: nat | ClaimsOf(w', key.id, i) ensures key in w'.attached && Trail(cfg, w', i) {
      TrailsStepOne(cfg, premises, w, e, key, i);
    }
    forall i: nat, j: nat | i < j && ClaimsOf(w', key.id, i) && ClaimsOf(w', key.id, j)
      ensures RepeatOk(cfg, w', i, j)
    {
      RepeatStep(cfg, premises, w, e, key, i, j);
    }
  }

  /**
   A row of a persisting registration is claimed again only after a retry or a
   steal: the earlier claim was settled, or the lease of its holder had run out
   when one of the claims up to the later one took the row.
   */
  lemma RepeatsAreRetriesOrSteals(
    cfg: Config, premises: set<Premise>, events: seq<Event>, w: World, key: ConsumerKey, i: nat, j: nat)
    requires ValidConfig(cfg) && Typed(cfg, key) && Persists(key) in premises && Exec(cfg, premises, events) == Some(w)
    requires i < j && ClaimsOf(w, key.id, i) && ClaimsOf(w, key.id, j)
    requires w.claims[w.claimLog[i]].key == w.claims[w.claimLog[j]].key
    ensures w.claimLog[i] in w.settlementLog || Stolen(cfg, w, i, j + 1)
  {
    TrailsHold(cfg, premises, events, key);
    assert RepeatOk(cfg, w, i, j);
  }
}
