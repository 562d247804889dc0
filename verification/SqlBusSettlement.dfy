/**
 What tokens, attempt counters and statuses keep over every run: the claim fence,
 the attempt budget and the single completion. Nothing here needs timely commits.
 */
module SqlBusSettlement {
  import opened Wrappers
  import opened SqlBusModel
  import opened SqlBusProtocol

  // ---------------------------------------------------------------- one row, one step

  /** The one row an event may rewrite. */
  function Touched(w: World, e: Event): Option<DeliveryKey> {
    match e
    case ClaimAny(key, _, _, _) => Some(key)
    case ClaimInOrder(work, _, _) => Some(work.key)
    case Complete(token, _) => if token in w.claims then Some(w.claims[token].key) else None
    case Fail(token, _, _) => if token in w.claims then Some(w.claims[token].key) else None
    case Resubmit(key) => Some(key)
    case _ => None
  }

  /** Every other row stays as it was, disappears, or is new and pending. */
  lemma OtherRows(cfg: Config, w: World, e: Event, k: DeliveryKey)
    requires Enabled(cfg, w, e)
    requires k in Apply(cfg, w, e).db.deliveries && Touched(w, e) != Some(k)
    ensures k in w.db.deliveries ==> Apply(cfg, w, e).db.deliveries[k] == w.db.deliveries[k]
    ensures k !in w.db.deliveries ==>
              && Apply(cfg, w, e).db.deliveries[k] == PENDING_DELIVERY
              && (|| (e.Commit? && k in RowsOf(w, e.ids))
                  || (e.Materialize? && k.consumer == w.passes[e.pass].key.id
                      && Scanned(w.db, w.passes[e.pass].key, k.message)))
  {
  }

  /** Only the two sweeps remove rows. */
  lemma RowsStay(cfg: Config, w: World, e: Event, k: DeliveryKey)
    requires Enabled(cfg, w, e) && k in w.db.deliveries && !e.SweepWithoutMessage? && !e.SweepWithoutConsumer?
    ensures k in NextTables(cfg, w, e).deliveries
  {
  }

  // ---------------------------------------------------------------- identifiers

  /** Identifiers are drawn once: a message is a draft, visible, or gone for good. */
  ghost predicate Identifiers(cfg: Config, w: World) {
    && w.open.Keys <= w.published.Keys
    && (forall id | id in w.db.messages ::
          id in w.published && w.db.messages[id] == w.published[id] && id !in w.open)
    && (forall k | k in w.db.deliveries :: KnownRow(w, k))
    && (forall key | key in w.attached :: Typed(cfg, key))
    && (forall key | key in w.db.consumers :: Typed(cfg, key))
    && (forall pass | pass in w.passes :: w.passes[pass].key in w.attached)
    && (forall id, c | id in w.open && c in w.open[id] ::
          ConsumerKey(c, w.published[id].eventType) in w.attached)
  }

  ghost predicate KnownRow(w: World, k: DeliveryKey) {
    && k.message in w.published && k.message !in w.open
    && ConsumerKey(k.consumer, w.published[k.message].eventType) in w.attached
  }

  lemma KnownRowStep(cfg: Config, w: World, e: Event, k: DeliveryKey)
    requires Identifiers(cfg, w) && Enabled(cfg, w, e) && k in NextTables(cfg, w, e).deliveries
    ensures KnownRow(Apply(cfg, w, e), k)
  {
    if Touched(w, e) != Some(k) {
      OtherRows(cfg, w, e, k);
    }
    assert k in w.db.deliveries ==> KnownRow(w, k);
  }

  lemma IdentifiersStep(cfg: Config, w: World, e: Event)
    requires Identifiers(cfg, w) && Enabled(cfg, w, e)
    ensures Identifiers(cfg, Apply(cfg, w, e))
  {
    var w' := Apply(cfg, w, e);
    forall k | k in w'.db.deliveries ensures KnownRow(w', k) {
      KnownRowStep(cfg, w, e, k);
    }
    forall id | id in w'.db.messages ensures
      id in w'.published && w'.db.messages[id] == w'.published[id] && id !in w'.open
    {
      MessageStep(cfg, w, e, id);
    }
  }

  lemma MessageStep(cfg: Config, w: World, e: Event, id: MessageId)
    requires Identifiers(cfg, w) && Enabled(cfg, w, e) && id in NextTables(cfg, w, e).messages
    ensures id in Apply(cfg, w, e).published
    ensures NextTables(cfg, w, e).messages[id] == Apply(cfg, w, e).published[id]
    ensures id !in Apply(cfg, w, e).open
  {
  }

  // ---------------------------------------------------------------- tokens

  ghost predicate TokenOfRow(w: World, k: DeliveryKey)
    requires k in w.db.deliveries
  {
    var d := w.db.deliveries[k];
    && (d.claimToken.Some? ==> d.claimToken.value in w.claims && w.claims[d.claimToken.value].key == k)
    && (d.status == Processing ==>
          && d.claimToken.Some?
          && d.attempts == w.claims[d.claimToken.value].attempts
          && d.claimDate == Some(w.claims[d.claimToken.value].date))
  }

  ghost predicate Spent(w: World, token: Token) {
    && token in w.claims && token !in w.running
    && !HoldsClaim(w.db, w.claims[token].key, token)
  }

  ghost predicate Tokens(w: World) {
    && w.claims.Keys <= w.issued
    && w.running <= w.claims.Keys
    && (forall k | k in w.db.deliveries :: TokenOfRow(w, k))
    && (forall i | 0 <= i < |w.settlementLog| :: Spent(w, w.settlementLog[i]))
    && (forall i, j | 0 <= i < j < |w.settlementLog| :: w.settlementLog[i] != w.settlementLog[j])
  }

  lemma TokenOfRowStep(cfg: Config, w: World, e: Event, k: DeliveryKey)
    requires Tokens(w) && Enabled(cfg, w, e) && k in NextTables(cfg, w, e).deliveries
    ensures TokenOfRow(Apply(cfg, w, e), k)
  {
    assert k in w.db.deliveries ==> TokenOfRow(w, k);
    if Touched(w, e) != Some(k) {
      OtherRows(cfg, w, e, k);
      ClaimRecordsStay(cfg, w, e);
      hide Apply, NextTables, Enabled, Wins;
    } else {
      TouchedToken(cfg, w, e, k);
    }
  }

  lemma TouchedToken(cfg: Config, w: World, e: Event, k: DeliveryKey)
    requires Enabled(cfg, w, e) && Touched(w, e) == Some(k) && k in NextTables(cfg, w, e).deliveries
    requires w.claims.Keys <= w.issued && (k in w.db.deliveries ==> TokenOfRow(w, k))
    ensures TokenOfRow(Apply(cfg, w, e), k)
  {
    if e.ClaimAny? || e.ClaimInOrder? {
      ClaimedToken(cfg, w, e, k);
    } else {
      SettledToken(cfg, w, e, k);
    }
  }

  lemma ClaimedToken(cfg: Config, w: World, e: Event, k: DeliveryKey)
    requires Enabled(cfg, w, e) && Touched(w, e) == Some(k) && k in NextTables(cfg, w, e).deliveries
    requires e.ClaimAny? || e.ClaimInOrder?
    requires w.claims.Keys <= w.issued && (k in w.db.deliveries ==> TokenOfRow(w, k))
    ensures TokenOfRow(Apply(cfg, w, e), k)
  {
  }

  lemma SettledToken(cfg: Config, w: World, e: Event, k: DeliveryKey)
    requires Enabled(cfg, w, e) && Touched(w, e) == Some(k) && k in NextTables(cfg, w, e).deliveries
    requires !e.ClaimAny? && !e.ClaimInOrder?
    requires w.claims.Keys <= w.issued && (k in w.db.deliveries ==> TokenOfRow(w, k))
    ensures TokenOfRow(Apply(cfg, w, e), k)
  {
  }

  lemma ClaimRecordsStay(cfg: Config, w: World, e: Event)
    requires Enabled(cfg, w, e) && w.claims.Keys <= w.issued
    ensures Apply(cfg, w, e).db == NextTables(cfg, w, e)
    ensures forall token | token in w.claims ::
              token in Apply(cfg, w, e).claims && Apply(cfg, w, e).claims[token] == w.claims[token]
  {
    hide NextTables, NextPasses, NextFailures;
  }

  /** A settled token never passes the fence again: a later claim draws a fresh one. */
  lemma SpentTouched(cfg: Config, w: World, e: Event, token: Token)
    requires Tokens(w) && Enabled(cfg, w, e) && token in w.claims
    requires Touched(w, e) == Some(w.claims[token].key)
    requires !HoldsClaim(w.db, w.claims[token].key, token) || (Settles(w, e) && token == e.token)
    ensures !HoldsClaim(NextTables(cfg, w, e), w.claims[token].key, token)
  {
  }

  /** A token is drawn once, so its record stays, and it does not run again. */
  lemma SpentRecords(cfg: Config, w: World, e: Event, token: Token)
    requires Tokens(w) && Enabled(cfg, w, e)
    requires Spent(w, token) || (Settles(w, e) && token == e.token)
    ensures token in Apply(cfg, w, e).claims && Apply(cfg, w, e).claims[token] == w.claims[token]
    ensures token !in Apply(cfg, w, e).running
  {
    hide NextTables, NextPasses, NextFailures;
  }

  lemma SpentStep(cfg: Config, w: World, e: Event, token: Token)
    requires Tokens(w) && Enabled(cfg, w, e)
    requires Spent(w, token) || (Settles(w, e) && token == e.token)
    ensures token in Apply(cfg, w, e).claims && Apply(cfg, w, e).claims[token] == w.claims[token]
    ensures token !in Apply(cfg, w, e).running
    ensures !HoldsClaim(NextTables(cfg, w, e), w.claims[token].key, token)
  {
    var k := w.claims[token].key;
    SpentRecords(cfg, w, e, token);
    hide Apply, Wins, NextPasses, NextFailures;
    if Touched(w, e) == Some(k) {
      SpentTouched(cfg, w, e, token);
    } else if k in NextTables(cfg, w, e).deliveries {
      OtherRows(cfg, w, e, k);
    }
  }

  lemma TokensStep(cfg: Config, w: World, e: Event)
    requires Tokens(w) && Enabled(cfg, w, e)
    ensures Tokens(Apply(cfg, w, e))
  {
    var w' := Apply(cfg, w, e);
    forall k | k in w'.db.deliveries ensures TokenOfRow(w', k) {
      TokenOfRowStep(cfg, w, e, k);
    }
    forall i | 0 <= i < |w'.settlementLog| ensures Spent(w', w'.settlementLog[i]) {
      assert i < |w.settlementLog| ==> Spent(w, w.settlementLog[i]);
      SpentStep(cfg, w, e, w'.settlementLog[i]);
    }
  }

  // ---------------------------------------------------------------- budget

  ghost predicate WithinBudget(d: Delivery, failures: nat, maximum: nat) {
    match d.status
    case Pending => d.attempts == 0 && failures == 0
    case Processing => 1 <= d.attempts && failures <= d.attempts - 1 && failures <= maximum - 1
    case Failed => 1 <= d.attempts < maximum && failures <= d.attempts
    case Exhausted => maximum <= d.attempts && failures <= maximum
    case Completed => 1 <= d.attempts && failures <= maximum - 1
  }

  ghost predicate Budgets(cfg: Config, w: World) {
    && (forall k | k in w.failures :: k in w.db.deliveries)
    && (forall k | k in w.db.deliveries :: RowWithinBudget(cfg, w, k))
  }

  ghost predicate RowWithinBudget(cfg: Config, w: World, k: DeliveryKey)
    requires k in w.db.deliveries
  {
    && k.consumer.listener in cfg.listeners
    && WithinBudget(w.db.deliveries[k], FailuresOf(w, k), cfg.listeners[k.consumer.listener].maximumAttempts)
  }

  lemma OtherFailures(cfg: Config, w: World, e: Event, k: DeliveryKey)
    requires Enabled(cfg, w, e) && Touched(w, e) != Some(k) && k in NextTables(cfg, w, e).deliveries
    ensures FailuresOf(Apply(cfg, w, e), k) == FailuresOf(w, k)
  {
  }

  lemma TouchedBudget(cfg: Config, w: World, e: Event, k: DeliveryKey)
    requires ValidConfig(cfg) && k in w.db.deliveries && TokenOfRow(w, k) && RowWithinBudget(cfg, w, k)
    requires Enabled(cfg, w, e) && Touched(w, e) == Some(k)
    ensures k in NextTables(cfg, w, e).deliveries
    ensures RowWithinBudget(cfg, Apply(cfg, w, e), k)
  {
    if e.Complete? || e.Fail? {
      SettledBudget(cfg, w, e, k);
    } else {
      ClaimedBudget(cfg, w, e, k);
    }
  }

  lemma SettledBudget(cfg: Config, w: World, e: Event, k: DeliveryKey)
    requires ValidConfig(cfg) && k in w.db.deliveries && TokenOfRow(w, k) && RowWithinBudget(cfg, w, k)
    requires Enabled(cfg, w, e) && Touched(w, e) == Some(k) && (e.Complete? || e.Fail?)
    ensures k in NextTables(cfg, w, e).deliveries
    ensures RowWithinBudget(cfg, Apply(cfg, w, e), k)
  {
  }

  lemma ClaimedBudget(cfg: Config, w: World, e: Event, k: DeliveryKey)
    requires ValidConfig(cfg) && k in w.db.deliveries && TokenOfRow(w, k) && RowWithinBudget(cfg, w, k)
    requires Enabled(cfg, w, e) && Touched(w, e) == Some(k) && !e.Complete? && !e.Fail?
    ensures k in NextTables(cfg, w, e).deliveries
    ensures RowWithinBudget(cfg, Apply(cfg, w, e), k)
  {
  }

  lemma RowBudgetStep(cfg: Config, w: World, e: Event, k: DeliveryKey)
    requires ValidConfig(cfg) && Identifiers(cfg, w) && Tokens(w) && Budgets(cfg, w)
    requires Enabled(cfg, w, e) && k in NextTables(cfg, w, e).deliveries
    ensures RowWithinBudget(cfg, Apply(cfg, w, e), k)
  {
    if Touched(w, e) == Some(k) {
      TouchedRowExists(cfg, w, e, k);
      assert TokenOfRow(w, k) && RowWithinBudget(cfg, w, k);
      TouchedBudget(cfg, w, e, k);
    } else {
      KnownRowStep(cfg, w, e, k);
      OtherRows(cfg, w, e, k);
      OtherFailures(cfg, w, e, k);
    }
  }

  lemma TouchedRowExists(cfg: Config, w: World, e: Event, k: DeliveryKey)
    requires Enabled(cfg, w, e) && Touched(w, e) == Some(k) && k in NextTables(cfg, w, e).deliveries
    ensures k in w.db.deliveries
  {
  }

  lemma FailureRow(cfg: Config, w: World, e: Event, k: DeliveryKey)
    requires Budgets(cfg, w) && Enabled(cfg, w, e) && k in NextFailures(cfg, w, e)
    ensures k in NextTables(cfg, w, e).deliveries
  {
    if !e.SweepWithoutMessage? && !e.SweepWithoutConsumer? {
      hide NextTables;
      assert k in w.db.deliveries;
      RowsStay(cfg, w, e, k);
    }
  }

  lemma BudgetsStep(cfg: Config, w: World, e: Event)
    requires ValidConfig(cfg) && Identifiers(cfg, w) && Tokens(w) && Budgets(cfg, w) && Enabled(cfg, w, e)
    ensures Budgets(cfg, Apply(cfg, w, e))
  {
    var w' := Apply(cfg, w, e);
    forall k | k in w'.failures ensures k in w'.db.deliveries {
      FailureRow(cfg, w, e, k);
    }
    hide NextTables, NextFailures;
    forall k | k in w'.db.deliveries ensures RowWithinBudget(cfg, w', k) {
      RowBudgetStep(cfg, w, e, k);
    }
  }

  // ---------------------------------------------------------------- every run

  lemma {:induction false} SettlementHolds(cfg: Config, premises: set<Premise>, events: seq<Event>)
    requires ValidConfig(cfg) && Exec(cfg, premises, events).Some?
    ensures Identifiers(cfg, Exec(cfg, premises, events).value)
    ensures Tokens(Exec(cfg, premises, events).value)
    ensures Budgets(cfg, Exec(cfg, premises, events).value)
  {
    if events != [] {
      var last := |events| - 1;
      var before := Exec(cfg, premises, events[..last]).value;
      SettlementHolds(cfg, premises, events[..last]);
      IdentifiersStep(cfg, before, events[last]);
      TokensStep(cfg, before, events[last]);
      BudgetsStep(cfg, before, events[last]);
    }
  }

  /**
   A claim pushes the attempt counter past the budget exactly when it steals an
   expired claim whose budget was already spent; no other claim can.
   */
  lemma OverrunOnlyByStealing(
    cfg: Config, premises: set<Premise>, events: seq<Event>, w: World, e: Event, k: DeliveryKey)
    requires ValidConfig(cfg) && Exec(cfg, premises, events) == Some(w)
    requires Enabled(cfg, w, e) && Wins(cfg, w, e) && Touched(w, e) == Some(k)
    ensures k in w.db.deliveries && k in Apply(cfg, w, e).db.deliveries
    ensures k.consumer.listener in cfg.listeners
    ensures var maximum := cfg.listeners[k.consumer.listener].maximumAttempts;
            Apply(cfg, w, e).db.deliveries[k].attempts > maximum
            <==> (w.db.deliveries[k].status == Processing && w.db.deliveries[k].attempts >= maximum)
  {
    SettlementHolds(cfg, premises, events);
    assert k in w.db.deliveries ==> RowWithinBudget(cfg, w, k);
    hide Exec, Identifiers, Tokens, NextPasses, NextFailures;
  }

  /** In every reachable state the rows of a listener are for messages of its event type. */
  lemma RowsAreTyped(cfg: Config, premises: set<Premise>, events: seq<Event>, w: World, k: DeliveryKey)
    requires ValidConfig(cfg) && Exec(cfg, premises, events) == Some(w) && k in w.db.deliveries
    ensures k.message in w.published && k.consumer.listener in cfg.listeners
    ensures w.published[k.message].eventType == cfg.listeners[k.consumer.listener].eventType
    ensures k.message in w.db.messages ==> w.db.messages[k.message] == w.published[k.message]
  {
    SettlementHolds(cfg, premises, events);
    assert KnownRow(w, k);
  }

  // ---------------------------------------------------------------- one completion

  /** A completed delivery stays completed until its message is gone for good. */
  ghost predicate Finished(w: World, key: ConsumerKey, k: DeliveryKey) {
    && key in w.attached
    && k.message in w.published && k.message !in w.open
    && w.published[k.message].eventType == key.eventType
    && (k in w.db.deliveries ==> w.db.deliveries[k].status == Completed)
    && (k !in w.db.deliveries ==> k.message !in w.db.messages)
  }

  ghost predicate Completions(w: World, key: ConsumerKey) {
    && (key in w.attached ==> key in w.db.consumers)
    && (forall i | 0 <= i < |w.completionLog| && w.completionLog[i].consumer == key.id ::
          Finished(w, key, w.completionLog[i]))
    && (forall i, j | 0 <= i < j < |w.completionLog| && w.completionLog[i].consumer == key.id ::
          w.completionLog[i] != w.completionLog[j])
  }

  lemma CompletedRowStays(cfg: Config, w: World, e: Event, k: DeliveryKey)
    requires Enabled(cfg, w, e)
    requires k in w.db.deliveries && w.db.deliveries[k].status == Completed
    requires k in NextTables(cfg, w, e).deliveries
    ensures NextTables(cfg, w, e).deliveries[k].status == Completed
  {
    if Touched(w, e) != Some(k) {
      OtherRows(cfg, w, e, k);
    }
  }

  lemma SweptRowHasNoMessage(cfg: Config, w: World, e: Event, key: ConsumerKey, k: DeliveryKey)
    requires Enabled(cfg, w, e) && key in w.db.consumers && k.consumer == key.id
    requires k in w.db.deliveries && k !in NextTables(cfg, w, e).deliveries
    ensures k.message !in w.db.messages && k.message !in NextTables(cfg, w, e).messages
  {
  }

  lemma GoneStaysGone(cfg: Config, w: World, e: Event, id: MessageId)
    requires Enabled(cfg, w, e) && id in w.published && id !in w.open
    ensures id in Apply(cfg, w, e).published && Apply(cfg, w, e).published[id] == w.published[id]
    ensures id !in Apply(cfg, w, e).open
    ensures id !in w.db.messages ==> id !in NextTables(cfg, w, e).messages
  {
    MessageStaysGone(cfg, w, e, id);
    hide NextTables, NextPasses, NextFailures;
  }

  lemma MessageStaysGone(cfg: Config, w: World, e: Event, id: MessageId)
    requires Enabled(cfg, w, e) && id !in w.open
    ensures id !in w.db.messages ==> id !in NextTables(cfg, w, e).messages
  {
  }

  /** What Finished asks of everything but the status. */
  ghost predicate Finishing(w: World, key: ConsumerKey, k: DeliveryKey) {
    && key in w.attached
    && k.message in w.published && k.message !in w.open
    && w.published[k.message].eventType == key.eventType
    && k in w.db.deliveries
  }

  lemma FinishedStep(cfg: Config, w: World, e: Event, key: ConsumerKey, k: DeliveryKey)
    requires Enabled(cfg, w, e) && key in w.db.consumers && k.consumer == key.id
    requires Finished(w, key, k) || (e.Complete? && Settles(w, e) && k == w.claims[e.token].key && Finishing(w, key, k))
    ensures Finished(Apply(cfg, w, e), key, k)
  {
    GoneStaysGone(cfg, w, e, k.message);
    if k in NextTables(cfg, w, e).deliveries {
      if k !in w.db.deliveries {
        OtherRows(cfg, w, e, k);
        assert false;
      }
      if w.db.deliveries[k].status == Completed {
        CompletedRowStays(cfg, w, e, k);
      }
    } else if k in w.db.deliveries {
      SweptRowHasNoMessage(cfg, w, e, key, k);
    }
  }

  /** A registration that persists is there as soon as some node has attached it. */
  lemma AttachedIsRegistered(cfg: Config, premises: set<Premise>, w: World, e: Event, key: ConsumerKey)
    requires Step(cfg, premises, w, e) && Persists(key) in premises
    requires key in w.attached ==> key in w.db.consumers
    ensures key in Apply(cfg, w, e).attached ==> key in Apply(cfg, w, e).db.consumers
  {
    assert Respects(cfg, w, e, Persists(key));
    if e.Attach? && e.key == key {
      assert key in NextTables(cfg, w, e).consumers;
    }
  }

  lemma CompletionsStep(cfg: Config, premises: set<Premise>, w: World, e: Event, key: ConsumerKey)
    requires Identifiers(cfg, w) && Typed(cfg, key) && Completions(w, key)
    requires Step(cfg, premises, w, e) && Persists(key) in premises
    ensures Completions(Apply(cfg, w, e), key)
  {
    var w' := Apply(cfg, w, e);
    AttachedIsRegistered(cfg, premises, w, e, key);
    hide NextTables, NextFailures;
    forall i | 0 <= i < |w'.completionLog| && w'.completionLog[i].consumer == key.id
      ensures Finished(w', key, w'.completionLog[i])
    {
      var k := w'.completionLog[i];
      if i < |w.completionLog| {
        assert Finished(w, key, k);
      } else {
        assert KnownRow(w, k);
      }
      FinishedStep(cfg, w, e, key, k);
    }
    forall i, j | 0 <= i < j < |w'.completionLog| && w'.completionLog[i].consumer == key.id
      ensures w'.completionLog[i] != w'.completionLog[j]
    {
      assert Finished(w, key, w.completionLog[i]);
    }
  }

  /**
   Each delivery of a persisting registration completes at most once over any
   run: across steals, resubmissions, retention of settled messages, the age cap
   and both orphan sweeps.
   */
  lemma AtMostOneCompletion(
    cfg: Config, premises: set<Premise>, events: seq<Event>, w: World, key: ConsumerKey, i: nat, j: nat)
    requires ValidConfig(cfg) && Typed(cfg, key) && Persists(key) in premises
    requires Exec(cfg, premises, events) == Some(w)
    requires i < j < |w.completionLog| && w.completionLog[i].consumer == key.id
    ensures w.completionLog[i] != w.completionLog[j]
  {
    CompletionsHold(cfg, premises, events, key);
  }

  lemma {:induction false} CompletionsHold(
    cfg: Config, premises: set<Premise>, events: seq<Event>, key: ConsumerKey)
    requires ValidConfig(cfg) && Typed(cfg, key) && Persists(key) in premises
    requires Exec(cfg, premises, events).Some?
    ensures Completions(Exec(cfg, premises, events).value, key)
  {
    if events != [] {
      var last := |events| - 1;
      CompletionsHold(cfg, premises, events[..last], key);
      SettlementHolds(cfg, premises, events[..last]);
      CompletionsStep(cfg, premises, Exec(cfg, premises, events[..last]).value, events[last], key);
    }
  }
}
