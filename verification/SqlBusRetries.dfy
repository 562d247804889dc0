/**
 Backoff over whole runs: a row whose attempt was refused with budget left can be
 claimed again exactly from the end of its backoff on, whatever the rest of the
 cluster does in between, unless an operator resubmits it.
 */
module SqlBusRetries {
  import opened Wrappers
  import opened SqlBusModel
  import opened SqlBusProtocol
  import opened SqlBusSettlement
  import opened SqlBusFrontier
  import opened SqlBusOvertaking

  /** The row waits for its next attempt until this time. */
  predicate BackingOff(w: World, k: DeliveryKey, next: Time) {
    && k in w.db.deliveries && w.db.deliveries[k].status == Failed
    && w.db.deliveries[k].nextAttemptDate == Some(next)
  }

  /** The handler's refusal, with budget left, takes effect on the row. */
  predicate Refuses(cfg: Config, w: World, e: Event, k: DeliveryKey, next: Time) {
    && e.Fail? && e.next == next
    && e.token in w.claims && w.claims[e.token].key == k
    && k in w.db.deliveries && w.db.deliveries[k].status == Processing
    && w.db.deliveries[k].claimToken == Some(e.token)
    && k.consumer.listener in cfg.listeners
    && w.claims[e.token].attempts < cfg.listeners[k.consumer.listener].maximumAttempts
  }

  lemma RefusalBacksOff(cfg: Config, w: World, e: Event, k: DeliveryKey, next: Time)
    requires Enabled(cfg, w, e) && Refuses(cfg, w, e, k, next)
    ensures BackingOff(Apply(cfg, w, e), k, next)
  {
  }

  /** A step claims this row: by the statement of its consumer's ordering. */
  predicate Attempts(e: Event, k: DeliveryKey) {
    (e.ClaimAny? && e.delivery == k) || (e.ClaimInOrder? && e.work.key == k)
  }

  /** The attempt count the claimant observed. */
  function Observed(e: Event): nat
    requires e.ClaimAny? || e.ClaimInOrder?
  {
    if e.ClaimAny? then e.attempts else e.work.attempts
  }

  /** A claim of a row that backs off wins exactly from the end of the backoff on, if its other guards hold. */
  lemma ClaimWhileBackingOff(cfg: Config, w: World, e: Event, k: DeliveryKey, next: Time)
    requires Enabled(cfg, w, e) && BackingOff(w, k, next) && Attempts(e, k)
    ensures Wins(cfg, w, e) <==>
              && e.now >= next
              && w.db.deliveries[k].attempts == Observed(e)
              && (e.ClaimInOrder? ==>
                    && !EarlierIncompleteExists(w.db, k.consumer, e.work.date, k.message)
                    && !ConcurrentProcessingExists(w.db, k.consumer, k.message, e.now - cfg.lease))
  {
  }

  /** Nothing but a claim, a resubmission or a sweep of the row ends its wait. */
  lemma BackoffStays(cfg: Config, w: World, e: Event, k: DeliveryKey, next: Time)
    requires Tokens(w) && Enabled(cfg, w, e) && BackingOff(w, k, next)
    requires !(Attempts(e, k) && Wins(cfg, w, e)) && !(e.Resubmit? && e.delivery == k)
    requires k in NextTables(cfg, w, e).deliveries
    ensures BackingOff(Apply(cfg, w, e), k, next)
  {
    ClaimRecordsStay(cfg, w, e);
    if Touched(w, e) == Some(k) {
      BackoffTouched(cfg, w, e, k, next);
    } else {
      OtherRows(cfg, w, e, k);
    }
    hide Apply, NextTables, Enabled, Wins, Tokens;
  }

  lemma BackoffTouched(cfg: Config, w: World, e: Event, k: DeliveryKey, next: Time)
    requires Enabled(cfg, w, e) && BackingOff(w, k, next) && Touched(w, e) == Some(k)
    requires !(Attempts(e, k) && Wins(cfg, w, e)) && !(e.Resubmit? && e.delivery == k)
    ensures k in NextTables(cfg, w, e).deliveries
    ensures NextTables(cfg, w, e).deliveries[k] == w.db.deliveries[k]
  {
  }

  // ---------------------------------------------------------------- runs

  /** The step neither claims nor resubmits nor removes the row. */
  ghost predicate LeftAloneAt(cfg: Config, premises: set<Premise>, events: seq<Event>, n: nat, k: DeliveryKey) {
    && n < |events| && StateAt(cfg, premises, events, n).Some? && StateAt(cfg, premises, events, n + 1).Some?
    && !(Attempts(events[n], k) && Wins(cfg, StateAt(cfg, premises, events, n).value, events[n]))
    && !(events[n].Resubmit? && events[n].delivery == k)
    && k in StateAt(cfg, premises, events, n + 1).value.db.deliveries
  }

  /** So do all the steps between these two. */
  ghost predicate Untried(
    cfg: Config, premises: set<Premise>, events: seq<Event>, m: nat, n: nat, k: DeliveryKey)
  {
    forall i: nat | m < i < n :: LeftAloneAt(cfg, premises, events, i, k)
  }

  ghost predicate BackingOffAt(
    cfg: Config, premises: set<Premise>, events: seq<Event>, n: nat, k: DeliveryKey, next: Time)
  {
    StateAt(cfg, premises, events, n).Some? && BackingOff(StateAt(cfg, premises, events, n).value, k, next)
  }

  ghost predicate RefusesAt(
    cfg: Config, premises: set<Premise>, events: seq<Event>, n: nat, k: DeliveryKey, next: Time)
  {
    && n < |events| && StateAt(cfg, premises, events, n).Some?
    && Refuses(cfg, StateAt(cfg, premises, events, n).value, events[n], k, next)
  }

  lemma BackoffBegins(
    cfg: Config, premises: set<Premise>, events: seq<Event>, n: nat, k: DeliveryKey, next: Time)
    requires Exec(cfg, premises, events).Some? && RefusesAt(cfg, premises, events, n, k, next)
    ensures BackingOffAt(cfg, premises, events, n + 1, k, next)
  {
    Prefixes(cfg, premises, events, n);
    hide Exec, Apply, Enabled, Respects, Refuses, BackingOff;
    RefusalBacksOff(cfg, Exec(cfg, premises, events[..n]).value, events[n], k, next);
  }

  lemma BackoffStep(
    cfg: Config, premises: set<Premise>, events: seq<Event>, n: nat, k: DeliveryKey, next: Time)
    requires ValidConfig(cfg) && Exec(cfg, premises, events).Some?
    requires BackingOffAt(cfg, premises, events, n, k, next) && LeftAloneAt(cfg, premises, events, n, k)
    ensures BackingOffAt(cfg, premises, events, n + 1, k, next)
  {
    Prefixes(cfg, premises, events, n);
    SettlementHolds(cfg, premises, events[..n]);
    hide Exec, Apply, NextTables, Enabled, Respects, BackingOff, Wins, Identifiers, Tokens, Budgets;
    var w := Exec(cfg, premises, events[..n]).value;
    TablesAfter(cfg, w, events[n]);
    BackoffStays(cfg, w, events[n], k, next);
  }

  lemma TablesAfter(cfg: Config, w: World, e: Event)
    requires Tokens(w) && Enabled(cfg, w, e)
    ensures Apply(cfg, w, e).db == NextTables(cfg, w, e)
  {
    ClaimRecordsStay(cfg, w, e);
  }

  lemma {:induction false} BackoffLasts(
    cfg: Config, premises: set<Premise>, events: seq<Event>, m: nat, n: nat, k: DeliveryKey, next: Time)
    requires ValidConfig(cfg) && Exec(cfg, premises, events).Some? && m < n <= |events|
    requires RefusesAt(cfg, premises, events, m, k, next) && Untried(cfg, premises, events, m, n, k)
    ensures BackingOffAt(cfg, premises, events, n, k, next)
    decreases n
  {
    hide Exec, RefusesAt, BackingOffAt, LeftAloneAt;
    if m == n - 1 {
      BackoffBegins(cfg, premises, events, m, k, next);
    } else {
      BackoffLasts(cfg, premises, events, m, n - 1, k, next);
      BackoffStep(cfg, premises, events, n - 1, k, next);
    }
  }

  /**
   Retries keep their backoff, exactly: after an attempt refused with budget left
   and a next date, the next claim of the row in any run wins if and only if it is
   made at that date or later and its other guards hold.
   */
  lemma RetryWaitsExactly(
    cfg: Config, premises: set<Premise>, events: seq<Event>, m: nat, n: nat, k: DeliveryKey, next: Time)
    requires ValidConfig(cfg) && Exec(cfg, premises, events).Some? && m < n < |events|
    requires RefusesAt(cfg, premises, events, m, k, next) && Untried(cfg, premises, events, m, n, k)
    requires Attempts(events[n], k)
    ensures StateAt(cfg, premises, events, n).Some?
    ensures var w := StateAt(cfg, premises, events, n).value;
            var e := events[n];
            && k in w.db.deliveries
            && (Wins(cfg, w, e) <==>
                  && e.now >= next
                  && w.db.deliveries[k].attempts == Observed(e)
                  && (e.ClaimInOrder? ==>
                        && !EarlierIncompleteExists(w.db, k.consumer, e.work.date, k.message)
                        && !ConcurrentProcessingExists(w.db, k.consumer, k.message, e.now - cfg.lease)))
  {
    BackoffLasts(cfg, premises, events, m, n, k, next);
    Prefixes(cfg, premises, events, n);
    hide Exec, Apply, NextTables, Respects, Refuses, Wins;
    ClaimWhileBackingOff(cfg, StateAt(cfg, premises, events, n).value, events[n], k, next);
  }
}
