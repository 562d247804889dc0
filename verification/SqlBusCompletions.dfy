/**
 One completion, exactly. A completed row never becomes undelivered again, but a
 row made anew after its first one completed and was swept does: a delivery
 completes a second time exactly by settling such a row.
 */
module SqlBusCompletions {
  import opened Wrappers
  import opened SqlBusModel
  import opened SqlBusProtocol
  import opened SqlBusSettlement
  import opened SqlBusFrontier
  import opened SqlBusOvertaking

  /** The delivery has completed, and there is an uncompleted row for it again. */
  ghost predicate Reopened(w: World, k: DeliveryKey) {
    k in w.completionLog && k in w.db.deliveries && w.db.deliveries[k].status != Completed
  }

  /** The row is made new, by a scan or a commit, although the delivery has completed. */
  predicate Reopens(w: World, e: Event, k: DeliveryKey) {
    k in w.completionLog && MakesRow(w, e, k)
  }

  /** A settlement completes a delivery that has completed before. */
  ghost predicate CompletesAgain(w: World, e: Event, k: DeliveryKey) {
    e.Complete? && Settles(w, e) && w.claims[e.token].key == k && Reopened(w, k)
  }

  ghost predicate CompletedOnce(w: World, k: DeliveryKey) {
    AtMostOnce(w.completionLog, k)
  }

  ghost predicate AtMostOnce(log: seq<DeliveryKey>, k: DeliveryKey) {
    forall i, j | 0 <= i < j < |log| :: !(log[i] == k && log[j] == k)
  }

  // ---------------------------------------------------------------- one step

  lemma CompletionLogStep(cfg: Config, w: World, e: Event)
    requires Enabled(cfg, w, e)
    ensures Apply(cfg, w, e).completionLog
         == w.completionLog + if e.Complete? && Settles(w, e) then [w.claims[e.token].key] else []
  {
    hide NextTables, NextPasses, NextFailures;
  }

  lemma CompletedNow(cfg: Config, w: World, e: Event, k: DeliveryKey)
    requires Enabled(cfg, w, e) && e.Complete? && Settles(w, e) && w.claims[e.token].key == k
    ensures k in w.db.deliveries && w.db.deliveries[k].status != Completed
    ensures k in NextTables(cfg, w, e).deliveries && NextTables(cfg, w, e).deliveries[k].status == Completed
  {
  }

  /** A row is there after a step only if it was before or is made new, and then it is pending. */
  lemma RowIsOldOrMade(cfg: Config, w: World, e: Event, k: DeliveryKey)
    requires Enabled(cfg, w, e) && k !in w.db.deliveries
    ensures k in NextTables(cfg, w, e).deliveries <==> MakesRow(w, e, k)
    ensures k in NextTables(cfg, w, e).deliveries ==> NextTables(cfg, w, e).deliveries[k] == PENDING_DELIVERY
  {
    if Touched(w, e) == Some(k) {
      if k in NextTables(cfg, w, e).deliveries {
        TouchedRowExists(cfg, w, e, k);
      }
    } else {
      UntouchedStatus(cfg, w, e, k);
    }
  }

  /** Which steps reopen a completed delivery: exactly those that make its row anew. */
  lemma ReopenedExactly(cfg: Config, w: World, e: Event, k: DeliveryKey)
    requires Tokens(w) && Enabled(cfg, w, e) && !Reopened(w, k)
    ensures Reopened(Apply(cfg, w, e), k) <==> Reopens(w, e, k)
  {
    CompletionLogStep(cfg, w, e);
    ClaimRecordsStay(cfg, w, e);
    if e.Complete? && Settles(w, e) && w.claims[e.token].key == k {
      CompletedNow(cfg, w, e, k);
    } else if k in w.db.deliveries {
      if k in NextTables(cfg, w, e).deliveries && w.db.deliveries[k].status == Completed {
        CompletedRowStays(cfg, w, e, k);
      }
    } else {
      RowIsOldOrMade(cfg, w, e, k);
    }
    hide Apply, NextTables, Enabled, Settles, Tokens;
  }

  /** A step keeps the completions of a delivery single exactly unless it settles a reopened row. */
  lemma OnceStep(cfg: Config, w: World, e: Event, k: DeliveryKey)
    requires Enabled(cfg, w, e)
    ensures CompletedOnce(Apply(cfg, w, e), k) <==> CompletedOnce(w, k) && !CompletesAgain(w, e, k)
  {
    CompletionLogStep(cfg, w, e);
    var log, w' := w.completionLog, Apply(cfg, w, e);
    if e.Complete? && Settles(w, e) {
      CompletedNow(cfg, w, e, w.claims[e.token].key);
      OneMore(log, w.claims[e.token].key, k);
    }
    hide Apply, Enabled, Settles, AtMostOnce;
  }

  lemma OneMore(log: seq<DeliveryKey>, last: DeliveryKey, k: DeliveryKey)
    ensures AtMostOnce(log + [last], k) <==> AtMostOnce(log, k) && !(last == k && k in log)
  {
    var longer := log + [last];
    assert longer[|log|] == last && forall i | 0 <= i < |log| :: longer[i] == log[i];
  }

  // ---------------------------------------------------------------- runs

  ghost predicate ReopenedAt(cfg: Config, premises: set<Premise>, events: seq<Event>, n: nat, k: DeliveryKey) {
    StateAt(cfg, premises, events, n).Some? && Reopened(StateAt(cfg, premises, events, n).value, k)
  }

  ghost predicate ReopensAt(cfg: Config, premises: set<Premise>, events: seq<Event>, n: nat, k: DeliveryKey) {
    && n < |events| && StateAt(cfg, premises, events, n).Some?
    && Reopens(StateAt(cfg, premises, events, n).value, events[n], k)
  }

  ghost predicate CompletesAgainAt(
    cfg: Config, premises: set<Premise>, events: seq<Event>, n: nat, k: DeliveryKey)
  {
    && n < |events| && StateAt(cfg, premises, events, n).Some?
    && CompletesAgain(StateAt(cfg, premises, events, n).value, events[n], k)
  }

  ghost predicate OnceAt(cfg: Config, premises: set<Premise>, events: seq<Event>, n: nat, k: DeliveryKey) {
    StateAt(cfg, premises, events, n).Some? && CompletedOnce(StateAt(cfg, premises, events, n).value, k)
  }

  lemma ReopeningStep(cfg: Config, premises: set<Premise>, events: seq<Event>, n: nat, k: DeliveryKey)
    requires ValidConfig(cfg) && Exec(cfg, premises, events).Some? && n < |events|
    ensures !ReopenedAt(cfg, premises, events, n, k) ==>
              (ReopenedAt(cfg, premises, events, n + 1, k) <==> ReopensAt(cfg, premises, events, n, k))
  {
    Prefixes(cfg, premises, events, n);
    SettlementHolds(cfg, premises, events[..n]);
    hide Exec, Apply, Enabled, Respects, Reopened, Reopens, Identifiers, Tokens, Budgets;
    var w := Exec(cfg, premises, events[..n]).value;
    if !Reopened(w, k) {
      ReopenedExactly(cfg, w, events[n], k);
    }
  }

  lemma {:induction false} NotReopenedSoFar(
    cfg: Config, premises: set<Premise>, events: seq<Event>, n: nat, k: DeliveryKey)
    requires ValidConfig(cfg) && Exec(cfg, premises, events).Some? && n <= |events|
    requires forall m: nat | m < n :: !ReopensAt(cfg, premises, events, m, k)
    ensures !ReopenedAt(cfg, premises, events, n, k)
  {
    if n == 0 {
      assert events[..0] == [];
    } else {
      NotReopenedSoFar(cfg, premises, events, n - 1, k);
      ReopeningStep(cfg, premises, events, n - 1, k);
    }
  }

  /** Over any run, a completed delivery is never reopened iff no step makes its row anew after it completed. */
  lemma NeverReopenedExactly(cfg: Config, premises: set<Premise>, events: seq<Event>, k: DeliveryKey)
    requires ValidConfig(cfg) && Exec(cfg, premises, events).Some?
    ensures (forall n: nat | n <= |events| :: !ReopenedAt(cfg, premises, events, n, k))
       <==> (forall n: nat | n < |events| :: !ReopensAt(cfg, premises, events, n, k))
  {
    if forall n: nat | n < |events| :: !ReopensAt(cfg, premises, events, n, k) {
      forall n: nat | n <= |events| ensures !ReopenedAt(cfg, premises, events, n, k) {
        NotReopenedSoFar(cfg, premises, events, n, k);
      }
    }
    if forall n: nat | n <= |events| :: !ReopenedAt(cfg, premises, events, n, k) {
      forall n: nat | n < |events| ensures !ReopensAt(cfg, premises, events, n, k) {
        ReopeningStep(cfg, premises, events, n, k);
        assert !ReopenedAt(cfg, premises, events, n, k);
        assert !ReopenedAt(cfg, premises, events, n + 1, k);
      }
    }
  }

  lemma OnceAtStep(cfg: Config, premises: set<Premise>, events: seq<Event>, n: nat, k: DeliveryKey)
    requires Exec(cfg, premises, events).Some? && n < |events|
    ensures OnceAt(cfg, premises, events, n + 1, k)
       <==> OnceAt(cfg, premises, events, n, k) && !CompletesAgainAt(cfg, premises, events, n, k)
  {
    Prefixes(cfg, premises, events, n);
    hide Exec, Apply, Enabled, Respects, CompletedOnce, CompletesAgain;
    OnceStep(cfg, Exec(cfg, premises, events[..n]).value, events[n], k);
  }

  lemma {:induction false} OnceUpTo(
    cfg: Config, premises: set<Premise>, events: seq<Event>, n: nat, k: DeliveryKey)
    requires Exec(cfg, premises, events).Some? && n <= |events|
    ensures OnceAt(cfg, premises, events, n, k)
       <==> forall m: nat | m < n :: !CompletesAgainAt(cfg, premises, events, m, k)
  {
    hide Exec, OnceAt, CompletesAgainAt;
    if n == 0 {
      OnceAtStart(cfg, premises, events, k);
    } else {
      OnceUpTo(cfg, premises, events, n - 1, k);
      OnceAtStep(cfg, premises, events, n - 1, k);
    }
  }

  lemma OnceAtStart(cfg: Config, premises: set<Premise>, events: seq<Event>, k: DeliveryKey)
    ensures OnceAt(cfg, premises, events, 0, k)
  {
    assert events[..0] == [];
  }

  /**
   One completion, exactly: over any run a delivery completes at most once if and
   only if no settlement of the run completes a reopened row.
   */
  lemma OneCompletionExactly(cfg: Config, premises: set<Premise>, events: seq<Event>, w: World, k: DeliveryKey)
    requires Exec(cfg, premises, events) == Some(w)
    ensures CompletedOnce(w, k)
       <==> forall n: nat | n < |events| :: !CompletesAgainAt(cfg, premises, events, n, k)
  {
    OnceUpTo(cfg, premises, events, |events|, k);
    assert events[..|events|] == events;
  }
}
