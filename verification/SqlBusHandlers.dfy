/**
 One handler at a time, exactly. The winner of a FIFO claim may run its handler as
 long as its lease lives, and what keeps others out is its row: two such winners
 meet only by a claim made after a sweep took the row of a running one.
 */
module SqlBusHandlers {
  import opened Wrappers
  import opened SqlBusModel
  import opened SqlBusProtocol
  import opened SqlBusSettlement
  import opened SqlBusRepeats
  import opened SqlBusFrontier
  import opened SqlBusOvertaking
  import opened SqlBusOrdering

  /** A winner that has not settled yet and whose lease is live. */
  predicate Working(cfg: Config, w: World, consumer: ConsumerId, token: Token) {
    && token in w.running && token in w.claims && w.claims[token].key.consumer == consumer
    && w.clock - cfg.lease <= w.claims[token].date
  }

  /** It works on, but its row no longer shows it. */
  predicate Unseen(cfg: Config, w: World, consumer: ConsumerId, token: Token) {
    Working(cfg, w, consumer, token) && !HoldsClaim(w.db, w.claims[token].key, token)
  }

  ghost predicate Overlap(cfg: Config, w: World, consumer: ConsumerId) {
    exists t, u :: t != u && Working(cfg, w, consumer, t) && Working(cfg, w, consumer, u)
  }

  /** A sweep takes the row of a working winner: its message or its registration is gone. */
  predicate SweepsUnder(cfg: Config, w: World, e: Event, consumer: ConsumerId, token: Token) {
    && Working(cfg, w, consumer, token)
    && (|| (e.SweepWithoutMessage? && w.claims[token].key.message !in w.db.messages)
        || (e.SweepWithoutConsumer? && !Registered(w.db, consumer)))
  }

  /** An ordered claim wins, under a lease live at once, beside a winner its guard cannot see. */
  ghost predicate ClaimsBeside(cfg: Config, w: World, e: Event, consumer: ConsumerId) {
    && e.ClaimInOrder? && Wins(cfg, w, e) && e.work.key.consumer == consumer && w.clock - cfg.lease <= e.now
    && exists t :: Unseen(cfg, w, consumer, t)
  }

  // ---------------------------------------------------------------- one step

  /** A live claim cannot be stolen, fenced out or revived. */
  lemma LiveClaimIsKept(cfg: Config, w: World, e: Event, k: DeliveryKey, token: Token)
    requires Tokens(w) && Enabled(cfg, w, e) && HoldsClaim(w.db, k, token)
    requires w.clock - cfg.lease <= w.claims[token].date
    requires k in NextTables(cfg, w, e).deliveries
    requires !((e.Complete? || e.Fail?) && e.token == token)
    ensures HoldsClaim(NextTables(cfg, w, e), k, token)
  {
    assert TokenOfRow(w, k);
    if Touched(w, e) != Some(k) {
      OtherRows(cfg, w, e, k);
    }
  }

  /** Who works after a step: those who did and did not stop, and the winner of a claim just made. */
  lemma WorkingStep(cfg: Config, w: World, e: Event, consumer: ConsumerId, token: Token)
    requires Tokens(w) && Enabled(cfg, w, e) && OrderingOf(cfg, consumer.listener) == Fifo
    ensures Working(cfg, Apply(cfg, w, e), consumer, token) ==>
              || (Working(cfg, w, consumer, token) && !((e.Complete? || e.Fail?) && e.token == token))
              || (e.ClaimInOrder? && Wins(cfg, w, e) && e.token == token && e.work.key.consumer == consumer
                  && w.clock - cfg.lease <= e.now)
    ensures e.ClaimInOrder? && Wins(cfg, w, e) && e.work.key.consumer == consumer && w.clock - cfg.lease <= e.now ==>
              Working(cfg, Apply(cfg, w, e), consumer, e.token) && !Working(cfg, w, consumer, e.token)
    ensures Working(cfg, w, consumer, token)
            && (e.ClaimInOrder? || e.SweepWithoutMessage? || e.SweepWithoutConsumer?) ==>
              Working(cfg, Apply(cfg, w, e), consumer, token)
  {
    hide NextTables, NextPasses, NextFailures;
  }

  /** A row disappears exactly by a sweep that finds its message or its consumer gone. */
  lemma SweptExactly(cfg: Config, w: World, e: Event, k: DeliveryKey)
    requires Enabled(cfg, w, e) && k in w.db.deliveries
    ensures k !in NextTables(cfg, w, e).deliveries
       <==> || (e.SweepWithoutMessage? && k.message !in w.db.messages)
            || (e.SweepWithoutConsumer? && !Registered(w.db, k.consumer))
  {
  }

  /** A working winner drops out of sight exactly by a sweep of its row. */
  lemma UnseenExactly(cfg: Config, w: World, e: Event, consumer: ConsumerId, token: Token)
    requires Tokens(w) && Enabled(cfg, w, e) && OrderingOf(cfg, consumer.listener) == Fifo
    requires !Unseen(cfg, w, consumer, token)
    ensures Unseen(cfg, Apply(cfg, w, e), consumer, token) <==> SweepsUnder(cfg, w, e, consumer, token)
  {
    WorkingStep(cfg, w, e, consumer, token);
    ClaimRecordsStay(cfg, w, e);
    if Wins(cfg, w, e) {
      WonClaim(cfg, w, e);
    }
    if Working(cfg, w, consumer, token) {
      var k := w.claims[token].key;
      SweptExactly(cfg, w, e, k);
      if Working(cfg, Apply(cfg, w, e), consumer, token) && k in NextTables(cfg, w, e).deliveries {
        LiveClaimIsKept(cfg, w, e, k, token);
      }
    }
    hide Apply, NextTables, Enabled, Wins, Tokens, Registered;
  }

  /** The guards of the ordered claim see every working winner whose row still shows it. */
  lemma OthersAreUnseen(cfg: Config, w: World, e: Event, consumer: ConsumerId, token: Token)
    requires Tokens(w) && Enabled(cfg, w, e) && e.ClaimInOrder? && Wins(cfg, w, e) && e.work.key.consumer == consumer
    requires Working(cfg, w, consumer, token)
    ensures Unseen(cfg, w, consumer, token)
  {
    var k := w.claims[token].key;
    assert k in w.db.deliveries ==> TokenOfRow(w, k);
    if k in w.db.deliveries && k != e.work.key {
      WinnerIsAlone(cfg, w, e, k);
    }
  }

  /** Two handlers of the consumer come to overlap exactly by a claim beside an unseen winner. */
  lemma OverlapExactly(cfg: Config, w: World, e: Event, consumer: ConsumerId)
    requires Tokens(w) && Enabled(cfg, w, e) && OrderingOf(cfg, consumer.listener) == Fifo
    requires !Overlap(cfg, w, consumer)
    ensures Overlap(cfg, Apply(cfg, w, e), consumer) <==> ClaimsBeside(cfg, w, e, consumer)
  {
    var w' := Apply(cfg, w, e);
    hide Apply, Enabled, Wins, Tokens, Working;
    if Overlap(cfg, w', consumer) {
      var t, u :| t != u && Working(cfg, w', consumer, t) && Working(cfg, w', consumer, u);
      WorkingStep(cfg, w, e, consumer, t);
      WorkingStep(cfg, w, e, consumer, u);
      var other := if Working(cfg, w, consumer, t) then t else u;
      OthersAreUnseen(cfg, w, e, consumer, other);
    }
    if ClaimsBeside(cfg, w, e, consumer) {
      var t :| Unseen(cfg, w, consumer, t);
      WorkingStep(cfg, w, e, consumer, t);
      assert t != e.token;
      assert Working(cfg, w', consumer, t) && Working(cfg, w', consumer, e.token);
    }
  }

  // ---------------------------------------------------------------- runs

  ghost predicate UnseenAt(
    cfg: Config, premises: set<Premise>, events: seq<Event>, n: nat, consumer: ConsumerId, token: Token)
  {
    && StateAt(cfg, premises, events, n).Some?
    && Unseen(cfg, StateAt(cfg, premises, events, n).value, consumer, token)
  }

  ghost predicate SweepsUnderAt(
    cfg: Config, premises: set<Premise>, events: seq<Event>, n: nat, consumer: ConsumerId, token: Token)
  {
    && n < |events| && StateAt(cfg, premises, events, n).Some?
    && SweepsUnder(cfg, StateAt(cfg, premises, events, n).value, events[n], consumer, token)
  }

  ghost predicate OverlapAt(
    cfg: Config, premises: set<Premise>, events: seq<Event>, n: nat, consumer: ConsumerId)
  {
    && StateAt(cfg, premises, events, n).Some?
    && Overlap(cfg, StateAt(cfg, premises, events, n).value, consumer)
  }

  ghost predicate ClaimsBesideAt(
    cfg: Config, premises: set<Premise>, events: seq<Event>, n: nat, consumer: ConsumerId)
  {
    && n < |events| && StateAt(cfg, premises, events, n).Some?
    && ClaimsBeside(cfg, StateAt(cfg, premises, events, n).value, events[n], consumer)
  }

  lemma UnseenStep(
    cfg: Config, premises: set<Premise>, events: seq<Event>, n: nat, consumer: ConsumerId, token: Token)
    requires ValidConfig(cfg) && Exec(cfg, premises, events).Some? && n < |events|
    requires OrderingOf(cfg, consumer.listener) == Fifo
    ensures !UnseenAt(cfg, premises, events, n, consumer, token) ==>
              (UnseenAt(cfg, premises, events, n + 1, consumer, token)
               <==> SweepsUnderAt(cfg, premises, events, n, consumer, token))
  {
    Prefixes(cfg, premises, events, n);
    SettlementHolds(cfg, premises, events[..n]);
    hide Exec, Apply, Enabled, Respects, Unseen, SweepsUnder, Identifiers, Tokens, Budgets;
    var w := Exec(cfg, premises, events[..n]).value;
    if !Unseen(cfg, w, consumer, token) {
      UnseenExactly(cfg, w, events[n], consumer, token);
    }
  }

  lemma {:induction false} SeenSoFar(
    cfg: Config, premises: set<Premise>, events: seq<Event>, n: nat, consumer: ConsumerId, token: Token)
    requires ValidConfig(cfg) && Exec(cfg, premises, events).Some? && n <= |events|
    requires OrderingOf(cfg, consumer.listener) == Fifo
    requires forall m: nat | m < n :: !SweepsUnderAt(cfg, premises, events, m, consumer, token)
    ensures !UnseenAt(cfg, premises, events, n, consumer, token)
  {
    if n == 0 {
      assert events[..0] == [];
    } else {
      SeenSoFar(cfg, premises, events, n - 1, consumer, token);
      UnseenStep(cfg, premises, events, n - 1, consumer, token);
    }
  }

  /** Over any run, a working winner is always shown by its row iff no sweep takes its row while it works. */
  lemma NeverUnseenExactly(
    cfg: Config, premises: set<Premise>, events: seq<Event>, consumer: ConsumerId, token: Token)
    requires ValidConfig(cfg) && Exec(cfg, premises, events).Some?
    requires OrderingOf(cfg, consumer.listener) == Fifo
    ensures (forall n: nat | n <= |events| :: !UnseenAt(cfg, premises, events, n, consumer, token))
       <==> (forall n: nat | n < |events| :: !SweepsUnderAt(cfg, premises, events, n, consumer, token))
  {
    if forall n: nat | n < |events| :: !SweepsUnderAt(cfg, premises, events, n, consumer, token) {
      forall n: nat | n <= |events| ensures !UnseenAt(cfg, premises, events, n, consumer, token) {
        SeenSoFar(cfg, premises, events, n, consumer, token);
      }
    }
    if forall n: nat | n <= |events| :: !UnseenAt(cfg, premises, events, n, consumer, token) {
      forall n: nat | n < |events| ensures !SweepsUnderAt(cfg, premises, events, n, consumer, token) {
        UnseenStep(cfg, premises, events, n, consumer, token);
        assert !UnseenAt(cfg, premises, events, n, consumer, token);
        assert !UnseenAt(cfg, premises, events, n + 1, consumer, token);
      }
    }
  }

  lemma OverlapStep(cfg: Config, premises: set<Premise>, events: seq<Event>, n: nat, consumer: ConsumerId)
    requires ValidConfig(cfg) && Exec(cfg, premises, events).Some? && n < |events|
    requires OrderingOf(cfg, consumer.listener) == Fifo
    ensures !OverlapAt(cfg, premises, events, n, consumer) ==>
              (OverlapAt(cfg, premises, events, n + 1, consumer)
               <==> ClaimsBesideAt(cfg, premises, events, n, consumer))
  {
    Prefixes(cfg, premises, events, n);
    SettlementHolds(cfg, premises, events[..n]);
    hide Exec, Apply, Enabled, Respects, Overlap, ClaimsBeside, Identifiers, Tokens, Budgets;
    var w := Exec(cfg, premises, events[..n]).value;
    if !Overlap(cfg, w, consumer) {
      OverlapExactly(cfg, w, events[n], consumer);
    }
  }

  lemma {:induction false} AloneSoFar(
    cfg: Config, premises: set<Premise>, events: seq<Event>, n: nat, consumer: ConsumerId)
    requires ValidConfig(cfg) && Exec(cfg, premises, events).Some? && n <= |events|
    requires OrderingOf(cfg, consumer.listener) == Fifo
    requires forall m: nat | m < n :: !ClaimsBesideAt(cfg, premises, events, m, consumer)
    ensures !OverlapAt(cfg, premises, events, n, consumer)
  {
    if n == 0 {
      assert events[..0] == [];
    } else {
      AloneSoFar(cfg, premises, events, n - 1, consumer);
      OverlapStep(cfg, premises, events, n - 1, consumer);
    }
  }

  /**
   One at a time, exactly: over any run, two handlers of a FIFO consumer never
   overlap inside their leases if and only if no ordered claim of the run is made
   beside a working winner whose row was swept.
   */
  lemma FifoHandlersExactly(cfg: Config, premises: set<Premise>, events: seq<Event>, consumer: ConsumerId)
    requires ValidConfig(cfg) && Exec(cfg, premises, events).Some?
    requires OrderingOf(cfg, consumer.listener) == Fifo
    ensures (forall n: nat | n <= |events| :: !OverlapAt(cfg, premises, events, n, consumer))
       <==> (forall n: nat | n < |events| :: !ClaimsBesideAt(cfg, premises, events, n, consumer))
  {
    if forall n: nat | n < |events| :: !ClaimsBesideAt(cfg, premises, events, n, consumer) {
      forall n: nat | n <= |events| ensures !OverlapAt(cfg, premises, events, n, consumer) {
        AloneSoFar(cfg, premises, events, n, consumer);
      }
    }
    if forall n: nat | n <= |events| :: !OverlapAt(cfg, premises, events, n, consumer) {
      forall n: nat | n < |events| ensures !ClaimsBesideAt(cfg, premises, events, n, consumer) {
        OverlapStep(cfg, premises, events, n, consumer);
        assert !OverlapAt(cfg, premises, events, n, consumer);
        assert !OverlapAt(cfg, premises, events, n + 1, consumer);
      }
    }
  }

  // ---------------------------------------------------------------- premises that exclude it

  /** The row of a working winner is uncompleted, so it keeps its message and its registration. */
  lemma NothingSweepsUnder(cfg: Config, w: World, e: Event, key: ConsumerKey, token: Token)
    requires Tokens(w) && Pins(w, key) && Enabled(cfg, w, e) && !Unseen(cfg, w, key.id, token)
    ensures !SweepsUnder(cfg, w, e, key.id, token)
  {
    if Working(cfg, w, key.id, token) {
      assert Pinned(w, key, w.claims[token].key);
      assert Registered(w.db, key.id);
    }
  }

  lemma {:induction false} AlwaysSeen(
    cfg: Config, premises: set<Premise>, events: seq<Event>, n: nat, key: ConsumerKey, token: Token)
    requires ValidConfig(cfg) && Typed(cfg, key) && OrderingOf(cfg, key.id.listener) == Fifo
    requires ORDERLY + {Persists(key)} <= premises && Exec(cfg, premises, events).Some? && n <= |events|
    ensures !UnseenAt(cfg, premises, events, n, key.id, token)
  {
    if n == 0 {
      assert events[..0] == [];
    } else {
      AlwaysSeen(cfg, premises, events, n - 1, key, token);
      UnseenStep(cfg, premises, events, n - 1, key.id, token);
      Prefixes(cfg, premises, events, n - 1);
      PinsHold(cfg, premises, events[..n - 1], key);
      SettlementHolds(cfg, premises, events[..n - 1]);
      hide Exec, Apply, Enabled, Respects, Unseen, SweepsUnder, Identifiers, Tokens, Budgets, Pins;
      NothingSweepsUnder(cfg, Exec(cfg, premises, events[..n - 1]).value, events[n - 1], key, token);
    }
  }

  lemma NoClaimBeside(cfg: Config, premises: set<Premise>, events: seq<Event>, n: nat, key: ConsumerKey)
    requires ValidConfig(cfg) && Typed(cfg, key) && OrderingOf(cfg, key.id.listener) == Fifo
    requires ORDERLY + {Persists(key)} <= premises && Exec(cfg, premises, events).Some? && n < |events|
    ensures !ClaimsBesideAt(cfg, premises, events, n, key.id)
  {
    hide Exec, Wins, Unseen;
    if ClaimsBesideAt(cfg, premises, events, n, key.id) {
      var t :| Unseen(cfg, StateAt(cfg, premises, events, n).value, key.id, t);
      AlwaysSeen(cfg, premises, events, n, key, t);
      assert false;
    }
  }

  /**
   At most one node executes the handler of a FIFO consumer inside its lease:
   two unsettled winners whose leases are both live are the same claim.
   */
  lemma FifoHandlersAreSerial(
    cfg: Config, premises: set<Premise>, events: seq<Event>, w: World, key: ConsumerKey, t: Token, u: Token)
    requires ValidConfig(cfg) && Typed(cfg, key) && OrderingOf(cfg, key.id.listener) == Fifo
    requires ORDERLY + {Persists(key)} <= premises && Exec(cfg, premises, events) == Some(w)
    requires Working(cfg, w, key.id, t) && Working(cfg, w, key.id, u)
    ensures t == u
  {
    forall n: nat | n < |events| ensures !ClaimsBesideAt(cfg, premises, events, n, key.id) {
      NoClaimBeside(cfg, premises, events, n, key);
    }
    AloneSoFar(cfg, premises, events, |events|, key.id);
    assert events[..|events|] == events;
    assert !OverlapAt(cfg, premises, events, |events|, key.id);
  }
}
