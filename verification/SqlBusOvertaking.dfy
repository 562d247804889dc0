/**
 The order of a FIFO consumer's claims, exactly. A row falls behind when a later
 message has been claimed while it is still to be delivered; three kinds of steps
 do that, and claims go back only by claiming a row that has fallen behind.
 */
module SqlBusOvertaking {
  import opened Wrappers
  import opened SqlBusModel
  import opened SqlBusProtocol
  import opened SqlBusSettlement
  import opened SqlBusRepeats
  import opened SqlBusFrontier

  function DateOf(w: World, id: MessageId): Time {
    if id in w.published then w.published[id].date else 0
  }

  predicate Precedes(w: World, id: MessageId, otherId: MessageId) {
    Before(DateOf(w, id), id, DateOf(w, otherId), otherId)
  }

  function ClaimedMessage(w: World, i: nat): MessageId
    requires i < |w.claimLog| && w.claimLog[i] in w.claims
  {
    w.claims[w.claimLog[i]].key.message
  }

  /** The consumer has claimed a message that this one precedes. */
  ghost predicate Overtaken(w: World, consumer: ConsumerId, id: MessageId) {
    exists i: nat :: ClaimsOf(w, consumer, i) && Precedes(w, id, ClaimedMessage(w, i))
  }

  /** The row is still to be delivered although a later message has been claimed. */
  ghost predicate Behind(w: World, k: DeliveryKey) {
    && k in w.db.deliveries && Incomplete(w.db.deliveries[k].status)
    && Overtaken(w, k.consumer, k.message)
  }

  /** No claim of the consumer is of a message that precedes an earlier one's. */
  ghost predicate ClaimsInOrder(w: World, consumer: ConsumerId) {
    forall i: nat, j: nat | i < j && ClaimsOf(w, consumer, i) && ClaimsOf(w, consumer, j) ::
      !Precedes(w, ClaimedMessage(w, j), ClaimedMessage(w, i))
  }

  /** An ordered claim of the consumer wins a message after this one. */
  predicate ClaimsLater(cfg: Config, w: World, e: Event, consumer: ConsumerId, id: MessageId) {
    e.ClaimInOrder? && Wins(cfg, w, e) && e.work.key.consumer == consumer && Precedes(w, id, e.work.key.message)
  }

  // ---------------------------------------------------------------- the steps that let a row fall behind

  /** A dead letter whose successors have been claimed is revived. */
  predicate RevivesBehind(w: World, e: Event, k: DeliveryKey) {
    e.Resubmit? && e.delivery == k && k in w.db.deliveries && w.db.deliveries[k].status == Exhausted
  }

  /** The row is made new, by its publisher's commit or by a scan. */
  predicate MakesRow(w: World, e: Event, k: DeliveryKey) {
    && k !in w.db.deliveries
    && (|| (e.Commit? && k in RowsOf(w, e.ids))
        || (e.Materialize? && e.pass in w.passes && k.consumer == w.passes[e.pass].key.id
            && Scanned(w.db, w.passes[e.pass].key, k.message)))
  }

  /** A later message is claimed past the row, which the guard of the claim does not see without its message. */
  predicate ClaimsPast(cfg: Config, w: World, e: Event, k: DeliveryKey) {
    && ClaimsLater(cfg, w, e, k.consumer, k.message)
    && k in w.db.deliveries && Incomplete(w.db.deliveries[k].status) && k.message !in w.db.messages
  }

  ghost predicate Overtakes(cfg: Config, w: World, e: Event, k: DeliveryKey) {
    || (Overtaken(w, k.consumer, k.message) && (RevivesBehind(w, e, k) || MakesRow(w, e, k)))
    || ClaimsPast(cfg, w, e, k)
  }

  // ---------------------------------------------------------------- what a step keeps

  /** Found work carries the date of its message. */
  ghost predicate FoundDates(w: World) {
    forall work | work in w.found :: work.key.message in w.published && work.date == DateOf(w, work.key.message)
  }

  /** The log records claims whose messages were published. */
  ghost predicate ClaimsKnown(w: World) {
    forall i | 0 <= i < |w.claimLog| ::
      w.claimLog[i] in w.claims && w.claims[w.claimLog[i]].key.message in w.published
  }

  /** Dates and won claims are recorded for good. */
  lemma RecordsStay(cfg: Config, w: World, e: Event)
    requires Tokens(w) && Enabled(cfg, w, e)
    ensures forall id | id in w.published :: DateOf(Apply(cfg, w, e), id) == DateOf(w, id)
    ensures forall id | id in w.published :: id in Apply(cfg, w, e).published
    ensures forall token | token in w.claims ::
              token in Apply(cfg, w, e).claims && Apply(cfg, w, e).claims[token] == w.claims[token]
  {
    hide NextTables, NextPasses, NextFailures;
  }

  /** The claim log grows only by the token of a winning claim. */
  lemma ClaimLogStep(cfg: Config, w: World, e: Event)
    requires Enabled(cfg, w, e)
    ensures Apply(cfg, w, e).claimLog == if Wins(cfg, w, e) then w.claimLog + [e.token] else w.claimLog
    ensures Wins(cfg, w, e) ==>
              && (e.ClaimAny? || e.ClaimInOrder?)
              && e.token in Apply(cfg, w, e).claims
              && Apply(cfg, w, e).claims[e.token] == ClaimOf(e)
              && Touched(w, e) == Some(ClaimOf(e).key)
              && ClaimOf(e).key in w.db.deliveries
              && Incomplete(w.db.deliveries[ClaimOf(e).key].status)
  {
    hide NextTables, NextPasses, NextFailures;
  }

  lemma FoundDatesStep(cfg: Config, w: World, e: Event)
    requires Identifiers(cfg, w) && Enabled(cfg, w, e) && FoundDates(w)
    ensures FoundDates(Apply(cfg, w, e))
  {
    hide NextTables, NextPasses, NextFailures;
  }

  lemma ClaimsKnownStep(cfg: Config, w: World, e: Event)
    requires Identifiers(cfg, w) && Tokens(w) && Enabled(cfg, w, e) && ClaimsKnown(w)
    ensures ClaimsKnown(Apply(cfg, w, e))
  {
    RecordsStay(cfg, w, e);
    ClaimLogStep(cfg, w, e);
    assert Wins(cfg, w, e) ==> KnownRow(w, ClaimOf(e).key);
    hide Apply, Wins, Enabled, Identifiers, Tokens;
  }

  /** Everything the order of claims rests on. */
  ghost predicate Recorded(cfg: Config, w: World) {
    Identifiers(cfg, w) && Tokens(w) && ClaimsKnown(w) && FoundDates(w)
  }

  /** The log of the earlier state is the beginning of the later one's, and means the same. */
  ghost predicate LogContinues(w: World, w': World) {
    && ClaimsKnown(w)
    && w.claimLog <= w'.claimLog
    && (forall token | token in w.claims :: token in w'.claims && w'.claims[token] == w.claims[token])
    && (forall id | id in w.published :: id in w'.published && w'.published[id] == w.published[id])
  }

  lemma LogStep(cfg: Config, w: World, e: Event)
    requires Tokens(w) && ClaimsKnown(w) && Enabled(cfg, w, e)
    ensures LogContinues(w, Apply(cfg, w, e))
  {
    ClaimLogStep(cfg, w, e);
    RecordsStay(cfg, w, e);
    hide NextTables, NextPasses, NextFailures, Wins;
  }

  lemma SameClaim(w: World, w': World, consumer: ConsumerId, i: nat)
    requires LogContinues(w, w') && i < |w.claimLog|
    ensures ClaimsOf(w', consumer, i) <==> ClaimsOf(w, consumer, i)
    ensures ClaimsOf(w, consumer, i) ==>
              ClaimedMessage(w', i) == ClaimedMessage(w, i) && ClaimedMessage(w, i) in w.published
  {
    assert w'.claimLog[i] == w.claimLog[i];
  }

  /** What a step of a FIFO consumer adds to its claims. */
  lemma OneClaimAtMost(cfg: Config, w: World, e: Event, consumer: ConsumerId)
    requires Recorded(cfg, w) && Enabled(cfg, w, e) && OrderingOf(cfg, consumer.listener) == Fifo
    ensures var w' := Apply(cfg, w, e);
            if e.ClaimInOrder? && Wins(cfg, w, e) && e.work.key.consumer == consumer then
              && |w'.claimLog| == |w.claimLog| + 1
              && ClaimsOf(w', consumer, |w.claimLog|)
              && ClaimedMessage(w', |w.claimLog|) == e.work.key.message
              && e.work.key.message in w.published
              && e.work.key in w.db.deliveries && Incomplete(w.db.deliveries[e.work.key].status)
            else forall i: nat | ClaimsOf(w', consumer, i) :: i < |w.claimLog|
  {
    ClaimLogStep(cfg, w, e);
    assert Wins(cfg, w, e) ==> KnownRow(w, ClaimOf(e).key);
    assert Wins(cfg, w, e) && e.ClaimAny? ==> OrderingOf(cfg, ClaimOf(e).key.consumer.listener) == Unordered;
    hide Apply, Wins, Enabled;
  }

  lemma OvertakenSame(w: World, w': World, consumer: ConsumerId, id: MessageId)
    requires LogContinues(w, w') && id in w.published
    requires forall i: nat | ClaimsOf(w', consumer, i) :: i < |w.claimLog|
    ensures Overtaken(w', consumer, id) <==> Overtaken(w, consumer, id)
  {
    hide Before;
    forall i: nat | i < |w.claimLog|
      ensures ClaimsOf(w', consumer, i) <==> ClaimsOf(w, consumer, i)
      ensures ClaimsOf(w, consumer, i) ==>
                (Precedes(w', id, ClaimedMessage(w', i)) <==> Precedes(w, id, ClaimedMessage(w, i)))
    {
      SameClaim(w, w', consumer, i);
    }
  }

  lemma OvertakenByOneMore(w: World, w': World, consumer: ConsumerId, id: MessageId)
    requires LogContinues(w, w') && id in w.published
    requires |w'.claimLog| == |w.claimLog| + 1 && ClaimsOf(w', consumer, |w.claimLog|)
    requires ClaimedMessage(w', |w.claimLog|) in w.published
    ensures Overtaken(w', consumer, id)
       <==> Overtaken(w, consumer, id) || Precedes(w, id, ClaimedMessage(w', |w.claimLog|))
  {
    hide Before;
    var last := |w.claimLog|;
    OvertakenSame(w, w'.(claimLog := w.claimLog), consumer, id);
    forall i: nat | i < last ensures ClaimsOf(w', consumer, i) <==> ClaimsOf(w, consumer, i)
      ensures ClaimsOf(w, consumer, i) ==>
                (Precedes(w', id, ClaimedMessage(w', i)) <==> Precedes(w, id, ClaimedMessage(w, i)))
    {
      SameClaim(w, w', consumer, i);
    }
    assert Precedes(w', id, ClaimedMessage(w', last)) <==> Precedes(w, id, ClaimedMessage(w', last));
  }

  /** A message is overtaken by a winning ordered claim of a later one, and stays so. */
  lemma OvertakenStep(cfg: Config, w: World, e: Event, consumer: ConsumerId, id: MessageId)
    requires Recorded(cfg, w) && Enabled(cfg, w, e) && id in w.published
    requires OrderingOf(cfg, consumer.listener) == Fifo
    ensures Overtaken(Apply(cfg, w, e), consumer, id)
       <==> Overtaken(w, consumer, id) || ClaimsLater(cfg, w, e, consumer, id)
  {
    LogStep(cfg, w, e);
    OneClaimAtMost(cfg, w, e, consumer);
    hide Apply, Wins, Enabled, Recorded, LogContinues, Overtaken, Precedes;
    if e.ClaimInOrder? && Wins(cfg, w, e) && e.work.key.consumer == consumer {
      OvertakenByOneMore(w, Apply(cfg, w, e), consumer, id);
    } else {
      OvertakenSame(w, Apply(cfg, w, e), consumer, id);
    }
  }

  /** The row an event rewrites becomes undelivered again only by reviving it. */
  lemma TouchedStatus(cfg: Config, w: World, e: Event, k: DeliveryKey)
    requires Enabled(cfg, w, e) && Touched(w, e) == Some(k) && k in w.db.deliveries
    ensures k in NextTables(cfg, w, e).deliveries
    ensures Incomplete(NextTables(cfg, w, e).deliveries[k].status) ==>
              Incomplete(w.db.deliveries[k].status) || RevivesBehind(w, e, k)
    ensures RevivesBehind(w, e, k) ==> Incomplete(NextTables(cfg, w, e).deliveries[k].status)
  {
  }

  /** An untouched row is as it was, or swept, or made new and pending. */
  lemma UntouchedStatus(cfg: Config, w: World, e: Event, k: DeliveryKey)
    requires Enabled(cfg, w, e) && Touched(w, e) != Some(k)
    ensures k in NextTables(cfg, w, e).deliveries ==>
              NextTables(cfg, w, e).deliveries[k]
              == (if k in w.db.deliveries then w.db.deliveries[k] else PENDING_DELIVERY)
    ensures k !in w.db.deliveries ==> (k in NextTables(cfg, w, e).deliveries <==> MakesRow(w, e, k))
    ensures e.ClaimInOrder? && k in w.db.deliveries ==> k in NextTables(cfg, w, e).deliveries
    ensures !RevivesBehind(w, e, k) && (MakesRow(w, e, k) ==> !e.ClaimInOrder?)
  {
    if k in NextTables(cfg, w, e).deliveries {
      OtherRows(cfg, w, e, k);
    }
    if MakesRow(w, e, k) {
      NewRow(cfg, w, e, k);
    }
  }

  lemma NewRow(cfg: Config, w: World, e: Event, k: DeliveryKey)
    requires Enabled(cfg, w, e) && MakesRow(w, e, k)
    ensures k in NextTables(cfg, w, e).deliveries
  {
    if e.Materialize? {
      assert k == DeliveryKey(k.message, w.passes[e.pass].key.id);
    }
  }

  /** The ordered claim sees every undelivered predecessor that still has its message. */
  lemma PastRowHasNoMessage(cfg: Config, w: World, e: Event, k: DeliveryKey)
    requires Identifiers(cfg, w) && FoundDates(w) && Enabled(cfg, w, e)
    requires ClaimsLater(cfg, w, e, k.consumer, k.message)
    requires k in w.db.deliveries && Incomplete(w.db.deliveries[k].status)
    ensures k.message !in w.db.messages
  {
  }

  lemma MadeRowIsKnown(cfg: Config, w: World, e: Event, k: DeliveryKey)
    requires Identifiers(cfg, w) && (k in w.db.deliveries || MakesRow(w, e, k))
    ensures k.message in w.published
  {
    assert k in w.db.deliveries ==> KnownRow(w, k);
  }

  /**
   Which steps let a row of a FIFO consumer fall behind: exactly a revival or a
   creation of the row after a later message was claimed, and a claim of a later
   message while the row is undelivered and its message is gone.
   */
  lemma BehindExactly(cfg: Config, w: World, e: Event, k: DeliveryKey)
    requires Recorded(cfg, w) && Enabled(cfg, w, e) && OrderingOf(cfg, k.consumer.listener) == Fifo
    requires !Behind(w, k)
    ensures Behind(Apply(cfg, w, e), k) <==> Overtakes(cfg, w, e, k)
  {
    ClaimRecordsStay(cfg, w, e);
    if k in w.db.deliveries || MakesRow(w, e, k) {
      MadeRowIsKnown(cfg, w, e, k);
      OvertakenStep(cfg, w, e, k.consumer, k.message);
    }
    if Touched(w, e) == Some(k) {
      BehindTouched(cfg, w, e, k);
    } else {
      BehindUntouched(cfg, w, e, k);
    }
  }

  lemma ClaimsPastExactly(cfg: Config, w: World, e: Event, k: DeliveryKey)
    requires Recorded(cfg, w) && Enabled(cfg, w, e)
    ensures ClaimsPast(cfg, w, e, k) <==>
              && ClaimsLater(cfg, w, e, k.consumer, k.message)
              && k in w.db.deliveries && Incomplete(w.db.deliveries[k].status)
    ensures MakesRow(w, e, k) ==> k !in w.db.deliveries
  {
    hide Wins, Precedes, Enabled;
    if ClaimsLater(cfg, w, e, k.consumer, k.message)
       && k in w.db.deliveries && Incomplete(w.db.deliveries[k].status)
    {
      PastRowHasNoMessage(cfg, w, e, k);
    }
  }

  ghost predicate OvertakenOrLater(cfg: Config, w: World, e: Event, k: DeliveryKey)
    requires Enabled(cfg, w, e)
  {
    Overtaken(Apply(cfg, w, e), k.consumer, k.message)
    <==> Overtaken(w, k.consumer, k.message) || ClaimsLater(cfg, w, e, k.consumer, k.message)
  }

  lemma BehindTouched(cfg: Config, w: World, e: Event, k: DeliveryKey)
    requires Enabled(cfg, w, e) && !Behind(w, k) && Touched(w, e) == Some(k)
    requires Apply(cfg, w, e).db == NextTables(cfg, w, e)
    requires k in w.db.deliveries || MakesRow(w, e, k) ==> OvertakenOrLater(cfg, w, e, k)
    ensures Behind(Apply(cfg, w, e), k) <==> Overtakes(cfg, w, e, k)
  {
    if k in w.db.deliveries {
      TouchedStatus(cfg, w, e, k);
    } else if k in NextTables(cfg, w, e).deliveries {
      TouchedRowExists(cfg, w, e, k);
    }
    hide Apply, NextTables, Enabled, Wins, Overtaken;
  }

  lemma BehindUntouched(cfg: Config, w: World, e: Event, k: DeliveryKey)
    requires Recorded(cfg, w) && Enabled(cfg, w, e) && !Behind(w, k) && Touched(w, e) != Some(k)
    requires Apply(cfg, w, e).db == NextTables(cfg, w, e)
    requires k in w.db.deliveries || MakesRow(w, e, k) ==> OvertakenOrLater(cfg, w, e, k)
    ensures Behind(Apply(cfg, w, e), k) <==> Overtakes(cfg, w, e, k)
  {
    UntouchedStatus(cfg, w, e, k);
    ClaimsPastExactly(cfg, w, e, k);
    assert ClaimsLater(cfg, w, e, k.consumer, k.message) ==> e.ClaimInOrder?;
    hide Apply, NextTables, Enabled, Overtaken, Recorded, ClaimsLater, ClaimsPast, MakesRow, RevivesBehind;
  }

  // ---------------------------------------------------------------- runs

  lemma {:induction false} RecordedHolds(cfg: Config, premises: set<Premise>, events: seq<Event>)
    requires ValidConfig(cfg) && Exec(cfg, premises, events).Some?
    ensures Recorded(cfg, Exec(cfg, premises, events).value)
  {
    SettlementHolds(cfg, premises, events);
    if events != [] {
      var last := |events| - 1;
      RecordedHolds(cfg, premises, events[..last]);
      hide Apply, Enabled, Respects, Identifiers, Tokens, Budgets, FoundDates, ClaimsKnown;
      FoundDatesStep(cfg, Exec(cfg, premises, events[..last]).value, events[last]);
      ClaimsKnownStep(cfg, Exec(cfg, premises, events[..last]).value, events[last]);
    }
  }

  ghost predicate BehindAt(cfg: Config, premises: set<Premise>, events: seq<Event>, n: nat, k: DeliveryKey) {
    StateAt(cfg, premises, events, n).Some? && Behind(StateAt(cfg, premises, events, n).value, k)
  }

  ghost predicate OvertakesAt(cfg: Config, premises: set<Premise>, events: seq<Event>, n: nat, k: DeliveryKey) {
    && n < |events| && StateAt(cfg, premises, events, n).Some?
    && Overtakes(cfg, StateAt(cfg, premises, events, n).value, events[n], k)
  }

  lemma OvertakingStep(cfg: Config, premises: set<Premise>, events: seq<Event>, n: nat, k: DeliveryKey)
    requires ValidConfig(cfg) && Exec(cfg, premises, events).Some? && n < |events|
    requires OrderingOf(cfg, k.consumer.listener) == Fifo
    ensures !BehindAt(cfg, premises, events, n, k) ==>
              (BehindAt(cfg, premises, events, n + 1, k) <==> OvertakesAt(cfg, premises, events, n, k))
  {
    Prefixes(cfg, premises, events, n);
    RecordedHolds(cfg, premises, events[..n]);
    hide Exec, Apply, Enabled, Respects, Behind, Overtakes, Recorded;
    var w := Exec(cfg, premises, events[..n]).value;
    if !Behind(w, k) {
      BehindExactly(cfg, w, events[n], k);
    }
  }

  lemma {:induction false} NotBehindSoFar(
    cfg: Config, premises: set<Premise>, events: seq<Event>, n: nat, k: DeliveryKey)
    requires ValidConfig(cfg) && Exec(cfg, premises, events).Some? && n <= |events|
    requires OrderingOf(cfg, k.consumer.listener) == Fifo
    requires forall m: nat | m < n :: !OvertakesAt(cfg, premises, events, m, k)
    ensures !BehindAt(cfg, premises, events, n, k)
  {
    if n == 0 {
      assert events[..0] == [];
    } else {
      NotBehindSoFar(cfg, premises, events, n - 1, k);
      OvertakingStep(cfg, premises, events, n - 1, k);
    }
  }

  /**
   Over any run, a row of a FIFO consumer never falls behind if and only if no
   step of the run is one of the three kinds for it.
   */
  lemma NeverBehindExactly(cfg: Config, premises: set<Premise>, events: seq<Event>, k: DeliveryKey)
    requires ValidConfig(cfg) && Exec(cfg, premises, events).Some?
    requires OrderingOf(cfg, k.consumer.listener) == Fifo
    ensures (forall n: nat | n <= |events| :: !BehindAt(cfg, premises, events, n, k))
       <==> (forall n: nat | n < |events| :: !OvertakesAt(cfg, premises, events, n, k))
  {
    if forall n: nat | n < |events| :: !OvertakesAt(cfg, premises, events, n, k) {
      forall n: nat | n <= |events| ensures !BehindAt(cfg, premises, events, n, k) {
        NotBehindSoFar(cfg, premises, events, n, k);
      }
    }
    if forall n: nat | n <= |events| :: !BehindAt(cfg, premises, events, n, k) {
      forall n: nat | n < |events| ensures !OvertakesAt(cfg, premises, events, n, k) {
        OvertakingStep(cfg, premises, events, n, k);
        assert !BehindAt(cfg, premises, events, n, k);
        assert !BehindAt(cfg, premises, events, n + 1, k);
      }
    }
  }

  // ---------------------------------------------------------------- claims in order

  /** An ordered claim of the consumer wins a row that has fallen behind. */
  ghost predicate ClaimsBehind(cfg: Config, w: World, e: Event, consumer: ConsumerId) {
    e.ClaimInOrder? && Wins(cfg, w, e) && e.work.key.consumer == consumer && Behind(w, e.work.key)
  }

  ghost predicate ClaimsBehindAt(
    cfg: Config, premises: set<Premise>, events: seq<Event>, n: nat, consumer: ConsumerId)
  {
    && n < |events| && StateAt(cfg, premises, events, n).Some?
    && ClaimsBehind(cfg, StateAt(cfg, premises, events, n).value, events[n], consumer)
  }

  lemma SameOrder(w: World, w': World, consumer: ConsumerId)
    requires LogContinues(w, w') && forall i: nat | ClaimsOf(w', consumer, i) :: i < |w.claimLog|
    ensures ClaimsInOrder(w', consumer) <==> ClaimsInOrder(w, consumer)
  {
    hide Before;
    forall i: nat, j: nat | i < j < |w.claimLog|
      ensures ClaimsOf(w, consumer, i) && ClaimsOf(w, consumer, j) <==>
              ClaimsOf(w', consumer, i) && ClaimsOf(w', consumer, j)
      ensures ClaimsOf(w, consumer, i) && ClaimsOf(w, consumer, j) ==>
                (Precedes(w', ClaimedMessage(w', j), ClaimedMessage(w', i))
                 <==> Precedes(w, ClaimedMessage(w, j), ClaimedMessage(w, i)))
    {
      SameClaim(w, w', consumer, i);
      SameClaim(w, w', consumer, j);
    }
  }

  /** One more claim keeps the order exactly if its message was not overtaken. */
  lemma OneMoreClaim(w: World, w': World, consumer: ConsumerId)
    requires LogContinues(w, w') && |w'.claimLog| == |w.claimLog| + 1 && ClaimsOf(w', consumer, |w.claimLog|)
    requires ClaimedMessage(w', |w.claimLog|) in w.published
    ensures ClaimsInOrder(w', consumer)
       <==> ClaimsInOrder(w, consumer) && !Overtaken(w, consumer, ClaimedMessage(w', |w.claimLog|))
  {
    var last := |w.claimLog|;
    hide Before;
    var front := w'.(claimLog := w.claimLog);
    SameOrder(w, front, consumer);
    forall i: nat | i < last
      ensures ClaimsOf(w', consumer, i) <==> ClaimsOf(w, consumer, i)
      ensures ClaimsOf(w', consumer, i) <==> ClaimsOf(front, consumer, i)
      ensures ClaimsOf(w, consumer, i) ==>
                (Precedes(w', ClaimedMessage(w', last), ClaimedMessage(w', i))
                 <==> Precedes(w, ClaimedMessage(w', last), ClaimedMessage(w, i)))
    {
      SameClaim(w, w', consumer, i);
    }
    if ClaimsInOrder(w', consumer) && Overtaken(w, consumer, ClaimedMessage(w', last)) {
      var i: nat :| ClaimsOf(w, consumer, i) && Precedes(w, ClaimedMessage(w', last), ClaimedMessage(w, i));
      assert ClaimsOf(w', consumer, i);
    }
    if ClaimsInOrder(w', consumer) {
      FrontInOrder(w', front, consumer);
    }
  }

  lemma FrontInOrder(w: World, front: World, consumer: ConsumerId)
    requires ClaimsInOrder(w, consumer) && front == w.(claimLog := front.claimLog) && front.claimLog <= w.claimLog
    ensures ClaimsInOrder(front, consumer)
  {
    hide Before;
    forall i: nat, j: nat | i < j && ClaimsOf(front, consumer, i) && ClaimsOf(front, consumer, j)
      ensures !Precedes(front, ClaimedMessage(front, j), ClaimedMessage(front, i))
    {
      assert ClaimsOf(w, consumer, i) && ClaimsOf(w, consumer, j);
      assert !Precedes(w, ClaimedMessage(w, j), ClaimedMessage(w, i));
    }
  }

  /** A step keeps the order of the claims exactly unless it claims a row that has fallen behind. */
  lemma InOrderStep(cfg: Config, w: World, e: Event, consumer: ConsumerId)
    requires Recorded(cfg, w) && Enabled(cfg, w, e) && OrderingOf(cfg, consumer.listener) == Fifo
    ensures ClaimsInOrder(Apply(cfg, w, e), consumer)
       <==> ClaimsInOrder(w, consumer) && !ClaimsBehind(cfg, w, e, consumer)
  {
    LogStep(cfg, w, e);
    OneClaimAtMost(cfg, w, e, consumer);
    hide Apply, Wins, Enabled, Recorded, LogContinues, ClaimsInOrder, Overtaken;
    if e.ClaimInOrder? && Wins(cfg, w, e) && e.work.key.consumer == consumer {
      OneMoreClaim(w, Apply(cfg, w, e), consumer);
    } else {
      SameOrder(w, Apply(cfg, w, e), consumer);
    }
  }

  ghost predicate InOrderAt(cfg: Config, premises: set<Premise>, events: seq<Event>, n: nat, consumer: ConsumerId) {
    StateAt(cfg, premises, events, n).Some? && ClaimsInOrder(StateAt(cfg, premises, events, n).value, consumer)
  }

  lemma OrderAtStep(cfg: Config, premises: set<Premise>, events: seq<Event>, n: nat, consumer: ConsumerId)
    requires ValidConfig(cfg) && Exec(cfg, premises, events).Some? && n < |events|
    requires OrderingOf(cfg, consumer.listener) == Fifo
    ensures InOrderAt(cfg, premises, events, n + 1, consumer)
       <==> && InOrderAt(cfg, premises, events, n, consumer)
            && !ClaimsBehindAt(cfg, premises, events, n, consumer)
  {
    Prefixes(cfg, premises, events, n);
    RecordedHolds(cfg, premises, events[..n]);
    hide Exec, Apply, Enabled, Respects, ClaimsInOrder, ClaimsBehind, Recorded;
    InOrderStep(cfg, Exec(cfg, premises, events[..n]).value, events[n], consumer);
  }

  lemma OrderAtStart(cfg: Config, premises: set<Premise>, events: seq<Event>, consumer: ConsumerId)
    ensures InOrderAt(cfg, premises, events, 0, consumer)
  {
    assert events[..0] == [];
  }

  lemma {:induction false} OrderUpTo(
    cfg: Config, premises: set<Premise>, events: seq<Event>, n: nat, consumer: ConsumerId)
    requires ValidConfig(cfg) && Exec(cfg, premises, events).Some? && n <= |events|
    requires OrderingOf(cfg, consumer.listener) == Fifo
    ensures InOrderAt(cfg, premises, events, n, consumer)
       <==> forall m: nat | m < n :: !ClaimsBehindAt(cfg, premises, events, m, consumer)
  {
    hide Exec, InOrderAt, ClaimsBehindAt;
    if n == 0 {
      OrderAtStart(cfg, premises, events, consumer);
    } else {
      OrderUpTo(cfg, premises, events, n - 1, consumer);
      OrderAtStep(cfg, premises, events, n - 1, consumer);
    }
  }

  /**
   The FIFO promise, exactly: over any run, the claims of a consumer never go back
   in (publication date, message identifier) if and only if no ordered claim of
   the run wins a row that has fallen behind.
   */
  lemma FifoOrderExactly(
    cfg: Config, premises: set<Premise>, events: seq<Event>, w: World, consumer: ConsumerId)
    requires ValidConfig(cfg) && Exec(cfg, premises, events) == Some(w)
    requires OrderingOf(cfg, consumer.listener) == Fifo
    ensures ClaimsInOrder(w, consumer)
       <==> forall n: nat | n < |events| :: !ClaimsBehindAt(cfg, premises, events, n, consumer)
  {
    OrderUpTo(cfg, premises, events, |events|, consumer);
    assert events[..|events|] == events;
  }

  /** Without the three kinds of steps the claims are in order. */
  lemma NothingOvertakesKeepsOrder(
    cfg: Config, premises: set<Premise>, events: seq<Event>, w: World, consumer: ConsumerId)
    requires ValidConfig(cfg) && Exec(cfg, premises, events) == Some(w)
    requires OrderingOf(cfg, consumer.listener) == Fifo
    requires forall n: nat, k: DeliveryKey | n < |events| && k.consumer == consumer ::
               !OvertakesAt(cfg, premises, events, n, k)
    ensures ClaimsInOrder(w, consumer)
  {
    forall n: nat | n < |events| ensures !ClaimsBehindAt(cfg, premises, events, n, consumer) {
      if ClaimsBehindAt(cfg, premises, events, n, consumer) {
        NotBehindSoFar(cfg, premises, events, n, events[n].work.key);
        assert false;
      }
    }
    FifoOrderExactly(cfg, premises, events, w, consumer);
  }
}
