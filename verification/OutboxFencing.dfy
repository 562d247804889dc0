/**
 What the attempt generation fences over every run: one claim, one handler call
 and one settlement per generation, effective only for its claimant, at most one
 completion per publication, and no publication lost before it completes.
 */
module OutboxFencing {
  import opened Wrappers
  import opened OutboxModel
  import opened OutboxProtocol

  // ---------------------------------------------------------------- logs

  ghost predicate Has(log: seq<Entry>, id: PublicationId, generation: nat) {
    exists i | 0 <= i < |log| :: log[i].id == id && log[i].generation == generation
  }

  ghost predicate Unique(log: seq<Entry>) {
    forall i, j | 0 <= i < j < |log| :: !(log[i].id == log[j].id && log[i].generation == log[j].generation)
  }

  lemma HasAppend(log: seq<Entry>, e: Entry, id: PublicationId, generation: nat)
    ensures Has(log + [e], id, generation) <==> Has(log, id, generation) || (e.id == id && e.generation == generation)
  {
    if Has(log, id, generation) {
      var i :| 0 <= i < |log| && log[i].id == id && log[i].generation == generation;
      assert (log + [e])[i] == log[i];
    }
    assert (log + [e])[|log|] == e;
  }

  lemma UniqueEntries(log: seq<Entry>, a: Entry, b: Entry)
    requires Unique(log) && a in log && b in log && a.id == b.id && a.generation == b.generation
    ensures a == b
  {
  }

  /** The publication whose row the event may rewrite. */
  function Touched(w: World, e: Event): Option<PublicationId> {
    match e
    case Draft(_, _) => None
    case Commit(id) => Some(id)
    case Rollback(_) => None
    case _ => if (Writes(e) || e.CommitArchive?) && e.task in w.tasks then Some(w.tasks[e.task].id) else None
  }

  lemma OtherRows(mode: CompletionMode, w: World, e: Event, id: PublicationId)
    requires Enabled(mode, w, e) && Touched(w, e) != Some(id)
    ensures id in w.publications <==> id in NextPublications(mode, w, e)
    ensures id in w.publications ==> NextPublications(mode, w, e)[id] == w.publications[id]
  {
  }

  // ---------------------------------------------------------------- identifiers

  ghost predicate Books(w: World) {
    && w.drafts.Keys <= w.known && w.committed <= w.known && w.drafts.Keys !! w.committed
    && w.publications.Keys <= w.committed
    && (forall id | id in w.drafts :: w.drafts[id].status == Published && w.drafts[id].attempts == 1)
    && (forall id | id in w.publications :: w.publications[id].attempts >= 1)
  }

  lemma BooksStep(mode: CompletionMode, w: World, e: Event)
    requires Books(w) && Enabled(mode, w, e)
    ensures Books(Apply(mode, w, e))
  {
    var w' := Apply(mode, w, e);
    forall id | id in w'.publications ensures id in w'.committed && w'.publications[id].attempts >= 1 {
      if Touched(w, e) != Some(id) {
        OtherRows(mode, w, e, id);
      }
    }
  }

  // ---------------------------------------------------------------- claims

  predicate Started(status: Status) {
    status in {Processing, Completed, Failed}
  }

  ghost predicate RowClaims(w: World, id: PublicationId)
    requires id in w.publications
  {
    && (forall i | 0 <= i < |w.claims| && w.claims[i].id == id :: w.claims[i].generation <= w.publications[id].attempts)
    && (Has(w.claims, id, w.publications[id].attempts) <==> Started(w.publications[id].status))
  }

  predicate Owns(stage: Stage) {
    !stage.Observing? && !stage.Holding?
  }

  ghost predicate Claims(w: World) {
    && Unique(w.claims)
    && (forall i | 0 <= i < |w.claims| :: w.claims[i].id in w.committed && w.claims[i].good)
    && (forall id | id in w.publications :: RowClaims(w, id))
    && (forall task | task in w.tasks && Owns(w.tasks[task].stage) :: EntryOf(w, task, true) in w.claims)
  }

  lemma RowClaimsStep(mode: CompletionMode, w: World, e: Event, id: PublicationId)
    requires Books(w) && Claims(w) && Enabled(mode, w, e) && id in NextPublications(mode, w, e)
    ensures RowClaims(Apply(mode, w, e), id)
  {
    var w' := Apply(mode, w, e);
    if Touched(w, e) != Some(id) {
      OtherRows(mode, w, e, id);
    }
    assert id in w.publications ==> RowClaims(w, id);
    if e.Claim? && Wins(w, e) {
      HasAppend(w.claims, EntryOf(w, e.task, true), id, w'.publications[id].attempts);
    }
  }

  lemma ClaimsStep(mode: CompletionMode, w: World, e: Event)
    requires Books(w) && Claims(w) && Enabled(mode, w, e)
    ensures Claims(Apply(mode, w, e))
  {
    var w' := Apply(mode, w, e);
    forall id | id in w'.publications ensures RowClaims(w', id) {
      RowClaimsStep(mode, w, e, id);
    }
    hide RowClaims;
    if e.Claim? && Wins(w, e) {
      ClaimIsNew(mode, w, e);
      assert w'.claims[|w.claims|] == EntryOf(w, e.task, true);
    }
    forall task | task in w'.tasks && Owns(w'.tasks[task].stage) ensures EntryOf(w', task, true) in w'.claims {
      OwnerStep(mode, w, e, task);
    }
  }

  lemma ClaimIsNew(mode: CompletionMode, w: World, e: Event)
    requires Claims(w) && Enabled(mode, w, e) && e.Claim? && Wins(w, e)
    ensures !Has(w.claims, w.tasks[e.task].id, w.tasks[e.task].generation)
    ensures w.tasks[e.task].id in w.publications
  {
    assert RowClaims(w, w.tasks[e.task].id);
  }

  /** A task that owns a claim won it now or owned it before. */
  lemma OwnerStep(mode: CompletionMode, w: World, e: Event, task: nat)
    requires Claims(w) && Enabled(mode, w, e)
    requires task in NextTasks(mode, w, e) && Owns(NextTasks(mode, w, e)[task].stage)
    ensures task in w.tasks && w.tasks[task].id == NextTasks(mode, w, e)[task].id
    ensures w.tasks[task].generation == NextTasks(mode, w, e)[task].generation
    ensures Owns(w.tasks[task].stage) || (e.Claim? && Wins(w, e) && e.task == task)
    ensures EntryOf(w, task, true) in Apply(mode, w, e).claims
  {
    if e.Claim? && Wins(w, e) {
      assert Apply(mode, w, e).claims[|w.claims|] == EntryOf(w, e.task, true);
    }
  }

  // ---------------------------------------------------------------- handlers

  predicate Succeeded(stage: Stage) {
    Owns(stage) && stage != Claimed && stage != Refused
  }

  ghost predicate TaskHandled(w: World, task: nat)
    requires task in w.tasks
  {
    && (w.tasks[task].stage == Claimed ==> !Has(w.handled, w.tasks[task].id, w.tasks[task].generation))
    && (w.tasks[task].stage == Refused ==> EntryOf(w, task, false) in w.handled)
    && (Succeeded(w.tasks[task].stage) ==> EntryOf(w, task, true) in w.handled)
  }

  /** The handler of a generation runs at most once, in the task that claimed it. */
  ghost predicate Handled(w: World) {
    && Unique(w.handled)
    && (forall i | 0 <= i < |w.handled| :: w.handled[i].(good := true) in w.claims)
    && (forall task | task in w.tasks :: TaskHandled(w, task))
  }

  lemma HandledIsClaimed(w: World, id: PublicationId, generation: nat)
    requires Handled(w) && Has(w.handled, id, generation)
    ensures Has(w.claims, id, generation)
  {
    var i :| 0 <= i < |w.handled| && w.handled[i].id == id && w.handled[i].generation == generation;
    assert w.handled[i].(good := true) in w.claims;
  }

  /** Winning a claim: the handler of this generation was not called yet. */
  lemma ClaimantHandled(mode: CompletionMode, w: World, e: Event)
    requires Claims(w) && Handled(w) && Enabled(mode, w, e) && e.Claim? && Wins(w, e)
    ensures TaskHandled(Apply(mode, w, e), e.task)
  {
    var t := w.tasks[e.task];
    ClaimIsNew(mode, w, e);
    if Has(w.handled, t.id, t.generation) {
      HandledIsClaimed(w, t.id, t.generation);
    }
    hide Claims, Handled, ClaimProcessing;
  }

  /** A handler call: it is logged for its own task, and is of no other task's generation. */
  lemma DeliveryHandled(mode: CompletionMode, w: World, e: Event, task: nat)
    requires Claims(w) && Handled(w) && Enabled(mode, w, e) && e.Deliver?
    requires task in w.tasks && Owns(w.tasks[task].stage)
    ensures TaskHandled(Apply(mode, w, e), task)
  {
    var w' := Apply(mode, w, e);
    var t := w.tasks[task];
    assert TaskHandled(w, task);
    HasAppend(w.handled, EntryOf(w, e.task, e.good), t.id, t.generation);
    assert w'.handled[|w.handled|] == EntryOf(w, e.task, e.good);
    if e.task != task && w.tasks[e.task].id == t.id && w.tasks[e.task].generation == t.generation {
      UniqueEntries(w.claims, EntryOf(w, e.task, true), EntryOf(w, task, true));
    }
  }

  /** A task that neither claims nor calls its handler keeps what its handler left. */
  lemma OthersHandled(mode: CompletionMode, w: World, e: Event, task: nat)
    requires Enabled(mode, w, e) && task in NextTasks(mode, w, e) && !e.Deliver?
    requires task in w.tasks && TaskHandled(w, task) && Owns(w.tasks[task].stage)
    ensures TaskHandled(Apply(mode, w, e), task)
  {
    hide NextPublications, NextArchive, NextSettlements, NextResubmissions, Unlocked, KeyUnlocked, Has;
  }

  lemma TaskHandledStep(mode: CompletionMode, w: World, e: Event, task: nat)
    requires Books(w) && Claims(w) && Handled(w) && Enabled(mode, w, e) && task in NextTasks(mode, w, e)
    ensures TaskHandled(Apply(mode, w, e), task)
  {
    if Owns(NextTasks(mode, w, e)[task].stage) {
      OwnerStep(mode, w, e, task);
      assert TaskHandled(w, task);
      hide Apply, NextTasks, Enabled, Claims, Books, TaskHandled;
      if e.Claim? && Wins(w, e) && e.task == task {
        ClaimantHandled(mode, w, e);
      } else if e.Deliver? {
        DeliveryHandled(mode, w, e, task);
      } else {
        OthersHandled(mode, w, e, task);
      }
    } else {
      NothingHandled(mode, w, e, task);
    }
  }

  lemma NothingHandled(mode: CompletionMode, w: World, e: Event, task: nat)
    requires Enabled(mode, w, e) && task in NextTasks(mode, w, e) && !Owns(NextTasks(mode, w, e)[task].stage)
    ensures TaskHandled(Apply(mode, w, e), task)
  {
    hide NextTasks, NextPublications, NextArchive, NextSettlements, NextResubmissions;
  }

  lemma HandledStep(mode: CompletionMode, w: World, e: Event)
    requires Books(w) && Claims(w) && Handled(w) && Enabled(mode, w, e)
    ensures Handled(Apply(mode, w, e))
  {
    var w' := Apply(mode, w, e);
    forall task | task in w'.tasks ensures TaskHandled(w', task) {
      TaskHandledStep(mode, w, e, task);
    }
    if e.Deliver? {
      assert TaskHandled(w, e.task);
      assert w'.handled == w.handled + [EntryOf(w, e.task, e.good)];
    }
    hide TaskHandled;
    forall i | 0 <= i < |w'.handled| ensures w'.handled[i].(good := true) in w'.claims {
      assert i < |w.handled| ==> w'.handled[i] == w.handled[i] && w.handled[i].(good := true) in w.claims;
      assert w.claims <= w'.claims;
    }
  }

  // ---------------------------------------------------------------- settlements

  /** Once settled, a generation never passes its fence again; a completed row stays completed. */
  ghost predicate Closed(w: World, s: Entry) {
    s.id in w.publications ==>
      if s.good then w.publications[s.id].status == Completed && w.publications[s.id].attempts == s.generation
      else w.publications[s.id].attempts > s.generation
           || (w.publications[s.id].attempts == s.generation && w.publications[s.id].status == Failed)
  }

  ghost predicate CompletedOnce(w: World, id: PublicationId) {
    exists i | 0 <= i < |w.settlements| :: w.settlements[i].id == id && w.settlements[i].good
  }

  ghost predicate Settlements(w: World) {
    && Unique(w.settlements)
    && (forall i | 0 <= i < |w.settlements| :: w.settlements[i] in w.handled && Closed(w, w.settlements[i]))
    && (forall i, j | 0 <= i < j < |w.settlements| && w.settlements[i].good && w.settlements[j].good ::
          w.settlements[i].id != w.settlements[j].id)
    && (forall id | id in w.committed && id !in w.publications :: CompletedOnce(w, id))
    && (forall id | id in w.publications && w.publications[id].status == Completed :: CompletedOnce(w, id))
  }

  /** What an archive transaction that deleted its row still finds at its commit. */
  ghost predicate LockedRow(w: World, task: nat)
    requires task in w.tasks
  {
    w.tasks[task].stage.Deleting? ==> Settleable(w.publications, w.tasks[task].id, w.tasks[task].generation)
  }

  ghost predicate Locks(w: World) {
    && (forall task | task in w.tasks :: LockedRow(w, task))
    && (forall a, b | a in w.tasks && b in w.tasks && w.tasks[a].stage.Deleting? && w.tasks[b].stage.Deleting? ::
          w.tasks[a].id == w.tasks[b].id ==> a == b)
  }

  lemma LocksStep(mode: CompletionMode, w: World, e: Event)
    requires Books(w) && Claims(w) && Locks(w) && Enabled(mode, w, e)
    ensures Locks(Apply(mode, w, e))
  {
    var w' := Apply(mode, w, e);
    forall task | task in w'.tasks ensures LockedRow(w', task) {
      LockedRowStep(mode, w, e, task);
    }
  }

  lemma LockedRowStep(mode: CompletionMode, w: World, e: Event, task: nat)
    requires Books(w) && Claims(w) && Locks(w) && Enabled(mode, w, e) && task in NextTasks(mode, w, e)
    ensures LockedRow(Apply(mode, w, e), task)
  {
    if NextTasks(mode, w, e)[task].stage.Deleting? {
      OwnerStep(mode, w, e, task);
      assert LockedRow(w, task);
      if Touched(w, e) != Some(w.tasks[task].id) {
        OtherRows(mode, w, e, w.tasks[task].id);
      }
    }
  }

  predicate Settling(w: World, e: Event)
    requires !e.Draft? && !e.Commit? && !e.Rollback? ==> e.Hand? || e.Observe? || e.task in w.tasks
  {
    ((e.Fail? || e.Complete?) && Wins(w, e)) || e.CommitArchive?
  }

  /** Only the claimant of the current generation settles. */
  lemma SettlingIsCurrent(mode: CompletionMode, w: World, e: Event)
    requires Claims(w) && Handled(w) && Locks(w) && Enabled(mode, w, e) && Settling(w, e)
    ensures Settleable(w.publications, w.tasks[e.task].id, w.tasks[e.task].generation)
    ensures EntryOf(w, e.task, !e.Fail?) in w.handled
  {
    assert TaskHandled(w, e.task) && LockedRow(w, e.task);
  }

  lemma ClosedStep(mode: CompletionMode, w: World, e: Event, s: Entry)
    requires Books(w) && Claims(w) && Handled(w) && Locks(w) && Enabled(mode, w, e)
    requires Closed(w, s) && s.id in w.committed
    ensures Closed(Apply(mode, w, e), s)
  {
    if Touched(w, e) != Some(s.id) {
      OtherRows(mode, w, e, s.id);
    }
  }

  lemma NewClosed(mode: CompletionMode, w: World, e: Event)
    requires Books(w) && Claims(w) && Handled(w) && Locks(w) && Enabled(mode, w, e) && Settling(w, e)
    ensures Closed(Apply(mode, w, e), EntryOf(w, e.task, !e.Fail?))
    ensures NextSettlements(mode, w, e) == w.settlements + [EntryOf(w, e.task, !e.Fail?)]
  {
    SettlingIsCurrent(mode, w, e);
  }

  lemma SettledIsOver(w: World, id: PublicationId, generation: nat)
    requires Settlements(w) && Settleable(w.publications, id, generation)
    ensures !Has(w.settlements, id, generation) && !CompletedOnce(w, id)
  {
    forall i | 0 <= i < |w.settlements| && w.settlements[i].id == id
      ensures w.settlements[i].generation != generation && !w.settlements[i].good
    {
      assert Closed(w, w.settlements[i]);
    }
  }

  /** A row leaves the table, or is marked completed, only by a settlement that succeeded. */
  lemma CompletionsStep(mode: CompletionMode, w: World, e: Event, id: PublicationId)
    requires Books(w) && Claims(w) && Handled(w) && Locks(w) && Settlements(w) && Enabled(mode, w, e)
    requires id in Apply(mode, w, e).committed
    requires id in NextPublications(mode, w, e) ==> NextPublications(mode, w, e)[id].status == Completed
    ensures CompletedOnce(Apply(mode, w, e), id)
  {
    var w' := Apply(mode, w, e);
    assert w.settlements <= w'.settlements;
    if CompletedOnce(w, id) {
      var i :| 0 <= i < |w.settlements| && w.settlements[i].id == id && w.settlements[i].good;
      assert w'.settlements[i] == w.settlements[i];
    } else {
      if Touched(w, e) != Some(id) {
        OtherRows(mode, w, e, id);
      }
      assert Settling(w, e) && !e.Fail?;
      NewClosed(mode, w, e);
      assert w'.settlements[|w.settlements|] == EntryOf(w, e.task, true);
    }
  }

  lemma SettlementsStep(mode: CompletionMode, w: World, e: Event)
    requires Books(w) && Claims(w) && Handled(w) && Locks(w) && Settlements(w) && Enabled(mode, w, e)
    ensures Settlements(Apply(mode, w, e))
  {
    var w' := Apply(mode, w, e);
    forall i | 0 <= i < |w'.settlements| ensures w'.settlements[i] in w'.handled && Closed(w', w'.settlements[i]) {
      if i < |w.settlements| {
        assert w'.settlements[i] == w.settlements[i] && w.settlements[i] in w.handled;
        assert w.settlements[i].(good := true) in w.claims;
        ClosedStep(mode, w, e, w.settlements[i]);
      } else {
        SettlingIsCurrent(mode, w, e);
        NewClosed(mode, w, e);
      }
    }
    forall id | id in w'.committed
             && (id in w'.publications ==> w'.publications[id].status == Completed) ensures CompletedOnce(w', id) {
      CompletionsStep(mode, w, e, id);
    }
    SettlementsStayUnique(mode, w, e);
    BooksStep(mode, w, e);
  }

  lemma SettlementsStayUnique(mode: CompletionMode, w: World, e: Event)
    requires Claims(w) && Handled(w) && Locks(w) && Settlements(w) && Enabled(mode, w, e)
    ensures Unique(NextSettlements(mode, w, e))
    ensures forall i, j | 0 <= i < j < |NextSettlements(mode, w, e)|
              && NextSettlements(mode, w, e)[i].good && NextSettlements(mode, w, e)[j].good ::
              NextSettlements(mode, w, e)[i].id != NextSettlements(mode, w, e)[j].id
  {
    if Settling(w, e) {
      SettlingIsCurrent(mode, w, e);
      SettledIsOver(w, w.tasks[e.task].id, w.tasks[e.task].generation);
      hide Settleable, Handled, Claims, Locks;
      assert NextSettlements(mode, w, e) == w.settlements + [EntryOf(w, e.task, !e.Fail?)];
    }
  }

  // ---------------------------------------------------------------- runs

  lemma {:induction false} FencingHolds(mode: CompletionMode, events: seq<Event>, w: World)
    requires Exec(mode, events) == Some(w)
    ensures Books(w) && Claims(w) && Handled(w) && Locks(w) && Settlements(w)
  {
    if events != [] {
      var last := |events| - 1;
      var before := Exec(mode, events[..last]).value;
      FencingHolds(mode, events[..last], before);
      hide Books, Claims, Handled, Locks, Settlements;
      BooksStep(mode, before, events[last]);
      ClaimsStep(mode, before, events[last]);
      HandledStep(mode, before, events[last]);
      LocksStep(mode, before, events[last]);
      SettlementsStep(mode, before, events[last]);
    }
  }

  /**
   Over any run of any number of dispatchers and resubmitters: a generation is
   claimed at most once; its handler runs at most once, in its claimant; a
   settlement takes effect at most once per generation, only for that claimant
   and only with the outcome of its handler; a publication completes at most
   once; and one that left the table, or is marked completed, did complete.
   */
  lemma GenerationFencing(mode: CompletionMode, events: seq<Event>, w: World)
    requires Exec(mode, events) == Some(w)
    ensures Unique(w.claims) && Unique(w.handled) && Unique(w.settlements)
    ensures forall s | s in w.settlements :: s in w.handled
    ensures forall h | h in w.handled :: h.(good := true) in w.claims
    ensures forall i, j | 0 <= i < j < |w.settlements| && w.settlements[i].good && w.settlements[j].good ::
              w.settlements[i].id != w.settlements[j].id
    ensures forall id | id in w.committed ::
              CompletedOnce(w, id) <==> (id in w.publications ==> w.publications[id].status == Completed)
  {
    FencingHolds(mode, events, w);
    forall id | id in w.committed
      ensures CompletedOnce(w, id) <==> (id in w.publications ==> w.publications[id].status == Completed)
    {
      if i :| 0 <= i < |w.settlements| && w.settlements[i].id == id && w.settlements[i].good {
        assert Closed(w, w.settlements[i]);
      }
    }
  }
}
