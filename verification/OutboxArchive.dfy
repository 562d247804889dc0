/**
 The attempt counter, the archive move and stale resubmissions over every run.
 */
module OutboxArchive {
  import opened Wrappers
  import opened OutboxModel
  import opened OutboxProtocol
  import opened OutboxFencing

  // ---------------------------------------------------------------- copies

  /** What an archive transaction has read is still the row, as long as its guard would hold. */
  ghost predicate Copy(w: World, task: nat)
    requires task in w.tasks
  {
    var t := w.tasks[task];
    && (t.stage.Reading? || t.stage.Inserting? || t.stage.Deleting? ==>
          Settleable(w.publications, t.id, t.generation) ==> w.publications[t.id] == t.stage.copy)
    && (t.stage.Inserting? || t.stage.Deleting? ==> !t.stage.added ==> t.id in w.archive)
  }

  /** In archive mode a committed publication is in exactly one of the two tables. */
  ghost predicate OneTable(mode: CompletionMode, w: World) {
    && w.publications.Keys !! w.archive.Keys
    && w.archive.Keys <= w.committed
    && (mode == ArchiveMode ==> w.publications.Keys + w.archive.Keys == w.committed)
  }

  ghost predicate Archived(mode: CompletionMode, w: World) {
    && OneTable(mode, w)
    && (forall task | task in w.tasks :: Copy(w, task))
    && (forall id | id in w.archive :: ArchivedOnce(w, id))
  }

  /** The archive entry carries the generation that completed. */
  ghost predicate ArchivedOnce(w: World, id: PublicationId)
    requires id in w.archive
  {
    && w.archive[id].status == Completed
    && exists i | 0 <= i < |w.settlements| ::
         w.settlements[i].good && w.settlements[i].id == id && w.settlements[i].generation == w.archive[id].attempts
  }

  ghost predicate Fenced(w: World) {
    Books(w) && Claims(w) && Handled(w) && Locks(w) && Settlements(w)
  }

  /** A row that cannot be claimed at a generation is, if processing at it, as it was. */
  lemma UnclaimableRow(mode: CompletionMode, w: World, e: Event, id: PublicationId, generation: nat)
    requires Books(w) && Enabled(mode, w, e) && id in w.committed && !Claimable(w.publications, id, generation)
    ensures Settleable(NextPublications(mode, w, e), id, generation) ==>
              && Settleable(w.publications, id, generation)
              && NextPublications(mode, w, e)[id] == w.publications[id]
  {
    hide Unlocked, KeyUnlocked;
  }

  /** An archive transaction at work went there by its own last statement, or was there. */
  lemma StageStep(mode: CompletionMode, w: World, e: Event, task: nat)
    requires Enabled(mode, w, e) && task in NextTasks(mode, w, e) && task in w.tasks
    ensures var before, after := w.tasks[task], NextTasks(mode, w, e)[task];
            && (after.stage.Reading? ==>
                  before == after || (e == ReadRow(task) && w.publications[after.id] == after.stage.copy))
            && (after.stage.Inserting? ==>
                  || before == after
                  || (e.InsertCopy? && before.stage.Reading? && before.stage.copy == after.stage.copy
                      && (!after.stage.added ==> after.id in w.archive)))
            && (after.stage.Deleting? ==>
                  || before == after
                  || (e.DeleteRow? && before.stage.Inserting? && before.stage.copy == after.stage.copy
                      && before.stage.added == after.stage.added))
  {
    hide Unlocked, KeyUnlocked;
  }

  lemma CopyStep(mode: CompletionMode, w: World, e: Event, task: nat)
    requires Fenced(w) && Archived(mode, w) && Enabled(mode, w, e) && task in NextTasks(mode, w, e)
    ensures Copy(Apply(mode, w, e), task)
  {
    var stage := NextTasks(mode, w, e)[task].stage;
    if stage.Reading? || stage.Inserting? || stage.Deleting? {
      OwnerStep(mode, w, e, task);
      assert Copy(w, task);
      OwnedRow(w, task);
      StageStep(mode, w, e, task);
      UnclaimableRow(mode, w, e, w.tasks[task].id, w.tasks[task].generation);
      assert w.archive.Keys <= NextArchive(mode, w, e).Keys;
      hide Fenced, Archived, Enabled, NextTasks, NextPublications, NextArchive;
    }
  }

  /** The row of an owner never becomes processing at its generation again once it left that state. */
  lemma OwnedRow(w: World, task: nat)
    requires Fenced(w) && task in w.tasks && Owns(w.tasks[task].stage)
    ensures w.tasks[task].id in w.committed
    ensures w.tasks[task].id in w.publications ==>
              !Claimable(w.publications, w.tasks[task].id, w.tasks[task].generation)
  {
    assert EntryOf(w, task, true) in w.claims;
    if w.tasks[task].id in w.publications {
      assert RowClaims(w, w.tasks[task].id);
    }
  }

  /** The commit of an archive transaction moves the row that is there, and writes its entry. */
  lemma CommitMovesTheRow(mode: CompletionMode, w: World, e: Event)
    requires Fenced(w) && Archived(mode, w) && Enabled(mode, w, e) && e.CommitArchive?
    ensures var t := w.tasks[e.task];
            && t.id in w.publications && w.publications[t.id].attempts == t.generation
            && t.stage.added && t.id !in w.archive
            && t.stage.copy == w.publications[t.id]
  {
    assert LockedRow(w, e.task) && Copy(w, e.task);
  }

  lemma ArchivedOnceStep(mode: CompletionMode, w: World, e: Event, id: PublicationId)
    requires Fenced(w) && Archived(mode, w) && Enabled(mode, w, e) && id in NextArchive(mode, w, e)
    ensures ArchivedOnce(Apply(mode, w, e), id)
  {
    var w' := Apply(mode, w, e);
    if e.CommitArchive? && id == w.tasks[e.task].id {
      CommitMovesTheRow(mode, w, e);
      assert w'.settlements[|w.settlements|] == EntryOf(w, e.task, true);
    } else {
      assert ArchivedOnce(w, id);
      var i :| 0 <= i < |w.settlements| && w.settlements[i].good && w.settlements[i].id == id
               && w.settlements[i].generation == w.archive[id].attempts;
      assert w'.settlements[i] == w.settlements[i];
    }
  }

  ghost predicate InOneTable(mode: CompletionMode, w: World, id: PublicationId) {
    && !(id in w.publications && id in w.archive)
    && (id in w.archive ==> id in w.committed)
    && (mode == ArchiveMode ==> (id in w.committed <==> id in w.publications || id in w.archive))
  }

  lemma InOneTableStep(mode: CompletionMode, w: World, e: Event, id: PublicationId)
    requires Books(w) && Enabled(mode, w, e) && InOneTable(mode, w, id)
    requires e.CommitArchive? ==> w.tasks[e.task].stage.added && w.tasks[e.task].id in w.committed
    ensures InOneTable(mode, Apply(mode, w, e), id)
  {
    hide Unlocked, KeyUnlocked;
  }

  lemma OneTableStep(mode: CompletionMode, w: World, e: Event)
    requires Books(w) && OneTable(mode, w) && Enabled(mode, w, e)
    requires e.CommitArchive? ==> w.tasks[e.task].stage.added && w.tasks[e.task].id in w.committed
    ensures OneTable(mode, Apply(mode, w, e))
  {
    var w' := Apply(mode, w, e);
    forall id ensures InOneTable(mode, w', id) {
      assert InOneTable(mode, w, id);
      InOneTableStep(mode, w, e, id);
    }
    hide Apply, Enabled, Books;
    assert forall id :: InOneTable(mode, w', id);
  }

  lemma ArchivedStep(mode: CompletionMode, w: World, e: Event)
    requires Fenced(w) && Archived(mode, w) && Enabled(mode, w, e)
    ensures Archived(mode, Apply(mode, w, e))
  {
    var w' := Apply(mode, w, e);
    if e.CommitArchive? {
      CommitMovesTheRow(mode, w, e);
    }
    OneTableStep(mode, w, e);
    hide Enabled, Fenced, Copy, ArchivedOnce, NextTasks, NextPublications, NextArchive;
    forall task | task in w'.tasks ensures Copy(w', task) {
      CopyStep(mode, w, e, task);
    }
    forall id | id in w'.archive ensures ArchivedOnce(w', id) {
      ArchivedOnceStep(mode, w, e, id);
    }
  }

  // ---------------------------------------------------------------- one step on

  predicate SameEvent(a: Publication, b: Publication) {
    a.listener == b.listener && a.payload == b.payload && a.publicationDate == b.publicationDate
  }

  /** A publication from one state to a later one: its counter never falls and the archive is final. */
  ghost predicate RowOnward(w: World, w': World, id: PublicationId) {
    && (id in w.committed ==> id in w'.committed)
    && (id in w.committed && id !in w.publications ==> id !in w'.publications)
    && (id in w.committed && id !in w.publications && id !in w.archive ==> id !in w'.archive)
    && (id in w.archive ==> id in w'.archive && w'.archive[id] == w.archive[id])
    && (id in w.publications && id in w'.publications ==>
          && w.publications[id].attempts <= w'.publications[id].attempts
          && SameEvent(w.publications[id], w'.publications[id]))
    && (id in w.publications && id in w'.archive ==>
          && w.publications[id].attempts <= w'.archive[id].attempts
          && SameEvent(w.publications[id], w'.archive[id]))
  }

  ghost predicate Onward(w: World, w': World) {
    forall id :: RowOnward(w, w', id)
  }

  lemma RowOnwardStep(mode: CompletionMode, w: World, e: Event, id: PublicationId)
    requires Books(w) && Enabled(mode, w, e) && (id in w.publications ==> id !in w.archive)
    requires e.CommitArchive? ==>
               var t := w.tasks[e.task];
               t.id in w.publications && t.stage.copy == w.publications[t.id]
    ensures RowOnward(w, Apply(mode, w, e), id)
  {
    hide Unlocked, KeyUnlocked;
  }

  lemma OnwardStep(mode: CompletionMode, w: World, e: Event)
    requires Fenced(w) && Archived(mode, w) && Enabled(mode, w, e)
    ensures Onward(w, Apply(mode, w, e))
  {
    if e.CommitArchive? {
      CommitMovesTheRow(mode, w, e);
    }
    forall id ensures RowOnward(w, Apply(mode, w, e), id) {
      RowOnwardStep(mode, w, e, id);
    }
  }

  lemma OnwardTransitive(u: World, v: World, w: World)
    requires Onward(u, v) && Onward(v, w) && u.publications.Keys <= u.committed
    ensures Onward(u, w)
  {
    forall id ensures RowOnward(u, w, id) {
      assert RowOnward(u, v, id) && RowOnward(v, w, id);
    }
  }

  // ---------------------------------------------------------------- runs

  lemma {:induction false} ArchivedHolds(mode: CompletionMode, events: seq<Event>, w: World)
    requires Exec(mode, events) == Some(w)
    ensures Fenced(w) && Archived(mode, w)
  {
    if events != [] {
      var last := |events| - 1;
      var before := Exec(mode, events[..last]).value;
      ArchivedHolds(mode, events[..last], before);
      FencingHolds(mode, events, w);
      hide Archived, Books, Claims, Handled, Locks, Settlements;
      ArchivedStep(mode, before, events[last]);
    }
  }

  /**
   Archive conservation: whatever runs between the read, the insert, the delete
   and the commit of any number of archive transactions, every committed
   publication is in exactly one of the two tables. A publication is archived
   exactly when it completed, once, under the generation that completed: a fenced
   archiver leaves no copy.
   */
  lemma ArchiveConservation(events: seq<Event>, w: World, id: PublicationId)
    requires Exec(ArchiveMode, events) == Some(w)
    ensures id in w.committed <==> id in w.publications || id in w.archive
    ensures !(id in w.publications && id in w.archive)
    ensures id in w.archive <==> exists i | 0 <= i < |w.settlements| ::
              && w.settlements[i].good && w.settlements[i].id == id
              && id in w.archive && w.settlements[i].generation == w.archive[id].attempts
    ensures id in w.archive <==> CompletedOnce(w, id) && id !in w.publications
  {
    ArchivedHolds(ArchiveMode, events, w);
    if id in w.archive {
      assert ArchivedOnce(w, id);
    }
    if CompletedOnce(w, id) {
      var i :| 0 <= i < |w.settlements| && w.settlements[i].id == id && w.settlements[i].good;
      assert w.settlements[i] in w.handled;
      var h :| 0 <= h < |w.handled| && w.handled[h] == w.settlements[i];
      assert w.handled[h].(good := true) in w.claims;
    }
  }

  /** The step that archives a row moves exactly the row it deletes. */
  lemma ArchiveMovesTheRow(mode: CompletionMode, events: seq<Event>, w: World, e: Event, id: PublicationId)
    requires Exec(mode, events) == Some(w) && Enabled(mode, w, e)
    requires id !in w.archive && id in Apply(mode, w, e).archive
    ensures id in w.publications && id !in Apply(mode, w, e).publications
    ensures exists date :: Apply(mode, w, e).archive[id] == Completion(w.publications[id], date)
  {
    ArchivedHolds(mode, events, w);
    CommitMovesTheRow(mode, w, e);
    hide Fenced, Archived;
    assert Apply(mode, w, e).archive[id] == Completion(w.publications[id], w.tasks[e.task].stage.date);
  }

  /**
   From any state of a run to any later one: the attempt counter of a publication
   never falls, also into the archive; its event never changes; a row that left
   never returns; an archive entry never changes.
   */
  lemma {:induction false} RunsGoOnward(mode: CompletionMode, events: seq<Event>, more: seq<Event>, w: World, w': World)
    requires Exec(mode, events) == Some(w) && Exec(mode, events + more) == Some(w')
    ensures Onward(w, w')
  {
    if more == [] {
      assert events + more == events;
      ArchivedHolds(mode, events, w);
      hide Exec;
      assert forall id :: RowOnward(w, w, id);
    } else {
      var last := |more| - 1;
      var all := events + more;
      assert all[..|all| - 1] == events + more[..last] && all[|all| - 1] == more[last];
      var before := Exec(mode, events + more[..last]).value;
      RunsGoOnward(mode, events, more[..last], w, before);
      ArchivedHolds(mode, events, w);
      ArchivedHolds(mode, events + more[..last], before);
      hide Archived, Claims, Handled, Locks, Settlements, Onward, Exec;
      OnwardStep(mode, before, more[last]);
      OnwardTransitive(w, before, w');
    }
  }
}
