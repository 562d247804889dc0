/**
 The store of outbox/store_sql.go and the registry of outbox/registry.go. Each
 store method updates the tables in place as its guarded statement does. Beside
 its store a registry keeps, as ghosts, the run of OutboxProtocol that led there:
 whatever its loops do continues that run, so every theorem about runs holds of
 this code.
 */
module OutboxRegistry {
  import opened Wrappers
  import opened OutboxModel
  import opened OutboxProtocol
  import opened OutboxRecovery

  class OutboxStore {
    const mode: CompletionMode
    var publications: Table
    var archive: Table

    constructor (mode: CompletionMode)
      ensures this.mode == mode && View() == Tables(map[], map[])
    {
      this.mode := mode;
      publications, archive := map[], map[];
    }

    function View(): Tables
      reads this
    {
      Tables(publications, archive)
    }

    method Create(id: PublicationId, publication: Publication)
      requires id !in publications
      modifies `publications
      ensures publications == old(publications)[id := publication]
    {
      publications := publications[id := publication];
    }

    method ClaimProcessing(id: PublicationId, attempts: nat, now: Time) returns (claimed: bool)
      modifies `publications
      ensures claimed == Claimable(old(publications), id, attempts)
      ensures publications == OutboxModel.ClaimProcessing(old(publications), id, attempts, now)
      ensures claimed <==>
              && id in old(publications) && old(publications)[id].attempts == attempts
              && (old(publications)[id].status == Published || old(publications)[id].status == Resubmitted)
      ensures claimed ==>
                publications == old(publications)[id :=
                  Publication(old(publications)[id].listener, old(publications)[id].payload,
                              old(publications)[id].publicationDate, old(publications)[id].completionDate,
                              Processing, attempts, Some(now))]
      ensures !claimed ==> publications == old(publications)
    {
      claimed := false;
      if id in publications {
        var row := publications[id];
        if (row.status == Published || row.status == Resubmitted) && row.attempts == attempts {
          publications := publications[id := row.(status := Processing, lastAttempt := Some(now))];
          claimed := true;
        }
      }
    }

    method MarkFailed(id: PublicationId, attempts: nat) returns (settled: bool)
      modifies `publications
      ensures settled == Settleable(old(publications), id, attempts)
      ensures publications == OutboxModel.MarkFailed(old(publications), id, attempts)
      ensures settled <==>
              && id in old(publications) && old(publications)[id].attempts == attempts
              && old(publications)[id].status == Processing
      ensures settled ==>
                publications == old(publications)[id :=
                  Publication(old(publications)[id].listener, old(publications)[id].payload,
                              old(publications)[id].publicationDate, old(publications)[id].completionDate,
                              Failed, attempts, old(publications)[id].lastAttempt)]
      ensures !settled ==> publications == old(publications)
    {
      settled := false;
      if id in publications && publications[id].status == Processing && publications[id].attempts == attempts {
        publications := publications[id := publications[id].(status := Failed)];
        settled := true;
      }
    }

    method MarkCompleted(id: PublicationId, attempts: nat, date: Time) returns (settled: bool)
      modifies this
      ensures settled == Settleable(old(publications), id, attempts)
      ensures View() == OutboxModel.MarkCompleted(mode, old(View()), id, attempts, date)
      ensures settled <==>
              && id in old(publications) && old(publications)[id].attempts == attempts
              && old(publications)[id].status == Processing
      ensures !settled ==> View() == old(View())
      ensures settled ==>
                var done := Publication(old(publications)[id].listener, old(publications)[id].payload,
                                        old(publications)[id].publicationDate, Some(date), Completed, attempts,
                                        old(publications)[id].lastAttempt);
                match mode
                case UpdateMode => publications == old(publications)[id := done] && archive == old(archive)
                case DeleteMode => publications == old(publications) - {id} && archive == old(archive)
                case ArchiveMode =>
                  && publications == old(publications) - {id}
                  && archive == if id in old(archive) then old(archive) else old(archive)[id := done]
    {
      match mode {
        case DeleteMode =>
          settled := id in publications && publications[id].status == Processing
          && publications[id].attempts == attempts;
          if settled {
            publications := publications - {id};
          }
        case ArchiveMode =>
          settled := Archive(id, attempts, date);
        case UpdateMode =>
          settled := id in publications && publications[id].status == Processing
          && publications[id].attempts == attempts;
          if settled {
            publications := publications[id := publications[id].(status := Completed, completionDate := Some(date))];
          }
      }
    }

    /** Read, insert unless present, delete. OutboxProtocol lets other statements in between, and rolls back. */
    method Archive(id: PublicationId, attempts: nat, date: Time) returns (settled: bool)
      modifies this
      ensures settled == Settleable(old(publications), id, attempts)
      ensures View() == OutboxModel.MarkCompleted(ArchiveMode, old(View()), id, attempts, date)
    {
      if id !in publications || publications[id].status != Processing || publications[id].attempts != attempts {
        return false;
      }
      var copy := publications[id];
      if id !in archive {
        archive := archive[id := copy.(status := Completed, completionDate := Some(date))];
      }
      publications := publications - {id};
      settled := true;
    }

    method MarkResubmitted(id: PublicationId, attempts: nat, date: Time) returns (count: nat, resubmitted: bool)
      modifies `publications
      ensures resubmitted == Resubmittable(old(publications), id, attempts)
      ensures publications == OutboxModel.MarkResubmitted(old(publications), id, attempts, date)
      ensures resubmitted <==>
              && id in old(publications) && old(publications)[id].attempts == attempts
              && old(publications)[id].status != Completed && old(publications)[id].status != Resubmitted
      ensures resubmitted ==>
                publications == old(publications)[id :=
                  Publication(old(publications)[id].listener, old(publications)[id].payload,
                              old(publications)[id].publicationDate, old(publications)[id].completionDate,
                              Resubmitted, attempts + 1, Some(date))]
      ensures !resubmitted ==> publications == old(publications)
      ensures count == if resubmitted then attempts + 1 else 0
    {
      count, resubmitted := 0, false;
      if id in publications {
        var row := publications[id];
        if row.status in {Published, Processing, Failed} && row.attempts == attempts {
          publications := publications[id := row.(status := Resubmitted, attempts := attempts + 1,
                                                  lastAttempt := Some(date))];
          count, resubmitted := attempts + 1, true;
        }
      }
    }

    /** With a reference, only the rows whose latest attempt started before it. */
    method FindIncomplete(before: Option<Time>) returns (ids: seq<PublicationId>, rows: Table)
      ensures rows == publications && IsListing(publications, before, ids)
      ensures forall id :: id in ids <==>
                && id in publications && publications[id].status != Completed
                && (before.Some? ==>
                      match publications[id].lastAttempt
                      case Some(attempt) => attempt < before.value
                      case None => publications[id].publicationDate < before.value)
      ensures forall i, j | 0 <= i < j < |ids| ::
                && ids[i] in rows && ids[j] in rows && ids[i] != ids[j]
                && rows[ids[i]].publicationDate <= rows[ids[j]].publicationDate
    {
      rows, ids := publications, [];
      var rest := publications.Keys;
      while rest != {}
        invariant rest <= publications.Keys && rows == publications
        invariant forall id :: id in ids <==> Selected(publications, id, before) && id !in rest
        invariant Distinct(ids) && ByDate(publications, ids)
      {
        var id :| id in rest;
        rest := rest - {id};
        if Selected(publications, id, before) {
          ids := InsertByDate(publications, ids, id);
        }
      }
    }
  }

  /** The ORDER BY of the two queries. */
  method InsertByDate(t: Table, ids: seq<PublicationId>, id: PublicationId) returns (r: seq<PublicationId>)
    requires id in t && id !in ids && Distinct(ids) && ByDate(t, ids)
    ensures forall other :: other in r <==> other in ids || other == id
    ensures Distinct(r) && ByDate(t, r)
  {
    var position := |ids|;
    while position > 0 && t[id].publicationDate < t[ids[position - 1]].publicationDate
      invariant 0 <= position <= |ids|
      invariant position < |ids| ==> t[id].publicationDate < t[ids[position]].publicationDate
    {
      position := position - 1;
    }
    r := ids[..position] + [id] + ids[position..];
    InsertedMembers(ids, id, position);
    InsertedOrder(t, ids, id, position);
  }

  lemma InsertedMembers(ids: seq<PublicationId>, id: PublicationId, position: nat)
    requires id !in ids && Distinct(ids) && position <= |ids|
    ensures var r := ids[..position] + [id] + ids[position..];
            Distinct(r) && forall other :: other in r <==> other in ids || other == id
  {
    var r := ids[..position] + [id] + ids[position..];
    forall other ensures other in r <==> other in ids || other == id {
      assert ids == ids[..position] + ids[position..];
    }
    forall i, j | 0 <= i < j < |r| ensures r[i] != r[j] {
      assert r[i] == if i < position then ids[i] else if i == position then id else ids[i - 1];
      assert r[j] == if j < position then ids[j] else if j == position then id else ids[j - 1];
    }
  }

  lemma InsertedOrder(t: Table, ids: seq<PublicationId>, id: PublicationId, position: nat)
    requires id in t && ByDate(t, ids) && position <= |ids|
    requires position > 0 ==> t[ids[position - 1]].publicationDate <= t[id].publicationDate
    requires position < |ids| ==> t[id].publicationDate <= t[ids[position]].publicationDate
    ensures ByDate(t, ids[..position] + [id] + ids[position..])
  {
    var r := ids[..position] + [id] + ids[position..];
    assert forall i | 0 <= i < |r| ::
        r[i] == if i < position then ids[i] else if i == position then id else ids[i - 1];
  }

  /** No archive transaction is in flight, so no row and no archive key is locked. */
  ghost predicate NoLocks(w: World) {
    forall task | task in w.tasks :: !w.tasks[task].stage.Inserting? && !w.tasks[task].stage.Deleting?
  }

  /** A resubmitter that observed the row and has not acted on it yet. */
  ghost predicate Waiting(w: World, task: nat, id: PublicationId, seen: Publication) {
    && task in w.tasks && w.tasks[task].id == id && w.tasks[task].generation == seen.attempts
    && w.tasks[task].stage.Observing? && w.tasks[task].stage.status == seen.status
  }

  /** The dispatch of first attempts, one publication after the other. */
  function DispatchAll(
    mode: CompletionMode, delivery: Delivery, t: Tables, ids: seq<PublicationId>, times: PublicationId -> Times): Tables
  {
    if ids == [] then t
    else
      var last := |ids| - 1;
      Dispatched(mode, delivery, DispatchAll(mode, delivery, t, ids[..last], times), ids[last], 1, times(ids[last]))
  }

  /** What the loop makes of each row, whatever the order. */
  lemma {:induction false} DispatchAllRows(
    mode: CompletionMode, delivery: Delivery, t: Tables, ids: seq<PublicationId>, times: PublicationId -> Times)
    requires Distinct(ids)
    ensures var after := DispatchAll(mode, delivery, t, ids, times);
            && (forall id | id in ids :: DispatchedAs(mode, delivery, t, after, id, 1, times(id)))
            && (forall id | id !in ids :: SameRow(t, after, id))
  {
    if ids != [] {
      var last := |ids| - 1;
      var id := ids[last];
      var before := DispatchAll(mode, delivery, t, ids[..last], times);
      var after := DispatchAll(mode, delivery, t, ids, times);
      DispatchAllRows(mode, delivery, t, ids[..last], times);
      assert ids == ids[..last] + [id] && id !in ids[..last];
      DispatchedRow(mode, delivery, t, before, id, 1, times(id));
      hide Dispatched, DispatchedAs, SameRow, DispatchAll;
      forall other: PublicationId | other in ids && other != id
        ensures DispatchedAs(mode, delivery, t, after, other, 1, times(other))
      {
        DispatchedAsCarries(mode, delivery, t, before, after, other, 1, times(other));
      }
      forall other: PublicationId | other !in ids ensures SameRow(t, after, other) {
        SameRowTransitive(t, before, after, other);
      }
    }
  }

  class Registry {
    const store: OutboxStore
    const delivery: Delivery
    ghost var events: seq<Event>
    ghost var world: World
    ghost var nextTask: nat

    constructor (store: OutboxStore, delivery: Delivery)
      requires store.View() == Tables(map[], map[])
      ensures Valid() && this.store == store && this.delivery == delivery && events == []
    {
      this.store, this.delivery := store, delivery;
      events, world, nextTask := [], Init(), 0;
    }

    /** The tables are where the recorded run led. */
    ghost predicate Valid()
      reads this, store
    {
      && Exec(store.mode, events) == Some(world)
      && store.View() == Tables(world.publications, world.archive)
      && (forall task | task in world.started :: task < nextTask)
      && world.tasks.Keys <= world.started
      && NoLocks(world)
    }

    /** Records the statement the registry just ran as the next event of the run. */
    ghost method Record(e: Event)
      requires Exec(store.mode, events) == Some(world) && Enabled(store.mode, world, e)
      modifies `events, `world
      ensures events == old(events) + [e] && world == Apply(store.mode, old(world), e)
      ensures Exec(store.mode, events) == Some(world)
    {
      assert (events + [e])[..|events + [e]| - 1] == events;
      hide Apply, Enabled;
      events, world := events + [e], Apply(store.mode, world, e);
    }

    /** One publication per subscribed listener, under identifiers never drawn before. */
    method Publish(listeners: seq<nat>, payload: string, identifiers: seq<PublicationId>, now: Time)
      returns (pending: seq<PublicationId>)
      requires Valid() && |identifiers| == |listeners|
      requires forall i | 0 <= i < |identifiers| ::
                 identifiers[i] !in world.known && identifiers[i] !in store.publications
      requires Distinct(identifiers)
      modifies `events, `world, store`publications
      ensures Valid() && old(events) <= events && nextTask == old(nextTask)
      ensures pending == identifiers
      ensures forall i | 0 <= i < |listeners| ::
                && identifiers[i] in store.publications
                && store.publications[identifiers[i]] == NewPublication(listeners[i], payload, now)
                && store.publications[identifiers[i]]
                   == Publication(listeners[i], payload, now, None, Published, 1, Some(now))
                && Claimable(store.publications, identifiers[i], 1)
      ensures forall id | id !in identifiers ::
                && (id in store.publications <==> id in old(store.publications))
                && (id in store.publications ==> store.publications[id] == old(store.publications)[id])
    {
      pending := [];
      hide Exec;
      for i := 0 to |listeners|
        invariant Valid() && old(events) <= events
        invariant pending == identifiers[..i]
        invariant forall k | 0 <= k < i ::
                    && identifiers[k] in store.publications
                    && store.publications[identifiers[k]] == NewPublication(listeners[k], payload, now)
        invariant forall k | i <= k < |identifiers| ::
                    identifiers[k] !in store.publications && identifiers[k] !in world.known
        invariant forall id | id !in identifiers ::
                    && (id in store.publications <==> id in old(store.publications))
                    && (id in store.publications ==> store.publications[id] == old(store.publications)[id])
      {
        PublishOne(identifiers[i], NewPublication(listeners[i], payload, now));
        pending := pending + [identifiers[i]];
      }
    }

    /** The insert and the commit of the transaction it belongs to. */
    method PublishOne(id: PublicationId, row: Publication)
      requires Valid() && id !in world.known && id !in store.publications
      requires row == NewPublication(row.listener, row.payload, row.publicationDate)
      modifies `events, `world, store`publications
      ensures Valid() && old(events) <= events && world.known == old(world.known) + {id}
      ensures store.publications == old(store.publications)[id := row]
    {
      hide Exec;
      store.Create(id, row);
      Record(Draft(id, row));
      Record(Commit(id));
    }

    /** The winner of the claim delivers and settles; the loser does nothing. */
    method DispatchOne(id: PublicationId, attempts: nat, at: Times, ghost task: nat) returns (failed: bool)
      requires Valid() && task in world.tasks && world.tasks[task] == Task(id, attempts, Holding)
      modifies `events, `world, store
      ensures Valid() && old(events) <= events && world.tasks == old(world.tasks) - {task}
      ensures world.started == old(world.started)
      ensures store.View() == Dispatched(store.mode, delivery, old(store.View()), id, attempts, at)
      ensures failed == (Claimable(old(store.publications), id, attempts) && !delivery.succeeds(id, attempts))
      ensures DispatchedAs(store.mode, delivery, old(store.View()), store.View(), id, attempts, at)
      ensures forall other | other != id :: SameRow(old(store.View()), store.View(), other)
    {
      DispatchedRow(store.mode, delivery, store.View(), store.View(), id, attempts, at);
      hide *;
      failed := ClaimAndSettle(id, attempts, at, task);
    }

    method ClaimAndSettle(id: PublicationId, attempts: nat, at: Times, ghost task: nat) returns (failed: bool)
      requires Valid() && task in world.tasks && world.tasks[task] == Task(id, attempts, Holding)
      modifies `events, `world, store
      ensures Valid() && old(events) <= events && world.tasks == old(world.tasks) - {task}
      ensures world.started == old(world.started)
      ensures store.View() == Dispatched(store.mode, delivery, old(store.View()), id, attempts, at)
      ensures failed == (Claimable(old(store.publications), id, attempts) && !delivery.succeeds(id, attempts))
    {
      hide Exec, NoLocks;
      var claimed := TakeClaim(id, attempts, at.claim, task);
      if !claimed {
        return false;
      }
      failed := !delivery.succeeds(id, attempts);
      CallHandler(id, attempts, !failed, task);
      if failed {
        SettleFailure(id, attempts, task);
      } else if store.mode == ArchiveMode {
        SettleByArchive(id, attempts, at.completion, task);
      } else {
        SettleSuccess(id, attempts, at.completion, task);
      }
    }

    method TakeClaim(id: PublicationId, attempts: nat, date: Time, ghost task: nat) returns (claimed: bool)
      requires Valid() && task in world.tasks && world.tasks[task] == Task(id, attempts, Holding)
      modifies `events, `world, store`publications
      ensures Valid() && old(events) <= events && world.started == old(world.started)
      ensures claimed == Claimable(old(store.publications), id, attempts)
      ensures store.publications == OutboxModel.ClaimProcessing(old(store.publications), id, attempts, date)
      ensures world.tasks ==
              if claimed then old(world.tasks)[task := Task(id, attempts, Claimed)] else old(world.tasks) - {task}
    {
      hide Exec;
      claimed := store.ClaimProcessing(id, attempts, date);
      Record(Claim(task, date));
    }

    ghost method CallHandler(id: PublicationId, attempts: nat, good: bool, task: nat)
      requires Valid() && task in world.tasks && world.tasks[task] == Task(id, attempts, Claimed)
      modifies `events, `world
      ensures Valid() && old(events) <= events && world.started == old(world.started)
      ensures world.tasks == old(world.tasks)[task := Task(id, attempts, if good then Delivered else Refused)]
    {
      hide Exec;
      Record(Deliver(task, good));
    }

    method SettleFailure(id: PublicationId, attempts: nat, ghost task: nat)
      requires Valid() && task in world.tasks && world.tasks[task] == Task(id, attempts, Refused)
      modifies `events, `world, store`publications
      ensures Valid() && old(events) <= events && world.started == old(world.started)
      ensures world.tasks == old(world.tasks) - {task}
      ensures store.publications == OutboxModel.MarkFailed(old(store.publications), id, attempts)
    {
      hide Exec;
      var settled := store.MarkFailed(id, attempts);
      Record(Fail(task));
    }

    method SettleSuccess(id: PublicationId, attempts: nat, date: Time, ghost task: nat)
      requires Valid() && task in world.tasks && world.tasks[task] == Task(id, attempts, Delivered)
      requires store.mode != ArchiveMode
      modifies `events, `world, store
      ensures Valid() && old(events) <= events && world.started == old(world.started)
      ensures world.tasks == old(world.tasks) - {task}
      ensures store.View() == OutboxModel.MarkCompleted(store.mode, old(store.View()), id, attempts, date)
    {
      hide Exec;
      var settled := store.MarkCompleted(id, attempts, date);
      Record(Complete(task, date));
    }

    /** The four steps of the archive transaction, undisturbed. */
    method SettleByArchive(id: PublicationId, attempts: nat, date: Time, ghost task: nat)
      requires Valid() && task in world.tasks && world.tasks[task] == Task(id, attempts, Delivered)
      requires store.mode == ArchiveMode
      modifies `events, `world, store
      ensures Valid() && old(events) <= events && world.started == old(world.started)
      ensures world.tasks == old(world.tasks) - {task}
      ensures store.View() == OutboxModel.MarkCompleted(store.mode, old(store.View()), id, attempts, date)
    {
      hide Exec;
      var settled := store.MarkCompleted(id, attempts, date);
      Record(ReadRow(task));
      if settled {
        RecordMove(id, attempts, date, task);
      }
    }

    ghost method RecordMove(id: PublicationId, attempts: nat, date: Time, task: nat)
      requires Exec(store.mode, events) == Some(world) && NoLocks(world) && task in world.tasks
      requires Settleable(world.publications, id, attempts)
      requires world.tasks[task] == Task(id, attempts, Reading(world.publications[id]))
      modifies `events, `world
      ensures Exec(store.mode, events) == Some(world) && old(events) <= events && world.started == old(world.started)
      ensures world.tasks == old(world.tasks) - {task}
      ensures Tables(world.publications, world.archive) ==
              OutboxModel.MarkCompleted(
                ArchiveMode, old(Tables(world.publications, world.archive)), id, attempts, date)
    {
      hide Exec;
      RecordCopy(id, attempts, date, task);
      Record(DeleteRow(task));
      Record(CommitArchive(task));
    }

    ghost method RecordCopy(id: PublicationId, attempts: nat, date: Time, task: nat)
      requires Exec(store.mode, events) == Some(world) && NoLocks(world) && task in world.tasks
      requires Settleable(world.publications, id, attempts)
      requires world.tasks[task] == Task(id, attempts, Reading(world.publications[id]))
      modifies `events, `world
      ensures Exec(store.mode, events) == Some(world) && old(events) <= events && world.started == old(world.started)
      ensures world.publications == old(world.publications) && world.archive == old(world.archive)
      ensures world.tasks ==
              old(world.tasks)[task := Task(id, attempts,
                                            Inserting(world.publications[id], date, id !in world.archive))]
    {
      hide Exec;
      Record(InsertCopy(task, date));
    }

    /** A first attempt, handed over by the publisher. */
    method DispatchFirst(id: PublicationId, at: Times) returns (failed: bool)
      requires Valid()
      modifies `events, `world, `nextTask, store
      ensures Valid() && old(events) <= events
      ensures store.View() == Dispatched(store.mode, delivery, old(store.View()), id, 1, at)
      ensures failed == (Claimable(old(store.publications), id, 1) && !delivery.succeeds(id, 1))
    {
      hide Exec, Dispatched;
      ghost var task := TakeHand(id);
      failed := DispatchOne(id, 1, at, task);
    }

    ghost method TakeHand(id: PublicationId) returns (task: nat)
      requires Valid()
      modifies `events, `world, `nextTask
      ensures Valid() && old(events) <= events
      ensures task in world.tasks && world.tasks[task] == Task(id, 1, Holding)
    {
      hide Exec;
      task := nextTask;
      nextTask := nextTask + 1;
      Record(Hand(task, id));
    }

    /**
     The loop over pending publications after their transaction committed. The
     failures are those it could claim and whose listener failed.
     */
    method Dispatch(ids: seq<PublicationId>, times: PublicationId -> Times) returns (failures: seq<PublicationId>)
      requires Valid() && Distinct(ids)
      modifies `events, `world, `nextTask, store
      ensures Valid() && old(events) <= events
      ensures store.View() == DispatchAll(store.mode, delivery, old(store.View()), ids, times)
      ensures forall id :: id in failures <==>
                id in ids && Claimable(old(store.publications), id, 1) && !delivery.succeeds(id, 1)
      ensures forall id | id in ids ::
                DispatchedAs(store.mode, delivery, old(store.View()), store.View(), id, 1, times(id))
      ensures forall id | id !in ids :: SameRow(old(store.View()), store.View(), id)
    {
      failures := [];
      ghost var initial := store.View();
      DispatchAllRows(store.mode, delivery, initial, ids, times);
      hide Exec, Dispatched, DispatchedAs;
      for i := 0 to |ids|
        invariant Valid() && old(events) <= events
        invariant store.View() == DispatchAll(store.mode, delivery, initial, ids[..i], times)
        invariant forall id :: id in failures <==>
                    id in ids[..i] && Claimable(initial.publications, id, 1) && !delivery.succeeds(id, 1)
      {
        DispatchesApart(store.mode, delivery, initial, ids, i, times);
        var failed := DispatchFirst(ids[i], times(ids[i]));
        assert ids[..i + 1] == ids[..i] + [ids[i]] && ids[..i + 1][..i] == ids[..i];
        if failed {
          failures := failures + [ids[i]];
        }
      }
      assert ids[..|ids|] == ids;
    }

    /** Re-delivers one observed row; the task that observed it ends here. */
    method Resubmit(id: PublicationId, seen: Publication, at: Times, ghost task: nat) returns (failed: bool)
      requires Valid() && Waiting(world, task, id, seen) && seen.status != Completed
      modifies `events, `world, store
      ensures Valid() && old(events) <= events && world.tasks == old(world.tasks) - {task}
      ensures world.started == old(world.started)
      ensures store.View() == Recovered(store.mode, delivery, old(store.View()), id, seen, at)
      ensures old(id in store.publications && store.publications[id] == seen)
              ==> failed == old(RecoveryFails(delivery, store.publications, id))
    {
      hide Exec;
      if !delivery.decodes(id) {
        Record(Crash(task));
        return true;
      }
      if seen.status == Resubmitted {
        Record(Redispatch(task));
        failed := DispatchOne(id, seen.attempts, at, task);
        return;
      }
      var attempts, resubmitted := TakeBack(id, seen, at.resubmission, task);
      if !resubmitted {
        return false;
      }
      failed := DispatchOne(id, attempts, at, task);
    }

    method TakeBack(id: PublicationId, seen: Publication, date: Time, ghost task: nat)
      returns (attempts: nat, resubmitted: bool)
      requires Valid() && Waiting(world, task, id, seen) && seen.status != Resubmitted
      modifies `events, `world, store`publications
      ensures Valid() && old(events) <= events && world.started == old(world.started)
      ensures resubmitted == Resubmittable(old(store.publications), id, seen.attempts)
      ensures store.publications == OutboxModel.MarkResubmitted(old(store.publications), id, seen.attempts, date)
      ensures resubmitted ==> attempts == seen.attempts + 1
      ensures world.tasks ==
              if resubmitted then old(world.tasks)[task := Task(id, seen.attempts + 1, Holding)]
              else old(world.tasks) - {task}
    {
      hide Exec;
      attempts, resubmitted := store.MarkResubmitted(id, seen.attempts, date);
      Record(Event.Resubmit(task, date));
    }

    /** What the query returned is what its resubmitters observed. */
    ghost method ObserveAll(ids: seq<PublicationId>, first: nat)
      requires Valid() && first == nextTask
      requires forall i | 0 <= i < |ids| :: ids[i] in store.publications && Incomplete(store.publications, ids[i])
      modifies `events, `world, `nextTask
      ensures Valid() && old(events) <= events
      ensures forall k | 0 <= k < |ids| :: Waiting(world, first + k, ids[k], store.publications[ids[k]])
    {
      hide Exec;
      for i := 0 to |ids|
        invariant Valid() && old(events) <= events && nextTask == first + i
        invariant forall k | 0 <= k < i :: Waiting(world, first + k, ids[k], store.publications[ids[k]])
      {
        ghost var task := nextTask;
        nextTask := nextTask + 1;
        Record(Observe(task, ids[i]));
      }
    }

    /** One turn of the recovery loop. */
    method ResubmitNext(
      ids: seq<PublicationId>, rows: Table, i: nat, times: PublicationId -> Times,
      ghost first: nat, ghost initial: Tables)
      returns (failed: bool)
      requires Valid() && i < |ids| && Distinct(ids) && rows == initial.publications
      requires forall k | 0 <= k < |ids| :: ids[k] in rows && Incomplete(rows, ids[k])
      requires store.View() == RecoveryPass(store.mode, delivery, initial, ids[..i], rows, times)
      requires forall k | i <= k < |ids| :: Waiting(world, first + k, ids[k], rows[ids[k]])
      modifies `events, `world, store
      ensures Valid() && old(events) <= events
      ensures store.View() == RecoveryPass(store.mode, delivery, initial, ids[..i + 1], rows, times)
      ensures forall k | i < k < |ids| :: Waiting(world, first + k, ids[k], rows[ids[k]])
      ensures failed == RecoveryFails(delivery, rows, ids[i])
    {
      NotYetTouched(store.mode, delivery, initial, ids, i, times);
      assert ids[..i + 1][..i] == ids[..i];
      hide Exec, Recovered;
      failed := Resubmit(ids[i], rows[ids[i]], times(ids[i]), first + i);
    }

    /** The listing, as the pass uses it. */
    method List(before: Option<Time>) returns (ids: seq<PublicationId>, rows: Table)
      ensures rows == store.publications && IsListing(store.publications, before, ids)
    {
      ids, rows := store.FindIncomplete(before);
    }

    /** The failures are those of the rows that could not be decoded or delivered, in publication order. */
    method ResubmitIncomplete(before: Option<Time>, times: PublicationId -> Times)
      returns (ids: seq<PublicationId>, failures: seq<PublicationId>)
      requires Valid()
      modifies `events, `world, `nextTask, store
      ensures Valid() && old(events) <= events
      ensures IsListing(old(store.publications), before, ids)
      ensures store.View() == RecoveryPass(store.mode, delivery, old(store.View()), ids, old(store.publications), times)
      ensures forall id :: id in failures <==>
                Selected(old(store.publications), id, before) && RecoveryFails(delivery, old(store.publications), id)
    {
      var rows;
      ids, rows := List(before);
      ghost var initial := store.View();
      ghost var first := nextTask;
      ListedRows(rows, before, ids);
      RecoverNothing(store.mode, delivery, initial, rows, times);
      hide Exec, RecoveryPass, Waiting, IsListing, RecoveryFails, Incomplete;
      ObserveAll(ids, first);
      failures := RecoverListed(ids, rows, times, first, initial);
      ListedFailures(delivery, rows, before, ids, failures);
    }

    /** The loop of the pass. */
    method RecoverListed(
      ids: seq<PublicationId>, rows: Table, times: PublicationId -> Times, ghost first: nat, ghost initial: Tables)
      returns (failures: seq<PublicationId>)
      requires Valid() && Distinct(ids) && rows == initial.publications && store.View() == initial
      requires forall k | 0 <= k < |ids| :: ids[k] in rows && Incomplete(rows, ids[k])
      requires forall k | 0 <= k < |ids| :: Waiting(world, first + k, ids[k], rows[ids[k]])
      modifies `events, `world, store
      ensures Valid() && old(events) <= events
      ensures store.View() == RecoveryPass(store.mode, delivery, initial, ids, rows, times)
      ensures forall id :: id in failures <==> id in ids && id in rows && RecoveryFails(delivery, rows, id)
    {
      failures := [];
      RecoverNothing(store.mode, delivery, initial, rows, times);
      hide Exec, RecoveryPass, RecoveryFails, Waiting, Incomplete;
      for i := 0 to |ids|
        invariant Valid() && old(events) <= events
        invariant ids[..0] == [] && store.View() == RecoveryPass(store.mode, delivery, initial, ids[..i], rows, times)
        invariant forall k | i <= k < |ids| :: Waiting(world, first + k, ids[k], rows[ids[k]])
        invariant forall id :: id in failures <==> id in ids[..i] && id in rows && RecoveryFails(delivery, rows, id)
      {
        var failed := ResubmitNext(ids, rows, i, times, first, initial);
        NextListed(ids, i);
        if failed {
          failures := failures + [ids[i]];
        }
      }
      assert ids[..|ids|] == ids;
    }
  }

  lemma NextListed(ids: seq<PublicationId>, i: nat)
    requires i < |ids|
    ensures forall id :: id in ids[..i + 1] <==> id in ids[..i] || id == ids[i]
  {
    assert ids[..i + 1] == ids[..i] + [ids[i]];
  }

  lemma ListedFailures(
    delivery: Delivery, t: Table, before: Option<Time>, ids: seq<PublicationId>, failures: seq<PublicationId>)
    requires IsListing(t, before, ids)
    requires forall id :: id in failures <==> id in ids && id in t && RecoveryFails(delivery, t, id)
    ensures Distinct(ids)
    ensures forall id :: id in failures <==> Selected(t, id, before) && RecoveryFails(delivery, t, id)
  {
  }

  lemma {:induction false} DispatchesElsewhere(
    mode: CompletionMode, delivery: Delivery, t: Tables, ids: seq<PublicationId>, times: PublicationId -> Times,
    id: PublicationId)
    requires id !in ids
    ensures SameRow(t, DispatchAll(mode, delivery, t, ids, times), id)
  {
    if ids != [] {
      DispatchesElsewhere(mode, delivery, t, ids[..|ids| - 1], times, id);
    }
  }

  lemma RecoverNothing(
    mode: CompletionMode, delivery: Delivery, t: Tables, seen: Table, times: PublicationId -> Times)
    ensures RecoveryPass(mode, delivery, t, [], seen, times) == t
  {
  }

  /** The loop reaches each publication as it was before the loop. */
  lemma DispatchesApart(
    mode: CompletionMode, delivery: Delivery, t: Tables, ids: seq<PublicationId>, i: nat, times: PublicationId -> Times)
    requires i < |ids| && Distinct(ids)
    ensures SameRow(t, DispatchAll(mode, delivery, t, ids[..i], times), ids[i])
    ensures ids[i] !in ids[..i]
  {
    DispatchesElsewhere(mode, delivery, t, ids[..i], times, ids[i]);
  }

  /** The pass reaches each listed row as it was when listed. */
  lemma NotYetTouched(
    mode: CompletionMode, delivery: Delivery, t: Tables, ids: seq<PublicationId>, i: nat, times: PublicationId -> Times)
    requires i < |ids|
    requires forall k | 0 <= k < |ids| :: ids[k] in t.publications && Incomplete(t.publications, ids[k])
    requires Distinct(ids)
    ensures SameRow(t, RecoveryPass(mode, delivery, t, ids[..i], t.publications, times), ids[i])
  {
    RecoveryPassRows(mode, delivery, t, ids[..i], times);
  }
}
