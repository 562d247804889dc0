/**
 One recovery pass over an undisturbed outbox: what happens to every row, and
 which rows are left incomplete.
 */
module OutboxRecovery {
  import opened Wrappers
  import opened OutboxModel

  /** The pass of Registry.ResubmitIncomplete: each listed row in turn, as it was seen when listed. */
  function RecoveryPass(
    mode: CompletionMode, delivery: Delivery, t: Tables, ids: seq<PublicationId>, seen: Table,
    times: PublicationId -> Times): Tables
    requires forall i | 0 <= i < |ids| :: ids[i] in seen
  {
    if ids == [] then t
    else
      var last := |ids| - 1;
      var before := RecoveryPass(mode, delivery, t, ids[..last], seen, times);
      Recovered(mode, delivery, before, ids[last], seen[ids[last]], times(ids[last]))
  }

  /** What a settled success leaves of a row that is now at the given generation. */
  ghost predicate CompletedAs(mode: CompletionMode, row: Publication, attempts: nat, t: Tables, id: PublicationId,
                              archived: bool, at: Times)
  {
    var done := row.(status := Completed, completionDate := Some(at.completion), attempts := attempts,
                     lastAttempt := Some(at.claim));
    match mode
    case UpdateMode => id in t.publications && t.publications[id] == done
    case DeleteMode => id !in t.publications
    case ArchiveMode => id !in t.publications && id in t.archive && (!archived ==> t.archive[id] == done)
  }

  /** What the pass makes of a listed row. */
  ghost predicate RecoveredAs(
    mode: CompletionMode, delivery: Delivery, before: Tables, after: Tables, id: PublicationId, at: Times)
    requires id in before.publications
  {
    var row := before.publications[id];
    var attempts := AttemptOf(row);
    if !delivery.decodes(id) then id in after.publications && after.publications[id] == row
    else if delivery.succeeds(id, attempts)
    then CompletedAs(mode, row, attempts, after, id, id in before.archive, at)
    else
      && id in after.publications
      && after.publications[id] == row.(status := Failed, attempts := attempts, lastAttempt := Some(at.claim))
  }

  predicate SameRow(s: Tables, t: Tables, id: PublicationId) {
    && (id in s.publications <==> id in t.publications)
    && (id in s.publications ==> s.publications[id] == t.publications[id])
    && (id in s.archive <==> id in t.archive)
    && (id in s.archive ==> s.archive[id] == t.archive[id])
  }

  /** What one dispatch makes of its row: settled as its handler ended if it could be claimed, else untouched. */
  ghost predicate DispatchedAs(
    mode: CompletionMode, delivery: Delivery, before: Tables, after: Tables, id: PublicationId, attempts: nat,
    at: Times)
  {
    if id in before.publications && before.publications[id].attempts == attempts
       && (before.publications[id].status == Published || before.publications[id].status == Resubmitted)
    then
      if delivery.succeeds(id, attempts)
      then CompletedAs(mode, before.publications[id], attempts, after, id, id in before.archive, at)
      else
        && id in after.publications
        && after.publications[id]
           == before.publications[id].(status := Failed, lastAttempt := Some(at.claim))
    else SameRow(before, after, id)
  }

  lemma DispatchedRow(
    mode: CompletionMode, delivery: Delivery, s: Tables, t: Tables, id: PublicationId, attempts: nat, at: Times)
    requires SameRow(s, t, id)
    ensures DispatchedAs(mode, delivery, s, Dispatched(mode, delivery, t, id, attempts, at), id, attempts, at)
    ensures forall other | other != id :: SameRow(t, Dispatched(mode, delivery, t, id, attempts, at), other)
  {
  }

  lemma DispatchedAsCarries(
    mode: CompletionMode, delivery: Delivery, s: Tables, t: Tables, u: Tables, id: PublicationId, attempts: nat,
    at: Times)
    requires SameRow(t, u, id) && DispatchedAs(mode, delivery, s, t, id, attempts, at)
    ensures DispatchedAs(mode, delivery, s, u, id, attempts, at)
  {
  }

  lemma RecoveredIsLocal(
    mode: CompletionMode, delivery: Delivery, t: Tables, id: PublicationId, seen: Publication, at: Times,
    other: PublicationId)
    requires other != id
    ensures SameRow(t, Recovered(mode, delivery, t, id, seen, at), other)
  {
  }

  lemma RecoveredOne(mode: CompletionMode, delivery: Delivery, s: Tables, t: Tables, id: PublicationId, at: Times)
    requires Incomplete(s.publications, id) && SameRow(s, t, id)
    ensures RecoveredAs(mode, delivery, s, Recovered(mode, delivery, t, id, s.publications[id], at), id, at)
  {
  }

  lemma {:induction false} RecoveryPassRows(
    mode: CompletionMode, delivery: Delivery, t: Tables, ids: seq<PublicationId>, times: PublicationId -> Times)
    requires forall i | 0 <= i < |ids| :: ids[i] in t.publications && Incomplete(t.publications, ids[i])
    requires forall i, j | 0 <= i < j < |ids| :: ids[i] != ids[j]
    ensures var after := RecoveryPass(mode, delivery, t, ids, t.publications, times);
            && (forall id | id in ids :: RecoveredAs(mode, delivery, t, after, id, times(id)))
            && (forall id | id !in ids :: SameRow(t, after, id))
  {
    if ids != [] {
      var last := |ids| - 1;
      var id := ids[last];
      assert id !in ids[..last];
      RecoveryPassRows(mode, delivery, t, ids[..last], times);
      var before := RecoveryPass(mode, delivery, t, ids[..last], t.publications, times);
      var after := Recovered(mode, delivery, before, id, t.publications[id], times(id));
      RecoveredOne(mode, delivery, t, before, id, times(id));
      forall other: PublicationId | other != id ensures SameRow(before, after, other) {
        RecoveredIsLocal(mode, delivery, before, id, t.publications[id], times(id), other);
      }
      hide Recovered, SameRow;
      forall other: PublicationId | other in ids && other != id
        ensures other in ids[..last] && RecoveredAs(mode, delivery, t, after, other, times(other))
      {
        var k :| 0 <= k < |ids| && ids[k] == other;
        assert ids[..last][k] == other;
        RecoveredAsCarries(mode, delivery, t, before, after, other, times(other));
      }
      forall other: PublicationId | other !in ids ensures SameRow(t, after, other) {
        SameRowTransitive(t, before, after, other);
      }
    }
  }

  lemma ListedRows(t: Table, before: Option<Time>, ids: seq<PublicationId>)
    requires IsListing(t, before, ids)
    ensures forall i | 0 <= i < |ids| :: ids[i] in t && Incomplete(t, ids[i])
  {
    forall i | 0 <= i < |ids| ensures ids[i] in t && Incomplete(t, ids[i]) {
      assert ids[i] in ids;
    }
  }

  lemma SameRowTransitive(s: Tables, t: Tables, u: Tables, id: PublicationId)
    requires SameRow(s, t, id) && SameRow(t, u, id)
    ensures SameRow(s, u, id)
  {
  }

  lemma RecoveredAsCarries(
    mode: CompletionMode, delivery: Delivery, s: Tables, t: Tables, u: Tables, id: PublicationId, at: Times)
    requires id in s.publications && SameRow(t, u, id) && RecoveredAs(mode, delivery, s, t, id, at)
    ensures RecoveredAs(mode, delivery, s, u, id, at)
  {
  }

  /**
   The recovery law: after an undisturbed pass a row is incomplete exactly when
   it was incomplete before and the pass did not consider it, could not decode
   its event, or its listener failed. With every event decodable and every
   listener succeeding, a pass over all rows leaves none, whichever of the four
   incomplete states each was in.
   */
  lemma RecoveryLeaves(
    mode: CompletionMode, delivery: Delivery, t: Tables, before: Option<Time>, ids: seq<PublicationId>,
    times: PublicationId -> Times,
    id: PublicationId)
    requires IsListing(t.publications, before, ids)
    ensures Incomplete(RecoveryPass(mode, delivery, t, ids, t.publications, times).publications, id)
       <==> Incomplete(t.publications, id)
            && (Selected(t.publications, id, before) ==> RecoveryFails(delivery, t.publications, id))
  {
    ListedRows(t.publications, before, ids);
    RecoveryPassRows(mode, delivery, t, ids, times);
    hide RecoveryPass;
    var after := RecoveryPass(mode, delivery, t, ids, t.publications, times);
    if id in ids {
      assert RecoveredAs(mode, delivery, t, after, id, times(id));
    } else {
      assert SameRow(t, after, id);
    }
  }

  /** Recovery loses nothing: a row leaves the table only completed, and the archive only grows. */
  lemma RecoveryLosesNothing(
    mode: CompletionMode, delivery: Delivery, t: Tables, before: Option<Time>, ids: seq<PublicationId>,
    times: PublicationId -> Times,
    id: PublicationId)
    requires IsListing(t.publications, before, ids)
    ensures var after := RecoveryPass(mode, delivery, t, ids, t.publications, times);
            && (id in t.publications && id !in after.publications ==>
                  && mode != UpdateMode && delivery.decodes(id)
                  && delivery.succeeds(id, AttemptOf(t.publications[id]))
                  && (mode == ArchiveMode ==> id in after.archive))
            && (id in after.publications ==>
                  && id in t.publications
                  && t.publications[id].attempts <= after.publications[id].attempts)
            && (id in t.archive ==> id in after.archive)
  {
    ListedRows(t.publications, before, ids);
    RecoveryPassRows(mode, delivery, t, ids, times);
    ArchiveStays(mode, delivery, t, ids, t.publications, times, id);
    hide RecoveryPass;
    var after := RecoveryPass(mode, delivery, t, ids, t.publications, times);
    if id in ids {
      assert RecoveredAs(mode, delivery, t, after, id, times(id));
    } else {
      assert SameRow(t, after, id);
    }
  }

  lemma {:induction false} ArchiveStays(
    mode: CompletionMode, delivery: Delivery, t: Tables, ids: seq<PublicationId>, seen: Table,
    times: PublicationId -> Times,
    id: PublicationId)
    requires forall i | 0 <= i < |ids| :: ids[i] in seen
    ensures id in t.archive ==> id in RecoveryPass(mode, delivery, t, ids, seen, times).archive
  {
    if ids != [] {
      ArchiveStays(mode, delivery, t, ids[..|ids| - 1], seen, times, id);
    }
  }
}
