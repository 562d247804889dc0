/**
 The outbox tables and the meaning of each guarded statement of
 outbox/store_sql.go. A statement that finds its row in another status or
 another attempt generation affects nothing.
 */
module OutboxModel {
  import opened Wrappers

  type Time = int
  type PublicationId = nat

  datatype Status = Published | Processing | Completed | Failed | Resubmitted

  datatype Publication = Publication(
    listener: nat,
    payload: string,
    publicationDate: Time,
    completionDate: Option<Time>,
    status: Status,
    attempts: nat,
    lastAttempt: Option<Time>)

  type Table = map<PublicationId, Publication>

  datatype CompletionMode = UpdateMode | DeleteMode | ArchiveMode

  datatype Tables = Tables(publications: Table, archive: Table)

  /** A new row counts the initial dispatch as its first attempt. */
  function NewPublication(listener: nat, payload: string, now: Time): Publication {
    Publication(listener, payload, now, None, Published, 1, Some(now))
  }

  // ---------------------------------------------------------------- guards

  predicate AtGeneration(t: Table, id: PublicationId, attempts: nat) {
    id in t && t[id].attempts == attempts
  }

  predicate Claimable(t: Table, id: PublicationId, attempts: nat) {
    AtGeneration(t, id, attempts) && t[id].status in {Published, Resubmitted}
  }

  predicate Settleable(t: Table, id: PublicationId, attempts: nat) {
    AtGeneration(t, id, attempts) && t[id].status == Processing
  }

  predicate Resubmittable(t: Table, id: PublicationId, attempts: nat) {
    AtGeneration(t, id, attempts) && t[id].status in {Published, Processing, Failed}
  }

  // ---------------------------------------------------------------- statements

  function ClaimProcessing(t: Table, id: PublicationId, attempts: nat, now: Time): Table {
    if Claimable(t, id, attempts) then t[id := t[id].(status := Processing, lastAttempt := Some(now))] else t
  }

  function MarkFailed(t: Table, id: PublicationId, attempts: nat): Table {
    if Settleable(t, id, attempts) then t[id := t[id].(status := Failed)] else t
  }

  function Completion(row: Publication, date: Time): Publication {
    row.(status := Completed, completionDate := Some(date))
  }

  /** The three settlements of a completed publication; an archive entry that exists is not overwritten. */
  function MarkCompleted(mode: CompletionMode, t: Tables, id: PublicationId, attempts: nat, date: Time): Tables {
    if !Settleable(t.publications, id, attempts) then t
    else match mode
      case UpdateMode => t.(publications := t.publications[id := Completion(t.publications[id], date)])
      case DeleteMode => t.(publications := t.publications - {id})
      case ArchiveMode =>
        Tables(t.publications - {id},
               if id in t.archive then t.archive else t.archive[id := Completion(t.publications[id], date)])
  }

  function MarkResubmitted(t: Table, id: PublicationId, attempts: nat, date: Time): Table {
    if Resubmittable(t, id, attempts)
    then t[id := t[id].(status := Resubmitted, attempts := attempts + 1, lastAttempt := Some(date))] else t
  }

  // ---------------------------------------------------------------- queries

  predicate Incomplete(t: Table, id: PublicationId) {
    id in t && t[id].status != Completed
  }

  function LatestAttempt(row: Publication): Time {
    if row.lastAttempt.Some? then row.lastAttempt.value else row.publicationDate
  }

  /** Some(reference) selects the rows whose latest attempt started before it. */
  predicate Selected(t: Table, id: PublicationId, before: Option<Time>) {
    Incomplete(t, id) && (before.Some? ==> LatestAttempt(t[id]) < before.value)
  }

  /** Exactly the selected rows, each once, in publication order. */
  ghost predicate IsListing(t: Table, before: Option<Time>, ids: seq<PublicationId>) {
    && (forall id :: id in ids <==> Selected(t, id, before))
    && Distinct(ids) && ByDate(t, ids)
  }

  ghost predicate Distinct(ids: seq<PublicationId>) {
    forall i, j | 0 <= i < j < |ids| :: ids[i] != ids[j]
  }

  ghost predicate ByDate(t: Table, ids: seq<PublicationId>) {
    && (forall i | 0 <= i < |ids| :: ids[i] in t)
    && (forall i, j | 0 <= i < j < |ids| :: t[ids[i]].publicationDate <= t[ids[j]].publicationDate)
  }

  // ---------------------------------------------------------------- recovery

  /** What delivery of a publication does: whether its event decodes, and whether its listener succeeds. */
  datatype Delivery = Delivery(decodes: PublicationId -> bool, succeeds: (PublicationId, nat) -> bool)

  function AttemptOf(row: Publication): nat {
    if row.status == Resubmitted then row.attempts else row.attempts + 1
  }

  /** When the statements on one row read the clock. */
  datatype Times = Times(resubmission: Time, claim: Time, completion: Time)

  /** A claimed row after its handler ran. */
  function Dispatched(
    mode: CompletionMode, delivery: Delivery, t: Tables, id: PublicationId, attempts: nat, at: Times): Tables
  {
    var claimed := t.(publications := ClaimProcessing(t.publications, id, attempts, at.claim));
    if !Claimable(t.publications, id, attempts) then t
    else if delivery.succeeds(id, attempts) then MarkCompleted(mode, claimed, id, attempts, at.completion)
    else claimed.(publications := MarkFailed(claimed.publications, id, attempts))
  }

  /** The recovery of one observed row. */
  function Recovered(
    mode: CompletionMode, delivery: Delivery, t: Tables, id: PublicationId, seen: Publication, at: Times): Tables
  {
    if !delivery.decodes(id) then t
    else if seen.status == Resubmitted then Dispatched(mode, delivery, t, id, seen.attempts, at)
    else if Resubmittable(t.publications, id, seen.attempts)
    then
      Dispatched(mode, delivery,
                 t.(publications := MarkResubmitted(t.publications, id, seen.attempts, at.resubmission)),
                 id, seen.attempts + 1, at)
    else t
  }

  predicate RecoveryFails(delivery: Delivery, t: Table, id: PublicationId)
    requires id in t
  {
    !delivery.decodes(id) || !delivery.succeeds(id, AttemptOf(t[id]))
  }
}
