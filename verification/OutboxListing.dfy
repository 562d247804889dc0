/**
 Which publications a recovery pass with a reference time takes, over whole runs:
 the uncompleted ones whose latest attempt began before it, so that a delivery that
 began since is left to its own dispatcher.
 */
module OutboxListing {
  import opened Wrappers
  import opened OutboxModel
  import opened OutboxProtocol

  /** The date at which this step starts an attempt on the publication: its draft, a claim or a resubmission. */
  function StartedBy(mode: CompletionMode, w: World, e: Event, id: PublicationId): Option<Time>
    requires Enabled(mode, w, e)
  {
    match e
    case Draft(drafted, row) => if drafted == id then Some(row.publicationDate) else None
    case Claim(task, date) => if w.tasks[task].id == id && Wins(w, e) then Some(date) else None
    case Resubmit(task, date) => if w.tasks[task].id == id && Wins(w, e) then Some(date) else None
    case _ => None
  }

  /** The date of the latest attempt that a run started on the publication. */
  function LatestStart(mode: CompletionMode, events: seq<Event>, id: PublicationId): Option<Time> {
    if events == [] then None
    else
      var last := |events| - 1;
      var before := Exec(mode, events[..last]);
      if before.Some? && Enabled(mode, before.value, events[last])
         && StartedBy(mode, before.value, events[last], id).Some?
      then StartedBy(mode, before.value, events[last], id) else LatestStart(mode, events[..last], id)
  }

  /** The row carries the date of its latest attempt. */
  ghost predicate Dated(w: World, id: PublicationId, start: Option<Time>) {
    && (id in w.publications ==> id in w.known && start.Some? && w.publications[id].lastAttempt == start)
    && (id in w.drafts ==>
          id in w.known && id !in w.publications && start.Some? && w.drafts[id].lastAttempt == start)
  }

  lemma DatedStep(mode: CompletionMode, w: World, e: Event, id: PublicationId, start: Option<Time>)
    requires Enabled(mode, w, e) && Dated(w, id, start)
    ensures Dated(Apply(mode, w, e), id,
                  if StartedBy(mode, w, e, id).Some? then StartedBy(mode, w, e, id) else start)
  {
  }

  lemma {:induction false} DatedHolds(mode: CompletionMode, events: seq<Event>, id: PublicationId)
    requires Exec(mode, events).Some?
    ensures Dated(Exec(mode, events).value, id, LatestStart(mode, events, id))
  {
    if events != [] {
      var last := |events| - 1;
      var before := Exec(mode, events[..last]).value;
      DatedHolds(mode, events[..last], id);
      DatedStep(mode, before, events[last], id, LatestStart(mode, events[..last], id));
      hide Dated, Apply, Enabled, StartedBy;
    }
  }

  /**
   A listing with a reference time holds exactly the uncompleted publications
   whose latest attempt began before it: one drafted, claimed or resubmitted at
   that time or later is left out, and every other uncompleted one is in.
   */
  lemma ListedExactly(
    mode: CompletionMode, events: seq<Event>, w: World, reference: Time, ids: seq<PublicationId>, id: PublicationId)
    requires Exec(mode, events) == Some(w) && IsListing(w.publications, Some(reference), ids)
    ensures id in ids <==>
              && id in w.publications && w.publications[id].status != Completed
              && LatestStart(mode, events, id).Some? && LatestStart(mode, events, id).value < reference
  {
    DatedHolds(mode, events, id);
    hide Exec, LatestStart;
  }
}
