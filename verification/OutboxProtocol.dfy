/**
 Any number of dispatchers and resubmitters over one outbox, as a state machine:
 each event is one statement, one handler call or one crash. A task keeps what it
 has read between its statements, so every statement may act on something stale.
 The archive move is a transaction of three statements: its writes show only at
 its commit, and the row it deleted and the key it inserted stay locked until then.
 */
module OutboxProtocol {
  import opened Wrappers
  import opened OutboxModel

  datatype Stage =
    | Observing(status: Status, seen: nat)   // a resubmitter read the row after this many claims
    | Holding                                // about to claim
    | Claimed
    | Delivered                              // the handler succeeded
    | Refused                                // the handler failed
    | Reading(copy: Publication)
    | Inserting(copy: Publication, date: Time, added: bool)
    | Deleting(copy: Publication, date: Time, added: bool)

  /** One Registry.dispatch or Registry.resubmit call in flight. */
  datatype Task = Task(id: PublicationId, generation: nat, stage: Stage)

  datatype Entry = Entry(id: PublicationId, generation: nat, task: nat, good: bool)

  datatype Resubmission = Resubmission(id: PublicationId, generation: nat, observed: Status, seen: nat, was: Status)

  datatype World = World(
    drafts: Table,                    // rows of transactions still open
    known: set<PublicationId>,        // every identifier ever drawn
    committed: set<PublicationId>,    // publications whose transaction committed
    publications: Table,
    archive: Table,
    tasks: map<nat, Task>,
    started: set<nat>,
    claims: seq<Entry>,               // successful claims, in order
    handled: seq<Entry>,              // handler calls with their outcome
    settlements: seq<Entry>,          // effective settlements: completed or failed
    resubmissions: seq<Resubmission>) // effective resubmissions

  datatype Event =
    | Draft(id: PublicationId, row: Publication)
    | Commit(id: PublicationId)
    | Rollback(id: PublicationId)
    | Hand(task: nat, id: PublicationId)
    | Observe(task: nat, id: PublicationId)
    | Redispatch(task: nat)
    | Resubmit(task: nat, date: Time)
    | Claim(task: nat, date: Time)
    | Deliver(task: nat, good: bool)
    | Fail(task: nat)
    | Complete(task: nat, date: Time)
    | ReadRow(task: nat)
    | InsertCopy(task: nat, date: Time)
    | DeleteRow(task: nat)
    | CommitArchive(task: nat)
    | Crash(task: nat)

  function Init(): World {
    World(map[], {}, {}, map[], map[], map[], {}, [], [], [], [])
  }

  // ---------------------------------------------------------------- steps

  /** No archive transaction holds the lock of the row. */
  predicate Unlocked(w: World, id: PublicationId) {
    forall task | task in w.tasks :: w.tasks[task].stage.Deleting? ==> w.tasks[task].id != id
  }

  predicate KeyUnlocked(w: World, id: PublicationId) {
    forall task | task in w.tasks && w.tasks[task].id == id ::
      !((w.tasks[task].stage.Inserting? || w.tasks[task].stage.Deleting?) && w.tasks[task].stage.added)
  }

  /** The event runs a statement on the row of its task. */
  predicate Writes(e: Event) {
    e.Resubmit? || e.Claim? || e.Fail? || e.Complete? || e.DeleteRow?
  }

  predicate Active(w: World, e: Event)
    requires !e.Draft? && !e.Commit? && !e.Rollback?
  {
    && e.task in w.tasks
    && (Writes(e) ==> Unlocked(w, w.tasks[e.task].id))
  }

  predicate Enabled(mode: CompletionMode, w: World, e: Event) {
    match e
    case Draft(id, row) => id !in w.known && row == NewPublication(row.listener, row.payload, row.publicationDate)
    case Commit(id) => id in w.drafts
    case Rollback(id) => id in w.drafts
    case Hand(task, _) => task !in w.started
    case Observe(task, id) => task !in w.started && Incomplete(w.publications, id)
    case Redispatch(task) =>
      Active(w, e) && w.tasks[task].stage.Observing? && w.tasks[task].stage.status == Resubmitted
    case Resubmit(task, _) =>
      Active(w, e) && w.tasks[task].stage.Observing? && w.tasks[task].stage.status != Resubmitted
    case Claim(task, _) => Active(w, e) && w.tasks[task].stage == Holding
    case Deliver(task, _) => Active(w, e) && w.tasks[task].stage == Claimed
    case Fail(task) => Active(w, e) && w.tasks[task].stage == Refused
    case Complete(task, _) => Active(w, e) && w.tasks[task].stage == Delivered && mode != ArchiveMode
    case ReadRow(task) => Active(w, e) && w.tasks[task].stage == Delivered && mode == ArchiveMode
    case InsertCopy(task, _) => Active(w, e) && w.tasks[task].stage.Reading? && KeyUnlocked(w, w.tasks[task].id)
    case DeleteRow(task) => Active(w, e) && w.tasks[task].stage.Inserting?
    case CommitArchive(task) => Active(w, e) && w.tasks[task].stage.Deleting?
    case Crash(task) => Active(w, e)
  }

  /** The statement affects its row. */
  predicate Wins(w: World, e: Event)
    requires !e.Draft? && !e.Commit? && !e.Rollback? ==> e.Hand? || e.Observe? || e.task in w.tasks
  {
    match e
    case Claim(task, _) => Claimable(w.publications, w.tasks[task].id, w.tasks[task].generation)
    case Resubmit(task, _) => Resubmittable(w.publications, w.tasks[task].id, w.tasks[task].generation)
    case Fail(task) => Settleable(w.publications, w.tasks[task].id, w.tasks[task].generation)
    case Complete(task, _) => Settleable(w.publications, w.tasks[task].id, w.tasks[task].generation)
    case ReadRow(task) => Settleable(w.publications, w.tasks[task].id, w.tasks[task].generation)
    case DeleteRow(task) => Settleable(w.publications, w.tasks[task].id, w.tasks[task].generation)
    case CommitArchive(_) => true
    case _ => false
  }

  function NextPublications(mode: CompletionMode, w: World, e: Event): Table
    requires Enabled(mode, w, e)
  {
    match e
    case Commit(id) => w.publications[id := w.drafts[id]]
    case Claim(task, date) => ClaimProcessing(w.publications, w.tasks[task].id, w.tasks[task].generation, date)
    case Resubmit(task, date) => MarkResubmitted(w.publications, w.tasks[task].id, w.tasks[task].generation, date)
    case Fail(task) => MarkFailed(w.publications, w.tasks[task].id, w.tasks[task].generation)
    case Complete(task, date) =>
      MarkCompleted(mode, Tables(w.publications, w.archive), w.tasks[task].id, w.tasks[task].generation, date)
      .publications
    case CommitArchive(task) => w.publications - {w.tasks[task].id}
    case _ => w.publications
  }

  function NextArchive(mode: CompletionMode, w: World, e: Event): Table
    requires Enabled(mode, w, e)
  {
    if e.CommitArchive? && w.tasks[e.task].stage.added
    then w.archive[w.tasks[e.task].id := Completion(w.tasks[e.task].stage.copy, w.tasks[e.task].stage.date)]
    else w.archive
  }

  function Enter(w: World, task: nat, stage: Stage): map<nat, Task>
    requires task in w.tasks
  {
    w.tasks[task := w.tasks[task].(stage := stage)]
  }

  /** A loser stops; so does a task that settled or crashed. */
  function NextTasks(mode: CompletionMode, w: World, e: Event): map<nat, Task>
    requires Enabled(mode, w, e)
  {
    match e
    case Hand(task, id) => w.tasks[task := Task(id, 1, Holding)]
    case Observe(task, id) =>
      w.tasks[task := Task(id, w.publications[id].attempts, Observing(w.publications[id].status, |w.claims|))]
    case Redispatch(task) => Enter(w, task, Holding)
    case Resubmit(task, _) =>
      if Wins(w, e) then w.tasks[task := Task(w.tasks[task].id, w.tasks[task].generation + 1, Holding)]
      else w.tasks - {task}
    case Claim(task, _) => if Wins(w, e) then Enter(w, task, Claimed) else w.tasks - {task}
    case Deliver(task, good) => Enter(w, task, if good then Delivered else Refused)
    case ReadRow(task) =>
      if Wins(w, e) then Enter(w, task, Reading(w.publications[w.tasks[task].id])) else w.tasks - {task}
    case InsertCopy(task, date) =>
      Enter(w, task, Inserting(w.tasks[task].stage.copy, date, w.tasks[task].id !in w.archive))
    case DeleteRow(task) =>
      if Wins(w, e)
      then Enter(w, task, Deleting(w.tasks[task].stage.copy, w.tasks[task].stage.date, w.tasks[task].stage.added))
      else w.tasks - {task}
    case Fail(task) => w.tasks - {task}
    case Complete(task, _) => w.tasks - {task}
    case CommitArchive(task) => w.tasks - {task}
    case Crash(task) => w.tasks - {task}
    case _ => w.tasks
  }

  function EntryOf(w: World, task: nat, good: bool): Entry
    requires task in w.tasks
  {
    Entry(w.tasks[task].id, w.tasks[task].generation, task, good)
  }

  function NextSettlements(mode: CompletionMode, w: World, e: Event): seq<Entry>
    requires Enabled(mode, w, e)
  {
    if e.Fail? && Wins(w, e) then w.settlements + [EntryOf(w, e.task, false)]
    else if (e.Complete? && Wins(w, e)) || e.CommitArchive? then w.settlements + [EntryOf(w, e.task, true)]
    else w.settlements
  }

  function NextResubmissions(mode: CompletionMode, w: World, e: Event): seq<Resubmission>
    requires Enabled(mode, w, e)
  {
    if e.Resubmit? && Wins(w, e)
    then
      var t := w.tasks[e.task];
      w.resubmissions
        + [Resubmission(t.id, t.generation, t.stage.status, t.stage.seen, w.publications[t.id].status)]
    else w.resubmissions
  }

  function Apply(mode: CompletionMode, w: World, e: Event): World
    requires Enabled(mode, w, e)
  {
    World(
      if e.Draft? then w.drafts[e.id := e.row] else if e.Commit? || e.Rollback? then w.drafts - {e.id} else w.drafts,
      if e.Draft? then w.known + {e.id} else w.known,
      if e.Commit? then w.committed + {e.id} else w.committed,
      NextPublications(mode, w, e),
      NextArchive(mode, w, e),
      NextTasks(mode, w, e),
      if e.Hand? || e.Observe? then w.started + {e.task} else w.started,
      if e.Claim? && Wins(w, e) then w.claims + [EntryOf(w, e.task, true)] else w.claims,
      if e.Deliver? then w.handled + [EntryOf(w, e.task, e.good)] else w.handled,
      NextSettlements(mode, w, e),
      NextResubmissions(mode, w, e))
  }

  /** The state after a sequence of events, from empty tables; None if some event was not possible. */
  function Exec(mode: CompletionMode, events: seq<Event>): Option<World> {
    if events == [] then Some(Init())
    else
      var last := |events| - 1;
      var before := Exec(mode, events[..last]);
      if before.Some? && Enabled(mode, before.value, events[last])
      then Some(Apply(mode, before.value, events[last])) else None
  }
}
