/**
 What a unit of work means. Work is a program; its reference semantics keeps one
 snapshot of the tables per open scope and knows nothing of savepoints, names or
 a savepoint stack. The manager of TransactionManager is proved to compute it.

 Errors are sets of codes (errors.Is asks for membership, errors.Join is union).
 Every driver failure the code handles is a flag of the program, so a statement
 about all programs is a statement about all failure patterns too.
 */
module TransactionModel {

  // ---------------------------------------------------------------- programs

  datatype Key = Data(name: string) | Publication(id: nat)

  type Rows = map<Key, int>

  const PUBLISHED := 0
  const HANDLED := 1

  datatype Code =
    | Business(n: nat)
    | RollbackOnly
    | TransactionRequired
    | TransactionNotAllowed
    | IncompatibleJoin
    | BeginFailed
    | SystemFailure
    | InvalidTimeout

  type Error = set<Code>

  datatype Outcome = Returned | Failed(error: Error) | Panicked(value: int)

  datatype Propagation = Required | Supports | Mandatory | Never | Nested

  datatype Definition = Definition(
    propagation: Propagation,
    isolation: nat,
    readOnly: bool,
    timeout: int,
    rollbackFor: seq<Error -> bool>,
    noRollbackFor: seq<Error -> bool>)

  datatype CommitFault = Commits | CommitLost | CommitUnreported

  /** Which driver calls of one Run fail. */
  datatype Faults = Faults(
    begin: bool, savepoint: bool, rollbackTo: bool, release: bool, rollback: bool, commit: CommitFault)

  datatype Phase = BeforeCommit | BeforeCompletion | AfterCommit | AfterCompletion | OnSavepoint | OnSavepointRollback

  datatype Action =
    | Put(name: string, value: int)
    | Publish
    | MarkRollbackOnly
    | Register(phase: Phase, order: int, body: seq<Action>)
    | Fail(error: Error)
    | Panic(value: int)

  /** A registered callback; Dispatch is the one the outbox publisher registers. */
  datatype Callback = User(body: seq<Action>) | Dispatch(id: nat)

  /** The registration index of a hook is its position in the list of all hooks. */
  datatype Hook = Hook(phase: Phase, order: int, callback: Callback)

  datatype Program =
    | Do(action: Action)
    | Then(first: Program, second: Program)
    | Swallow(body: Program)
    | Run(definition: Definition, faults: Faults, body: Program)

  datatype Status = Committed | RolledBack | Unknown

  datatype TraceEvent =
    | Began
    | Ran(phase: Phase, index: nat)
    | Settled(status: Status)
    | Completed(index: nat, status: Status)
    | Handled(id: nat)

  predicate ShouldRollback(definition: Definition, error: Error) {
    || (exists i | 0 <= i < |definition.rollbackFor| :: definition.rollbackFor[i](error))
    || !(exists i | 0 <= i < |definition.noRollbackFor| :: definition.noRollbackFor[i](error))
  }

  predicate Fatal(definition: Definition, outcome: Outcome) {
    outcome.Failed? && ShouldRollback(definition, outcome.error)
  }

  /** The options of the physical transaction that a join must be compatible with. */
  datatype Options = Options(isolation: nat, readOnly: bool)

  predicate CanJoin(definition: Definition, options: Options) {
    && (definition.isolation == 0 || definition.isolation == options.isolation)
    && (definition.readOnly ==> options.readOnly)
  }

  // ---------------------------------------------------------------- callback order

  /** Inserts an index behind every index of the same or a lower order. */
  function InsertByOrder(hooks: seq<Hook>, indices: seq<nat>, index: nat): (r: seq<nat>)
    requires index < |hooks| && forall i | 0 <= i < |indices| :: indices[i] < |hooks|
    ensures |r| == |indices| + 1 && forall i | 0 <= i < |r| :: r[i] < |hooks|
  {
    if indices == [] || hooks[indices[|indices| - 1]].order <= hooks[index].order then indices + [index]
    else InsertByOrder(hooks, indices[..|indices| - 1], index) + [indices[|indices| - 1]]
  }

  /** The hooks of a phase among the first n, by order and then by registration. */
  function OrderedUpTo(hooks: seq<Hook>, phase: Phase, n: nat): (r: seq<nat>)
    requires n <= |hooks|
    ensures forall i | 0 <= i < |r| :: r[i] < |hooks|
  {
    if n == 0 then []
    else if hooks[n - 1].phase == phase
    then InsertByOrder(hooks, OrderedUpTo(hooks, phase, n - 1), n - 1)
    else OrderedUpTo(hooks, phase, n - 1)
  }

  function Ordered(hooks: seq<Hook>, phase: Phase): (r: seq<nat>)
    ensures forall i | 0 <= i < |r| :: r[i] < |hooks|
  {
    OrderedUpTo(hooks, phase, |hooks|)
  }

  // ---------------------------------------------------------------- inside a transaction

  /** The open unit of work as its reader sees it. Identifiers are never reused. */
  datatype Snapshot = Snapshot(
    rows: Rows, doomed: bool, hooks: seq<Hook>, nextId: nat, lost: set<nat>, trace: seq<TraceEvent>)

  function Act(action: Action, s: Snapshot): (r: (Snapshot, Outcome))
    ensures s.hooks <= r.0.hooks
  {
    match action
    case Put(name, value) => (s.(rows := s.rows[Data(name) := value]), Returned)
    case Publish =>
      (s.(rows := s.rows[Publication(s.nextId) := PUBLISHED], nextId := s.nextId + 1,
          hooks := s.hooks + [Hook(AfterCommit, 0, Dispatch(s.nextId))]), Returned)
    case MarkRollbackOnly => (s.(doomed := true), Returned)
    case Register(phase, order, body) => (s.(hooks := s.hooks + [Hook(phase, order, User(body))]), Returned)
    case Fail(error) => (s, Failed(error))
    case Panic(value) => (s, Panicked(value))
  }

  function ActAll(body: seq<Action>, s: Snapshot): (r: (Snapshot, Outcome))
    ensures s.hooks <= r.0.hooks
  {
    if body == [] then (s, Returned)
    else
      var r := Act(body[0], s);
      if r.1 == Returned then ActAll(body[1..], r.0) else r
  }

  function Call(callback: Callback, s: Snapshot): (r: (Snapshot, Outcome))
    ensures s.hooks <= r.0.hooks
  {
    match callback
    case User(body) => ActAll(body, s)
    case Dispatch(_) => (s, Returned)
  }

  /** A panic stops a phase; an error stops only the before-commit phase, as a veto. */
  function Drain(indices: seq<nat>, phase: Phase, s: Snapshot): (r: (Snapshot, Outcome))
    requires forall i | 0 <= i < |indices| :: indices[i] < |s.hooks|
    ensures s.hooks <= r.0.hooks
    ensures r.1.Failed? ==> phase == BeforeCommit
  {
    if indices == [] then (s, Returned)
    else
      var r := Call(s.hooks[indices[0]].callback, s.(trace := s.trace + [Ran(phase, indices[0])]));
      if r.1.Panicked? || (r.1.Failed? && phase == BeforeCommit) then r
      else Drain(indices[1..], phase, r.0)
  }

  function DrainPhase(phase: Phase, s: Snapshot): (r: (Snapshot, Outcome))
    ensures s.hooks <= r.0.hooks
    ensures r.1.Failed? ==> phase == BeforeCommit
  {
    Drain(Ordered(s.hooks, phase), phase, s)
  }

  /** Going back to earlier rows loses the publications drafted since. */
  function Restore(s: Snapshot, rows: Rows): Snapshot {
    s.(rows := rows, lost := s.lost + (PublishedIn(s.rows) - PublishedIn(rows)))
  }

  function PublishedIn(rows: Rows): set<nat> {
    set key | key in rows && key.Publication? :: key.id
  }

  /** A fatal nested step goes back to the rows it started from; if it cannot, the unit is doomed. */
  function Undo(rows: Rows, fails: bool, error: Error, s: Snapshot): (Snapshot, Outcome) {
    var undoing := DrainPhase(OnSavepointRollback, s);
    if undoing.1.Panicked? then undoing
    else if fails then (undoing.0.(doomed := true), Failed(error + {SystemFailure}))
    else (Restore(undoing.0, rows), Failed(error))
  }

  function Inside(p: Program, options: Options, s: Snapshot): (r: (Snapshot, Outcome)) {
    match p
    case Do(action) => Act(action, s)
    case Then(first, second) =>
      var r := Inside(first, options, s);
      if r.1 == Returned then Inside(second, options, r.0) else r
    case Swallow(body) =>
      var r := Inside(body, options, s);
      if r.1.Failed? then (r.0, Returned) else r
    case Run(definition, faults, body) =>
      if definition.timeout < 0 then (s, Failed({InvalidTimeout}))
      else if definition.propagation == Never then (s, Failed({TransactionNotAllowed}))
      else if !CanJoin(definition, options) then (s, Failed({IncompatibleJoin}))
      else if definition.propagation == Nested then
        if faults.savepoint then (s, Failed({SystemFailure}))
        else
          var entered := DrainPhase(OnSavepoint, s);
          if entered.1.Panicked? then entered
          else
            var r := Inside(body, options, entered.0);
            if Fatal(definition, r.1) then Undo(s.rows, faults.rollbackTo, r.1.error, r.0) else r
      else
        var r := Inside(body, options, s);
        if Fatal(definition, r.1) then (r.0.(doomed := true), r.1) else r
  }

  // ---------------------------------------------------------------- outside a transaction

  /** The committed database, and what the process has drawn and done so far. */
  datatype Durable = Durable(rows: Rows, nextId: nat, lost: set<nat>, trace: seq<TraceEvent>)

  /** The claim of a publication finds its committed row or does nothing. */
  function Handle(d: Durable, id: nat): Durable {
    if Publication(id) in d.rows && d.rows[Publication(id)] == PUBLISHED
    then d.(rows := d.rows[Publication(id) := HANDLED], trace := d.trace + [Handled(id)])
    else d
  }

  /** Without a unit of work writes commit at once, and nothing can be marked or registered. */
  function ActDetached(action: Action, d: Durable): (Durable, Outcome) {
    match action
    case Put(name, value) => (d.(rows := d.rows[Data(name) := value]), Returned)
    case Publish =>
      (Handle(d.(rows := d.rows[Publication(d.nextId) := PUBLISHED], nextId := d.nextId + 1), d.nextId), Returned)
    case MarkRollbackOnly => (d, Returned)
    case Register(_, _, _) => (d, Returned)
    case Fail(error) => (d, Failed(error))
    case Panic(value) => (d, Panicked(value))
  }

  function ActAllDetached(body: seq<Action>, d: Durable): (Durable, Outcome) {
    if body == [] then (d, Returned)
    else
      var r := ActDetached(body[0], d);
      if r.1 == Returned then ActAllDetached(body[1..], r.0) else r
  }

  function CallDetached(callback: Callback, d: Durable): Durable {
    match callback
    case User(body) => ActAllDetached(body, d).0
    case Dispatch(id) => Handle(d, id)
  }

  function AfterEvent(phase: Phase, index: nat, status: Status): TraceEvent {
    if phase == AfterCommit then Ran(phase, index) else Completed(index, status)
  }

  /** After the settlement every callback runs; a panic is recovered. */
  function DrainDetached(indices: seq<nat>, phase: Phase, status: Status, hooks: seq<Hook>, d: Durable): Durable
    requires forall i | 0 <= i < |indices| :: indices[i] < |hooks|
  {
    if indices == [] then d
    else
      var noted := d.(trace := d.trace + [AfterEvent(phase, indices[0], status)]);
      DrainDetached(indices[1..], phase, status, hooks, CallDetached(hooks[indices[0]].callback, noted))
  }

  function Open(d: Durable): Snapshot {
    Snapshot(d.rows, false, [], d.nextId, d.lost, d.trace + [Began])
  }

  /** The work and its two guarded phases: the unit just before it is settled. */
  datatype Attempt = Attempt(s: Snapshot, work: Outcome, veto: Outcome, completion: Outcome, rollback: bool)

  function AttemptOf(definition: Definition, body: Program, d: Durable): Attempt {
    var worked := Inside(body, Options(definition.isolation, definition.readOnly), Open(d));
    var doomed := worked.1.Panicked? || worked.0.doomed || Fatal(definition, worked.1);
    var vetoed := if doomed then (worked.0, Returned) else DrainPhase(BeforeCommit, worked.0);
    var completed := DrainPhase(BeforeCompletion, vetoed.0);
    Attempt(completed.0, worked.1, vetoed.1, completed.1,
            doomed || vetoed.1 != Returned || completed.1.Panicked?)
  }

  function Errors(outcome: Outcome): Error {
    if outcome.Failed? then outcome.error else {}
  }

  /** What the caller of a rolled-back Run gets: the first panic, or the joined errors. */
  function RollbackOutcome(a: Attempt, rollbackFails: bool): Outcome {
    if a.work.Panicked? then a.work
    else if a.veto.Panicked? then a.veto
    else if a.completion.Panicked? then a.completion
    else
      var errors := Errors(a.work) + Errors(a.veto) + (if rollbackFails then {SystemFailure} else {});
      if a.work.Failed? || a.veto.Failed? || rollbackFails then Failed(errors) else Failed({RollbackOnly})
  }

  function StatusOf(a: Attempt, faults: Faults): Status {
    if a.rollback then RolledBack else if faults.commit == Commits then Committed else Unknown
  }

  /** The database right after the settlement, over the rows the transaction began on. */
  function SettledAs(a: Attempt, faults: Faults, rows: Rows): Durable {
    var keeps := !a.rollback && faults.commit != CommitLost;
    Durable(if keeps then a.s.rows else rows,
            a.s.nextId,
            if keeps then a.s.lost else a.s.lost + (PublishedIn(a.s.rows) - PublishedIn(rows)),
            a.s.trace + [Settled(StatusOf(a, faults))])
  }

  /** The after phases: after-commit callbacks only when the commit succeeded. */
  function AfterPhases(status: Status, hooks: seq<Hook>, d: Durable): Durable {
    var committed :=
      if status == Committed
      then DrainDetached(Ordered(hooks, AfterCommit), AfterCommit, status, hooks, d) else d;
    DrainDetached(Ordered(hooks, AfterCompletion), AfterCompletion, status, hooks, committed)
  }

  function NewTransaction(definition: Definition, faults: Faults, body: Program, d: Durable): (Durable, Outcome) {
    if faults.begin then (d, Failed({BeginFailed}))
    else
      var a := AttemptOf(definition, body, d);
      var status := StatusOf(a, faults);
      (AfterPhases(status, a.s.hooks, SettledAs(a, faults, d.rows)),
       if a.rollback then RollbackOutcome(a, faults.rollback)
       else if status == Committed then a.work
       else Failed(Errors(a.work) + {SystemFailure}))
  }

  function Outside(p: Program, d: Durable): (Durable, Outcome) {
    match p
    case Do(action) => ActDetached(action, d)
    case Then(first, second) =>
      var r := Outside(first, d);
      if r.1 == Returned then Outside(second, r.0) else r
    case Swallow(body) =>
      var r := Outside(body, d);
      if r.1.Failed? then (r.0, Returned) else r
    case Run(definition, faults, body) =>
      if definition.timeout < 0 then (d, Failed({InvalidTimeout}))
      else match definition.propagation
      case Mandatory => (d, Failed({TransactionRequired}))
      case Supports => Outside(body, d)
      case Never => Outside(body, d)
      case Required => NewTransaction(definition, faults, body, d)
      case Nested => NewTransaction(definition, faults, body, d)
  }
}
