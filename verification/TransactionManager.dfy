/**
 The manager, its unit of work and the driver transaction underneath, updated in
 place as transaction/manager.go and transaction/context.go do. A Nested Run uses
 a named savepoint on a stack; every method's contract equates what it leaves
 with the snapshot semantics of TransactionModel, which has no savepoints.
 */
module TransactionManager {
  import opened TransactionModel
  import opened TransactionOrder

  /** The driver's transaction: current rows, and a stack of named savepoints. */
  class DriverTransaction {
    var rows: Rows
    var savepoints: seq<(nat, Rows)>

    constructor (rows: Rows)
      ensures this.rows == rows && savepoints == []
    {
      this.rows, savepoints := rows, [];
    }

    ghost predicate NamesAscend(limit: nat)
      reads this
    {
      && (forall i | 0 <= i < |savepoints| :: savepoints[i].0 <= limit)
      && (forall i, j | 0 <= i < j < |savepoints| :: savepoints[i].0 < savepoints[j].0)
    }

    method Savepoint(name: nat)
      modifies `savepoints
      ensures savepoints == old(savepoints) + [(name, rows)]
    {
      savepoints := savepoints + [(name, rows)];
    }

    /** The position of the most recent savepoint of that name. */
    method Find(name: nat, ghost at: nat) returns (index: nat)
      requires at < |savepoints| && savepoints[at].0 == name
      requires forall i | 0 <= i < |savepoints| && i != at :: savepoints[i].0 != name
      ensures index == at
    {
      index := |savepoints|;
      while index > 0 && savepoints[index - 1].0 != name
        invariant at < index <= |savepoints|
      {
        index := index - 1;
      }
      index := index - 1;
    }

    /** Restores the rows of the savepoint and drops the savepoints taken after it. */
    method RollbackTo(name: nat, ghost at: nat)
      requires at < |savepoints| && savepoints[at].0 == name
      requires forall i | 0 <= i < |savepoints| && i != at :: savepoints[i].0 != name
      modifies this
      ensures rows == old(savepoints)[at].1 && savepoints == old(savepoints)[..at + 1]
    {
      var index := Find(name, at);
      rows := savepoints[index].1;
      savepoints := savepoints[..index + 1];
    }

    /** Drops the savepoint and those taken after it, keeping the rows. */
    method Release(name: nat, ghost at: nat)
      requires at < |savepoints| && savepoints[at].0 == name
      requires forall i | 0 <= i < |savepoints| && i != at :: savepoints[i].0 != name
      modifies `savepoints
      ensures savepoints == old(savepoints)[..at]
    {
      var index := Find(name, at);
      savepoints := savepoints[..index];
    }
  }

  /** A slice of the unit: the hooks of one phase, equal orders in registration order. */
  ghost predicate Slice(hooks: seq<Hook>, phase: Phase, s: seq<nat>) {
    && Indices(hooks, s)
    && (forall k: nat :: k in s <==> InPhase(hooks, phase, k))
    && (forall i, j | 0 <= i < j < |s| :: s[i] != s[j])
    && (forall i, j | 0 <= i < j < |s| && hooks[s[i]].order == hooks[s[j]].order :: s[i] < s[j])
  }

  /** The stable sort of one slice, by insertion. */
  method SortByOrder(hooks: seq<Hook>, phase: Phase, s: seq<nat>) returns (r: seq<nat>)
    requires Slice(hooks, phase, s)
    ensures r == Ordered(hooks, phase)
  {
    r := [];
    var n := 0;
    while n < |s|
      invariant 0 <= n <= |s| && Indices(hooks, r)
      invariant forall k: nat :: k in r <==> k in s[..n]
      invariant StrictlyOrdered(hooks, r)
    {
      var position := |r|;
      while position > 0 && hooks[r[position - 1]].order > hooks[s[n]].order
        invariant 0 <= position <= |r|
        invariant forall i | position <= i < |r| :: hooks[r[i]].order > hooks[s[n]].order
      {
        position := position - 1;
      }
      SortStep(hooks, phase, s, n, r, position);
      r := r[..position] + [s[n]] + r[position..];
      n := n + 1;
    }
    assert s[..n] == s;
    OrderedIsOrdered(hooks, phase);
    OrderIsUnique(hooks, r, Ordered(hooks, phase));
  }

  ghost predicate Insertable(hooks: seq<Hook>, phase: Phase, s: seq<nat>, n: nat, r: seq<nat>, position: nat) {
    && Slice(hooks, phase, s) && n < |s| && Indices(hooks, r) && StrictlyOrdered(hooks, r)
    && (forall k: nat :: k in r <==> k in s[..n])
    && position <= |r|
    && (forall i | position <= i < |r| :: hooks[r[i]].order > hooks[s[n]].order)
    && (position > 0 ==> hooks[r[position - 1]].order <= hooks[s[n]].order)
  }

  /** What stays in front of the insertion point belongs there. */
  lemma FrontIsLess(hooks: seq<Hook>, phase: Phase, s: seq<nat>, n: nat, r: seq<nat>, position: nat, i: nat)
    requires Insertable(hooks, phase, s, n, r, position) && i < position
    ensures Less(hooks, r[i], s[n])
  {
    assert r[i] in r;
    var j :| 0 <= j < |s[..n]| && s[..n][j] == r[i];
    assert s[j] == r[i];
    assert i < position - 1 ==> Less(hooks, r[i], r[position - 1]);
  }

  lemma SortStep(hooks: seq<Hook>, phase: Phase, s: seq<nat>, n: nat, r: seq<nat>, position: nat)
    requires Insertable(hooks, phase, s, n, r, position)
    ensures Indices(hooks, r[..position] + [s[n]] + r[position..])
    ensures StrictlyOrdered(hooks, r[..position] + [s[n]] + r[position..])
    ensures forall k: nat :: k in r[..position] + [s[n]] + r[position..] <==> k in s[..n + 1]
  {
    var next := r[..position] + [s[n]] + r[position..];
    forall i, j | 0 <= i < j < |next| ensures Less(hooks, next[i], next[j]) {
      if j == position {
        FrontIsLess(hooks, phase, s, n, r, position, i);
      }
    }
    forall k: nat ensures k in next <==> k in s[..n + 1] {
      assert r == r[..position] + r[position..];
      assert s[..n + 1] == s[..n] + [s[n]];
    }
  }

  /** The unit of work bound to one call chain. */
  class UnitOfWork {
    const options: Options
    const transaction: DriverTransaction
    var rollbackOnly: bool
    var completed: bool
    var savepointCounter: nat
    var hooks: seq<Hook>               // every registered callback
    var slices: map<Phase, seq<nat>>   // the six slices, as positions in hooks

    constructor (options: Options, transaction: DriverTransaction)
      requires transaction.savepoints == []
      ensures this.options == options && this.transaction == transaction
      ensures Valid() && !rollbackOnly && !completed && hooks == []
    {
      this.options, this.transaction := options, transaction;
      rollbackOnly, completed, savepointCounter, hooks := false, false, 0, [];
      slices := map[BeforeCommit := [], BeforeCompletion := [], AfterCommit := [], AfterCompletion := [],
                    OnSavepoint := [], OnSavepointRollback := []];
      new;
      forall phase: Phase ensures phase in slices && Slice(hooks, phase, slices[phase]) {
        match phase {
          case BeforeCommit => case BeforeCompletion => case AfterCommit => case AfterCompletion =>
          case OnSavepoint => case OnSavepointRollback =>
        }
      }
    }

    ghost predicate Valid()
      reads this, transaction
    {
      && (forall phase: Phase :: phase in slices && Slice(hooks, phase, slices[phase]))
      && transaction.NamesAscend(savepointCounter)
    }

    method Register(phase: Phase, order: int, callback: Callback)
      requires Valid()
      modifies `hooks, `slices
      ensures Valid() && hooks == old(hooks) + [Hook(phase, order, callback)]
    {
      var index := |hooks|;
      hooks := hooks + [Hook(phase, order, callback)];
      slices := slices[phase := slices[phase] + [index]];
      forall other: Phase ensures other in slices && Slice(hooks, other, slices[other]) {
        assert Slice(old(hooks), other, old(slices)[other]);
        forall k: nat ensures InPhase(hooks, other, k)
                              <==> InPhase(old(hooks), other, k) || (k == index && other == phase)
        {
        }
      }
    }

    method MarkRollbackOnly()
      modifies `rollbackOnly
      ensures rollbackOnly == (old(rollbackOnly) || !completed)
    {
      if !completed {
        rollbackOnly := true;
      }
    }

    method NextSavepointName() returns (name: nat)
      requires Valid()
      modifies `savepointCounter
      ensures Valid() && name == savepointCounter == old(savepointCounter) + 1
    {
      savepointCounter := savepointCounter + 1;
      name := savepointCounter;
    }

    /** Sorts the slice of the phase in place and returns its header. */
    method Drained(phase: Phase) returns (indices: seq<nat>)
      requires Valid()
      modifies `slices
      ensures Valid() && indices == Ordered(hooks, phase)
    {
      indices := SortByOrder(hooks, phase, slices[phase]);
      slices := slices[phase := indices];
      OrderedIsOrdered(hooks, phase);
      assert Slice(hooks, phase, indices);
    }
  }

  /** The first callback of a phase, and what is left to do after it. */
  lemma DrainHead(indices: seq<nat>, n: nat, phase: Phase, s: Snapshot)
    requires n < |indices| && forall i | 0 <= i < |indices| :: indices[i] < |s.hooks|
    ensures var r := Call(s.hooks[indices[n]].callback, s.(trace := s.trace + [Ran(phase, indices[n])]));
            Drain(indices[n..], phase, s)
            == if r.1.Panicked? || (r.1.Failed? && phase == BeforeCommit) then r
               else Drain(indices[n + 1..], phase, r.0)
  {
    assert indices[n..][1..] == indices[n + 1..];
    hide Call;
  }

  lemma DrainNothing(indices: seq<nat>, phase: Phase, s: Snapshot)
    requires indices == []
    ensures Drain(indices, phase, s) == (s, Returned)
  {
  }

  /** The manager over one database. The trace and the lost identifiers only record. */
  class Manager {
    var database: Rows
    var nextId: nat
    ghost var lost: set<nat>
    ghost var trace: seq<TraceEvent>

    constructor (database: Rows)
      ensures State() == Durable(database, 0, {}, [])
    {
      this.database, nextId, lost, trace := database, 0, {}, [];
    }

    ghost function State(): Durable
      reads this
    {
      Durable(database, nextId, lost, trace)
    }

    /** The open unit of work, seen through the snapshot semantics. */
    ghost function View(unit: UnitOfWork): Snapshot
      reads this, unit, unit.transaction
    {
      Snapshot(unit.transaction.rows, unit.rollbackOnly, unit.hooks, nextId, lost, trace)
    }

    ghost predicate Active(unit: UnitOfWork)
      reads unit, unit.transaction
    {
      unit.Valid() && !unit.completed
    }

    // -------------------------------------------------------------- inside a transaction

    method Perform(action: Action, unit: UnitOfWork) returns (outcome: Outcome)
      requires Active(unit)
      modifies `nextId, unit, unit.transaction`rows
      ensures Active(unit) && (View(unit), outcome) == Act(action, old(View(unit)))
    {
      outcome := Returned;
      match action {
        case Put(name, value) =>
          unit.transaction.rows := unit.transaction.rows[Data(name) := value];
        case Publish =>
          unit.transaction.rows := unit.transaction.rows[Publication(nextId) := PUBLISHED];
          unit.Register(AfterCommit, 0, Dispatch(nextId));
          nextId := nextId + 1;
        case MarkRollbackOnly =>
          unit.MarkRollbackOnly();
        case Register(phase, order, body) =>
          unit.Register(phase, order, User(body));
        case Fail(error) =>
          outcome := Failed(error);
        case Panic(value) =>
          outcome := Panicked(value);
      }
    }

    method PerformAll(body: seq<Action>, unit: UnitOfWork) returns (outcome: Outcome)
      requires Active(unit)
      modifies `nextId, unit, unit.transaction`rows
      ensures Active(unit) && (View(unit), outcome) == ActAll(body, old(View(unit)))
    {
      outcome := Returned;
      var index := 0;
      while index < |body|
        invariant 0 <= index <= |body| && Active(unit)
        invariant ActAll(body, old(View(unit))) == ActAll(body[index..], View(unit))
      {
        outcome := Perform(body[index], unit);
        if outcome != Returned {
          return;
        }
        assert body[index..][1..] == body[index + 1..];
        index := index + 1;
      }
      outcome := Returned;
    }

    method PerformCallback(callback: Callback, unit: UnitOfWork) returns (outcome: Outcome)
      requires Active(unit)
      modifies `nextId, unit, unit.transaction`rows
      ensures Active(unit) && (View(unit), outcome) == Call(callback, old(View(unit)))
    {
      outcome := Returned;
      if callback.User? {
        outcome := PerformAll(callback.body, unit);
      }
    }

    /** Runs one callback of a phase; stop tells that it ends the phase. */
    method RunOne(indices: seq<nat>, n: nat, phase: Phase, unit: UnitOfWork) returns (outcome: Outcome, stop: bool)
      requires Active(unit) && n < |indices| && Indices(unit.hooks, indices)
      modifies `nextId, `trace, unit, unit.transaction`rows
      ensures Active(unit) && old(unit.hooks) <= unit.hooks
      ensures Drain(indices[n..], phase, old(View(unit)))
           == if stop then (View(unit), outcome) else Drain(indices[n + 1..], phase, View(unit))
    {
      DrainHead(indices, n, phase, View(unit));
      trace := trace + [Ran(phase, indices[n])];
      hide Call, UnitOfWork.Valid, Drain;
      outcome := PerformCallback(unit.hooks[indices[n]].callback, unit);
      stop := outcome.Panicked? || (outcome.Failed? && phase == BeforeCommit);
    }

    /** Runs the callbacks of a phase inside the open transaction, in order. */
    method RunPhase(phase: Phase, unit: UnitOfWork) returns (outcome: Outcome)
      requires Active(unit)
      modifies `nextId, `trace, unit, unit.transaction`rows
      ensures Active(unit) && (View(unit), outcome) == DrainPhase(phase, old(View(unit)))
    {
      var indices := unit.Drained(phase);
      ghost var start := View(unit);
      var n := 0;
      assert indices[0..] == indices;
      hide UnitOfWork.Valid, Ordered, Drain;
      while n < |indices|
        invariant 0 <= n <= |indices| && Active(unit) && Indices(unit.hooks, indices)
        invariant Drain(indices, phase, start) == Drain(indices[n..], phase, View(unit))
      {
        var stop;
        outcome, stop := RunOne(indices, n, phase, unit);
        if stop {
          return;
        }
        n := n + 1;
      }
      outcome := Returned;
      DrainNothing(indices[n..], phase, View(unit));
    }

    /** Runs work that belongs to the active unit. */
    method RunInside(p: Program, unit: UnitOfWork) returns (outcome: Outcome)
      requires Active(unit)
      modifies `nextId, `lost, `trace, unit, unit.transaction
      ensures Active(unit) && (View(unit), outcome) == Inside(p, unit.options, old(View(unit)))
      ensures old(unit.transaction.savepoints) <= unit.transaction.savepoints
      decreases p, 0
    {
      match p {
        case Do(action) =>
          outcome := Perform(action, unit);
        case Then(first, second) =>
          outcome := RunInside(first, unit);
          if outcome == Returned {
            outcome := RunInside(second, unit);
          }
        case Swallow(body) =>
          outcome := RunInside(body, unit);
          if outcome.Failed? {
            outcome := Returned;
          }
        case Run(definition, faults, body) =>
          if definition.timeout < 0 {
            return Failed({InvalidTimeout});
          }
          match definition.propagation {
            case Never =>
              outcome := Failed({TransactionNotAllowed});
            case Nested =>
              outcome := RunNested(definition, faults, body, unit);
            case Required =>
              outcome := Participate(definition, body, unit);
            case Supports =>
              outcome := Participate(definition, body, unit);
            case Mandatory =>
              outcome := Participate(definition, body, unit);
          }
      }
    }

    /** A joining Run: it neither begins nor commits, and a fatal error dooms the unit. */
    method Participate(definition: Definition, body: Program, unit: UnitOfWork) returns (outcome: Outcome)
      requires Active(unit) && definition.timeout >= 0 && definition.propagation in {Required, Supports, Mandatory}
      modifies `nextId, `lost, `trace, unit, unit.transaction
      ensures Active(unit)
      ensures forall faults ::
                (View(unit), outcome) == Inside(Run(definition, faults, body), unit.options, old(View(unit)))
      ensures old(unit.transaction.savepoints) <= unit.transaction.savepoints
      decreases body, 1
    {
      if !CanJoin(definition, unit.options) {
        return Failed({IncompatibleJoin});
      }
      outcome := RunInside(body, unit);
      if outcome.Failed? && ShouldRollback(definition, outcome.error) {
        unit.MarkRollbackOnly();
      }
    }

    /** Draws a name and takes the savepoint; a driver failure leaves the stack alone. */
    method OpenSavepoint(fails: bool, unit: UnitOfWork) returns (name: nat, taken: bool)
      requires Active(unit)
      modifies unit`savepointCounter, unit.transaction`savepoints
      ensures Active(unit) && taken == !fails
      ensures unit.transaction.savepoints ==
              old(unit.transaction.savepoints) + if taken then [(name, unit.transaction.rows)] else []
    {
      name := unit.NextSavepointName();
      taken := !fails;
      if taken {
        unit.transaction.Savepoint(name);
      }
    }

    /** Releases the savepoint; a failure only leaves it on the stack. */
    method CloseSavepoint(fails: bool, name: nat, ghost at: nat, unit: UnitOfWork)
      requires Active(unit) && at < |unit.transaction.savepoints| && unit.transaction.savepoints[at].0 == name
      modifies unit.transaction`savepoints
      ensures Active(unit)
      ensures unit.transaction.savepoints ==
              if fails then old(unit.transaction.savepoints) else old(unit.transaction.savepoints)[..at]
    {
      if !fails {
        unit.transaction.Release(name, at);
      }
    }

    /** Rolls back to the savepoint; a failure to do so escalates to the whole unit. */
    method UndoNested(fails: bool, error: Error, name: nat, ghost at: nat, unit: UnitOfWork)
      returns (outcome: Outcome)
      requires Active(unit) && at < |unit.transaction.savepoints| && unit.transaction.savepoints[at].0 == name
      modifies `nextId, `lost, `trace, unit, unit.transaction
      ensures Active(unit)
      ensures (View(unit), outcome) == Undo(old(unit.transaction.savepoints)[at].1, fails, error, old(View(unit)))
      ensures old(unit.transaction.savepoints)[..at + 1] <= unit.transaction.savepoints
    {
      outcome := RunPhase(OnSavepointRollback, unit);
      if outcome.Panicked? {
        return;
      }
      if fails {
        unit.MarkRollbackOnly();
        return Failed(error + {SystemFailure});
      }
      ghost var before := unit.transaction.rows;
      unit.transaction.RollbackTo(name, at);
      lost := lost + (PublishedIn(before) - PublishedIn(unit.transaction.rows));
      outcome := Failed(error);
    }

    /** A Nested Run inside a savepoint of the active transaction. */
    method RunNested(definition: Definition, faults: Faults, body: Program, unit: UnitOfWork)
      returns (outcome: Outcome)
      requires Active(unit) && definition.timeout >= 0 && definition.propagation == Nested
      modifies `nextId, `lost, `trace, unit, unit.transaction
      ensures Active(unit)
      ensures (View(unit), outcome) == Inside(Run(definition, faults, body), unit.options, old(View(unit)))
      ensures old(unit.transaction.savepoints) <= unit.transaction.savepoints
      decreases body, 1
    {
      if !CanJoin(definition, unit.options) {
        return Failed({IncompatibleJoin});
      }
      ghost var at := |unit.transaction.savepoints|;
      var name, taken := OpenSavepoint(faults.savepoint, unit);
      if !taken {
        return Failed({SystemFailure});
      }
      hide UnitOfWork.Valid, DriverTransaction.NamesAscend, DrainPhase, Undo;
      outcome := RunPhase(OnSavepoint, unit);
      if outcome.Panicked? {
        return;
      }
      outcome := RunInside(body, unit);
      if outcome.Panicked? {
        return;
      }
      assert unit.transaction.savepoints[at] == (name, old(unit.transaction.rows));
      outcome := LeaveNested(definition, faults, outcome, name, at, unit);
    }

    /** What follows the nested work: a fatal error is undone, and the savepoint released unless that failed. */
    method LeaveNested(
      definition: Definition, faults: Faults, work: Outcome, name: nat, ghost at: nat, unit: UnitOfWork)
      returns (outcome: Outcome)
      requires Active(unit) && at < |unit.transaction.savepoints| && unit.transaction.savepoints[at].0 == name
      requires !work.Panicked?
      modifies `nextId, `lost, `trace, unit, unit.transaction
      ensures Active(unit)
      ensures (View(unit), outcome) ==
              if Fatal(definition, work)
              then Undo(old(unit.transaction.savepoints)[at].1, faults.rollbackTo, work.error, old(View(unit)))
              else (old(View(unit)), work)
      ensures old(unit.transaction.savepoints)[..at] <= unit.transaction.savepoints
    {
      outcome := work;
      if work.Failed? && ShouldRollback(definition, work.error) {
        outcome := UndoNested(faults.rollbackTo, work.error, name, at, unit);
        if outcome.Panicked? || faults.rollbackTo {
          return;
        }
      }
      CloseSavepoint(faults.release, name, at, unit);
    }

    // -------------------------------------------------------------- without a transaction

    /** The claim of a committed publication, and its handler when the claim wins. */
    method HandlePublication(id: nat)
      modifies `database, `trace
      ensures State() == Handle(old(State()), id)
    {
      if Publication(id) in database && database[Publication(id)] == PUBLISHED {
        database := database[Publication(id) := HANDLED];
        trace := trace + [Handled(id)];
      }
    }

    method PerformDetached(action: Action) returns (outcome: Outcome)
      modifies this
      ensures (State(), outcome) == ActDetached(action, old(State()))
    {
      outcome := Returned;
      match action {
        case Put(name, value) =>
          database := database[Data(name) := value];
        case Publish =>
          var id := nextId;
          database := database[Publication(id) := PUBLISHED];
          nextId := nextId + 1;
          HandlePublication(id);
        case MarkRollbackOnly =>
        case Register(_, _, _) =>
        case Fail(error) =>
          outcome := Failed(error);
        case Panic(value) =>
          outcome := Panicked(value);
      }
    }

    method PerformAllDetached(body: seq<Action>) returns (outcome: Outcome)
      modifies this
      ensures (State(), outcome) == ActAllDetached(body, old(State()))
    {
      var index := 0;
      while index < |body|
        invariant 0 <= index <= |body|
        invariant ActAllDetached(body, old(State())) == ActAllDetached(body[index..], State())
      {
        outcome := PerformDetached(body[index]);
        if outcome != Returned {
          return;
        }
        assert body[index..][1..] == body[index + 1..];
        index := index + 1;
      }
      outcome := Returned;
    }

    /** Runs an after phase of a settled unit on the bare database. */
    method RunAfter(phase: Phase, status: Status, unit: UnitOfWork)
      requires unit.Valid()
      modifies this, unit`slices
      ensures unit.Valid()
      ensures State() == DrainDetached(Ordered(unit.hooks, phase), phase, status, unit.hooks, old(State()))
    {
      var indices := unit.Drained(phase);
      ghost var start := State();
      var n := 0;
      while n < |indices|
        invariant 0 <= n <= |indices| && unit.Valid()
        invariant DrainDetached(indices, phase, status, unit.hooks, start)
               == DrainDetached(indices[n..], phase, status, unit.hooks, State())
      {
        trace := trace + [AfterEvent(phase, indices[n], status)];
        match unit.hooks[indices[n]].callback {
          case User(body) =>
            var recovered := PerformAllDetached(body);
          case Dispatch(id) =>
            HandlePublication(id);
        }
        assert indices[n..][1..] == indices[n + 1..];
        n := n + 1;
      }
    }

    /** After-commit callbacks only when the commit succeeded, then the after-completion ones. */
    method RunAfterPhases(status: Status, unit: UnitOfWork)
      requires unit.Valid()
      modifies this, unit`slices
      ensures State() == AfterPhases(status, unit.hooks, old(State()))
    {
      hide UnitOfWork.Valid, Ordered, DrainDetached;
      if status == Committed {
        RunAfter(AfterCommit, status, unit);
      }
      RunAfter(AfterCompletion, status, unit);
    }

    // -------------------------------------------------------------- a new transaction

    /** Begins, runs the work and its guarded phases: everything up to the settlement. */
    method Attempted(definition: Definition, body: Program, unit: UnitOfWork) returns (ghost attempt: Attempt,
        work: Outcome, veto: Outcome, completion: Outcome, rollback: bool)
      requires Active(unit) && unit.options == Options(definition.isolation, definition.readOnly)
      requires View(unit) == Open(State()).(trace := trace)
      requires trace != [] && trace[|trace| - 1] == Began
      modifies `nextId, `lost, `trace, unit, unit.transaction
      ensures Active(unit)
      ensures attempt == AttemptOf(definition, body, old(State()).(trace := old(trace)[..|old(trace)| - 1]))
      ensures attempt == Attempt(View(unit), work, veto, completion, rollback)
    {
      assert trace == trace[..|trace| - 1] + [Began];
      work := RunInside(body, unit);
      rollback := work.Panicked? || unit.rollbackOnly || (work.Failed? && ShouldRollback(definition, work.error));
      veto := Returned;
      if !rollback {
        veto := RunPhase(BeforeCommit, unit);
        rollback := veto != Returned;
      }
      completion := RunPhase(BeforeCompletion, unit);
      if completion.Panicked? {
        rollback := true;
      }
      attempt := Attempt(View(unit), work, veto, completion, rollback);
    }

    method RunNew(definition: Definition, faults: Faults, body: Program) returns (outcome: Outcome)
      modifies this
      ensures (State(), outcome) == NewTransaction(definition, faults, body, old(State()))
    {
      if faults.begin {
        return Failed({BeginFailed});
      }
      trace := trace + [Began];
      var transaction := new DriverTransaction(database);
      var unit := new UnitOfWork(Options(definition.isolation, definition.readOnly), transaction);
      assert old(trace) == trace[..|trace| - 1];
      outcome := RunBegun(definition, faults, body, unit);
    }

    /** What follows the begin: the attempt, its settlement, the after phases, and what the caller gets. */
    method RunBegun(definition: Definition, faults: Faults, body: Program, unit: UnitOfWork)
      returns (outcome: Outcome)
      requires Active(unit) && unit.options == Options(definition.isolation, definition.readOnly) && !faults.begin
      requires View(unit) == Open(State()).(trace := trace)
      requires trace != [] && trace[|trace| - 1] == Began
      modifies this, unit, unit.transaction
      ensures (State(), outcome) ==
              NewTransaction(definition, faults, body, old(State()).(trace := old(trace)[..|old(trace)| - 1]))
    {
      ghost var attempt;
      var work, veto, completion, rollback;
      attempt, work, veto, completion, rollback := Attempted(definition, body, unit);
      var status := Settle(rollback, faults.commit, attempt, unit);
      RunAfterPhases(status, unit);
      match status {
        case RolledBack => outcome := Reraised(work, veto, completion, faults.rollback);
        case Unknown => outcome := Failed(Errors(work) + {SystemFailure});
        case Committed => outcome := work;
      }
    }

    /** The physical commit or rollback. A lost or unreported commit leaves its outcome unknown. */
    method Settle(rollback: bool, commit: CommitFault, ghost attempt: Attempt, unit: UnitOfWork)
      returns (status: Status)
      requires Active(unit) && attempt.s == View(unit) && attempt.rollback == rollback
      modifies `database, `lost, `trace, unit`completed
      ensures unit.Valid() && unit.completed
      ensures forall faults: Faults | faults.commit == commit ::
                status == StatusOf(attempt, faults) && State() == SettledAs(attempt, faults, old(database))
    {
      status := if rollback then RolledBack else if commit == Commits then Committed else Unknown;
      if !rollback && commit != CommitLost {
        database := unit.transaction.rows;
      } else {
        lost := lost + (PublishedIn(unit.transaction.rows) - PublishedIn(database));
      }
      trace := trace + [Settled(status)];
      unit.completed := true;
    }

    /** The first panic is raised again; otherwise the errors are joined. */
    method Reraised(work: Outcome, veto: Outcome, completion: Outcome, rollbackFails: bool)
      returns (outcome: Outcome)
      ensures forall s, rollback ::
                outcome == RollbackOutcome(Attempt(s, work, veto, completion, rollback), rollbackFails)
    {
      if work.Panicked? {
        return work;
      }
      if veto.Panicked? {
        return veto;
      }
      if completion.Panicked? {
        return completion;
      }
      var errors := Errors(work) + Errors(veto);
      if rollbackFails {
        errors := errors + {SystemFailure};
      }
      if work.Failed? || veto.Failed? || rollbackFails {
        outcome := Failed(errors);
      } else {
        outcome := Failed({RollbackOnly});
      }
    }

    /** Runs work where no transaction is active. */
    method RunOutside(p: Program) returns (outcome: Outcome)
      modifies this
      ensures (State(), outcome) == Outside(p, old(State()))
      decreases p
    {
      match p {
        case Do(action) =>
          outcome := PerformDetached(action);
        case Then(first, second) =>
          outcome := RunOutside(first);
          if outcome == Returned {
            outcome := RunOutside(second);
          }
        case Swallow(body) =>
          outcome := RunOutside(body);
          if outcome.Failed? {
            outcome := Returned;
          }
        case Run(definition, faults, body) =>
          if definition.timeout < 0 {
            return Failed({InvalidTimeout});
          }
          match definition.propagation {
            case Mandatory =>
              outcome := Failed({TransactionRequired});
            case Supports =>
              outcome := RunOutside(body);
            case Never =>
              outcome := RunOutside(body);
            case Required =>
              outcome := RunNew(definition, faults, body);
            case Nested =>
              outcome := RunNew(definition, faults, body);
          }
      }
    }
  }
}
