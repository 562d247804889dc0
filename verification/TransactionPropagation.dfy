/**
 What a Run means for its caller, read off the database, the trace and the
 result: which propagation begins a transaction, joins one or runs without, which
 work is kept and which is undone, and what error comes back.
 */
module TransactionPropagation {
  import opened TransactionModel
  import opened TransactionOrder
  import opened TransactionLaws
  import opened TransactionLifecycle

  /** A Run that needs a transaction of its own where none is active. */
  predicate NeedsOwn(definition: Definition) {
    definition.timeout >= 0 && (definition.propagation == Required || definition.propagation == Nested)
  }

  /** The work itself decides for a rollback: it panicked, was marked, or failed with a fatal error. */
  predicate WorkFails(definition: Definition, work: (Snapshot, Outcome)) {
    || work.1.Panicked?
    || work.0.doomed
    || (work.1.Failed? && ShouldRollback(definition, work.1.error))
  }

  /** How the before-commit phase ended; it is skipped when the work fails. */
  function VetoOf(definition: Definition, body: Program, d: Durable): Outcome {
    var work := Worked(definition, body, d);
    if WorkFails(definition, work) then Returned else DrainPhase(BeforeCommit, work.0).1
  }

  function CompletionOf(definition: Definition, body: Program, d: Durable): (Snapshot, Outcome) {
    DrainPhase(BeforeCompletion, Vetoed(definition, body, d))
  }

  predicate RollsBack(definition: Definition, body: Program, d: Durable) {
    || WorkFails(definition, Worked(definition, body, d))
    || VetoOf(definition, body, d) != Returned
    || CompletionOf(definition, body, d).1.Panicked?
  }

  lemma AttemptRead(definition: Definition, body: Program, d: Durable)
    ensures var a := AttemptOf(definition, body, d);
            && a.work == Worked(definition, body, d).1
            && a.veto == VetoOf(definition, body, d)
            && a.s == CompletionOf(definition, body, d).0 && a.completion == CompletionOf(definition, body, d).1
            && a.rollback == RollsBack(definition, body, d)
  {
    hide Inside, DrainPhase;
  }

  // ---------------------------------------------------------------- where no transaction is active

  /** Where no transaction is active: what begins nothing. */
  lemma OutsideTable(definition: Definition, faults: Faults, body: Program, d: Durable)
    ensures var r := Outside(Run(definition, faults, body), d);
            && (definition.timeout < 0 ==> r == (d, Failed({InvalidTimeout})))
            && (definition.timeout >= 0 && definition.propagation == Mandatory ==>
                  r == (d, Failed({TransactionRequired})))
            && (definition.timeout >= 0 && definition.propagation in {Supports, Never} ==> r == Outside(body, d))
            && (NeedsOwn(definition) && faults.begin ==> r == (d, Failed({BeginFailed})))
  {
  }

  /** A Run that needs a transaction of its own begins it before anything else happens. */
  lemma BeginsFirst(definition: Definition, faults: Faults, body: Program, d: Durable)
    requires Ledger(d) && NeedsOwn(definition) && !faults.begin
    ensures d.trace + [Began] <= Outside(Run(definition, faults, body), d).0.trace
  {
    var settled, hooks, status := Settlement(definition, faults, body, d);
    SettledIsLedger(definition, faults, body, d);
    hide AfterPhases, Ledger, SettledAs, AttemptOf;
    AfterPhasesKeepLedger(status, hooks, settled);
  }

  lemma SettledIsLedger(definition: Definition, faults: Faults, body: Program, d: Durable)
    requires Ledger(d)
    ensures Ledger(SettledAs(AttemptOf(definition, body, d), faults, d.rows))
  {
    SettlementKeepsLedger(definition, faults, body, d);
  }

  /**
   The settlement of such a Run: the database as the before phases left it if it
   commits, as it was before the Run if it rolls back or the commit is lost.
   */
  lemma Settlement(definition: Definition, faults: Faults, body: Program, d: Durable)
    returns (settled: Durable, hooks: seq<Hook>, status: Status)
    requires Ledger(d) && NeedsOwn(definition) && !faults.begin
    ensures Outside(Run(definition, faults, body), d).0 == AfterPhases(status, hooks, settled)
    ensures settled == SettledAs(AttemptOf(definition, body, d), faults, d.rows)
    ensures d.trace + [Began] <= settled.trace && settled.trace[|settled.trace| - 1] == Settled(status)
    ensures hooks == CompletionOf(definition, body, d).0.hooks
    ensures RollsBack(definition, body, d) ==> status == RolledBack && settled.rows == d.rows
    ensures !RollsBack(definition, body, d) && faults.commit == Commits ==>
              status == Committed && settled.rows == CompletionOf(definition, body, d).0.rows
    ensures !RollsBack(definition, body, d) && faults.commit == CommitLost ==>
              status == Unknown && settled.rows == d.rows
    ensures !RollsBack(definition, body, d) && faults.commit == CommitUnreported ==>
              status == Unknown && settled.rows == CompletionOf(definition, body, d).0.rows
  {
    var a := AttemptOf(definition, body, d);
    AttemptRead(definition, body, d);
    var w, b, c := SettledTrace(definition, faults, body, d);
    settled, hooks, status := SettledAs(a, faults, d.rows), a.s.hooks, StatusOf(a, faults);
    BeganFirst(d.trace, w, Ordered(Worked(definition, body, d).0.hooks, BeforeCommit)[..b],
               Ordered(Vetoed(definition, body, d).hooks, BeforeCompletion)[..c], status);
    hide AttemptOf, RollsBack, CompletionOf, During, Worked, Vetoed, AfterPhases, Ordered, Ledger;
  }

  lemma BeganFirst(t: seq<TraceEvent>, w: seq<TraceEvent>, vetoers: seq<nat>, completers: seq<nat>, status: Status)
    ensures t + [Began] <= t + During(w, vetoers, completers, status)
    ensures var u := t + During(w, vetoers, completers, status); u[|u| - 1] == Settled(status)
  {
    assert During(w, vetoers, completers, status)
        == [Began] + (w + Runs(BeforeCommit, vetoers) + Runs(BeforeCompletion, completers) + [Settled(status)]);
  }

  /**
   Failed work is undone: when it panicked, was marked or failed with a fatal
   error, the Run reports it and the database is as before when the after phases
   begin; with no callback for them it stays so.
   */
  lemma FailedWorkIsUndone(definition: Definition, faults: Faults, body: Program, d: Durable)
    returns (settled: Durable, hooks: seq<Hook>)
    requires Ledger(d) && NeedsOwn(definition) && !faults.begin
    requires WorkFails(definition, Worked(definition, body, d))
    ensures Outside(Run(definition, faults, body), d).1 != Returned
    ensures Outside(Run(definition, faults, body), d).0 == AfterPhases(RolledBack, hooks, settled)
    ensures settled.rows == d.rows && d.trace + [Began] <= settled.trace
    ensures (forall i | 0 <= i < |hooks| :: hooks[i].phase != AfterCompletion) ==>
              Outside(Run(definition, faults, body), d).0.rows == d.rows
  {
    var status;
    settled, hooks, status := Settlement(definition, faults, body, d);
    RunReports(definition, faults, body, d);
    if forall i | 0 <= i < |hooks| :: hooks[i].phase != AfterCompletion {
      NothingAfter(hooks, settled);
    }
    hide AfterPhases, Worked, Vetoed;
  }

  lemma NothingAfter(hooks: seq<Hook>, d: Durable)
    requires forall i | 0 <= i < |hooks| :: hooks[i].phase != AfterCompletion
    ensures AfterPhases(RolledBack, hooks, d) == d
  {
    OrderedOrNone(hooks, AfterCompletion);
  }

  lemma OrderedOrNone(hooks: seq<Hook>, phase: Phase)
    ensures Ordered(hooks, phase) == [] || exists i | 0 <= i < |hooks| :: hooks[i].phase == phase
  {
    OrderedIsOrdered(hooks, phase);
    if Ordered(hooks, phase) != [] {
      var first := Ordered(hooks, phase)[0];
      assert first in Ordered(hooks, phase);
      assert hooks[first].phase == phase;
    }
  }

  /**
   What the caller gets: the first panic of the work, the before-commit and the
   before-completion phase; or the errors of the work, of the veto and of a failed
   rollback together; a unit rolled back without an error reports that it was
   marked; a failed commit adds a system failure; and otherwise the outcome of the
   work, an error that does not roll back included.
   */
  lemma RunReports(definition: Definition, faults: Faults, body: Program, d: Durable)
    requires NeedsOwn(definition) && !faults.begin
    ensures var outcome := Outside(Run(definition, faults, body), d).1;
            var work, veto := Worked(definition, body, d).1, VetoOf(definition, body, d);
            var completion := CompletionOf(definition, body, d).1;
            && (work.Panicked? ==> outcome == work)
            && (!work.Panicked? && veto.Panicked? ==> outcome == veto)
            && (!work.Panicked? && !veto.Panicked? && completion.Panicked? ==> outcome == completion)
            && (RollsBack(definition, body, d) && !work.Panicked? && !veto.Panicked? && !completion.Panicked? ==>
                  && outcome.Failed?
                  && (work.Failed? ==> work.error <= outcome.error)
                  && (veto.Failed? ==> veto.error <= outcome.error)
                  && (faults.rollback ==> SystemFailure in outcome.error)
                  && (!work.Failed? && !veto.Failed? && !faults.rollback ==> outcome.error == {RollbackOnly})
                  && (work.Failed? || veto.Failed? || faults.rollback ==>
                        forall code | code in outcome.error ::
                          || (work.Failed? && code in work.error) || (veto.Failed? && code in veto.error)
                          || (faults.rollback && code == SystemFailure)))
            && (!RollsBack(definition, body, d) && faults.commit == Commits ==> outcome == work)
            && (!RollsBack(definition, body, d) && faults.commit != Commits ==>
                  && outcome.Failed? && SystemFailure in outcome.error
                  && (work.Failed? ==> work.error <= outcome.error)
                  && forall code | code in outcome.error ::
                       code == SystemFailure || (work.Failed? && code in work.error))
  {
    AttemptRead(definition, body, d);
    hide AttemptOf, AfterPhases, SettledAs, Worked, CompletionOf, Vetoed;
  }

  // ---------------------------------------------------------------- inside a transaction

  /** Where a transaction is active: a Run is refused, or joins it and dooms it by a fatal error. */
  lemma InsideTable(definition: Definition, faults: Faults, body: Program, options: Options, s: Snapshot)
    ensures var r := Inside(Run(definition, faults, body), options, s);
            var joins := && (definition.isolation == 0 || definition.isolation == options.isolation)
                         && (definition.readOnly ==> options.readOnly);
            && (definition.timeout < 0 ==> r == (s, Failed({InvalidTimeout})))
            && (definition.timeout >= 0 && definition.propagation == Never ==>
                  r == (s, Failed({TransactionNotAllowed})))
            && (definition.timeout >= 0 && definition.propagation != Never && !joins ==>
                  r == (s, Failed({IncompatibleJoin})))
            && (definition.timeout >= 0 && joins && definition.propagation in {Required, Supports, Mandatory} ==>
                  var work := Inside(body, options, s);
                  && r.1 == work.1
                  && r.0.(doomed := false) == work.0.(doomed := false)
                  && (r.0.doomed <==>
                        work.0.doomed || (work.1.Failed? && ShouldRollback(definition, work.1.error))))
            && (definition.timeout >= 0 && joins && definition.propagation == Nested && faults.savepoint ==>
                  r == (s, Failed({SystemFailure})))
  {
  }

  /**
   A nested Run whose work does not fail fatally keeps what the work wrote, and one
   whose work does, and whose savepoint callbacks return, has the rows it started
   from again unless going back fails, which dooms the unit.
   */
  lemma NestedTable(definition: Definition, faults: Faults, body: Program, options: Options, s: Snapshot)
    requires definition.timeout >= 0 && definition.propagation == Nested && CanJoin(definition, options)
    requires !faults.savepoint && DrainPhase(OnSavepoint, s).1 == Returned
    ensures var work := Inside(body, options, DrainPhase(OnSavepoint, s).0);
            var undoing := DrainPhase(OnSavepointRollback, work.0);
            var r := Inside(Run(definition, faults, body), options, s);
            && (!Fatal(definition, work.1) ==> r == work)
            && (Fatal(definition, work.1) && undoing.1.Panicked? ==> r == undoing)
            && (Fatal(definition, work.1) && !undoing.1.Panicked? && faults.rollbackTo ==>
                  && r.0.doomed && r.0.rows == undoing.0.rows && r.0.hooks == undoing.0.hooks
                  && r.1 == Failed(work.1.error + {SystemFailure}))
            && (Fatal(definition, work.1) && !undoing.1.Panicked? && !faults.rollbackTo ==>
                  && r.0.rows == s.rows && r.0.hooks == undoing.0.hooks && r.0.doomed == undoing.0.doomed
                  && r.1 == work.1)
  {
    hide DrainPhase;
  }

  /** Work stops at its first failure, and a caller that swallows an error goes on, but not past a panic. */
  lemma ControlTable(first: Program, second: Program, options: Options, s: Snapshot, d: Durable)
    ensures var inside, outside := Inside(first, options, s), Outside(first, d);
            && (inside.1 != Returned ==> Inside(Then(first, second), options, s) == inside)
            && (inside.1 == Returned ==>
                  Inside(Then(first, second), options, s) == Inside(second, options, inside.0))
            && (inside.1.Failed? ==> Inside(Swallow(first), options, s) == (inside.0, Returned))
            && (!inside.1.Failed? ==> Inside(Swallow(first), options, s) == inside)
            && (outside.1 != Returned ==> Outside(Then(first, second), d) == outside)
            && (outside.1 == Returned ==> Outside(Then(first, second), d) == Outside(second, outside.0))
            && (outside.1.Failed? ==> Outside(Swallow(first), d) == (outside.0, Returned))
            && (!outside.1.Failed? ==> Outside(Swallow(first), d) == outside)
  {
  }

  /** What each action does to the open unit. */
  lemma ActionTable(action: Action, options: Options, s: Snapshot)
    ensures var r := Inside(Do(action), options, s);
            match action
            case Put(name, value) => r == (s.(rows := s.rows[Data(name) := value]), Returned)
            case Publish =>
              && r.1 == Returned && r.0.nextId == s.nextId + 1 && r.0.doomed == s.doomed
              && r.0.rows == s.rows[Publication(s.nextId) := PUBLISHED]
              && r.0.hooks == s.hooks + [Hook(AfterCommit, 0, Dispatch(s.nextId))]
            case MarkRollbackOnly => r == (s.(doomed := true), Returned)
            case Register(phase, order, body) =>
              r == (s.(hooks := s.hooks + [Hook(phase, order, User(body))]), Returned)
            case Fail(error) => r == (s, Failed(error))
            case Panic(value) => r == (s, Panicked(value))
  {
  }

  /** The rollback rules: without rules every error rolls back, and a rollback rule wins over a no-rollback rule. */
  lemma RollbackRules(definition: Definition, error: Error)
    ensures definition.rollbackFor == [] && definition.noRollbackFor == [] ==> ShouldRollback(definition, error)
    ensures (exists i | 0 <= i < |definition.rollbackFor| :: definition.rollbackFor[i](error)) ==>
              ShouldRollback(definition, error)
    ensures (forall i | 0 <= i < |definition.rollbackFor| :: !definition.rollbackFor[i](error))
            && (exists i | 0 <= i < |definition.noRollbackFor| :: definition.noRollbackFor[i](error)) ==>
              !ShouldRollback(definition, error)
    ensures (forall i | 0 <= i < |definition.noRollbackFor| :: !definition.noRollbackFor[i](error)) ==>
              ShouldRollback(definition, error)
  {
  }

  // ---------------------------------------------------------------- single actions

  /** A driver on which every call succeeds. */
  predicate Faultless(faults: Faults) {
    !faults.begin && faults.commit == Commits
  }

  lemma NoHooks(phase: Phase)
    ensures Ordered([], phase) == []
  {
  }

  lemma OneHook(hook: Hook, phase: Phase)
    ensures Ordered([hook], phase) == if hook.phase == phase then [0] else []
  {
    assert OrderedUpTo([hook], phase, 0) == [];
  }

  /** A write of a transaction that commits is there afterwards, and nothing else changed. */
  lemma WriteIsKept(definition: Definition, faults: Faults, name: string, value: int, d: Durable)
    requires NeedsOwn(definition) && Faultless(faults)
    ensures Outside(Run(definition, faults, Do(Put(name, value))), d)
         == (d.(rows := d.rows[Data(name) := value], trace := d.trace + [Began] + [Settled(Committed)]), Returned)
  {
    forall phase ensures Ordered([], phase) == [] {
      NoHooks(phase);
    }
    hide Ordered;
    var s := Open(d).(rows := d.rows[Data(name) := value]);
    assert AttemptOf(definition, Do(Put(name, value)), d) == Attempt(s, Returned, Returned, Returned, false);
  }

  /** A callback registered for a phase after the commit runs there, and what it writes is there at once. */
  lemma AfterCallbackWrites(
    definition: Definition, faults: Faults, phase: Phase, order: int, name: string, value: int, d: Durable)
    requires NeedsOwn(definition) && Faultless(faults) && phase in {AfterCommit, AfterCompletion}
    ensures var r := Outside(Run(definition, faults, Do(Register(phase, order, [Put(name, value)]))), d);
            && r.1 == Returned && r.0.rows == d.rows[Data(name) := value]
            && r.0.trace == d.trace + [Began] + [Settled(Committed)]
                          + [if phase == AfterCommit then Ran(AfterCommit, 0) else Completed(0, Committed)]
  {
    var body := Do(Register(phase, order, [Put(name, value)]));
    var hook := Hook(phase, order, User([Put(name, value)]));
    assert [] + [hook] == [hook];
    OneHookRun(definition, faults, body, hook, Open(d).(hooks := [hook]), d);
    var noted := d.(trace := d.trace + [Began] + [Settled(Committed)] + [AfterEvent(phase, 0, Committed)]);
    assert [Put(name, value)][1..] == [];
    assert ActAllDetached([Put(name, value)], noted).0 == noted.(rows := d.rows[Data(name) := value]);
    hide Outside, Inside;
  }

  /** A publication of a transaction that commits is committed with it and handed to its handler once. */
  lemma PublicationIsHandled(definition: Definition, faults: Faults, d: Durable)
    requires NeedsOwn(definition) && Faultless(faults)
    ensures var r := Outside(Run(definition, faults, Do(Publish)), d);
            && r.1 == Returned && r.0.nextId == d.nextId + 1
            && r.0.rows == d.rows[Publication(d.nextId) := HANDLED]
            && r.0.trace == d.trace + [Began] + [Settled(Committed)] + [Ran(AfterCommit, 0)] + [Handled(d.nextId)]
  {
    var hook := Hook(AfterCommit, 0, Dispatch(d.nextId));
    var rows := d.rows[Publication(d.nextId) := PUBLISHED];
    var settled := d.(rows := rows, nextId := d.nextId + 1, trace := d.trace + [Began] + [Settled(Committed)]);
    PublishInside(definition, d);
    DispatchAfter(d.nextId, settled.(trace := settled.trace + [Ran(AfterCommit, 0)]));
    assert rows[Publication(d.nextId) := HANDLED] == d.rows[Publication(d.nextId) := HANDLED];
    hide Outside, Inside, CallDetached, Handle;
    OneHookRun(definition, faults, Do(Publish), hook,
               Open(d).(rows := rows, nextId := d.nextId + 1, hooks := [hook]), d);
  }

  lemma PublishInside(definition: Definition, d: Durable)
    ensures var hook := Hook(AfterCommit, 0, Dispatch(d.nextId));
            Inside(Do(Publish), Options(definition.isolation, definition.readOnly), Open(d))
            == (Open(d).(rows := d.rows[Publication(d.nextId) := PUBLISHED], nextId := d.nextId + 1, hooks := [hook]),
                Returned)
  {
    assert [] + [Hook(AfterCommit, 0, Dispatch(d.nextId))] == [Hook(AfterCommit, 0, Dispatch(d.nextId))];
  }

  lemma DispatchAfter(id: nat, d: Durable)
    requires Publication(id) in d.rows && d.rows[Publication(id)] == PUBLISHED
    ensures CallDetached(Dispatch(id), d)
         == d.(rows := d.rows[Publication(id) := HANDLED], trace := d.trace + [Handled(id)])
  {
  }

  /** A callback stops at its first failure, inside the transaction and after it. */
  lemma CallbackStops(first: Action, rest: seq<Action>, s: Snapshot, d: Durable)
    ensures Act(first, s).1 == Returned ==>
              Call(User([first] + rest), s) == Call(User(rest), Act(first, s).0)
    ensures Act(first, s).1 != Returned ==> Call(User([first] + rest), s) == Act(first, s)
    ensures ActDetached(first, d).1 == Returned ==>
              CallDetached(User([first] + rest), d) == CallDetached(User(rest), ActDetached(first, d).0)
    ensures ActDetached(first, d).1 != Returned ==> CallDetached(User([first] + rest), d) == ActDetached(first, d).0
    ensures Call(User([]), s) == (s, Returned) && CallDetached(User([]), d) == d
  {
    assert ([first] + rest)[1..] == rest;
  }

  lemma PutThenRegister(
    definition: Definition, name: string, value: int, phase: Phase, callback: seq<Action>, d: Durable)
    ensures var hook := Hook(phase, 0, User(callback));
            Worked(definition, Then(Do(Put(name, value)), Do(Register(phase, 0, callback))), d)
            == (Open(d).(rows := d.rows[Data(name) := value], hooks := [hook]), Returned)
  {
    var options := Options(definition.isolation, definition.readOnly);
    var hook := Hook(phase, 0, User(callback));
    var put := Open(d).(rows := d.rows[Data(name) := value]);
    assert Inside(Do(Put(name, value)), options, Open(d)) == (put, Returned);
    assert put.hooks + [hook] == [hook];
    assert Inside(Do(Register(phase, 0, callback)), options, put) == (put.(hooks := [hook]), Returned);
  }

  /** An error of a before-commit callback is a veto: the work is undone and the error comes back. */
  lemma VetoUndoes(definition: Definition, faults: Faults, name: string, value: int, error: Error, d: Durable)
    requires Ledger(d) && NeedsOwn(definition) && !faults.begin && !faults.rollback
    ensures var body := Then(Do(Put(name, value)), Do(Register(BeforeCommit, 0, [Action.Fail(error)])));
            var r := Outside(Run(definition, faults, body), d);
            r.1 == Failed(error) && r.0.rows == d.rows
  {
    var body := Then(Do(Put(name, value)), Do(Register(BeforeCommit, 0, [Action.Fail(error)])));
    var hook := Hook(BeforeCommit, 0, User([Action.Fail(error)]));
    var s := Open(d).(rows := d.rows[Data(name) := value], hooks := [hook]);
    PutThenRegister(definition, name, value, hook.phase, [Action.Fail(error)], d);
    var noted := s.(trace := s.trace + [Ran(BeforeCommit, 0)]);
    OneHook(hook, BeforeCommit);
    OneHook(hook, BeforeCompletion);
    CallbackStops(Action.Fail(error), [], noted, d);
    assert [Action.Fail(error)] + [] == [Action.Fail(error)];
    assert DrainPhase(BeforeCommit, s) == (noted, Failed(error));
    assert DrainPhase(BeforeCompletion, noted) == (noted, Returned);
    AfterVeto(definition, faults, body, error, noted, d);
  }

  lemma AfterVeto(definition: Definition, faults: Faults, body: Program, error: Error, s: Snapshot, d: Durable)
    requires Ledger(d) && NeedsOwn(definition) && !faults.begin && !faults.rollback
    requires Worked(definition, body, d).1 == Returned && !WorkFails(definition, Worked(definition, body, d))
    requires VetoOf(definition, body, d) == Failed(error) && CompletionOf(definition, body, d) == (s, Returned)
    requires forall i | 0 <= i < |s.hooks| :: s.hooks[i].phase != AfterCompletion
    ensures Outside(Run(definition, faults, body), d).1 == Failed(error)
    ensures Outside(Run(definition, faults, body), d).0.rows == d.rows
  {
    var settled, hooks, status := Settlement(definition, faults, body, d);
    RunReports(definition, faults, body, d);
    NothingAfter(hooks, settled);
    hide AfterPhases, Worked, Vetoed, SettledAs, AttemptOf, Outside, NewTransaction;
    var outcome := Outside(Run(definition, faults, body), d).1;
    assert forall code :: code in outcome.error <==> code in error;
    assert outcome.error == error;
  }

  /** An error of a before-completion callback is ignored: the work is committed. */
  lemma CompletionErrorIsIgnored(
    definition: Definition, faults: Faults, name: string, value: int, error: Error, d: Durable)
    requires Ledger(d) && NeedsOwn(definition) && Faultless(faults)
    ensures var body := Then(Do(Put(name, value)), Do(Register(BeforeCompletion, 0, [Action.Fail(error)])));
            var r := Outside(Run(definition, faults, body), d);
            r.1 == Returned && r.0.rows == d.rows[Data(name) := value]
  {
    var body := Then(Do(Put(name, value)), Do(Register(BeforeCompletion, 0, [Action.Fail(error)])));
    var hook := Hook(BeforeCompletion, 0, User([Action.Fail(error)]));
    var s := Open(d).(rows := d.rows[Data(name) := value], hooks := [hook]);
    PutThenRegister(definition, name, value, hook.phase, [Action.Fail(error)], d);
    var noted := s.(trace := s.trace + [Ran(BeforeCompletion, 0)]);
    OneHook(hook, BeforeCommit);
    OneHook(hook, BeforeCompletion);
    CallbackStops(Action.Fail(error), [], noted, d);
    assert [Action.Fail(error)] + [] == [Action.Fail(error)];
    assert DrainPhase(BeforeCommit, s) == (s, Returned);
    assert [0][1..] == [] && Drain([], BeforeCompletion, noted) == (noted, Returned);
    assert Drain([0], BeforeCompletion, s) == Drain([0][1..], BeforeCompletion, noted);
    assert DrainPhase(BeforeCompletion, s) == (noted, Returned);
    var settled, hooks, status := Settlement(definition, faults, body, d);
    RunReports(definition, faults, body, d);
    OneHook(hook, AfterCommit);
    OneHook(hook, AfterCompletion);
    hide AttemptOf, SettledAs, NewTransaction, Ordered;
    assert AfterPhases(Committed, hooks, settled) == settled;
  }

  /** A Run whose work only registered one callback for after its commit. */
  lemma OneHookRun(definition: Definition, faults: Faults, body: Program, hook: Hook, s: Snapshot, d: Durable)
    requires NeedsOwn(definition) && Faultless(faults)
    requires Inside(body, Options(definition.isolation, definition.readOnly), Open(d)) == (s, Returned)
    requires s.hooks == [hook] && !s.doomed && hook.phase in {AfterCommit, AfterCompletion}
    ensures Outside(Run(definition, faults, body), d)
         == (CallDetached(hook.callback,
                          Durable(s.rows, s.nextId, s.lost,
                                  s.trace + [Settled(Committed)] + [AfterEvent(hook.phase, 0, Committed)])),
             Returned)
  {
    AttemptOfOneHook(definition, body, hook, s, d);
    AfterOneHook(Committed, hook, Durable(s.rows, s.nextId, s.lost, s.trace + [Settled(Committed)]));
    hide AttemptOf, AfterPhases, Inside, CallDetached;
  }

  /** One hook of an after phase leaves the guarded phases alone. */
  lemma AttemptOfOneHook(definition: Definition, body: Program, hook: Hook, s: Snapshot, d: Durable)
    requires Inside(body, Options(definition.isolation, definition.readOnly), Open(d)) == (s, Returned)
    requires s.hooks == [hook] && !s.doomed && hook.phase in {AfterCommit, AfterCompletion}
    ensures AttemptOf(definition, body, d) == Attempt(s, Returned, Returned, Returned, false)
  {
    OneHook(hook, BeforeCommit);
    OneHook(hook, BeforeCompletion);
    hide Ordered, Inside;
  }

  lemma AfterOneHook(status: Status, hook: Hook, d: Durable)
    requires status == Committed && hook.phase in {AfterCommit, AfterCompletion}
    ensures AfterPhases(status, [hook], d)
         == CallDetached(hook.callback, d.(trace := d.trace + [AfterEvent(hook.phase, 0, status)]))
  {
    OneHook(hook, AfterCommit);
    OneHook(hook, AfterCompletion);
    var called := CallDetached(hook.callback, d.(trace := d.trace + [AfterEvent(hook.phase, 0, status)]));
    assert [0][1..] == [];
    assert DrainDetached([0], hook.phase, status, [hook], d)
        == DrainDetached([0][1..], hook.phase, status, [hook], called);
    hide Ordered, CallDetached;
  }

  /** Without a transaction writes and publications take effect at once, and there is nothing to mark or register. */
  lemma DetachedActions(name: string, value: int, d: Durable)
    ensures Outside(Do(Put(name, value)), d) == (d.(rows := d.rows[Data(name) := value]), Returned)
    ensures var r := Outside(Do(Publish), d);
            && r.1 == Returned && r.0.nextId == d.nextId + 1 && r.0.trace == d.trace + [Handled(d.nextId)]
            && r.0.rows == d.rows[Publication(d.nextId) := HANDLED]
  {
    var rows := d.rows[Publication(d.nextId) := PUBLISHED];
    assert rows[Publication(d.nextId) := HANDLED] == d.rows[Publication(d.nextId) := HANDLED];
  }

  lemma DetachedRest(action: Action, d: Durable)
    ensures action.MarkRollbackOnly? || action.Register? ==> Outside(Do(action), d) == (d, Returned)
    ensures action.Fail? ==> Outside(Do(action), d) == (d, Failed(action.error))
    ensures action.Panic? ==> Outside(Do(action), d) == (d, Outcome.Panicked(action.value))
  {
  }
}
