/**
 What the lifecycle means for callers: transactions never overlap and settle
 exactly once over whole programs, a committed publication is always handled, a
 doomed unit never commits, a failed nested step loses only its own writes.
 */
module TransactionOutcomes {
  import opened Wrappers
  import opened TransactionModel
  import opened TransactionOrder
  import opened TransactionLaws
  import opened TransactionLifecycle

  // ---------------------------------------------------------------- the grammar of traces

  datatype Stage = Idle | Working | Vetoing | Completing | Ended(status: Status) | Notifying(status: Status)

  predicate InTransaction(stage: Stage) {
    stage in {Working, Vetoing, Completing}
  }

  /** The stage an event leads to, if the documented lifecycle allows it there. */
  function Advance(stage: Stage, e: TraceEvent): Option<Stage> {
    match e
    case Began => if InTransaction(stage) then None else Some(Working)
    case Ran(phase, _) =>
      (match phase
       case OnSavepoint => if stage == Working then Some(Working) else None
       case OnSavepointRollback => if stage == Working then Some(Working) else None
       case BeforeCommit => if stage in {Working, Vetoing} then Some(Vetoing) else None
       case BeforeCompletion => if InTransaction(stage) then Some(Completing) else None
       case AfterCommit => if stage == Ended(Committed) then Some(stage) else None
       case AfterCompletion => None)
    case Settled(status) => if InTransaction(stage) then Some(Ended(status)) else None
    case Completed(_, status) => if stage in {Ended(status), Notifying(status)} then Some(Notifying(status)) else None
    case Handled(_) => if InTransaction(stage) then None else Some(stage)
  }

  function StageAfter(t: seq<TraceEvent>): Option<Stage> {
    if t == [] then Some(Idle)
    else
      var before := StageAfter(t[..|t| - 1]);
      if before.Some? then Advance(before.value, t[|t| - 1]) else None
  }

  /** The trace follows the lifecycle and leaves no transaction open. */
  predicate Closed(t: seq<TraceEvent>) {
    StageAfter(t).Some? && !InTransaction(StageAfter(t).value)
  }

  function Count(t: seq<TraceEvent>, counted: TraceEvent -> bool): nat {
    if t == [] then 0 else Count(t[..|t| - 1], counted) + if counted(t[|t| - 1]) then 1 else 0
  }

  /** A trace that follows the lifecycle settles as often as it begins, but for the transaction still open. */
  lemma {:induction false} SettlesOnce(t: seq<TraceEvent>)
    requires StageAfter(t).Some?
    ensures Count(t, (e: TraceEvent) => e.Began?)
         == Count(t, (e: TraceEvent) => e.Settled?) + if InTransaction(StageAfter(t).value) then 1 else 0
  {
    if t != [] {
      SettlesOnce(t[..|t| - 1]);
    }
  }

  lemma StageStep(t: seq<TraceEvent>, e: TraceEvent)
    ensures StageAfter(t + [e]) == (if StageAfter(t).Some? then Advance(StageAfter(t).value, e) else None)
  {
    assert (t + [e])[..|t + [e]| - 1] == t;
  }

  lemma {:induction false} StageThrough(t: seq<TraceEvent>, u: seq<TraceEvent>, from: Stage, to: Stage)
    requires StageAfter(t) == Some(from)
    requires forall i | 0 <= i < |u| :: Advance(from, u[i]) == Advance(to, u[i]) == Some(to)
    ensures StageAfter(t + u) == Some(if u == [] then from else to)
  {
    if u == [] {
      assert t + u == t;
    } else {
      var last := |u| - 1;
      StageThrough(t, u[..last], from, to);
      assert t + u == (t + u[..last]) + [u[last]];
      StageStep(t + u[..last], u[last]);
    }
  }

  lemma StageDuring(t: seq<TraceEvent>, w: seq<TraceEvent>, vetoers: seq<nat>, completers: seq<nat>, status: Status)
    requires Closed(t)
    requires forall i | 0 <= i < |w| :: w[i].Ran? && w[i].phase in SAVEPOINTS
    ensures StageAfter(t + During(w, vetoers, completers, status)) == Some(Ended(status))
  {
    var vetoing, completing := Runs(BeforeCommit, vetoers), Runs(BeforeCompletion, completers);
    StageWorking(t, w);
    StageVetoing(t + [Began] + w, vetoers);
    StageCompleting(t + [Began] + w + vetoing, completers, status);
    hide StageAfter, Runs;
    Framed(t, w, vetoing, completing, Settled(status));
  }

  lemma StageWorking(t: seq<TraceEvent>, w: seq<TraceEvent>)
    requires Closed(t)
    requires forall i | 0 <= i < |w| :: w[i].Ran? && w[i].phase in SAVEPOINTS
    ensures StageAfter(t + [Began] + w) == Some(Working)
  {
    StageStep(t, Began);
    hide StageAfter;
    StageThrough(t + [Began], w, Working, Working);
  }

  lemma StageVetoing(t: seq<TraceEvent>, vetoers: seq<nat>)
    requires StageAfter(t) == Some(Working)
    ensures StageAfter(t + Runs(BeforeCommit, vetoers)) == Some(if vetoers == [] then Working else Vetoing)
  {
    hide StageAfter;
    StageThrough(t, Runs(BeforeCommit, vetoers), Working, Vetoing);
  }

  lemma StageCompleting(t: seq<TraceEvent>, completers: seq<nat>, status: Status)
    requires StageAfter(t) in {Some(Working), Some(Vetoing)}
    ensures StageAfter(t + Runs(BeforeCompletion, completers) + [Settled(status)]) == Some(Ended(status))
  {
    var completing := Runs(BeforeCompletion, completers);
    hide StageAfter;
    StageThrough(t, completing, StageAfter(t).value, Completing);
    StageStep(t + completing, Settled(status));
  }

  lemma {:induction false} StageDetached(body: seq<Action>, d: Durable)
    requires Closed(d.trace)
    ensures StageAfter(ActAllDetached(body, d).0.trace) == StageAfter(d.trace)
  {
    if body != [] {
      StageAct(body[0], d);
      if ActDetached(body[0], d).1 == Returned {
        StageDetached(body[1..], ActDetached(body[0], d).0);
      }
    }
  }

  lemma StageHandle(d: Durable, id: nat)
    requires Closed(d.trace)
    ensures StageAfter(Handle(d, id).trace) == StageAfter(d.trace)
  {
    StageStep(d.trace, Handled(id));
  }

  lemma StageAct(action: Action, d: Durable)
    requires Closed(d.trace)
    ensures StageAfter(ActDetached(action, d).0.trace) == StageAfter(d.trace)
  {
    if action.Publish? {
      StageHandle(d.(rows := d.rows[Publication(d.nextId) := PUBLISHED], nextId := d.nextId + 1), d.nextId);
    }
  }

  lemma {:induction false} StageDrained(
    indices: seq<nat>, phase: Phase, status: Status, hooks: seq<Hook>, d: Durable)
    requires forall i | 0 <= i < |indices| :: indices[i] < |hooks|
    requires phase == AfterCommit ==> StageAfter(d.trace) == Some(Ended(status)) && status == Committed
    requires phase == AfterCompletion ==> StageAfter(d.trace) in {Some(Ended(status)), Some(Notifying(status))}
    requires phase == AfterCommit || phase == AfterCompletion
    ensures phase == AfterCommit
            ==> StageAfter(DrainDetached(indices, phase, status, hooks, d).trace) == StageAfter(d.trace)
    ensures Closed(DrainDetached(indices, phase, status, hooks, d).trace)
  {
    if indices != [] {
      var event := AfterEvent(phase, indices[0], status);
      var noted := d.(trace := d.trace + [event]);
      StageStep(d.trace, event);
      var callback := hooks[indices[0]].callback;
      match callback {
        case User(body) => StageDetached(body, noted);
        case Dispatch(id) => StageHandle(noted, id);
      }
      StageDrained(indices[1..], phase, status, hooks, CallDetached(callback, noted));
    }
  }

  lemma NewTransactionCloses(definition: Definition, faults: Faults, body: Program, d: Durable)
    requires Ledger(d) && Closed(d.trace)
    ensures Closed(NewTransaction(definition, faults, body, d).0.trace)
  {
    if !faults.begin {
      var a := AttemptOf(definition, body, d);
      var status := StatusOf(a, faults);
      var settled := SettledAs(a, faults, d.rows);
      var w, b, c := SettledTrace(definition, faults, body, d);
      hide AttemptOf, Ledger, During, Worked, Vetoed, SettledAs, Ordered, DrainDetached;
      StageDuring(d.trace, w, Ordered(Worked(definition, body, d).0.hooks, BeforeCommit)[..b],
                  Ordered(Vetoed(definition, body, d).hooks, BeforeCompletion)[..c], status);
      AfterPhasesClose(status, a.s.hooks, settled);
    }
  }

  lemma AfterPhasesClose(status: Status, hooks: seq<Hook>, d: Durable)
    requires StageAfter(d.trace) == Some(Ended(status))
    ensures Closed(AfterPhases(status, hooks, d).trace)
  {
    var committed := d;
    if status == Committed {
      StageDrained(Ordered(hooks, AfterCommit), AfterCommit, status, hooks, d);
      committed := DrainDetached(Ordered(hooks, AfterCommit), AfterCommit, status, hooks, d);
    }
    StageDrained(Ordered(hooks, AfterCompletion), AfterCompletion, status, hooks, committed);
  }

  /**
   Over any program, whatever panics, vetoes and driver failures occur: every
   transaction begun settles, exactly once and before the next begins; its
   callbacks run in the documented phases with the status it settled with; no
   handler runs while a transaction is open.
   */
  lemma {:induction false} EveryTransactionSettles(p: Program, d: Durable)
    requires Ledger(d) && Closed(d.trace)
    ensures Closed(Outside(p, d).0.trace)
    ensures Count(Outside(p, d).0.trace, (e: TraceEvent) => e.Began?)
         == Count(Outside(p, d).0.trace, (e: TraceEvent) => e.Settled?)
  {
    hide NewTransaction, ActDetached, Ledger;
    match p {
      case Do(action) =>
        StageAct(action, d);
      case Then(first, second) =>
        OutsideKeepsLedger(first, d);
        EveryTransactionSettles(first, d);
        if Outside(first, d).1 == Returned {
          EveryTransactionSettles(second, Outside(first, d).0);
        }
      case Swallow(body) =>
        EveryTransactionSettles(body, d);
      case Run(definition, faults, body) =>
        if definition.propagation == Required || definition.propagation == Nested {
          NewTransactionCloses(definition, faults, body, d);
        } else {
          EveryTransactionSettles(body, d);
        }
    }
    SettlesOnce(Outside(p, d).0.trace);
  }

  // ---------------------------------------------------------------- committed publications are handled

  predicate Deliverable(d: Durable, id: nat) {
    Drawn(d.rows, id) && d.rows[Publication(id)] in {PUBLISHED, HANDLED}
  }

  predicate IsHandled(d: Durable, id: nat) {
    Drawn(d.rows, id) && d.rows[Publication(id)] == HANDLED
  }

  /** A callback leaves a publication deliverable, or handled if it was handled. */
  predicate Forward(d: Durable, e: Durable, id: nat) {
    (Deliverable(d, id) ==> Deliverable(e, id)) && (IsHandled(d, id) ==> IsHandled(e, id))
  }

  lemma ActForward(action: Action, d: Durable, id: nat)
    requires id < d.nextId
    ensures Forward(d, ActDetached(action, d).0, id) && d.nextId <= ActDetached(action, d).0.nextId
  {
  }

  lemma {:induction false} ActAllForward(body: seq<Action>, d: Durable, id: nat)
    requires id < d.nextId
    ensures Forward(d, ActAllDetached(body, d).0, id) && d.nextId <= ActAllDetached(body, d).0.nextId
  {
    if body != [] {
      ActForward(body[0], d, id);
      if ActDetached(body[0], d).1 == Returned {
        ActAllForward(body[1..], ActDetached(body[0], d).0, id);
      }
    }
  }

  lemma CallForward(callback: Callback, d: Durable, id: nat)
    requires id < d.nextId
    ensures Forward(d, CallDetached(callback, d), id) && d.nextId <= CallDetached(callback, d).nextId
    ensures callback == Dispatch(id) && Deliverable(d, id) ==> IsHandled(CallDetached(callback, d), id)
  {
    if callback.User? {
      ActAllForward(callback.body, d, id);
    }
  }

  lemma {:induction false} DrainForward(
    indices: seq<nat>, phase: Phase, status: Status, hooks: seq<Hook>, d: Durable, id: nat)
    requires forall i | 0 <= i < |indices| :: indices[i] < |hooks|
    requires id < d.nextId
    ensures var e := DrainDetached(indices, phase, status, hooks, d);
            && Forward(d, e, id) && d.nextId <= e.nextId
            && (Deliverable(d, id) && (exists i | 0 <= i < |indices| :: hooks[indices[i]].callback == Dispatch(id))
                ==> IsHandled(e, id))
  {
    if indices != [] {
      var noted := d.(trace := d.trace + [AfterEvent(phase, indices[0], status)]);
      CallForward(hooks[indices[0]].callback, noted, id);
      DrainForward(indices[1..], phase, status, hooks, CallDetached(hooks[indices[0]].callback, noted), id);
      hide CallDetached, AfterEvent;
      if i :| 0 <= i < |indices| && hooks[indices[i]].callback == Dispatch(id) {
        assert i > 0 ==> indices[1..][i - 1] == indices[i];
      }
    }
  }

  /**
   The other half of NoHandlerForUndoneWork: a transaction that reports success
   has handed every publication drafted in it and not undone to its handler.
   */
  lemma CommittedIsHandled(definition: Definition, faults: Faults, body: Program, d: Durable, id: nat)
    requires Ledger(d) && !faults.begin && d.nextId <= id
    requires StatusOf(AttemptOf(definition, body, d), faults) == Committed
    requires Drawn(AttemptOf(definition, body, d).s.rows, id)
    ensures IsHandled(NewTransaction(definition, faults, body, d).0, id)
  {
    var a := AttemptOf(definition, body, d);
    AttemptExtends(definition, body, d);
    hide AttemptOf, DrainDetached;
    var settled := SettledAs(a, faults, d.rows);
    var indices := Ordered(a.s.hooks, AfterCommit);
    DispatchIsOrdered(a.s.hooks, id);
    DrainForward(indices, AfterCommit, Committed, a.s.hooks, settled, id);
    var committed := DrainDetached(indices, AfterCommit, Committed, a.s.hooks, settled);
    DrainForward(Ordered(a.s.hooks, AfterCompletion), AfterCompletion, Committed, a.s.hooks, committed, id);
  }

  lemma DispatchIsOrdered(hooks: seq<Hook>, id: nat)
    requires Dispatched(hooks, id)
    ensures var indices := Ordered(hooks, AfterCommit);
            exists i | 0 <= i < |indices| :: hooks[indices[i]].callback == Dispatch(id)
  {
    var k :| 0 <= k < |hooks| && hooks[k].phase == AfterCommit && hooks[k].callback == Dispatch(id);
    OrderedUpToMembers(hooks, AfterCommit, |hooks|, k);
    assert k in Ordered(hooks, AfterCommit);
  }

  // ---------------------------------------------------------------- what decides

  /** A unit marked at any point of its work is rolled back, whatever the work does next or swallows. */
  lemma DoomedUnitNeverCommits(definition: Definition, faults: Faults, first: Program, second: Program, d: Durable)
    requires Ledger(d) && !faults.begin
    requires Worked(definition, first, d).0.doomed
    ensures var a := AttemptOf(definition, Then(first, second), d);
            && StatusOf(a, faults) == RolledBack
            && SettledAs(a, faults, d.rows).rows == d.rows
            && NewTransaction(definition, faults, Then(first, second), d).1 != Returned
  {
    var options := Options(definition.isolation, definition.readOnly);
    var r := Worked(definition, first, d);
    InsideExtends(first, options, Open(d));
    if r.1 == Returned {
      InsideExtends(second, options, r.0);
    }
    assert Worked(definition, Then(first, second), d).0.doomed;
    AttemptPhases(definition, Then(first, second), d);
    hide AttemptOf, Worked, Vetoed, DrainPhase, AfterPhases;
  }

  /** A fatal error of a joined Run dooms the unit, also from within a nested step that is then undone. */
  lemma FatalJoinDoomsThroughNested(
    outer: Definition, faults: Faults, inner: Definition, innerFaults: Faults, body: Program, options: Options,
    s: Snapshot)
    requires Below(s) && CanJoin(outer, options) && CanJoin(inner, options)
    requires outer.timeout >= 0 && inner.timeout >= 0 && !faults.savepoint
    requires outer.propagation == Nested && inner.propagation in {Required, Supports, Mandatory}
    requires DrainPhase(OnSavepoint, s).1 == Returned
    requires Fatal(inner, Inside(body, options, DrainPhase(OnSavepoint, s).0).1)
    ensures Inside(Run(outer, faults, Run(inner, innerFaults, body)), options, s).0.doomed
    ensures Inside(Run(outer, faults, Swallow(Run(inner, innerFaults, body))), options, s).0.doomed
  {
    var entered := DrainPhase(OnSavepoint, s).0;
    var r := Inside(Run(inner, innerFaults, body), options, entered);
    assert r.0.doomed;
    DrainPhaseExtends(OnSavepoint, s);
    InsideExtends(Run(inner, innerFaults, body), options, entered);
    ExtendsTransitive(s, entered, r.0);
    hide DrainPhase, Below;
    if Fatal(outer, r.1) {
      UndoKeepsMark(s.rows, faults.rollbackTo, r.1.error, r.0);
    }
  }

  lemma UndoKeepsMark(rows: Rows, fails: bool, error: Error, t: Snapshot)
    requires Below(t)
    ensures t.doomed ==> Undo(rows, fails, error, t).0.doomed
  {
    DrainPhaseExtends(OnSavepointRollback, t);
  }

  /**
   A failed nested step discards exactly its own writes: the rows it started
   from are back and the outer unit may go on, unless the rollback to the
   savepoint itself failed, which dooms the unit.
   */
  lemma NestedFailureIsContained(definition: Definition, faults: Faults, body: Program, options: Options, s: Snapshot)
    requires Below(s) && definition.propagation == Nested
    requires definition.timeout >= 0 && CanJoin(definition, options) && !faults.savepoint
    requires DrainPhase(OnSavepoint, s).1 == Returned
    requires Fatal(definition, Inside(body, options, DrainPhase(OnSavepoint, s).0).1)
    ensures var inner := Inside(body, options, DrainPhase(OnSavepoint, s).0);
            var r := Inside(Run(definition, faults, body), options, s);
            && (r.1.Failed? ==> inner.1.error <= r.1.error)
            && (r.1.Failed? && !faults.rollbackTo ==>
                  && r.0.rows == s.rows
                  && (forall id: nat | Drawn(inner.0.rows, id) && !Drawn(s.rows, id) :: id in r.0.lost))
            && (r.1.Failed? && faults.rollbackTo ==> r.0.doomed && SystemFailure in r.1.error)
  {
    var entered := DrainPhase(OnSavepoint, s).0;
    DrainPhaseExtends(OnSavepoint, s);
    InsideExtends(body, options, entered);
    var inner := Inside(body, options, entered);
    hide Inside;
    var undoing := DrainPhase(OnSavepointRollback, inner.0);
    DrainPhaseExtends(OnSavepointRollback, inner.0);
    hide DrainPhase, Below;
    assert forall id: nat :: Drawn(undoing.0.rows, id) <==> id in PublishedIn(undoing.0.rows);
    assert forall id: nat :: Drawn(s.rows, id) <==> id in PublishedIn(s.rows);
  }

  /**
   When a mark is honoured: of a unit that was marked before its settlement, and
   that nothing else rolls back, exactly those are rolled back that were marked
   when their work returned.
   */
  lemma MarkHonouredExactly(definition: Definition, body: Program, d: Durable)
    requires Ledger(d)
    requires var a := AttemptOf(definition, body, d);
             && a.s.doomed && a.veto == Returned && !a.completion.Panicked?
             && !a.work.Panicked? && !Fatal(definition, a.work)
    ensures AttemptOf(definition, body, d).rollback <==> Worked(definition, body, d).0.doomed
  {
    AttemptPhases(definition, body, d);
    assert AttemptOf(definition, body, d).work == Worked(definition, body, d).1;
    hide AttemptOf, Worked, Vetoed;
  }

  /**
   Whether a unit is rolled back is decided by its work, the before-commit phase
   and panics alone. A mark made inside a before-commit or before-completion
   callback comes too late: this unit is marked, and commits.
   */
  lemma LateMarkIsNotHonoured(phase: Phase, d: Durable)
    requires phase == BeforeCommit || phase == BeforeCompletion
    ensures var body := Do(Register(phase, 0, [MarkRollbackOnly]));
            var plain := Definition(Required, 0, false, 0, [], []);
            var a := AttemptOf(plain, body, d);
            a.s.doomed && !a.rollback
  {
    var body := Do(Register(phase, 0, [MarkRollbackOnly]));
    var hooks := [Hook(phase, 0, User([MarkRollbackOnly]))];
    var s := Open(d).(hooks := hooks);
    assert Open(d).hooks + hooks == hooks;
    assert Inside(body, Options(0, false), Open(d)) == (s, Returned);
    DrainMark(phase, s);
    var marked := s.(doomed := true, trace := s.trace + [Ran(phase, 0)]);
    DrainOther(phase, if phase == BeforeCommit then BeforeCompletion else BeforeCommit,
               if phase == BeforeCommit then marked else s);
    hide Inside, DrainPhase;
  }

  lemma DrainMark(phase: Phase, s: Snapshot)
    requires s.hooks == [Hook(phase, 0, User([MarkRollbackOnly]))]
    ensures DrainPhase(phase, s) == (s.(doomed := true, trace := s.trace + [Ran(phase, 0)]), Returned)
  {
    var noted := s.(trace := s.trace + [Ran(phase, 0)]);
    assert ActAll([MarkRollbackOnly], noted) == (noted.(doomed := true), Returned);
    assert OrderedUpTo(s.hooks, phase, 0) == [];
    assert OrderedUpTo(s.hooks, phase, 1) == [0];
    assert Call(s.hooks[0].callback, noted) == (noted.(doomed := true), Returned);
    assert Drain([0], phase, s) == Drain([0][1..], phase, noted.(doomed := true));
    assert [0][1..] == [] && Drain([], phase, noted.(doomed := true)) == (noted.(doomed := true), Returned);
  }

  lemma DrainOther(phase: Phase, other: Phase, s: Snapshot)
    requires s.hooks == [Hook(phase, 0, User([MarkRollbackOnly]))] && phase != other
    ensures DrainPhase(other, s) == (s, Returned)
  {
    assert OrderedUpTo(s.hooks, other, 0) == [];
    assert OrderedUpTo(s.hooks, other, 1) == [];
  }
}
