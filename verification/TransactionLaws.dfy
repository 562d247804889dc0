/**
 What every program of nested Runs keeps: identifiers drawn inside a unit of work
 are either still in its rows or lost for good, marks are never taken back, and
 each begun transaction settles exactly once with its callbacks in order.
 */
module TransactionLaws {
  import opened TransactionModel

  // ---------------------------------------------------------------- one unit of work

  const SAVEPOINTS := {OnSavepoint, OnSavepointRollback}

  predicate Drawn(rows: Rows, id: nat) {
    Publication(id) in rows
  }

  ghost predicate Dispatched(hooks: seq<Hook>, id: nat) {
    exists i | 0 <= i < |hooks| :: hooks[i].phase == AfterCommit && hooks[i].callback == Dispatch(id)
  }

  ghost predicate Below(s: Snapshot) {
    && (forall id: nat | Drawn(s.rows, id) :: id < s.nextId)
    && (forall id: nat | id in s.lost :: id < s.nextId)
  }

  /** From one state of an open unit to a later one. */
  ghost predicate Extends(s: Snapshot, t: Snapshot) {
    && s.hooks <= t.hooks && s.nextId <= t.nextId && (s.doomed ==> t.doomed)
    && (forall id: nat | Drawn(s.rows, id) :: Drawn(t.rows, id) && t.rows[Publication(id)] == s.rows[Publication(id)])
    && (forall id: nat | Drawn(t.rows, id) && !Drawn(s.rows, id) ::
          s.nextId <= id < t.nextId && t.rows[Publication(id)] == PUBLISHED && Dispatched(t.hooks, id))
    && (forall id: nat | id in s.lost :: id in t.lost)
    && (forall id: nat | id in t.lost && id !in s.lost :: s.nextId <= id < t.nextId)
    && (forall id: nat | s.nextId <= id < t.nextId :: Drawn(t.rows, id) <==> id !in t.lost)
    && Below(t)
  }

  /** Only callbacks of these phases ran in between. */
  ghost predicate Quiet(s: Snapshot, t: Snapshot, phases: set<Phase>) {
    && s.trace <= t.trace
    && forall i | |s.trace| <= i < |t.trace| :: t.trace[i].Ran? && t.trace[i].phase in phases
  }

  lemma DispatchedStays(hooks: seq<Hook>, more: seq<Hook>, id: nat)
    requires hooks <= more && Dispatched(hooks, id)
    ensures Dispatched(more, id)
  {
    var i :| 0 <= i < |hooks| && hooks[i].phase == AfterCommit && hooks[i].callback == Dispatch(id);
    assert more[i] == hooks[i];
  }

  lemma ExtendsTransitive(s: Snapshot, t: Snapshot, u: Snapshot)
    requires Extends(s, t) && Extends(t, u)
    ensures Extends(s, u)
  {
    forall id: nat | Drawn(u.rows, id) && !Drawn(s.rows, id)
      ensures s.nextId <= id < u.nextId && u.rows[Publication(id)] == PUBLISHED && Dispatched(u.hooks, id)
    {
      if Drawn(t.rows, id) {
        DispatchedStays(t.hooks, u.hooks, id);
      }
    }
  }

  lemma ActExtends(action: Action, s: Snapshot)
    requires Below(s)
    ensures Extends(s, Act(action, s).0) && Act(action, s).0.trace == s.trace
  {
    var t := Act(action, s).0;
    if action.Publish? {
      assert t.hooks[|s.hooks|] == Hook(AfterCommit, 0, Dispatch(s.nextId));
      assert Dispatched(t.hooks, s.nextId);
    }
  }

  lemma {:induction false} ActAllExtends(body: seq<Action>, s: Snapshot)
    requires Below(s)
    ensures Extends(s, ActAll(body, s).0) && ActAll(body, s).0.trace == s.trace
  {
    if body != [] {
      var r := Act(body[0], s);
      ActExtends(body[0], s);
      if r.1 == Returned {
        ActAllExtends(body[1..], r.0);
        ExtendsTransitive(s, r.0, ActAll(body[1..], r.0).0);
      }
    }
  }

  lemma {:induction false} DrainExtends(indices: seq<nat>, phase: Phase, s: Snapshot)
    requires Below(s) && phase != AfterCommit
    requires forall i | 0 <= i < |indices| :: indices[i] < |s.hooks|
    ensures Extends(s, Drain(indices, phase, s).0) && Quiet(s, Drain(indices, phase, s).0, {phase})
  {
    if indices != [] {
      var noted := s.(trace := s.trace + [Ran(phase, indices[0])]);
      var callback := s.hooks[indices[0]].callback;
      if callback.User? {
        ActAllExtends(callback.body, noted);
      }
      var r := Call(callback, noted);
      assert Extends(s, r.0) && Quiet(s, r.0, {phase});
      if !(r.1.Panicked? || (r.1.Failed? && phase == BeforeCommit)) {
        DrainExtends(indices[1..], phase, r.0);
        ExtendsTransitive(s, r.0, Drain(indices[1..], phase, r.0).0);
      }
    }
  }

  lemma DrainPhaseExtends(phase: Phase, s: Snapshot)
    requires Below(s) && phase != AfterCommit
    ensures Extends(s, DrainPhase(phase, s).0) && Quiet(s, DrainPhase(phase, s).0, {phase})
  {
    DrainExtends(Ordered(s.hooks, phase), phase, s);
  }

  lemma RestoreExtends(s: Snapshot, t: Snapshot)
    requires Below(s) && Extends(s, t)
    ensures Extends(s, Restore(t, s.rows))
  {
    var r := Restore(t, s.rows);
    forall id: nat ensures id in r.lost <==> id in t.lost || (Drawn(t.rows, id) && !Drawn(s.rows, id)) {
      assert Drawn(t.rows, id) <==> id in PublishedIn(t.rows);
      assert Drawn(s.rows, id) <==> id in PublishedIn(s.rows);
    }
  }

  /** Undoing a nested step goes back to its rows and keeps its marks, hooks and drawn identifiers. */
  lemma UndoExtends(s: Snapshot, fails: bool, error: Error, t: Snapshot)
    requires Below(s) && Extends(s, t) && Quiet(s, t, SAVEPOINTS)
    ensures Extends(s, Undo(s.rows, fails, error, t).0) && Quiet(s, Undo(s.rows, fails, error, t).0, SAVEPOINTS)
  {
    var undoing := DrainPhase(OnSavepointRollback, t);
    DrainPhaseExtends(OnSavepointRollback, t);
    ExtendsTransitive(s, t, undoing.0);
    if !undoing.1.Panicked? && !fails {
      RestoreExtends(s, undoing.0);
    }
  }

  /**
   Whatever a program does inside a unit of work: marks and hooks are never taken
   back, and every identifier drawn since is in the rows or lost, never both.
   */
  lemma {:induction false} InsideExtends(p: Program, options: Options, s: Snapshot)
    requires Below(s)
    ensures Extends(s, Inside(p, options, s).0) && Quiet(s, Inside(p, options, s).0, SAVEPOINTS)
    decreases p, 0
  {
    match p {
      case Do(action) =>
        ActExtends(action, s);
      case Then(first, second) =>
        InsideExtends(first, options, s);
        var r := Inside(first, options, s);
        if r.1 == Returned {
          InsideExtends(second, options, r.0);
          ExtendsTransitive(s, r.0, Inside(second, options, r.0).0);
        }
      case Swallow(body) =>
        InsideExtends(body, options, s);
      case Run(definition, faults, body) =>
        InsideExtends(body, options, s);
        if definition.propagation == Nested {
          NestedExtends(definition, faults, body, options, s);
        }
    }
  }

  lemma {:induction false} NestedExtends(
    definition: Definition, faults: Faults, body: Program, options: Options, s: Snapshot)
    requires Below(s) && definition.propagation == Nested
    ensures Extends(s, Inside(Run(definition, faults, body), options, s).0)
    ensures Quiet(s, Inside(Run(definition, faults, body), options, s).0, SAVEPOINTS)
    decreases body, 1
  {
    hide DrainPhase, Undo, Below;
    var entered := DrainPhase(OnSavepoint, s);
    DrainPhaseExtends(OnSavepoint, s);
    if !entered.1.Panicked? {
      InsideExtends(body, options, entered.0);
      var r := Inside(body, options, entered.0);
      ExtendsTransitive(s, entered.0, r.0);
      if Fatal(definition, r.1) {
        UndoExtends(s, faults.rollbackTo, r.1.error, r.0);
      }
    }
  }

  // ---------------------------------------------------------------- the whole process

  /**
   The books of the process: every identifier drawn is in the database or lost,
   never both; the handler ran at most once for each, and only for committed rows.
   */
  ghost predicate Ledger(d: Durable) {
    && (forall id: nat | Drawn(d.rows, id) :: id < d.nextId && id !in d.lost)
    && (forall id: nat | id in d.lost :: id < d.nextId)
    && (forall i | 0 <= i < |d.trace| && d.trace[i].Handled? ::
          Drawn(d.rows, d.trace[i].id) && d.rows[Publication(d.trace[i].id)] == HANDLED)
    && (forall i, j | 0 <= i < j < |d.trace| && d.trace[i].Handled? :: d.trace[i] != d.trace[j])
  }

  /** From one state of the process to a later one: no publication changes side. */
  ghost predicate Later(d: Durable, e: Durable) {
    && d.nextId <= e.nextId && d.trace <= e.trace
    && (forall id: nat | id < d.nextId ::
          (Drawn(d.rows, id) <==> Drawn(e.rows, id)) && (id in d.lost <==> id in e.lost))
    && (forall id: nat | d.nextId <= id < e.nextId :: Drawn(e.rows, id) <==> id !in e.lost)
    && (forall id: nat | Drawn(d.rows, id) && d.rows[Publication(id)] == HANDLED ::
          Drawn(e.rows, id) && e.rows[Publication(id)] == HANDLED)
  }

  lemma HandleKeepsLedger(d: Durable, id: nat)
    requires Ledger(d)
    ensures Ledger(Handle(d, id)) && Later(d, Handle(d, id))
  {
  }

  lemma DrawnAfter(rows: Rows, key: Key, value: int)
    ensures forall id: nat :: Drawn(rows[key := value], id) <==> Drawn(rows, id) || key == Publication(id)
    ensures forall id: nat | Drawn(rows, id) && key != Publication(id) ::
              rows[key := value][Publication(id)] == rows[Publication(id)]
  {
  }

  lemma PutKeepsLedger(d: Durable, name: string, value: int)
    requires Ledger(d)
    ensures var e := d.(rows := d.rows[Data(name) := value]); Ledger(e) && Later(d, e)
  {
    DrawnAfter(d.rows, Data(name), value);
    var e := d.(rows := d.rows[Data(name) := value]);
    forall id: nat ensures (Drawn(d.rows, id) <==> Drawn(e.rows, id))
                        && (Drawn(d.rows, id) ==> e.rows[Publication(id)] == d.rows[Publication(id)]) {
      assert Data(name) != Publication(id);
    }
  }

  lemma DraftKeepsLedger(d: Durable)
    requires Ledger(d)
    ensures var e := d.(rows := d.rows[Publication(d.nextId) := PUBLISHED], nextId := d.nextId + 1);
            Ledger(e) && Later(d, e)
  {
    DrawnAfter(d.rows, Publication(d.nextId), PUBLISHED);
    assert !Drawn(d.rows, d.nextId) && d.nextId !in d.lost;
    hide Drawn;
  }

  lemma ActDetachedKeepsLedger(action: Action, d: Durable)
    requires Ledger(d)
    ensures Ledger(ActDetached(action, d).0) && Later(d, ActDetached(action, d).0)
  {
    if action.Put? {
      PutKeepsLedger(d, action.name, action.value);
    } else if action.Publish? {
      var drafted := d.(rows := d.rows[Publication(d.nextId) := PUBLISHED], nextId := d.nextId + 1);
      DraftKeepsLedger(d);
      HandleKeepsLedger(drafted, d.nextId);
      hide Ledger, Handle;
      LaterTransitive(d, drafted, Handle(drafted, d.nextId));
    }
  }

  lemma {:induction false} ActAllDetachedKeepsLedger(body: seq<Action>, d: Durable)
    requires Ledger(d)
    ensures Ledger(ActAllDetached(body, d).0) && Later(d, ActAllDetached(body, d).0)
  {
    if body != [] {
      ActDetachedKeepsLedger(body[0], d);
      if ActDetached(body[0], d).1 == Returned {
        ActAllDetachedKeepsLedger(body[1..], ActDetached(body[0], d).0);
      }
    }
  }

  lemma NoteKeepsLedger(d: Durable, e: TraceEvent)
    requires Ledger(d) && !e.Handled?
    ensures Ledger(d.(trace := d.trace + [e])) && Later(d, d.(trace := d.trace + [e]))
  {
  }

  lemma {:induction false} DrainDetachedKeepsLedger(
    indices: seq<nat>, phase: Phase, status: Status, hooks: seq<Hook>, d: Durable)
    requires Ledger(d) && forall i | 0 <= i < |indices| :: indices[i] < |hooks|
    ensures Ledger(DrainDetached(indices, phase, status, hooks, d))
    ensures Later(d, DrainDetached(indices, phase, status, hooks, d))
  {
    if indices != [] {
      var noted := d.(trace := d.trace + [AfterEvent(phase, indices[0], status)]);
      NoteKeepsLedger(d, AfterEvent(phase, indices[0], status));
      var called := CallDetached(hooks[indices[0]].callback, noted);
      match hooks[indices[0]].callback {
        case User(body) => ActAllDetachedKeepsLedger(body, noted);
        case Dispatch(id) => HandleKeepsLedger(noted, id);
      }
      DrainDetachedKeepsLedger(indices[1..], phase, status, hooks, called);
    }
  }

  /** The unit just before its settlement, whichever phases ran. */
  lemma AttemptExtends(definition: Definition, body: Program, d: Durable)
    requires Ledger(d)
    ensures Extends(Open(d), AttemptOf(definition, body, d).s)
    ensures Quiet(Open(d), AttemptOf(definition, body, d).s, SAVEPOINTS + {BeforeCommit, BeforeCompletion})
  {
    var options := Options(definition.isolation, definition.readOnly);
    var worked := Inside(body, options, Open(d));
    InsideExtends(body, options, Open(d));
    DrainPhaseExtends(BeforeCommit, worked.0);
    var vetoed := DrainPhase(BeforeCommit, worked.0).0;
    ExtendsTransitive(Open(d), worked.0, vetoed);
    DrainPhaseExtends(BeforeCompletion, worked.0);
    DrainPhaseExtends(BeforeCompletion, vetoed);
    ExtendsTransitive(Open(d), worked.0, DrainPhase(BeforeCompletion, worked.0).0);
    ExtendsTransitive(Open(d), vetoed, DrainPhase(BeforeCompletion, vetoed).0);
  }

  lemma SettlementKeepsLedger(definition: Definition, faults: Faults, body: Program, d: Durable)
    requires Ledger(d)
    ensures Ledger(SettledAs(AttemptOf(definition, body, d), faults, d.rows))
    ensures Later(d, SettledAs(AttemptOf(definition, body, d), faults, d.rows))
  {
    var a := AttemptOf(definition, body, d);
    AttemptExtends(definition, body, d);
    hide AttemptOf;
    var e := SettledAs(a, faults, d.rows);
    forall id: nat ensures id in e.lost <==>
      id in a.s.lost || ((a.rollback || faults.commit == CommitLost) && Drawn(a.s.rows, id) && !Drawn(d.rows, id))
    {
      assert Drawn(a.s.rows, id) <==> id in PublishedIn(a.s.rows);
      assert Drawn(d.rows, id) <==> id in PublishedIn(d.rows);
    }
    forall i | 0 <= i < |e.trace| && e.trace[i].Handled? ensures i < |d.trace| && e.trace[i] == d.trace[i] {
    }
  }

  lemma LaterTransitive(d: Durable, e: Durable, f: Durable)
    requires Later(d, e) && Later(e, f)
    ensures Later(d, f)
  {
  }

  lemma AfterPhasesKeepLedger(status: Status, hooks: seq<Hook>, d: Durable)
    requires Ledger(d)
    ensures Ledger(AfterPhases(status, hooks, d)) && Later(d, AfterPhases(status, hooks, d))
  {
    var committed :=
      if status == Committed
      then DrainDetached(Ordered(hooks, AfterCommit), AfterCommit, status, hooks, d) else d;
    DrainDetachedKeepsLedger(Ordered(hooks, AfterCommit), AfterCommit, status, hooks, d);
    DrainDetachedKeepsLedger(Ordered(hooks, AfterCompletion), AfterCompletion, status, hooks, committed);
    hide DrainDetached, Ordered, Ledger;
    assert Later(d, committed);
    LaterTransitive(d, committed, AfterPhases(status, hooks, d));
  }

  lemma NewTransactionKeepsLedger(definition: Definition, faults: Faults, body: Program, d: Durable)
    requires Ledger(d)
    ensures Ledger(NewTransaction(definition, faults, body, d).0)
    ensures Later(d, NewTransaction(definition, faults, body, d).0)
  {
    if !faults.begin {
      var a := AttemptOf(definition, body, d);
      var settled := SettledAs(a, faults, d.rows);
      SettlementKeepsLedger(definition, faults, body, d);
      hide AttemptOf, SettledAs, AfterPhases, Ledger, Later;
      AfterPhasesKeepLedger(StatusOf(a, faults), a.s.hooks, settled);
      LaterTransitive(d, settled, NewTransaction(definition, faults, body, d).0);
    }
  }

  lemma {:induction false} OutsideKeepsLedger(p: Program, d: Durable)
    requires Ledger(d)
    ensures Ledger(Outside(p, d).0) && Later(d, Outside(p, d).0)
  {
    hide NewTransaction, ActDetached;
    match p {
      case Do(action) =>
        ActDetachedKeepsLedger(action, d);
      case Then(first, second) =>
        OutsideKeepsLedger(first, d);
        if Outside(first, d).1 == Returned {
          OutsideKeepsLedger(second, Outside(first, d).0);
          LaterTransitive(d, Outside(first, d).0, Outside(p, d).0);
        }
      case Swallow(body) =>
        OutsideKeepsLedger(body, d);
      case Run(definition, faults, body) =>
        if definition.propagation == Required || definition.propagation == Nested {
          NewTransactionKeepsLedger(definition, faults, body, d);
        } else {
          OutsideKeepsLedger(body, d);
        }
    }
  }

  /**
   No handler for undone work: over any program, the handler of an outbox event
   runs only for a publication that is committed, at most once, and never for one
   whose transaction or enclosing savepoint was rolled back, although a nested
   rollback leaves its after-commit callback registered.
   */
  lemma NoHandlerForUndoneWork(p: Program, d: Durable, i: nat)
    requires Ledger(d) && i < |Outside(p, d).0.trace| && Outside(p, d).0.trace[i].Handled?
    ensures Drawn(Outside(p, d).0.rows, Outside(p, d).0.trace[i].id)
    ensures Outside(p, d).0.trace[i].id !in Outside(p, d).0.lost
    ensures forall j | 0 <= j < |Outside(p, d).0.trace| && j != i ::
              Outside(p, d).0.trace[j] != Outside(p, d).0.trace[i]
  {
    OutsideKeepsLedger(p, d);
  }
}
