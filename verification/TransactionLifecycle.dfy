/**
 The lifecycle of a begun transaction: its callback trace has the documented
 phase shape whatever panics or vetoes occur, it settles exactly once, and what
 settles is decided by the work.
 */
module TransactionLifecycle {
  import opened TransactionModel
  import opened TransactionLaws

  // ---------------------------------------------------------------- traces

  /** The trace without the handlers that after-commit callbacks dispatch. */
  function Calls(t: seq<TraceEvent>): seq<TraceEvent> {
    if t == [] then []
    else Calls(t[..|t| - 1]) + if t[|t| - 1].Handled? then [] else [t[|t| - 1]]
  }

  function Runs(phase: Phase, indices: seq<nat>): seq<TraceEvent> {
    seq(|indices|, i requires 0 <= i < |indices| => Ran(phase, indices[i]))
  }

  function AfterRuns(phase: Phase, status: Status, indices: seq<nat>): seq<TraceEvent> {
    seq(|indices|, i requires 0 <= i < |indices| => AfterEvent(phase, indices[i], status))
  }

  lemma CallsOfStep(t: seq<TraceEvent>, e: TraceEvent)
    ensures Calls(t + [e]) == Calls(t) + if e.Handled? then [] else [e]
  {
    assert (t + [e])[..|t + [e]| - 1] == t;
  }

  lemma {:induction false} CallsOfQuiet(t: seq<TraceEvent>, u: seq<TraceEvent>)
    requires forall i | 0 <= i < |u| :: !u[i].Handled?
    ensures Calls(t + u) == Calls(t) + u
  {
    if u == [] {
      assert t + u == t;
    } else {
      var last := |u| - 1;
      CallsOfQuiet(t, u[..last]);
      assert t + u == (t + u[..last]) + [u[last]];
      CallsOfStep(t + u[..last], u[last]);
    }
  }

  // ---------------------------------------------------------------- guarded phases

  /** How many callbacks of a guarded phase run before one stops it. */
  function Reached(indices: seq<nat>, phase: Phase, s: Snapshot): (n: nat)
    requires forall i | 0 <= i < |indices| :: indices[i] < |s.hooks|
    ensures n <= |indices|
  {
    if indices == [] then 0
    else
      var r := Call(s.hooks[indices[0]].callback, s.(trace := s.trace + [Ran(phase, indices[0])]));
      if r.1.Panicked? || (r.1.Failed? && phase == BeforeCommit) then 1
      else 1 + Reached(indices[1..], phase, r.0)
  }

  lemma CallIsQuiet(callback: Callback, s: Snapshot)
    requires Below(s)
    ensures Call(callback, s).0.trace == s.trace && Below(Call(callback, s).0)
  {
    if callback.User? {
      ActAllExtends(callback.body, s);
    }
  }

  lemma RunsFirst(phase: Phase, indices: seq<nat>, n: nat)
    requires n < |indices|
    ensures Runs(phase, indices[..n + 1]) == [Ran(phase, indices[0])] + Runs(phase, indices[1..][..n])
  {
  }

  /** A guarded phase runs its callbacks in order, all of them unless one stops it. */
  lemma {:induction false} DrainTrace(indices: seq<nat>, phase: Phase, s: Snapshot)
    requires Below(s) && forall i | 0 <= i < |indices| :: indices[i] < |s.hooks|
    ensures Drain(indices, phase, s).0.trace == s.trace + Runs(phase, indices[..Reached(indices, phase, s)])
    ensures Drain(indices, phase, s).1 == Returned ==> Reached(indices, phase, s) == |indices|
  {
    if indices != [] {
      var noted := s.(trace := s.trace + [Ran(phase, indices[0])]);
      var r := Call(s.hooks[indices[0]].callback, noted);
      CallIsQuiet(s.hooks[indices[0]].callback, noted);
      if r.1.Panicked? || (r.1.Failed? && phase == BeforeCommit) {
        assert Runs(phase, indices[..1]) == [Ran(phase, indices[0])];
      } else {
        DrainTrace(indices[1..], phase, r.0);
        var n := Reached(indices[1..], phase, r.0);
        RunsFirst(phase, indices, n);
        hide Runs, Call;
        Associate(s.trace, Ran(phase, indices[0]), Runs(phase, indices[1..][..n]));
      }
    }
  }

  // ---------------------------------------------------------------- after phases

  lemma {:induction false} HandlersOnly(body: seq<Action>, d: Durable)
    ensures Calls(ActAllDetached(body, d).0.trace) == Calls(d.trace)
  {
    if body != [] {
      var r := ActDetached(body[0], d);
      if body[0].Publish? {
        HandleCalls(d.(rows := d.rows[Publication(d.nextId) := PUBLISHED], nextId := d.nextId + 1), d.nextId);
      }
      if r.1 == Returned {
        HandlersOnly(body[1..], r.0);
      }
    }
  }

  lemma HandleCalls(d: Durable, id: nat)
    ensures Calls(Handle(d, id).trace) == Calls(d.trace)
  {
    CallsOfStep(d.trace, Handled(id));
  }

  lemma CallDetachedCalls(callback: Callback, d: Durable)
    ensures Calls(CallDetached(callback, d).trace) == Calls(d.trace)
  {
    match callback {
      case User(body) => HandlersOnly(body, d);
      case Dispatch(id) => HandleCalls(d, id);
    }
  }

  lemma AfterRunsFirst(phase: Phase, status: Status, indices: seq<nat>)
    requires indices != []
    ensures AfterRuns(phase, status, indices)
         == [AfterEvent(phase, indices[0], status)] + AfterRuns(phase, status, indices[1..])
  {
  }

  /** An after phase runs every callback once, in order, whatever any of them does. */
  lemma {:induction false} DrainDetachedTrace(
    indices: seq<nat>, phase: Phase, status: Status, hooks: seq<Hook>, d: Durable)
    requires forall i | 0 <= i < |indices| :: indices[i] < |hooks|
    ensures Calls(DrainDetached(indices, phase, status, hooks, d).trace)
         == Calls(d.trace) + AfterRuns(phase, status, indices)
  {
    if indices != [] {
      var event := AfterEvent(phase, indices[0], status);
      var noted := d.(trace := d.trace + [event]);
      CallsOfStep(d.trace, event);
      var called := CallDetached(hooks[indices[0]].callback, noted);
      CallDetachedCalls(hooks[indices[0]].callback, noted);
      DrainDetachedTrace(indices[1..], phase, status, hooks, called);
      AfterRunsFirst(phase, status, indices);
      hide Calls, AfterRuns, CallDetached, AfterEvent;
      assert DrainDetached(indices, phase, status, hooks, d)
          == DrainDetached(indices[1..], phase, status, hooks, called);
      Associate(Calls(d.trace), event, AfterRuns(phase, status, indices[1..]));
    }
  }

  lemma Associate(t: seq<TraceEvent>, e: TraceEvent, u: seq<TraceEvent>)
    ensures (t + [e]) + u == t + ([e] + u)
  {
  }

  // ---------------------------------------------------------------- the whole lifecycle

  /** The hooks each guarded phase starts from. */
  function Worked(definition: Definition, body: Program, d: Durable): (Snapshot, Outcome) {
    Inside(body, Options(definition.isolation, definition.readOnly), Open(d))
  }

  predicate Doomed(definition: Definition, worked: (Snapshot, Outcome)) {
    worked.1.Panicked? || worked.0.doomed || Fatal(definition, worked.1)
  }

  function Vetoed(definition: Definition, body: Program, d: Durable): Snapshot {
    var worked := Worked(definition, body, d);
    if Doomed(definition, worked) then worked.0 else DrainPhase(BeforeCommit, worked.0).0
  }

  lemma GuardedPhases(definition: Definition, body: Program, d: Durable) returns (b: nat, c: nat)
    requires Ledger(d)
    ensures var a, worked, vetoed :=
              AttemptOf(definition, body, d), Worked(definition, body, d), Vetoed(definition, body, d);
            && b <= |Ordered(worked.0.hooks, BeforeCommit)| && c <= |Ordered(vetoed.hooks, BeforeCompletion)|
            && a.s.trace == worked.0.trace + Runs(BeforeCommit, Ordered(worked.0.hooks, BeforeCommit)[..b])
                          + Runs(BeforeCompletion, Ordered(vetoed.hooks, BeforeCompletion)[..c])
            && (Doomed(definition, worked) ==> b == 0)
            && (!Doomed(definition, worked) && a.veto == Returned ==> b == |Ordered(worked.0.hooks, BeforeCommit)|)
            && (a.completion == Returned ==> c == |Ordered(vetoed.hooks, BeforeCompletion)|)
  {
    var worked, vetoed := Worked(definition, body, d), Vetoed(definition, body, d);
    PhasesStayBelow(definition, body, d);
    AttemptPhases(definition, body, d);
    hide Inside, Ordered, Runs, Drain, Below, Ledger, AttemptOf, Doomed, Worked, Reached;
    b := 0;
    if !Doomed(definition, worked) {
      DrainTrace(Ordered(worked.0.hooks, BeforeCommit), BeforeCommit, worked.0);
      b := Reached(Ordered(worked.0.hooks, BeforeCommit), BeforeCommit, worked.0);
    }
    DrainTrace(Ordered(vetoed.hooks, BeforeCompletion), BeforeCompletion, vetoed);
    c := Reached(Ordered(vetoed.hooks, BeforeCompletion), BeforeCompletion, vetoed);
  }

  lemma PhasesStayBelow(definition: Definition, body: Program, d: Durable)
    requires Ledger(d)
    ensures Below(Worked(definition, body, d).0) && Below(Vetoed(definition, body, d))
  {
    InsideExtends(body, Options(definition.isolation, definition.readOnly), Open(d));
    DrainPhaseExtends(BeforeCommit, Worked(definition, body, d).0);
  }

  /**
   The rollback decision: the work doomed the unit, a before-commit callback
   vetoed or panicked, or a before-completion callback panicked. Nothing else.
   */
  lemma AttemptPhases(definition: Definition, body: Program, d: Durable)
    ensures var a, worked, vetoed :=
              AttemptOf(definition, body, d), Worked(definition, body, d), Vetoed(definition, body, d);
            && a.s == DrainPhase(BeforeCompletion, vetoed).0
            && a.completion == DrainPhase(BeforeCompletion, vetoed).1
            && (!Doomed(definition, worked) ==> a.veto == DrainPhase(BeforeCommit, worked.0).1)
            && (a.rollback <==> Doomed(definition, worked) || a.veto != Returned || a.completion.Panicked?)
  {
    hide DrainPhase, Inside;
  }

  /** From Began to the settlement. */
  function During(w: seq<TraceEvent>, vetoers: seq<nat>, completers: seq<nat>, status: Status): seq<TraceEvent> {
    [Began] + w + Runs(BeforeCommit, vetoers) + Runs(BeforeCompletion, completers) + [Settled(status)]
  }

  /** From the settlement to the last callback. */
  function After(status: Status, hooks: seq<Hook>): seq<TraceEvent> {
    (if status == Committed then AfterRuns(AfterCommit, status, Ordered(hooks, AfterCommit)) else [])
    + AfterRuns(AfterCompletion, status, Ordered(hooks, AfterCompletion))
  }

  lemma SettledTrace(definition: Definition, faults: Faults, body: Program, d: Durable)
    returns (w: seq<TraceEvent>, b: nat, c: nat)
    requires Ledger(d)
    ensures var a, worked, vetoed :=
              AttemptOf(definition, body, d), Worked(definition, body, d), Vetoed(definition, body, d);
            && b <= |Ordered(worked.0.hooks, BeforeCommit)| && c <= |Ordered(vetoed.hooks, BeforeCompletion)|
            && SettledAs(a, faults, d.rows).trace
               == d.trace + During(w, Ordered(worked.0.hooks, BeforeCommit)[..b],
                                   Ordered(vetoed.hooks, BeforeCompletion)[..c], StatusOf(a, faults))
            && (Doomed(definition, worked) ==> b == 0)
            && (!Doomed(definition, worked) && a.veto == Returned ==> b == |Ordered(worked.0.hooks, BeforeCommit)|)
            && (a.completion == Returned ==> c == |Ordered(vetoed.hooks, BeforeCompletion)|)
    ensures forall i | 0 <= i < |w| :: w[i].Ran? && w[i].phase in SAVEPOINTS
  {
    b, c := GuardedPhases(definition, body, d);
    w := WorkTrace(definition, body, d);
    hide Runs, Ordered, AttemptOf, Vetoed, Worked, Doomed;
    Framed(d.trace, w, Runs(BeforeCommit, Ordered(Worked(definition, body, d).0.hooks, BeforeCommit)[..b]),
           Runs(BeforeCompletion, Ordered(Vetoed(definition, body, d).hooks, BeforeCompletion)[..c]),
           Settled(StatusOf(AttemptOf(definition, body, d), faults)));
  }

  lemma WorkTrace(definition: Definition, body: Program, d: Durable) returns (w: seq<TraceEvent>)
    requires Ledger(d)
    ensures Worked(definition, body, d).0.trace == d.trace + [Began] + w
    ensures forall i | 0 <= i < |w| :: w[i].Ran? && w[i].phase in SAVEPOINTS
  {
    InsideExtends(body, Options(definition.isolation, definition.readOnly), Open(d));
    hide Inside, Extends;
    var t := Worked(definition, body, d).0.trace;
    w := t[|d.trace| + 1..];
    forall i | 0 <= i < |w| ensures w[i].Ran? && w[i].phase in SAVEPOINTS {
      assert w[i] == t[|d.trace| + 1 + i];
    }
    assert t[..|d.trace| + 1] == d.trace + [Began];
  }

  lemma Framed(
    t: seq<TraceEvent>, w: seq<TraceEvent>, u: seq<TraceEvent>, v: seq<TraceEvent>, e: TraceEvent)
    ensures t + [Began] + w + u + v + [e] == t + ([Began] + w + u + v + [e])
  {
  }

  lemma OutcomeTellsStatus(definition: Definition, faults: Faults, body: Program, d: Durable)
    requires !faults.begin
    ensures var status, outcome :=
              StatusOf(AttemptOf(definition, body, d), faults), NewTransaction(definition, faults, body, d).1;
            && (outcome == Returned ==> status == Committed)
            && (outcome.Panicked? ==> status == RolledBack)
  {
    hide AfterPhases, SettledAs;
  }

  /**
   The documented phases, whatever panics or vetoes occur: savepoint callbacks
   during the work, then before-commit and before-completion up to the first that
   stops its phase, one settlement, after-commit callbacks all once exactly when
   the commit succeeded, and after-completion callbacks all once with the true
   status. A nil result implies committed; a panic implies rolled back.
   */
  lemma Lifecycle(definition: Definition, faults: Faults, body: Program, d: Durable)
    returns (w: seq<TraceEvent>, b: nat, c: nat)
    requires Ledger(d) && !faults.begin
    ensures var a, worked, vetoed :=
              AttemptOf(definition, body, d), Worked(definition, body, d), Vetoed(definition, body, d);
            var r, status := NewTransaction(definition, faults, body, d), StatusOf(a, faults);
            && b <= |Ordered(worked.0.hooks, BeforeCommit)| && c <= |Ordered(vetoed.hooks, BeforeCompletion)|
            && Calls(r.0.trace)
               == Calls(d.trace) + During(w, Ordered(worked.0.hooks, BeforeCommit)[..b],
                                          Ordered(vetoed.hooks, BeforeCompletion)[..c], status)
                                 + After(status, a.s.hooks)
            && (Doomed(definition, worked) ==> b == 0)
            && (!Doomed(definition, worked) && a.veto == Returned ==> b == |Ordered(worked.0.hooks, BeforeCommit)|)
            && (a.completion == Returned ==> c == |Ordered(vetoed.hooks, BeforeCompletion)|)
            && (r.1 == Returned ==> status == Committed)
            && (r.1.Panicked? ==> status == RolledBack)
    ensures forall i | 0 <= i < |w| :: w[i].Ran? && w[i].phase in SAVEPOINTS
  {
    w, b, c := SettledTrace(definition, faults, body, d);
    OutcomeTellsStatus(definition, faults, body, d);
    var a := AttemptOf(definition, body, d);
    var settled := SettledAs(a, faults, d.rows);
    AfterPhasesTrace(StatusOf(a, faults), a.s.hooks, settled);
    QuietDuring(d.trace, w, Ordered(Worked(definition, body, d).0.hooks, BeforeCommit)[..b],
                Ordered(Vetoed(definition, body, d).hooks, BeforeCompletion)[..c], StatusOf(a, faults));
    hide AttemptOf, SettledAs, Ordered, During, After, AfterPhases, Calls, Vetoed, Worked;
  }

  lemma QuietDuring(t: seq<TraceEvent>, w: seq<TraceEvent>, vetoers: seq<nat>, completers: seq<nat>, status: Status)
    requires forall i | 0 <= i < |w| :: w[i].Ran?
    ensures Calls(t + During(w, vetoers, completers, status)) == Calls(t) + During(w, vetoers, completers, status)
  {
    CallsOfQuiet(t, During(w, vetoers, completers, status));
  }

  lemma AfterPhasesTrace(status: Status, hooks: seq<Hook>, d: Durable)
    ensures Calls(AfterPhases(status, hooks, d).trace) == Calls(d.trace) + After(status, hooks)
  {
    var committed :=
      if status == Committed
      then DrainDetached(Ordered(hooks, AfterCommit), AfterCommit, status, hooks, d) else d;
    DrainDetachedTrace(Ordered(hooks, AfterCommit), AfterCommit, status, hooks, d);
    DrainDetachedTrace(Ordered(hooks, AfterCompletion), AfterCompletion, status, hooks, committed);
  }
}
