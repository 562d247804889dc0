/**
 Resubmissions over every run: each generation is left at most once, and what a
 stale observation can and cannot fence.
 */
module OutboxResubmission {
  import opened Wrappers
  import opened OutboxModel
  import opened OutboxProtocol
  import opened OutboxFencing

  ghost predicate Left(log: seq<Resubmission>, id: PublicationId, generation: nat) {
    exists i | 0 <= i < |log| :: log[i].id == id && log[i].generation == generation
  }

  ghost predicate LeftOnce(log: seq<Resubmission>) {
    forall i, j | 0 <= i < j < |log| :: !(log[i].id == log[j].id && log[i].generation == log[j].generation)
  }

  lemma LeftAppend(log: seq<Resubmission>, r: Resubmission, id: PublicationId, generation: nat)
    ensures Left(log + [r], id, generation) <==> Left(log, id, generation) || (r.id == id && r.generation == generation)
  {
    if Left(log, id, generation) {
      var i :| 0 <= i < |log| && log[i].id == id && log[i].generation == generation;
      assert (log + [r])[i] == log[i];
    }
    assert (log + [r])[|log|] == r;
  }

  /** Every earlier generation of the row was left by a resubmission, and no other. */
  ghost predicate RowHistory(w: World, id: PublicationId)
    requires id in w.publications
  {
    forall generation: nat | generation >= 1 ::
      Left(w.resubmissions, id, generation) <==> generation < w.publications[id].attempts
  }

  /** What a resubmitter holds of the row it read. */
  ghost predicate Observation(w: World, task: nat)
    requires task in w.tasks
  {
    var t := w.tasks[task];
    t.stage.Observing? ==>
      && t.id in w.committed && t.generation >= 1 && t.stage.status != Completed && t.stage.seen <= |w.claims|
      && (t.id in w.publications ==> t.generation <= w.publications[t.id].attempts)
      && (Started(t.stage.status) <==> Has(w.claims[..t.stage.seen], t.id, t.generation))
  }

  /** The resubmission fenced an attempt that was claimed after the row was observed. */
  ghost predicate FencesLater(w: World, r: Resubmission) {
    r.was == Processing && r.seen <= |w.claims| && Has(w.claims[r.seen..], r.id, r.generation)
  }

  ghost predicate Verdict(w: World, r: Resubmission) {
    && r.id in w.committed && r.generation >= 1 && r.seen <= |w.claims|
    && (r.id in w.publications ==> r.generation < w.publications[r.id].attempts)
    && (FencesLater(w, r) <==> r.observed == Published && r.was == Processing)
  }

  ghost predicate Resubmissions(w: World) {
    && LeftOnce(w.resubmissions)
    && (forall id | id in w.publications :: RowHistory(w, id))
    && (forall task | task in w.tasks :: Observation(w, task))
    && (forall i | 0 <= i < |w.resubmissions| :: Verdict(w, w.resubmissions[i]))
  }

  // ---------------------------------------------------------------- steps

  /** The log of claims only grows, by a claim of the current generation of a row. */
  lemma ClaimsGrow(mode: CompletionMode, w: World, e: Event, seen: nat, id: PublicationId, generation: nat)
    requires Enabled(mode, w, e) && seen <= |w.claims|
    requires id in w.committed && (id in w.publications ==> generation < w.publications[id].attempts)
    ensures seen <= |Apply(mode, w, e).claims| && Apply(mode, w, e).claims[..seen] == w.claims[..seen]
    ensures Has(Apply(mode, w, e).claims[seen..], id, generation) <==> Has(w.claims[seen..], id, generation)
  {
    var w' := Apply(mode, w, e);
    if e.Claim? && Wins(w, e) {
      HasAppend(w.claims[seen..], EntryOf(w, e.task, true), id, generation);
      assert w'.claims[seen..] == w.claims[seen..] + [EntryOf(w, e.task, true)];
    }
  }

  lemma VerdictStep(mode: CompletionMode, w: World, e: Event, r: Resubmission)
    requires Books(w) && Verdict(w, r) && Enabled(mode, w, e)
    ensures Verdict(Apply(mode, w, e), r)
  {
    ClaimsGrow(mode, w, e, r.seen, r.id, r.generation);
    RowsGrow(mode, w, e, r.id);
    hide Enabled, NextPublications, NextTasks, NextSettlements, NextResubmissions, NextArchive;
  }

  lemma RowsGrow(mode: CompletionMode, w: World, e: Event, id: PublicationId)
    requires Books(w) && Enabled(mode, w, e) && id in w.committed
    ensures id in NextPublications(mode, w, e) ==>
              id in w.publications && w.publications[id].attempts <= NextPublications(mode, w, e)[id].attempts
  {
    hide Unlocked, KeyUnlocked;
  }

  lemma Split(log: seq<Entry>, n: nat, id: PublicationId, generation: nat)
    requires Unique(log) && n <= |log|
    ensures Has(log, id, generation) <==> Has(log[..n], id, generation) || Has(log[n..], id, generation)
    ensures !(Has(log[..n], id, generation) && Has(log[n..], id, generation))
  {
    if i :| 0 <= i < |log| && log[i].id == id && log[i].generation == generation {
      if i < n {
        assert log[..n][i] == log[i];
      } else {
        assert log[n..][i - n] == log[i];
      }
    }
    if Has(log[..n], id, generation) {
      var i :| 0 <= i < n && log[..n][i].id == id && log[..n][i].generation == generation;
      assert log[i] == log[..n][i];
      forall j | 0 <= j < |log[n..]| ensures !(log[n..][j].id == id && log[n..][j].generation == generation) {
        assert log[n..][j] == log[n + j];
      }
    } else if Has(log[n..], id, generation) {
      var j :| 0 <= j < |log[n..]| && log[n..][j].id == id && log[n..][j].generation == generation;
      assert log[n + j] == log[n..][j];
    }
  }

  /** The verdict on a resubmission that takes effect now. */
  lemma NewVerdict(mode: CompletionMode, w: World, e: Event)
    requires Books(w) && Claims(w) && Enabled(mode, w, e) && e.Resubmit? && Wins(w, e) && Observation(w, e.task)
    ensures Verdict(Apply(mode, w, e), NextResubmissions(mode, w, e)[|w.resubmissions|])
  {
    var t := w.tasks[e.task];
    assert RowClaims(w, t.id);
    Split(w.claims, t.stage.seen, t.id, t.generation);
  }

  lemma ObservationStep(mode: CompletionMode, w: World, e: Event, task: nat)
    requires Books(w) && Claims(w) && Enabled(mode, w, e) && task in NextTasks(mode, w, e)
    requires task in w.tasks ==> Observation(w, task)
    ensures Observation(Apply(mode, w, e), task)
  {
    var t := NextTasks(mode, w, e)[task];
    if t.stage.Observing? {
      if e.Observe? && e.task == task {
        assert RowClaims(w, t.id);
        assert w.claims[..|w.claims|] == w.claims;
      } else {
        StillObserving(mode, w, e, task);
        RowsGrow(mode, w, e, t.id);
        hide Enabled, NextPublications, NextTasks, NextSettlements, NextResubmissions, NextArchive, Claims;
        assert Apply(mode, w, e).claims[..t.stage.seen] == w.claims[..t.stage.seen];
      }
    }
  }

  lemma StillObserving(mode: CompletionMode, w: World, e: Event, task: nat)
    requires Enabled(mode, w, e) && task in NextTasks(mode, w, e) && NextTasks(mode, w, e)[task].stage.Observing?
    requires !(e.Observe? && e.task == task)
    ensures task in w.tasks && w.tasks[task] == NextTasks(mode, w, e)[task]
  {
    hide Unlocked, KeyUnlocked;
  }

  lemma RowHistoryStep(mode: CompletionMode, w: World, e: Event, id: PublicationId)
    requires Books(w) && Resubmissions(w) && Enabled(mode, w, e) && id in NextPublications(mode, w, e)
    ensures RowHistory(Apply(mode, w, e), id)
  {
    var w' := Apply(mode, w, e);
    if id !in w.committed {
      forall generation: nat | generation >= 1 ensures !Left(w.resubmissions, id, generation) {
        NeverLeft(w, id, generation);
      }
    } else {
      RowsGrow(mode, w, e, id);
      assert RowHistory(w, id);
    }
    forall generation: nat | generation >= 1
      ensures Left(w'.resubmissions, id, generation) <==> generation < w'.publications[id].attempts
    {
      if e.Resubmit? && Wins(w, e) {
        LeftAppend(w.resubmissions, w'.resubmissions[|w.resubmissions|], id, generation);
      }
    }
  }

  lemma NeverLeft(w: World, id: PublicationId, generation: nat)
    requires Resubmissions(w) && id !in w.committed
    ensures !Left(w.resubmissions, id, generation)
  {
    forall i | 0 <= i < |w.resubmissions| ensures w.resubmissions[i].id != id {
      assert Verdict(w, w.resubmissions[i]);
    }
  }

  lemma LeftOnceStep(mode: CompletionMode, w: World, e: Event)
    requires Books(w) && Resubmissions(w) && Enabled(mode, w, e)
    ensures LeftOnce(NextResubmissions(mode, w, e))
  {
    if e.Resubmit? && Wins(w, e) {
      var t := w.tasks[e.task];
      assert RowHistory(w, t.id) && Observation(w, e.task);
      assert !Left(w.resubmissions, t.id, t.generation);
    }
  }

  lemma ResubmissionsStep(mode: CompletionMode, w: World, e: Event)
    requires Books(w) && Claims(w) && Resubmissions(w) && Enabled(mode, w, e)
    ensures Resubmissions(Apply(mode, w, e))
  {
    var w' := Apply(mode, w, e);
    LeftOnceStep(mode, w, e);
    if e.Resubmit? && Wins(w, e) {
      assert Observation(w, e.task);
      NewVerdict(mode, w, e);
    }
    hide Claims, Books, LeftOnce, RowHistory, Observation, Verdict;
    forall id | id in w'.publications ensures RowHistory(w', id) {
      RowHistoryStep(mode, w, e, id);
    }
    forall task | task in w'.tasks ensures Observation(w', task) {
      ObservationStep(mode, w, e, task);
    }
    forall i | 0 <= i < |w'.resubmissions| ensures Verdict(w', w'.resubmissions[i]) {
      if i < |w.resubmissions| {
        assert w'.resubmissions[i] == w.resubmissions[i];
        VerdictStep(mode, w, e, w.resubmissions[i]);
      }
    }
  }

  lemma {:induction false} ResubmissionsHold(mode: CompletionMode, events: seq<Event>, w: World)
    requires Exec(mode, events) == Some(w)
    ensures Resubmissions(w)
  {
    if events != [] {
      var last := |events| - 1;
      var before := Exec(mode, events[..last]).value;
      ResubmissionsHold(mode, events[..last], before);
      FencingHolds(mode, events[..last], before);
      hide Resubmissions, Books, Claims, Handled, Locks, Settlements;
      ResubmissionsStep(mode, before, events[last]);
    }
  }

  /**
   Over any run: a generation is resubmitted from at most once, and the attempt
   counter counts exactly the resubmissions. A resubmission fences an attempt
   that started after the row was observed exactly when it was observed as
   published and a dispatcher has claimed that same generation since: the status
   and generation it re-checks do not tell the two apart.
   */
  lemma StaleResubmissions(mode: CompletionMode, events: seq<Event>, w: World)
    requires Exec(mode, events) == Some(w)
    ensures LeftOnce(w.resubmissions)
    ensures forall id, generation: nat | id in w.publications && generation >= 1 ::
              Left(w.resubmissions, id, generation) <==> generation < w.publications[id].attempts
    ensures forall r | r in w.resubmissions ::
              FencesLater(w, r) <==> r.observed == Published && r.was == Processing
  {
    ResubmissionsHold(mode, events, w);
    forall id, generation: nat | id in w.publications && generation >= 1
      ensures Left(w.resubmissions, id, generation) <==> generation < w.publications[id].attempts
    {
      assert RowHistory(w, id);
    }
    forall r | r in w.resubmissions ensures FencesLater(w, r) <==> r.observed == Published && r.was == Processing {
      assert Verdict(w, r);
    }
  }

  // ---------------------------------------------------------------- the promise that fails

  const ROW := NewPublication(0, "", 0)

  /** One publication, a resubmitter that reads it, a dispatcher that claims it, and the resubmission after all. */
  const STALE := [
    Draft(0, ROW), Commit(0), Hand(0, 0), Observe(1, 0), Claim(0, 1), Resubmit(1, 2), Deliver(0, true)]

  const CLAIMED := ROW.(status := Processing, lastAttempt := Some(1))
  const FENCED := ROW.(status := Resubmitted, attempts := 2, lastAttempt := Some(2))

  /** The state after the first n events. */
  function StaleState(n: nat): World {
    var watching := Task(0, 1, Observing(Published, 0));
    World(
      if n == 1 then map[0 := ROW] else map[],
      if n == 0 then {} else {0},
      if n <= 1 then {} else {0},
      if n <= 1 then map[]
      else if n <= 4 then map[0 := ROW] else if n == 5 then map[0 := CLAIMED] else map[0 := FENCED],
      map[],
      if n <= 2 then map[]
      else if n == 3 then map[0 := Task(0, 1, Holding)]
      else if n == 4 then map[0 := Task(0, 1, Holding), 1 := watching]
      else if n == 5 then map[0 := Task(0, 1, Claimed), 1 := watching]
      else map[0 := Task(0, 1, if n == 6 then Claimed else Delivered), 1 := Task(0, 2, Holding)],
      if n <= 2 then {} else if n == 3 then {0} else {0, 1},
      if n <= 4 then [] else [Entry(0, 1, 0, true)],
      if n <= 6 then [] else [Entry(0, 1, 0, true)],
      [],
      if n <= 5 then [] else [Resubmission(0, 1, Published, 0, Processing)])
  }

  lemma StaleFirstSteps(mode: CompletionMode, n: nat)
    requires n < 4
    ensures Enabled(mode, StaleState(n), STALE[n]) && Apply(mode, StaleState(n), STALE[n]) == StaleState(n + 1)
  {
    if n == 1 {
      assert Apply(mode, StaleState(1), STALE[1]).drafts == map[];
    }
  }

  lemma StaleClaimStep(mode: CompletionMode)
    ensures Enabled(mode, StaleState(4), STALE[4]) && Apply(mode, StaleState(4), STALE[4]) == StaleState(5)
  {
    assert Unlocked(StaleState(4), 0);
    assert Claimable(StaleState(4).publications, 0, 1);
    assert [] + [Entry(0, 1, 0, true)] == [Entry(0, 1, 0, true)];
    assert map[0 := ROW][0 := CLAIMED] == map[0 := CLAIMED];
  }

  lemma StaleResubmitStep(mode: CompletionMode)
    ensures Enabled(mode, StaleState(5), STALE[5]) && Apply(mode, StaleState(5), STALE[5]) == StaleState(6)
  {
    assert Unlocked(StaleState(5), 0);
    assert Resubmittable(StaleState(5).publications, 0, 1);
    assert map[0 := CLAIMED][0 := FENCED] == map[0 := FENCED];
  }

  lemma StaleDeliverStep(mode: CompletionMode)
    ensures Enabled(mode, StaleState(6), STALE[6]) && Apply(mode, StaleState(6), STALE[6]) == StaleState(7)
  {
    assert [] + [Entry(0, 1, 0, true)] == [Entry(0, 1, 0, true)];
  }

  lemma StaleStep(mode: CompletionMode, n: nat)
    requires n < |STALE|
    ensures Enabled(mode, StaleState(n), STALE[n]) && Apply(mode, StaleState(n), STALE[n]) == StaleState(n + 1)
  {
    hide StaleState, Apply, Enabled;
    if n < 4 {
      StaleFirstSteps(mode, n);
    } else if n == 4 {
      StaleClaimStep(mode);
    } else if n == 5 {
      StaleResubmitStep(mode);
    } else {
      StaleDeliverStep(mode);
    }
  }

  lemma {:induction false} RunOf(mode: CompletionMode, all: seq<Event>, states: nat -> World, n: nat)
    requires n <= |all| && states(0) == Init()
    requires forall k | 0 <= k < |all| ::
               Enabled(mode, states(k), all[k]) && Apply(mode, states(k), all[k]) == states(k + 1)
    ensures Exec(mode, all[..n]) == Some(states(n))
  {
    hide Apply, Enabled;
    if n > 0 {
      RunOf(mode, all, states, n - 1);
      ExecNext(mode, all[..n - 1], states(n - 1), all[n - 1]);
      assert all[..n - 1] + [all[n - 1]] == all[..n];
    }
  }

  lemma ExecNext(mode: CompletionMode, events: seq<Event>, w: World, e: Event)
    requires Exec(mode, events) == Some(w) && Enabled(mode, w, e)
    ensures Exec(mode, events + [e]) == Some(Apply(mode, w, e))
  {
    hide Apply, Enabled;
    assert (events + [e])[..|events + [e]| - 1] == events;
  }

  /**
   A resubmission decided on a stale reading can fence an attempt that started
   after it: the handler of the fenced attempt runs to its end unsettled.
   */
  lemma StaleResubmissionFencesALaterAttempt(mode: CompletionMode) returns (w: World)
    ensures Exec(mode, STALE) == Some(w)
    ensures |w.resubmissions| == 1 && FencesLater(w, w.resubmissions[0])
    ensures w.handled == [Entry(0, 1, 0, true)] && w.settlements == []
    ensures w.publications == map[0 := FENCED]
  {
    w := StaleState(7);
    forall k | 0 <= k < |STALE|
      ensures Enabled(mode, StaleState(k), STALE[k]) && Apply(mode, StaleState(k), STALE[k]) == StaleState(k + 1)
    {
      StaleStep(mode, k);
    }
    assert StaleState(0) == Init();
    RunOf(mode, STALE, StaleState, 7);
    assert STALE[..7] == STALE;
    assert w.claims[0..][0] == Entry(0, 1, 0, true);
  }
}
