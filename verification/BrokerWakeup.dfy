/**
 Wake-ups, worker accounting and stopping, over every run of the in-memory broker.
 */
module BrokerWakeup {
  import opened Wrappers
  import opened BrokerModel
  import opened BrokerProtocol
  import opened BrokerCounting

  // ---------------------------------------------------------------- wake-ups

  /**
   While a worker of a running consumer sleeps, every queued delivery is matched
   by a woken worker or a signal still to be sent; a sleeper of a stopped
   consumer is matched by a broadcast still to be sent.
   */
  ghost predicate Matched(w: World, c: nat)
    requires c < |w.consumers|
  {
    Count(w.goroutines, SleepingAt(c)) > 0 ==>
      if w.consumers[c].stopped then Count(w.goroutines, BroadcastingAt(c)) > 0
      else |w.consumers[c].queue| <= Count(w.goroutines, WokenAt(c)) + Count(w.goroutines, SignallingAt(c))
  }

  ghost predicate Wakeups(w: World) {
    forall c | 0 <= c < |w.consumers| :: Matched(w, c)
  }

  /** A count after a step, from the count before. */
  lemma CountsStep(w: World, e: Event, q: Query)
    requires Enabled(w, e) && q != Alive && !q.Carrying?
    requires q.WorkerAt? || q.LiveAt? ==> q.consumer < |w.consumers|
    ensures var before, after := Count(w.goroutines, q), Count(NextGoroutines(w, e), q);
            if !Acts(e) then after == before
            else
              && after == Count(WokenBy(w, e), q) - Bit(w.goroutines[e.g], q) + Bit(NextState(w, e), q)
              && (!e.Signal? && !e.Broadcast? ==> Count(WokenBy(w, e), q) == before)
  {
    CountStep(w, e, q);
    CountSpawned(w, e, q);
    CountWokenBy(w, e, q);
  }

  lemma EnqueueMatched(w: World, e: Event, c: nat)
    requires Enabled(w, e) && c < |w.consumers| && Matched(w, c) && e.Enqueue?
    ensures Matched(Apply(w, e), c)
  {
    CountsStep(w, e, SleepingAt(c));
    CountsStep(w, e, WokenAt(c));
    CountsStep(w, e, SignallingAt(c));
    CountsStep(w, e, BroadcastingAt(c));
    hide Count, NextGoroutines, WokenBy;
  }

  lemma SignalMatched(w: World, e: Event, c: nat)
    requires Enabled(w, e) && c < |w.consumers| && Matched(w, c) && e.Signal?
    ensures Matched(Apply(w, e), c)
  {
    CountsStep(w, e, SleepingAt(c));
    CountsStep(w, e, WokenAt(c));
    CountsStep(w, e, SignallingAt(c));
    CountsStep(w, e, BroadcastingAt(c));
    CountWokenBy(w, e, SleepingAt(c));
    CountWokenBy(w, e, WokenAt(c));
    CountWokenBy(w, e, SignallingAt(c));
    CountWokenBy(w, e, BroadcastingAt(c));
    CountZero(w.goroutines, SleepingAt(c));
    hide Count, NextGoroutines, WokenBy;
  }

  lemma PollMatched(w: World, e: Event, c: nat)
    requires Enabled(w, e) && c < |w.consumers| && Matched(w, c) && e.Poll?
    ensures Matched(Apply(w, e), c)
  {
    CountsStep(w, e, SleepingAt(c));
    CountsStep(w, e, WokenAt(c));
    CountsStep(w, e, SignallingAt(c));
    CountsStep(w, e, BroadcastingAt(c));
    hide Count, NextGoroutines, WokenBy;
  }

  lemma StopMatched(w: World, e: Event, c: nat)
    requires Enabled(w, e) && c < |w.consumers| && Matched(w, c) && (e.StopConsumer? || e.Broadcast?)
    ensures Matched(Apply(w, e), c)
  {
    CountsStep(w, e, SleepingAt(c));
    CountsStep(w, e, WokenAt(c));
    CountsStep(w, e, SignallingAt(c));
    CountsStep(w, e, BroadcastingAt(c));
    CountWokenBy(w, e, SleepingAt(c));
    CountWokenBy(w, e, WokenAt(c));
    CountWokenBy(w, e, SignallingAt(c));
    CountWokenBy(w, e, BroadcastingAt(c));
    hide Count, NextGoroutines, WokenBy;
  }

  lemma OtherMatched(w: World, e: Event, c: nat)
    requires Enabled(w, e) && c < |w.consumers| && Matched(w, c)
    requires !e.Enqueue? && !e.Signal? && !e.Poll? && !e.StopConsumer? && !e.Broadcast?
    ensures Matched(Apply(w, e), c)
  {
    CountsStep(w, e, SleepingAt(c));
    CountsStep(w, e, WokenAt(c));
    CountsStep(w, e, SignallingAt(c));
    CountsStep(w, e, BroadcastingAt(c));
    hide Count, NextGoroutines, WokenBy;
  }

  lemma WakeupsStep(w: World, e: Event)
    requires Wakeups(w) && Enabled(w, e)
    ensures Wakeups(Apply(w, e))
  {
    forall c | 0 <= c < |NextConsumers(w, e)| ensures Matched(Apply(w, e), c) {
      if c < |w.consumers| {
        assert Matched(w, c);
        hide Matched, Enabled, NextConsumers;
        if e.Enqueue? {
          EnqueueMatched(w, e, c);
        } else if e.Signal? {
          SignalMatched(w, e, c);
        } else if e.Poll? {
          PollMatched(w, e, c);
        } else if e.StopConsumer? || e.Broadcast? {
          StopMatched(w, e, c);
        } else {
          OtherMatched(w, e, c);
        }
      }
    }
  }

  // ---------------------------------------------------------------- workers and the wait group

  /** The wait group counts the live workers and retry timers, and no consumer has more workers than it should. */
  ghost predicate Accounts(w: World) {
    && w.wait == Count(w.goroutines, Alive)
    && (forall c | 0 <= c < |w.consumers| ::
          Count(w.goroutines, WorkerAt(c)) == WorkersOf(w.consumers[c].configuration))
    && (forall c: nat | c >= |w.consumers| :: Count(w.goroutines, WorkerAt(c)) == 0)
  }

  lemma WaitStep(w: World, e: Event)
    requires Enabled(w, e) && w.wait == Count(w.goroutines, Alive)
    ensures NextWait(w, e) == Count(NextGoroutines(w, e), Alive)
  {
    CountStep(w, e, Alive);
    CountSpawned(w, e, Alive);
    CountWokenBy(w, e, Alive);
    hide Count, NextGoroutines, WokenBy, Spawned;
  }

  lemma WorkersStep(w: World, e: Event, c: nat)
    requires Enabled(w, e)
    ensures Count(NextGoroutines(w, e), WorkerAt(c))
         == Count(w.goroutines, WorkerAt(c))
            + if e.Subscribe? && c == |w.consumers| then WorkersOf(e.configuration) else 0
  {
    CountStep(w, e, WorkerAt(c));
    CountSpawned(w, e, WorkerAt(c));
    CountWokenBy(w, e, WorkerAt(c));
    hide Count, NextGoroutines, WokenBy, Spawned;
  }

  lemma AccountsStep(w: World, e: Event)
    requires Accounts(w) && Enabled(w, e)
    ensures Accounts(Apply(w, e))
  {
    WaitStep(w, e);
    forall c: nat ensures Count(NextGoroutines(w, e), WorkerAt(c))
                       == Count(w.goroutines, WorkerAt(c))
                          + if e.Subscribe? && c == |w.consumers| then WorkersOf(e.configuration) else 0 {
      WorkersStep(w, e, c);
    }
    ConfigurationsStay(w, e);
    hide Count, NextGoroutines, NextWait, NextConsumers, Enabled;
  }

  lemma ConfigurationsStay(w: World, e: Event)
    requires Enabled(w, e)
    ensures |NextConsumers(w, e)| == |w.consumers| + if e.Subscribe? then 1 else 0
    ensures e.Subscribe? ==> NextConsumers(w, e)[|w.consumers|].configuration == e.configuration
    ensures forall c | 0 <= c < |w.consumers| :: NextConsumers(w, e)[c].configuration == w.consumers[c].configuration
  {
  }

  lemma {:induction false} BusyWorkers(gs: seq<Goroutine>, c: nat)
    ensures Count(gs, BusyAt(c)) <= Count(gs, WorkerAt(c))
  {
    if gs != [] {
      BusyWorkers(gs[..|gs| - 1], c);
    }
  }

  // ---------------------------------------------------------------- stopping

  ghost predicate StopperPhase(w: World, i: nat)
    requires i < |w.goroutines|
  {
    var g := w.goroutines[i];
    g.Stopper? ==>
      && w.stopped
      && (g.phase.Stopping? || g.phase.Broadcasting? || g.phase.Awaiting? || g.phase == Returned(true) ==> w.cancelled)
      && (g.phase.Stopping? || g.phase.Broadcasting? ==>
            forall c | 0 <= c < g.phase.next && c < |w.consumers| :: w.consumers[c].stopped)
      && (g.phase.Broadcasting? ==> g.phase.next < |w.consumers| && w.consumers[g.phase.next].stopped)
      && (g.phase.Awaiting? || g.phase == Returned(true) ==>
            forall c | 0 <= c < |w.consumers| :: w.consumers[c].stopped)
      && (g.phase == Returned(true) ==> w.wait == 0)
  }

  ghost predicate Stoppers(w: World) {
    && (w.cancelled ==> w.stopped)
    && (w.dropped != [] ==> w.cancelled)
    && (forall i | 0 <= i < |w.goroutines| :: StopperPhase(w, i))
  }

  /** The wait group is never raised from zero once the broker is stopped. */
  lemma RaiseNeedsALiveWorker(w: World, e: Event)
    requires Accounts(w) && Enabled(w, e) && w.stopped && NextWait(w, e) > w.wait
    ensures w.wait >= 1
  {
    CountZero(w.goroutines, Alive);
    assert Meets(w.goroutines[e.g], Alive);
  }

  lemma NothingLeft(w: World, e: Event)
    requires Accounts(w) && Enabled(w, e) && w.stopped && w.wait == 0
    ensures NextWait(w, e) == 0
  {
    CountZero(w.goroutines, Alive);
    if Acts(e) {
      assert !Meets(w.goroutines[e.g], Alive);
    }
  }

  /** A stopper after a step moved itself, is new, or was there. */
  lemma StopperStep(w: World, e: Event, i: nat)
    requires Enabled(w, e) && i < |NextGoroutines(w, e)| && NextGoroutines(w, e)[i].Stopper?
    ensures i >= |w.goroutines| ==>
              && e.Stop? && i == |w.goroutines|
              && NextGoroutines(w, e)[i] == Stopper(if w.stopped then Returned(false) else Flagged)
    ensures i < |w.goroutines| ==>
              if Acts(e) && e.g == i then NextGoroutines(w, e)[i] == NextState(w, e)
              else NextGoroutines(w, e)[i] == w.goroutines[i]
  {
    if i < |w.goroutines| {
      if e.Broadcast? {
        WakeAllAt(w.goroutines, w.goroutines[e.g].phase.next, i);
      }
    } else {
      SpawnedAt(w, e, i - |w.goroutines|);
    }
  }

  lemma {:induction false} WorkersAt(c: nat, n: nat, i: nat)
    requires i < |Workers(c, n)|
    ensures Workers(c, n)[i] == Worker(c, Polling)
  {
    if i < |Workers(c, n - 1)| {
      WorkersAt(c, n - 1, i);
    }
  }

  lemma SpawnedAt(w: World, e: Event, i: nat)
    requires Enabled(w, e) && i < |Spawned(w, e)| && Spawned(w, e)[i].Stopper?
    ensures e.Stop? && i == 0
  {
    if e.Subscribe? {
      WorkersAt(|w.consumers|, WorkersOf(e.configuration), i);
    }
  }

  lemma ConsumersStayStopped(w: World, e: Event, c: nat)
    requires Enabled(w, e) && c < |w.consumers| && w.consumers[c].stopped
    ensures c < |NextConsumers(w, e)| && NextConsumers(w, e)[c].stopped
  {
  }

  lemma NoNewConsumers(w: World, e: Event)
    requires Enabled(w, e) && w.stopped
    ensures |NextConsumers(w, e)| == |w.consumers|
  {
  }

  lemma OldStopper(w: World, e: Event, i: nat)
    requires Accounts(w) && Stoppers(w) && Enabled(w, e) && i < |w.goroutines| && w.goroutines[i].Stopper?
    requires NextGoroutines(w, e)[i] == w.goroutines[i]
    ensures StopperPhase(Apply(w, e), i)
  {
    assert StopperPhase(w, i);
    NoNewConsumers(w, e);
    forall c | 0 <= c < |w.consumers| && w.consumers[c].stopped ensures NextConsumers(w, e)[c].stopped {
      ConsumersStayStopped(w, e, c);
    }
    if w.goroutines[i].phase == Returned(true) {
      NothingLeft(w, e);
    }
    hide Enabled, NextConsumers, NextGoroutines, NextWait, NextLetters, NextDropped;
  }

  lemma MovedStopper(w: World, e: Event)
    requires Accounts(w) && Stoppers(w) && Enabled(w, e) && Acts(e) && w.goroutines[e.g].Stopper?
    requires NextGoroutines(w, e)[e.g] == NextState(w, e)
    ensures StopperPhase(Apply(w, e), e.g)
  {
    assert StopperPhase(w, e.g);
    hide NextGoroutines, Accounts, Stoppers, NextLetters, NextDropped;
    if !e.StopConsumer? {
      OtherConsumers(w, e);
      hide NextConsumers;
    }
  }

  lemma OtherConsumers(w: World, e: Event)
    requires Enabled(w, e) && Acts(e) && w.goroutines[e.g].Stopper? && !e.StopConsumer?
    ensures NextConsumers(w, e) == w.consumers && NextWait(w, e) == w.wait
  {
  }

  lemma StoppersStep(w: World, e: Event)
    requires Accounts(w) && Stoppers(w) && Enabled(w, e)
    ensures Stoppers(Apply(w, e))
  {
    var w' := Apply(w, e);
    forall i | 0 <= i < |w'.goroutines| ensures StopperPhase(w', i) {
      if w'.goroutines[i].Stopper? {
        StopperStep(w, e, i);
        if i < |w.goroutines| {
          assert StopperPhase(w, i);
          if Acts(e) && e.g == i {
            MovedStopper(w, e);
          } else {
            OldStopper(w, e, i);
          }
        }
      }
    }
    if e.Cancel? {
      assert StopperPhase(w, e.g);
    }
    hide StopperPhase;
  }

  // ---------------------------------------------------------------- runs

  ghost predicate Sound(w: World) {
    Wakeups(w) && Accounts(w) && Stoppers(w)
  }

  lemma SoundInit()
    ensures Sound(Init())
  {
    assert forall c: nat :: Count([], WorkerAt(c)) == 0;
  }

  lemma {:induction false} SoundHolds(events: seq<Event>, w: World)
    requires Exec(events) == Some(w)
    ensures Sound(w)
  {
    if events == [] {
      SoundInit();
    } else {
      var last := |events| - 1;
      var before := Exec(events[..last]).value;
      SoundHolds(events[..last], before);
      hide Wakeups, Accounts, Stoppers, Apply, Enabled;
      WakeupsStep(before, events[last]);
      AccountsStep(before, events[last]);
      StoppersStep(before, events[last]);
    }
  }

  /**
   No lost wake-up: a running consumer never has ready work and a sleeping worker
   without a woken worker or a signal still to be sent, and there are at least as
   many of these as ready deliveries. No worker sleeps through a stop.
   */
  lemma NoLostWakeup(events: seq<Event>, w: World, c: nat, sleeper: nat)
    requires Exec(events) == Some(w) && c < |w.consumers|
    requires sleeper < |w.goroutines| && IsSleeping(w.goroutines[sleeper], c)
    ensures !w.consumers[c].stopped ==>
              |w.consumers[c].queue| <= Count(w.goroutines, WokenAt(c)) + Count(w.goroutines, SignallingAt(c))
    ensures !w.consumers[c].stopped && w.consumers[c].queue != [] ==>
              exists i | 0 <= i < |w.goroutines| ::
                w.goroutines[i] == Worker(c, Woken) || Signalled(w.goroutines[i]) == Some(c)
    ensures w.consumers[c].stopped ==>
              exists i | 0 <= i < |w.goroutines| :: w.goroutines[i] == Stopper(Broadcasting(c))
  {
    SoundHolds(events, w);
    assert Matched(w, c);
    CountZero(w.goroutines, SleepingAt(c));
    CountZero(w.goroutines, WokenAt(c));
    CountZero(w.goroutines, SignallingAt(c));
    CountZero(w.goroutines, BroadcastingAt(c));
    hide Exec, Count, Sound, Matched;
    assert Meets(w.goroutines[sleeper], SleepingAt(c));
    if !w.consumers[c].stopped && w.consumers[c].queue != [] {
      if Count(w.goroutines, WokenAt(c)) > 0 {
        var i :| 0 <= i < |w.goroutines| && Meets(w.goroutines[i], WokenAt(c));
      } else {
        var i :| 0 <= i < |w.goroutines| && Meets(w.goroutines[i], SignallingAt(c));
      }
    }
    if w.consumers[c].stopped {
      var i :| 0 <= i < |w.goroutines| && Meets(w.goroutines[i], BroadcastingAt(c));
    }
  }

  /** A FIFO consumer works on one delivery at a time, an unordered one on at most as many as it has workers. */
  lemma BoundedConcurrency(events: seq<Event>, w: World, c: nat)
    requires Exec(events) == Some(w) && c < |w.consumers|
    ensures Count(w.goroutines, BusyAt(c)) <=
              if w.consumers[c].configuration.ordering == Unordered then w.consumers[c].configuration.workers else 1
  {
    SoundHolds(events, w);
    BusyWorkers(w.goroutines, c);
  }

  /** The wait group counter is exactly the live workers and timers, and after Stop only a live one raises it. */
  lemma WaitGroupDiscipline(events: seq<Event>, w: World, e: Event)
    requires Exec(events) == Some(w) && Enabled(w, e)
    ensures w.wait == Count(w.goroutines, Alive)
    ensures w.stopped && NextWait(w, e) > w.wait ==> w.wait >= 1
  {
    SoundHolds(events, w);
    if w.stopped && NextWait(w, e) > w.wait {
      RaiseNeedsALiveWorker(w, e);
    }
  }

  lemma {:induction false} ReturnedStays(events: seq<Event>, more: seq<Event>, w: World, w': World, i: nat)
    requires Exec(events) == Some(w) && Exec(events + more) == Some(w')
    requires i < |w.goroutines| && w.goroutines[i] == Stopper(Returned(true))
    ensures i < |w'.goroutines| && w'.goroutines[i] == Stopper(Returned(true))
  {
    if more == [] {
      assert events + more == events;
    } else {
      var last := |more| - 1;
      LastStep(events, more, w');
      var before := Exec(events + more[..last]).value;
      hide Exec, Enabled, NextGoroutines, NextConsumers, NextWait, NextLetters, NextDropped;
      ReturnedStays(events, more[..last], w, before, i);
      ReturnedStep(before, more[last], i);
    }
  }

  lemma ExecLast(all: seq<Event>, w: World)
    requires Exec(all) == Some(w) && all != []
    ensures var before := Exec(all[..|all| - 1]);
            before.Some? && Enabled(before.value, all[|all| - 1]) && w == Apply(before.value, all[|all| - 1])
  {
    hide Apply, Enabled;
  }

  lemma LastStep(events: seq<Event>, more: seq<Event>, w: World)
    requires Exec(events + more) == Some(w) && more != []
    ensures var before := Exec(events + more[..|more| - 1]);
            before.Some? && Enabled(before.value, more[|more| - 1]) && w == Apply(before.value, more[|more| - 1])
  {
    hide Apply, Enabled, Exec;
    var all := events + more;
    assert all[..|all| - 1] == events + more[..|more| - 1] && all[|all| - 1] == more[|more| - 1];
    ExecLast(all, w);
  }

  lemma ReturnedStep(w: World, e: Event, i: nat)
    requires Enabled(w, e) && i < |w.goroutines| && w.goroutines[i] == Stopper(Returned(true))
    ensures i < |NextGoroutines(w, e)| && NextGoroutines(w, e)[i] == Stopper(Returned(true))
  {
    if e.Broadcast? {
      WakeAllAt(w.goroutines, w.goroutines[e.g].phase.next, i);
    }
  }

  lemma NothingAlive(w: World)
    requires Accounts(w) && w.wait == 0
    ensures forall k | 0 <= k < |w.goroutines| :: !IsAlive(w.goroutines[k])
  {
    CountZero(w.goroutines, Alive);
    assert forall k | 0 <= k < |w.goroutines| :: !Meets(w.goroutines[k], Alive);
  }

  lemma OnlyTheLiveWork(w: World, e: Event)
    requires forall k | 0 <= k < |w.goroutines| :: !IsAlive(w.goroutines[k])
    requires e.Begin? || e.Fire? || e.Deliver? || e.Poll?
    ensures !Enabled(w, e)
  {
  }

  /**
   Stop quiescence: once the Stop that stopped the broker has returned, then in
   every later state the wait group is at zero, every consumer is stopped, no
   worker or timer is alive, so no handler runs, and none can start.
   */
  lemma StopQuiescence(events: seq<Event>, more: seq<Event>, w: World, w': World, i: nat)
    requires Exec(events) == Some(w) && Exec(events + more) == Some(w')
    requires i < |w.goroutines| && w.goroutines[i] == Stopper(Returned(true))
    ensures w'.wait == 0 && w'.stopped && w'.cancelled
    ensures forall c | 0 <= c < |w'.consumers| :: w'.consumers[c].stopped
    ensures forall k | 0 <= k < |w'.goroutines| :: !IsAlive(w'.goroutines[k])
    ensures forall e: Event | e.Begin? || e.Fire? || e.Deliver? || e.Poll? :: !Enabled(w', e)
  {
    ReturnedStays(events, more, w, w', i);
    SoundHolds(events + more, w');
    assert StopperPhase(w', i);
    NothingAlive(w');
    hide Exec, Sound, StopperPhase, Enabled;
    forall e: Event | e.Begin? || e.Fire? || e.Deliver? || e.Poll? ensures !Enabled(w', e) {
      OnlyTheLiveWork(w', e);
    }
  }

  // ---------------------------------------------------------------- which Stop keeps its promise

  /** Once the broker is stopped and its wait group is at zero, both stay so. */
  lemma {:induction false} ZeroStays(events: seq<Event>, more: seq<Event>, w: World, w': World)
    requires Exec(events) == Some(w) && Exec(events + more) == Some(w')
    requires w.stopped && w.wait == 0
    ensures w'.stopped && w'.wait == 0
  {
    if more == [] {
      assert events + more == events;
    } else {
      LastStep(events, more, w');
      var before := Exec(events + more[..|more| - 1]).value;
      ZeroStays(events, more[..|more| - 1], w, before);
      SoundHolds(events + more[..|more| - 1], before);
      NothingLeft(before, more[|more| - 1]);
    }
  }

  /** How the goroutine of one Stop call may look: a call that found the broker running waits before it returns. */
  predicate StopOf(g: Goroutine, first: bool) {
    g.Stopper? && (if first then g.phase != Returned(false) else g.phase == Returned(false))
  }

  lemma StopOfStep(w: World, e: Event, i: nat, first: bool)
    requires Enabled(w, e) && i < |w.goroutines| && StopOf(w.goroutines[i], first)
    ensures i < |NextGoroutines(w, e)| && StopOf(NextGoroutines(w, e)[i], first)
  {
    if e.Broadcast? {
      WakeAllAt(w.goroutines, w.goroutines[e.g].phase.next, i);
    }
  }

  lemma {:induction false} StopOfStays(
    events: seq<Event>, more: seq<Event>, w: World, w': World, i: nat, first: bool)
    requires Exec(events) == Some(w) && Exec(events + more) == Some(w')
    requires i < |w.goroutines| && StopOf(w.goroutines[i], first)
    ensures i < |w'.goroutines| && StopOf(w'.goroutines[i], first)
  {
    if more == [] {
      assert events + more == events;
    } else {
      LastStep(events, more, w');
      var before := Exec(events + more[..|more| - 1]).value;
      hide Exec, Enabled, NextGoroutines, NextConsumers, NextWait, NextLetters, NextDropped;
      StopOfStays(events, more[..|more| - 1], w, before, i, first);
      StopOfStep(before, more[|more| - 1], i, first);
    }
  }

  /** Nothing the broker counts is alive: no handler runs and none can start. */
  ghost predicate Quiet(w: World) {
    && (forall k | 0 <= k < |w.goroutines| :: !IsAlive(w.goroutines[k]))
    && (forall e: Event | e.Begin? || e.Fire? || e.Deliver? || e.Poll? :: !Enabled(w, e))
  }

  /** The wait group is at zero exactly when nothing is alive. */
  lemma QuietExactly(events: seq<Event>, w: World)
    requires Exec(events) == Some(w)
    ensures Quiet(w) <==> w.wait == 0
  {
    SoundHolds(events, w);
    CountZero(w.goroutines, Alive);
    hide Exec, Sound, Wakeups, Stoppers, Enabled;
    assert forall k | 0 <= k < |w.goroutines| :: Meets(w.goroutines[k], Alive) <==> IsAlive(w.goroutines[k]);
    if w.wait == 0 {
      forall e: Event | e.Begin? || e.Fire? || e.Deliver? || e.Poll? ensures !Enabled(w, e) {
        OnlyTheLiveWork(w, e);
      }
    }
  }

  /**
   A Stop that finds the broker running keeps its promise: it can only return
   after it waited, and from then on the broker is quiet.
   */
  lemma FirstStopWaits(events: seq<Event>, more: seq<Event>, w: World, w': World, i: nat)
    requires Exec(events) == Some(w) && !w.stopped && i == |w.goroutines|
    requires Exec(events + [Stop] + more) == Some(w')
    ensures i < |w'.goroutines| && w'.goroutines[i].Stopper?
    ensures w'.goroutines[i].phase.Returned? ==> w'.goroutines[i].phase.waited && Quiet(w')
  {
    var called := Apply(w, Stop);
    AfterStop(events, w);
    StopOfStays(events + [Stop], more, called, w', i, true);
    if w'.goroutines[i].phase.Returned? {
      SoundHolds(events + [Stop] + more, w');
      assert StopperPhase(w', i);
      QuietExactly(events + [Stop] + more, w');
    }
  }

  lemma AfterStop(events: seq<Event>, w: World)
    requires Exec(events) == Some(w)
    ensures Exec(events + [Stop]) == Some(Apply(w, Stop))
    ensures Apply(w, Stop).goroutines == w.goroutines + [Stopper(if w.stopped then Returned(false) else Flagged)]
    ensures Apply(w, Stop).wait == w.wait && Apply(w, Stop).stopped
  {
    assert (events + [Stop])[..|events + [Stop]| - 1] == events;
  }

  /**
   A Stop that finds the broker stopped returns at once, and keeps its promise
   exactly when nothing was alive at that moment: the broker is quiet in every
   later state if and only if the wait group was at zero when it was called.
   */
  lemma LaterStopExactly(events: seq<Event>, w: World)
    requires Exec(events) == Some(w) && w.stopped
    ensures Apply(w, Stop).goroutines == w.goroutines + [Stopper(Returned(false))]
    ensures (forall more, w' | Exec(events + [Stop] + more) == Some(w') :: Quiet(w')) <==> w.wait == 0
  {
    var called := Apply(w, Stop);
    AfterStop(events, w);
    if w.wait == 0 {
      forall more, w' | Exec(events + [Stop] + more) == Some(w') ensures Quiet(w') {
        ZeroStays(events + [Stop], more, called, w');
        QuietExactly(events + [Stop] + more, w');
      }
    } else {
      QuietExactly(events + [Stop], called);
      assert events + [Stop] + [] == events + [Stop];
      assert Exec(events + [Stop] + []) == Some(called) && !Quiet(called);
    }
  }
}
