/**
 The workers of a consumer over every run: as many as it was configured with live
 until the broker stops, ready work finds one of them, and a failed delivery waits
 out its backoff where the ordering of the consumer wants it to.
 */
module BrokerWorkers {
  import opened Wrappers
  import opened BrokerModel
  import opened BrokerProtocol
  import opened BrokerCounting
  import opened BrokerWakeup

  // ---------------------------------------------------------------- live workers

  /** Workers end, and consumers stop, only after Stop was called. */
  ghost predicate Serving(w: World) {
    && (w.cancelled ==> w.stopped)
    && (forall c | 0 <= c < |w.consumers| :: w.consumers[c].stopped ==> w.stopped)
    && (forall i | 0 <= i < |w.goroutines| :: ServingAt(w, i))
  }

  ghost predicate ServingAt(w: World, i: nat)
    requires i < |w.goroutines|
  {
    && (w.goroutines[i].Worker? && w.goroutines[i].stage == Exited ==> w.stopped)
    && (w.goroutines[i].Stopper? ==> w.stopped)
  }

  lemma ServingStep(w: World, e: Event)
    requires Serving(w) && Enabled(w, e)
    ensures Serving(Apply(w, e))
  {
    var w' := Apply(w, e);
    forall i | 0 <= i < |w'.goroutines| ensures ServingAt(w', i) {
      ServingGoroutine(w, e, i);
    }
    ConsumersServe(w, e);
    hide NextGoroutines, NextConsumers, NextWait, NextLetters, NextDropped, ServingAt;
  }

  lemma ConsumersServe(w: World, e: Event)
    requires Serving(w) && Enabled(w, e)
    ensures e.Cancel? ==> w.stopped
    ensures forall c | 0 <= c < |NextConsumers(w, e)| :: NextConsumers(w, e)[c].stopped ==> w.stopped
  {
    if e.Cancel? || e.StopConsumer? {
      assert ServingAt(w, e.g);
    }
  }

  lemma ServingGoroutine(w: World, e: Event, i: nat)
    requires Serving(w) && Enabled(w, e) && i < |NextGoroutines(w, e)|
    ensures ServingAt(Apply(w, e), i)
  {
    if i < |w.goroutines| {
      assert ServingAt(w, i);
      OldGoroutine(w, e, i);
      if Acts(e) && e.g == i {
        MovedGoroutine(w, e);
      }
    } else {
      NewGoroutine(w, e, i);
    }
    hide NextConsumers, NextWait, NextLetters, NextDropped, NextGoroutines;
  }

  /** A goroutine that does not act is as it was, or woken. */
  lemma OldGoroutine(w: World, e: Event, i: nat)
    requires Enabled(w, e) && i < |w.goroutines|
    ensures i < |NextGoroutines(w, e)|
    ensures Acts(e) && e.g == i ==> NextGoroutines(w, e)[i] == NextState(w, e)
    ensures !(Acts(e) && e.g == i) ==>
              || NextGoroutines(w, e)[i] == w.goroutines[i]
              || (w.goroutines[i].Worker? && w.goroutines[i].stage == Sleeping
                  && NextGoroutines(w, e)[i] == Worker(w.goroutines[i].consumer, Woken))
  {
    if e.Broadcast? {
      WakeAllAt(w.goroutines, w.goroutines[e.g].phase.next, i);
    }
  }

  lemma MovedGoroutine(w: World, e: Event)
    requires Serving(w) && Enabled(w, e) && Acts(e)
    ensures NextState(w, e).Worker? && NextState(w, e).stage == Exited ==> w.stopped
    ensures NextState(w, e).Stopper? ==> w.stopped
  {
    assert ServingAt(w, e.g);
  }

  lemma NewGoroutine(w: World, e: Event, i: nat)
    requires Enabled(w, e) && |w.goroutines| <= i < |NextGoroutines(w, e)|
    ensures var g := NextGoroutines(w, e)[i];
            && (g.Worker? ==> e.Subscribe? && g == Worker(|w.consumers|, Polling))
            && (g.Stopper? ==> e.Stop?)
            && (g.Timer? ==>
                  && Retries(w, e)
                  && g == Timer(w.goroutines[e.g].consumer, Waiting(w.goroutines[e.g].stage.delivery)))
  {
    var spawned := Spawned(w, e);
    assert NextGoroutines(w, e)[i] == spawned[i - |w.goroutines|];
    if e.Subscribe? {
      WorkersAt(|w.consumers|, WorkersOf(e.configuration), i - |w.goroutines|);
    }
  }

  lemma {:induction false} ServingHolds(events: seq<Event>, w: World)
    requires Exec(events) == Some(w)
    ensures Serving(w)
  {
    if events != [] {
      var last := |events| - 1;
      var before := Exec(events[..last]).value;
      ServingHolds(events[..last], before);
      hide Serving, Apply, Enabled;
      ServingStep(before, events[last]);
    }
  }

  lemma {:induction false} LiveOrExited(gs: seq<Goroutine>, c: nat)
    ensures Count(gs, WorkerAt(c)) == Count(gs, LiveAt(c)) + Count(gs, ExitedAt(c))
  {
    if gs != [] {
      LiveOrExited(gs[..|gs| - 1], c);
    }
  }

  /**
   Until the broker stops exactly as many workers of a consumer live as it was
   configured with, and one if it is FIFO.
   */
  lemma WorkersAreStarted(events: seq<Event>, w: World, c: nat)
    requires Exec(events) == Some(w) && !w.stopped && c < |w.consumers|
    ensures Count(w.goroutines, LiveAt(c))
         == if w.consumers[c].configuration.ordering == Unordered then w.consumers[c].configuration.workers else 1
  {
    SoundHolds(events, w);
    ServingHolds(events, w);
    LiveOrExited(w.goroutines, c);
    CountZero(w.goroutines, ExitedAt(c));
    forall i | 0 <= i < |w.goroutines| ensures !Meets(w.goroutines[i], ExitedAt(c)) {
      assert ServingAt(w, i);
    }
    hide Exec, Count, Wakeups, Stoppers, Serving;
  }

  /** The goroutine is about to serve the queue of the consumer, or is serving it. */
  predicate Serves(g: Goroutine, c: nat) {
    || (g.Worker? && g.consumer == c && (IsBusy(g.stage) || g.stage == Polling || g.stage == Woken))
    || Signalled(g) == Some(c)
  }

  /** Ready work is served: of a running consumer that has workers some worker is at work, or owed a signal. */
  lemma ReadyWorkIsServed(events: seq<Event>, w: World, c: nat)
    requires Exec(events) == Some(w) && !w.stopped && c < |w.consumers| && w.consumers[c].queue != []
    requires w.consumers[c].configuration.ordering == Unordered ==> w.consumers[c].configuration.workers > 0
    ensures exists i | 0 <= i < |w.goroutines| :: Serves(w.goroutines[i], c)
  {
    WorkersAreStarted(events, w, c);
    ServingHolds(events, w);
    CountZero(w.goroutines, LiveAt(c));
    hide Exec, Count, Serving;
    var i :| 0 <= i < |w.goroutines| && Meets(w.goroutines[i], LiveAt(c));
    if w.goroutines[i].stage == Sleeping {
      var j := SleeperIsWoken(events, w, c, i);
      assert Serves(w.goroutines[j], c);
    } else {
      assert Serves(w.goroutines[i], c);
    }
  }

  lemma SleeperIsWoken(events: seq<Event>, w: World, c: nat, sleeper: nat) returns (j: nat)
    requires Exec(events) == Some(w) && !w.stopped && c < |w.consumers| && w.consumers[c].queue != []
    requires sleeper < |w.goroutines| && IsSleeping(w.goroutines[sleeper], c)
    ensures j < |w.goroutines| && (w.goroutines[j] == Worker(c, Woken) || Signalled(w.goroutines[j]) == Some(c))
  {
    ServingHolds(events, w);
    NoLostWakeup(events, w, c, sleeper);
    hide Exec, Count;
    j :| 0 <= j < |w.goroutines|
         && (w.goroutines[j] == Worker(c, Woken) || Signalled(w.goroutines[j]) == Some(c));
  }

  // ---------------------------------------------------------------- retries

  /** What a handler's return makes of a delivery, in the words of its consumer's configuration. */
  lemma HandlerTable(w: World, e: Event)
    requires Enabled(w, e) && e.Deliver?
    ensures var c := w.goroutines[e.g].consumer;
            var d := w.goroutines[e.g].stage.delivery;
            var spent := d.attempts >= w.consumers[c].configuration.maximumAttempts;
            var fifo := w.consumers[c].configuration.ordering == Fifo;
            var w' := Apply(w, e);
            && w'.goroutines[e.g] == Worker(c, if e.good then Polling
                                               else if spent then Parking(d)
                                               else if fifo then Backoff(d) else Polling)
            && w'.goroutines[|w.goroutines|..] == (if !e.good && !spent && !fifo then [Timer(c, Waiting(d))] else [])
            && w'.done == (if e.good then w.done + [d.item] else w.done)
  {
    hide NextConsumers, NextWait, NextLetters, NextDropped;
  }

  /** The retries of a FIFO consumer wait in its worker, those of an unordered one in timers. */
  ghost predicate InPlace(w: World) {
    forall i | 0 <= i < |w.goroutines| :: InPlaceAt(w, w.goroutines[i])
  }

  ghost predicate InPlaceAt(w: World, g: Goroutine) {
    && (g.Worker? || g.Timer? ==> g.consumer < |w.consumers|)
    && (g.Timer? ==> w.consumers[g.consumer].configuration.ordering == Unordered)
    && (g.Worker? && g.stage.Backoff? ==> w.consumers[g.consumer].configuration.ordering == Fifo)
  }

  lemma InPlaceStep(w: World, e: Event)
    requires InPlace(w) && Enabled(w, e)
    ensures InPlace(Apply(w, e))
  {
    var w' := Apply(w, e);
    ConfigurationsStay(w, e);
    forall i | 0 <= i < |w'.goroutines| ensures InPlaceAt(w', w'.goroutines[i]) {
      if i < |w.goroutines| {
        OldGoroutine(w, e, i);
        assert InPlaceAt(w, w.goroutines[i]);
        if Acts(e) && e.g == i {
          MovedInPlace(w, e);
        }
      } else {
        NewInPlace(w, e, i);
      }
    }
    hide NextGoroutines, NextConsumers, NextWait, NextLetters, NextDropped, InPlaceAt;
  }

  lemma MovedInPlace(w: World, e: Event)
    requires Enabled(w, e) && Acts(e) && InPlaceAt(w, w.goroutines[e.g])
    ensures InPlaceAt(w, NextState(w, e))
  {
  }

  lemma NewInPlace(w: World, e: Event, i: nat)
    requires InPlace(w) && Enabled(w, e) && |w.goroutines| <= i < |NextGoroutines(w, e)|
    ensures InPlaceAt(Apply(w, e), NextGoroutines(w, e)[i])
  {
    NewGoroutine(w, e, i);
    ConfigurationsStay(w, e);
    if Retries(w, e) {
      assert InPlaceAt(w, w.goroutines[e.g]);
    }
    hide NextGoroutines, NextConsumers, NextWait, NextLetters, NextDropped;
  }

  lemma {:induction false} RetriesWaitInPlace(events: seq<Event>, w: World)
    requires Exec(events) == Some(w)
    ensures InPlace(w)
  {
    if events != [] {
      var last := |events| - 1;
      var before := Exec(events[..last]).value;
      RetriesWaitInPlace(events[..last], before);
      hide InPlace, Apply, Enabled;
      InPlaceStep(before, events[last]);
    }
  }
}
