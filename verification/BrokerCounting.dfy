/** How many goroutines are in a state or hold an item, and how one step changes that. */
module BrokerCounting {
  import opened Wrappers
  import opened BrokerModel
  import opened BrokerProtocol

  datatype Query =
    | SleepingAt(consumer: nat)
    | WokenAt(consumer: nat)
    | SignallingAt(consumer: nat)
    | BroadcastingAt(consumer: nat)
    | BusyAt(consumer: nat)
    | WorkerAt(consumer: nat)
    | ExitedAt(consumer: nat)
    | LiveAt(consumer: nat)
    | Alive
    | Carrying(item: nat)

  predicate IsBusy(stage: Stage) {
    stage.Holding? || stage.Running? || stage.Backoff? || stage.Parking?
  }

  /** The wait group counts workers and retry timers until they end. */
  predicate IsAlive(g: Goroutine) {
    (g.Worker? && g.stage != Exited) || (g.Timer? && g.timer != Ended)
  }

  function InParcels(parcels: seq<Parcel>, item: nat): nat {
    if parcels == [] then 0 else (if parcels[0].delivery.item == item then 1 else 0) + InParcels(parcels[1..], item)
  }

  /** How often a goroutine holds an item. */
  function Carried(g: Goroutine, item: nat): nat {
    match g
    case Caller(parcels, _) => InParcels(parcels, item)
    case Worker(_, stage) => if IsBusy(stage) && stage.delivery.item == item then 1 else 0
    case Timer(_, timer) => if (timer.Waiting? || timer.Inserting?) && timer.delivery.item == item then 1 else 0
    case Stopper(_) => 0
  }

  predicate Meets(g: Goroutine, q: Query) {
    match q
    case SleepingAt(c) => IsSleeping(g, c)
    case WokenAt(c) => g == Worker(c, Woken)
    case SignallingAt(c) => Signalled(g) == Some(c)
    case BroadcastingAt(c) => g == Stopper(Broadcasting(c))
    case BusyAt(c) => g.Worker? && g.consumer == c && IsBusy(g.stage)
    case WorkerAt(c) => g.Worker? && g.consumer == c
    case ExitedAt(c) => g == Worker(c, Exited)
    case LiveAt(c) => g.Worker? && g.consumer == c && g.stage != Exited
    case Alive => IsAlive(g)
    case Carrying(item) => Carried(g, item) > 0
  }

  function Bit(g: Goroutine, q: Query): nat {
    if q.Carrying? then Carried(g, q.item) else if Meets(g, q) then 1 else 0
  }

  function Count(gs: seq<Goroutine>, q: Query): nat {
    if gs == [] then 0 else Count(gs[..|gs| - 1], q) + Bit(gs[|gs| - 1], q)
  }

  lemma {:induction false} CountSet(gs: seq<Goroutine>, i: nat, g: Goroutine, q: Query)
    requires i < |gs|
    ensures Count(gs[i := g], q) == Count(gs, q) - Bit(gs[i], q) + Bit(g, q)
  {
    var last := |gs| - 1;
    if i < last {
      CountSet(gs[..last], i, g, q);
      assert gs[i := g][..last] == gs[..last][i := g];
    } else {
      assert gs[i := g][..last] == gs[..last];
    }
  }

  lemma {:induction false} CountAppend(a: seq<Goroutine>, b: seq<Goroutine>, q: Query)
    ensures Count(a + b, q) == Count(a, q) + Count(b, q)
  {
    if b == [] {
      assert a + b == a;
    } else {
      assert (a + b)[..|a + b| - 1] == a + b[..|b| - 1];
      CountAppend(a, b[..|b| - 1], q);
    }
  }

  lemma CountOne(g: Goroutine, q: Query)
    ensures Count([g], q) == Bit(g, q)
  {
    assert [g][..0] == [];
    assert Count([], q) == 0;
  }

  lemma {:induction false} CountZero(gs: seq<Goroutine>, q: Query)
    ensures Count(gs, q) == 0 <==> forall i | 0 <= i < |gs| :: !Meets(gs[i], q)
  {
    if gs != [] {
      var last := |gs| - 1;
      CountZero(gs[..last], q);
      assert forall i | 0 <= i < last :: gs[..last][i] == gs[i];
      assert Count(gs, q) == Count(gs[..last], q) + Bit(gs[last], q);
    }
  }

  lemma {:induction false} CountWakeAll(gs: seq<Goroutine>, c: nat, q: Query)
    ensures q == SleepingAt(c) ==> Count(WakeAll(gs, c), q) == 0
    ensures q == WokenAt(c) ==> Count(WakeAll(gs, c), q) == Count(gs, q) + Count(gs, SleepingAt(c))
    ensures q != SleepingAt(c) && q != WokenAt(c) ==> Count(WakeAll(gs, c), q) == Count(gs, q)
  {
    if gs != [] {
      var last := |gs| - 1;
      CountWakeAll(gs[..last], c, q);
      var woken := if IsSleeping(gs[last], c) then Worker(c, Woken) else gs[last];
      assert WakeAll(gs, c) == WakeAll(gs[..last], c) + [woken];
      assert WakeAll(gs, c)[..last] == WakeAll(gs[..last], c);
    }
  }

  lemma CountNone(q: Query)
    ensures Count([], q) == 0
  {
  }

  lemma FreshWorker(c: nat, q: Query)
    ensures Bit(Worker(c, Polling), q) == if q == WorkerAt(c) || q == LiveAt(c) || q == Alive then 1 else 0
  {
  }

  lemma {:induction false} CountWorkers(c: nat, n: nat, q: Query)
    ensures Count(Workers(c, n), q) == if q == WorkerAt(c) || q == LiveAt(c) || q == Alive then n else 0
  {
    hide Count, Bit;
    if n > 0 {
      CountWorkers(c, n - 1, q);
      CountAppend(Workers(c, n - 1), [Worker(c, Polling)], q);
      CountOne(Worker(c, Polling), q);
      FreshWorker(c, q);
    } else {
      CountNone(q);
    }
  }

  // ---------------------------------------------------------------- one step

  predicate Acts(e: Event) {
    !e.Subscribe? && !e.Publish? && !e.Revive? && !e.Stop?
  }

  lemma {:induction false} WakeAllAt(gs: seq<Goroutine>, c: nat, i: nat)
    requires i < |gs|
    ensures WakeAll(gs, c)[i] == if IsSleeping(gs[i], c) then Worker(c, Woken) else gs[i]
  {
    var last := |gs| - 1;
    if i < last {
      WakeAllAt(gs[..last], c, i);
    }
  }

  /** Waking others leaves the acting goroutine alone. */
  lemma WokenByAt(w: World, e: Event)
    requires Enabled(w, e) && Acts(e)
    ensures WokenBy(w, e)[e.g] == w.goroutines[e.g]
  {
    if e.Broadcast? {
      WakeAllAt(w.goroutines, w.goroutines[e.g].phase.next, e.g);
    }
  }

  lemma CountStep(w: World, e: Event, q: Query)
    requires Enabled(w, e)
    ensures Count(NextGoroutines(w, e), q)
         == (if Acts(e) then Count(WokenBy(w, e), q) - Bit(w.goroutines[e.g], q) + Bit(NextState(w, e), q)
             else Count(w.goroutines, q))
            + Count(Spawned(w, e), q)
  {
    hide Count, Spawned, NextState, WokenBy, Bit;
    if Acts(e) {
      WokenByAt(w, e);
      CountSet(WokenBy(w, e), e.g, NextState(w, e), q);
      CountAppend(WokenBy(w, e)[e.g := NextState(w, e)], Spawned(w, e), q);
    } else {
      CountAppend(w.goroutines, Spawned(w, e), q);
    }
  }

  lemma CountSpawned(w: World, e: Event, q: Query)
    requires Enabled(w, e) && !q.Carrying?
    ensures Count(Spawned(w, e), q)
         == (if e.Subscribe?
             then
               (if q in {WorkerAt(|w.consumers|), LiveAt(|w.consumers|), Alive} then WorkersOf(e.configuration) else 0)
             else if q == Alive && Retries(w, e) then 1 else 0)
  {
    if e.Subscribe? {
      CountWorkers(|w.consumers|, WorkersOf(e.configuration), q);
    } else if Spawned(w, e) != [] {
      CountOne(Spawned(w, e)[0], q);
      assert Spawned(w, e) == [Spawned(w, e)[0]];
    }
  }

  lemma {:induction false} NewParcels(targets: seq<nat>, from: nat, date: Time, item: nat)
    ensures InParcels(Parcels(targets, from, date), item) == if from <= item < from + |targets| then 1 else 0
  {
    if targets != [] {
      NewParcels(targets[1..], from + 1, date, item);
    }
  }

  lemma OneParcel(parcel: Parcel, item: nat)
    ensures InParcels([parcel], item) == if parcel.delivery.item == item then 1 else 0
  {
    assert [parcel][1..] == [];
  }

  /** The items a step puts into the hands of a new goroutine. */
  lemma CarriedSpawned(w: World, e: Event, item: nat)
    requires Enabled(w, e)
    ensures Count(Spawned(w, e), Carrying(item))
         == (if e.Publish? then (if |w.items| <= item < |w.items| + |e.targets| then 1 else 0)
             else if e.Revive? then
               (if w.letters[Find(w.letters, e.reference).value].delivery.item == item then 1 else 0)
             else if Retries(w, e) then (if w.goroutines[e.g].stage.delivery.item == item then 1 else 0)
             else 0)
  {
    if e.Subscribe? {
      CountWorkers(|w.consumers|, WorkersOf(e.configuration), Carrying(item));
    } else if Spawned(w, e) != [] {
      CountOne(Spawned(w, e)[0], Carrying(item));
      assert Spawned(w, e) == [Spawned(w, e)[0]];
      if e.Revive? {
        OneParcel(Spawned(w, e)[0].parcels[0], item);
      } else if e.Publish? {
        NewParcels(e.targets, |w.items|, e.date, item);
      }
    }
  }

  /** A wake-up turns one sleeper, or all of them, into woken workers. */
  lemma CountWokenBy(w: World, e: Event, q: Query)
    requires Enabled(w, e)
    ensures var before, after := Count(w.goroutines, q), Count(WokenBy(w, e), q);
            if e.Signal? && e.sleeper.Some? then
              var c := Signalled(w.goroutines[e.g]).value;
              if q == SleepingAt(c) then after == before - 1
              else if q == WokenAt(c) then after == before + 1 else after == before
            else if e.Broadcast? then
              var c := w.goroutines[e.g].phase.next;
              if q == SleepingAt(c) then after == 0
              else if q == WokenAt(c) then after == before + Count(w.goroutines, SleepingAt(c)) else after == before
            else after == before
  {
    if e.Signal? && e.sleeper.Some? {
      CountSet(w.goroutines, e.sleeper.value, Worker(Signalled(w.goroutines[e.g]).value, Woken), q);
    } else if e.Broadcast? {
      CountWakeAll(w.goroutines, w.goroutines[e.g].phase.next, q);
    }
  }
}
