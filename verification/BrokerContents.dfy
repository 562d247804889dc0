/**
 What is in each place, over every run of the in-memory broker: deliveries stay
 with their consumer and publication date and within their attempt budget, queues
 stay in order, a dead letter is revived at most once.
 */
module BrokerContents {
  import opened Wrappers
  import opened BrokerModel
  import opened BrokerProtocol
  import opened BrokerCounting
  import opened BrokerWakeup

  /** The attempts one event may consume; the first is always made. */
  function Budget(configuration: Configuration): nat {
    if configuration.maximumAttempts >= 1 then configuration.maximumAttempts else 1
  }

  function BudgetAt(w: World, c: nat): nat
    requires c < |w.consumers|
  {
    Budget(w.consumers[c].configuration)
  }

  predicate Belongs(w: World, c: nat, d: Delivery) {
    c < |w.consumers| && d.item < |w.items| && w.items[d.item] == Origin(c, d.date)
  }

  ghost predicate GoroutineOk(w: World, g: Goroutine) {
    match g
    case Caller(parcels, signal) =>
      && (forall i | 0 <= i < |parcels| ::
            Belongs(w, parcels[i].consumer, parcels[i].delivery) && parcels[i].delivery.attempts == 0)
      && (signal.Some? ==> signal.value < |w.consumers|)
    case Worker(c, stage) =>
      && c < |w.consumers|
      && (IsBusy(stage) ==> Belongs(w, c, stage.delivery))
      && (stage.Holding? || stage.Backoff? ==> stage.delivery.attempts < BudgetAt(w, c))
      && (stage.Running? ==> 1 <= stage.delivery.attempts <= BudgetAt(w, c))
      && (stage.Parking? ==> stage.delivery.attempts == BudgetAt(w, c))
    case Timer(c, timer) =>
      && c < |w.consumers|
      && (timer.Waiting? || timer.Inserting? ==>
            Belongs(w, c, timer.delivery) && timer.delivery.attempts < BudgetAt(w, c))
    case Stopper(_) => true
  }

  ghost predicate QueueOk(w: World, c: nat)
    requires c < |w.consumers|
  {
    var queue := w.consumers[c].queue;
    && InOrder(queue)
    && forall i | 0 <= i < |queue| ::
         Belongs(w, c, queue[i]) && queue[i].attempts < BudgetAt(w, c) && queue[i].arrival < w.arrivals
  }

  ghost predicate LetterOk(w: World, letter: Letter) {
    && 1 <= letter.reference <= w.sequence
    && Belongs(w, letter.consumer, letter.delivery)
    && letter.delivery.attempts == BudgetAt(w, letter.consumer)
  }

  ghost predicate Letters(w: World) {
    && (forall i | 0 <= i < |w.letters| :: LetterOk(w, w.letters[i]))
    && (forall i, j | 0 <= i < j < |w.letters| :: w.letters[i].reference < w.letters[j].reference)
  }

  ghost predicate Revivals(w: World) {
    && (forall i | 0 <= i < |w.revived| :: w.revived[i] <= w.sequence)
    && (forall i, j | 0 <= i < |w.revived| && 0 <= j < |w.letters| :: w.revived[i] != w.letters[j].reference)
    && (forall i, j | 0 <= i < j < |w.revived| :: w.revived[i] != w.revived[j])
  }

  ghost predicate Contents(w: World) {
    && (forall i | 0 <= i < |w.goroutines| :: GoroutineOk(w, w.goroutines[i]))
    && (forall c | 0 <= c < |w.consumers| :: QueueOk(w, c))
    && Letters(w) && Revivals(w)
  }

  // ---------------------------------------------------------------- what only grows

  ghost predicate Grows(w: World, w': World) {
    && |w.consumers| <= |w'.consumers| && w.items <= w'.items && w.sequence <= w'.sequence && w.arrivals <= w'.arrivals
    && forall c | 0 <= c < |w.consumers| :: w'.consumers[c].configuration == w.consumers[c].configuration
  }

  lemma GrowsStep(w: World, e: Event)
    requires Enabled(w, e)
    ensures Grows(w, Apply(w, e))
  {
  }

  lemma BelongsGrows(w: World, w': World, c: nat, d: Delivery)
    requires Grows(w, w') && Belongs(w, c, d)
    ensures Belongs(w', c, d) && BudgetAt(w', c) == BudgetAt(w, c)
  {
  }

  lemma GoroutineGrows(w: World, w': World, g: Goroutine)
    requires Grows(w, w') && GoroutineOk(w, g)
    ensures GoroutineOk(w', g)
  {
    if g.Caller? {
      forall i | 0 <= i < |g.parcels| ensures Belongs(w', g.parcels[i].consumer, g.parcels[i].delivery) {
        BelongsGrows(w, w', g.parcels[i].consumer, g.parcels[i].delivery);
      }
    }
  }

  // ---------------------------------------------------------------- goroutines

  /** The acting goroutine passes on what it held, or takes the head of its queue. */
  lemma ActingOk(w: World, e: Event)
    requires Enabled(w, e) && Acts(e) && GoroutineOk(w, w.goroutines[e.g])
    requires forall c | 0 <= c < |w.consumers| :: QueueOk(w, c)
    ensures GoroutineOk(w, NextState(w, e))
  {
    if e.Poll? {
      assert QueueOk(w, w.goroutines[e.g].consumer);
    }
  }

  lemma {:induction false} NewParcelsOk(w: World, targets: seq<nat>, all: seq<nat>, from: nat, date: Time)
    requires forall i | 0 <= i < |all| :: all[i] < |w.consumers|
    requires |targets| <= |all| && targets == all[|all| - |targets|..]
    requires from == |w.items| - |targets| && |all| <= |w.items|
    requires w.items[|w.items| - |all|..] == Origins(all, date)
    ensures GoroutineOk(w, Caller(Parcels(targets, from, date), None))
  {
    if targets != [] {
      NewParcelsOk(w, targets[1..], all, from + 1, date);
      var parcels := Parcels(targets, from, date);
      assert w.items[|w.items| - |all|..][|all| - |targets|] == w.items[from];
      assert Belongs(w, parcels[0].consumer, parcels[0].delivery);
      forall i | 0 <= i < |parcels|
        ensures Belongs(w, parcels[i].consumer, parcels[i].delivery) && parcels[i].delivery.attempts == 0
      {
        assert i > 0 ==> parcels[i] == Parcels(targets[1..], from + 1, date)[i - 1];
      }
    }
  }

  lemma SpawnedOk(w: World, e: Event, i: nat)
    requires Contents(w) && Enabled(w, e) && i < |Spawned(w, e)|
    ensures GoroutineOk(Apply(w, e), Spawned(w, e)[i])
  {
    var w' := Apply(w, e);
    match e {
      case Subscribe(configuration) =>
        WorkersAt(|w.consumers|, WorkersOf(configuration), i);
      case Publish(targets, date) =>
        assert w'.items[|w.items|..] == Origins(targets, date);
        NewParcelsOk(w', targets, targets, |w.items|, date);
      case Revive(reference) =>
        assert LetterOk(w, w.letters[Find(w.letters, reference).value]);
      case Deliver(g, _) =>
        assert GoroutineOk(w, w.goroutines[g]);
      case _ =>
    }
  }

  lemma WokenByOk(w: World, e: Event, i: nat)
    requires Contents(w) && Enabled(w, e) && i < |w.goroutines|
    ensures GoroutineOk(w, WokenBy(w, e)[i])
  {
    assert GoroutineOk(w, w.goroutines[i]);
    if e.Broadcast? {
      WakeAllAt(w.goroutines, w.goroutines[e.g].phase.next, i);
    }
  }

  lemma GoroutinesStep(w: World, e: Event, i: nat)
    requires Contents(w) && Enabled(w, e) && i < |NextGoroutines(w, e)|
    ensures GoroutineOk(Apply(w, e), NextGoroutines(w, e)[i])
  {
    GrowsStep(w, e);
    if i >= |w.goroutines| {
      SpawnedOk(w, e, i - |w.goroutines|);
    } else {
      WokenByOk(w, e, i);
      if Acts(e) && e.g == i {
        ActingOk(w, e);
      }
      hide Contents, GoroutineOk, Enabled, Grows, NextState, WokenBy, Spawned;
      GoroutineGrows(w, Apply(w, e), NextGoroutines(w, e)[i]);
    }
  }

  // ---------------------------------------------------------------- queues

  lemma EnqueueOk(w: World, e: Event)
    requires Contents(w) && Enabled(w, e) && e.Enqueue?
    ensures QueueOk(Apply(w, e), Parcelled(w.goroutines[e.g]).consumer)
  {
    var parcel := Parcelled(w.goroutines[e.g]);
    var c := parcel.consumer;
    var d := parcel.delivery.(arrival := w.arrivals);
    var queue := w.consumers[c].queue;
    assert GoroutineOk(w, w.goroutines[e.g]) && QueueOk(w, c);
    InsertedInOrder(queue, d);
    GrowsStep(w, e);
    var w' := Apply(w, e);
    assert w'.consumers[c].queue == Inserted(queue, d) && w'.arrivals == w.arrivals + 1;
    assert Belongs(w, c, d) && d.attempts < BudgetAt(w, c);
    hide Enabled, Apply, Contents, InOrder;
    forall i | 0 <= i < |Inserted(queue, d)|
      ensures var x := Inserted(queue, d)[i];
              Belongs(w', c, x) && x.attempts < BudgetAt(w', c) && x.arrival < w'.arrivals
    {
      MemberOfInserted(queue, d, i);
      var x := Inserted(queue, d)[i];
      assert x == d || exists k :: 0 <= k < |queue| && queue[k] == x;
      BelongsGrows(w, w', c, x);
    }
  }

  lemma PopOk(w: World, c: nat)
    requires c < |w.consumers| && QueueOk(w, c) && w.consumers[c].queue != []
    ensures QueueOk(w.(consumers := w.consumers[c := w.consumers[c].(queue := w.consumers[c].queue[1..])]), c)
  {
  }

  lemma QueueGrows(w: World, w': World, c: nat)
    requires c < |w.consumers| && QueueOk(w, c) && Grows(w, w') && w'.consumers[c].queue == w.consumers[c].queue
    ensures QueueOk(w', c)
  {
    forall i | 0 <= i < |w.consumers[c].queue|
      ensures Belongs(w', c, w.consumers[c].queue[i]) && BudgetAt(w', c) == BudgetAt(w, c)
    {
      BelongsGrows(w, w', c, w.consumers[c].queue[i]);
    }
  }

  lemma QueuesOkStep(w: World, e: Event, c: nat)
    requires Contents(w) && Enabled(w, e) && c < |NextConsumers(w, e)|
    ensures QueueOk(Apply(w, e), c)
  {
    var w' := Apply(w, e);
    GrowsStep(w, e);
    if c == |w.consumers| {
    } else if e.Enqueue? && Parcelled(w.goroutines[e.g]).consumer == c {
      EnqueueOk(w, e);
    } else if e.Poll? && w'.consumers[c].queue != w.consumers[c].queue {
      assert QueueOk(w, c);
      var popped := w.(consumers := w.consumers[c := w.consumers[c].(queue := w.consumers[c].queue[1..])]);
      PopOk(w, c);
      QueueGrows(popped, w', c);
    } else {
      assert QueueOk(w, c);
      QueueGrows(w, w', c);
    }
  }

  // ---------------------------------------------------------------- dead letters

  lemma LettersOkStep(w: World, e: Event)
    requires Contents(w) && Enabled(w, e)
    ensures Letters(Apply(w, e))
  {
    var w' := Apply(w, e);
    GrowsStep(w, e);
    if e.Park? {
      assert GoroutineOk(w, w.goroutines[e.g]);
    }
    forall i | 0 <= i < |w'.letters| ensures LetterOk(w', w'.letters[i]) {
      LetterCameFrom(w, e, i);
      if !(e.Park? && i == |w.letters|) {
        var k :| 0 <= k < |w.letters| && w.letters[k] == w'.letters[i];
        assert LetterOk(w, w.letters[k]);
        BelongsGrows(w, w', w.letters[k].consumer, w.letters[k].delivery);
      }
    }
    LettersOrderStep(w, e);
    hide Enabled, NextLetters, LetterOk, Contents;
  }

  lemma LettersOrderStep(w: World, e: Event)
    requires Contents(w) && Enabled(w, e)
    ensures forall i, j | 0 <= i < j < |NextLetters(w, e)| ::
              NextLetters(w, e)[i].reference < NextLetters(w, e)[j].reference
  {
    if e.Revive? {
      var index := Find(w.letters, e.reference).value;
      var after := NextLetters(w, e);
      assert forall i | 0 <= i < |after| :: after[i] == w.letters[if i < index then i else i + 1];
    } else {
      assert forall i | 0 <= i < |w.letters| :: LetterOk(w, w.letters[i]);
    }
  }

  lemma LetterCameFrom(w: World, e: Event, i: nat)
    requires Enabled(w, e) && i < |NextLetters(w, e)|
    ensures (e.Park? && i == |w.letters|) || exists k :: 0 <= k < |w.letters| && w.letters[k] == NextLetters(w, e)[i]
  {
    if e.Revive? {
      var index := Find(w.letters, e.reference).value;
      assert NextLetters(w, e)[i] == w.letters[if i < index then i else i + 1];
    } else if i < |w.letters| {
      assert NextLetters(w, e)[i] == w.letters[i];
    }
  }

  lemma RevivalsStep(w: World, e: Event)
    requires Contents(w) && Enabled(w, e)
    ensures Revivals(Apply(w, e))
  {
    var w' := Apply(w, e);
    forall i, j | 0 <= i < |w'.revived| && 0 <= j < |w'.letters| ensures w'.revived[i] != w'.letters[j].reference {
      RevivedIsGone(w, e, i, j);
    }
    if e.Revive? {
      var index := Find(w.letters, e.reference).value;
      assert LetterOk(w, w.letters[index]);
    }
  }

  lemma RevivedIsGone(w: World, e: Event, i: nat, j: nat)
    requires Contents(w) && Enabled(w, e) && i < |Apply(w, e).revived| && j < |NextLetters(w, e)|
    ensures Apply(w, e).revived[i] != NextLetters(w, e)[j].reference
  {
    if e.Revive? {
      var index := Find(w.letters, e.reference).value;
      assert NextLetters(w, e)[j] == w.letters[if j < index then j else j + 1];
      assert i == |w.revived| ==> Apply(w, e).revived[i] == w.letters[index].reference;
    }
  }

  lemma ContentsStep(w: World, e: Event)
    requires Contents(w) && Enabled(w, e)
    ensures Contents(Apply(w, e))
  {
    var w' := Apply(w, e);
    LettersOkStep(w, e);
    RevivalsStep(w, e);
    hide GoroutineOk, QueueOk, Letters, Revivals, Enabled, Contents;
    forall i | 0 <= i < |w'.goroutines| ensures GoroutineOk(w', w'.goroutines[i]) {
      GoroutinesStep(w, e, i);
    }
    forall c | 0 <= c < |w'.consumers| ensures QueueOk(w', c) {
      QueuesOkStep(w, e, c);
    }
    ContentsFrom(w');
  }

  lemma ContentsFrom(w: World)
    requires forall i | 0 <= i < |w.goroutines| :: GoroutineOk(w, w.goroutines[i])
    requires forall c | 0 <= c < |w.consumers| :: QueueOk(w, c)
    requires Letters(w) && Revivals(w)
    ensures Contents(w)
  {
  }

  lemma {:induction false} ContentsHold(events: seq<Event>, w: World)
    requires Exec(events) == Some(w)
    ensures Contents(w)
  {
    if events != [] {
      var last := |events| - 1;
      var before := Exec(events[..last]).value;
      ContentsHold(events[..last], before);
      hide Contents, Enabled, Apply;
      ContentsStep(before, events[last]);
    }
  }
}
