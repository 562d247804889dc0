/**
 Where every delivery is, over every run of the in-memory broker: in exactly one
 place, in queues that stay in publication order, within its attempt budget.
 */
module BrokerConservation {
  import opened Wrappers
  import opened BrokerModel
  import opened BrokerProtocol
  import opened BrokerCounting

  // ---------------------------------------------------------------- counting places

  function InQueue(queue: seq<Delivery>, item: nat): nat {
    if queue == [] then 0
    else InQueue(queue[..|queue| - 1], item) + if queue[|queue| - 1].item == item then 1 else 0
  }

  function InQueues(consumers: seq<Consumer>, item: nat): nat {
    if consumers == [] then 0
    else InQueues(consumers[..|consumers| - 1], item) + InQueue(consumers[|consumers| - 1].queue, item)
  }

  function InLetters(letters: seq<Letter>, item: nat): nat {
    if letters == [] then 0
    else InLetters(letters[..|letters| - 1], item) + if letters[|letters| - 1].delivery.item == item then 1 else 0
  }

  function Among(items: seq<nat>, item: nat): nat {
    if items == [] then 0 else Among(items[..|items| - 1], item) + if items[|items| - 1] == item then 1 else 0
  }

  /** The places an item is in: hands, workers and timers; queues; dead letters; done; dropped. */
  function Places(w: World, item: nat): nat {
    Count(w.goroutines, Carrying(item)) + InQueues(w.consumers, item) + InLetters(w.letters, item)
    + Among(w.done, item) + Among(w.dropped, item)
  }

  lemma {:induction false} InQueueAppend(a: seq<Delivery>, b: seq<Delivery>, item: nat)
    ensures InQueue(a + b, item) == InQueue(a, item) + InQueue(b, item)
  {
    if b == [] {
      assert a + b == a;
    } else {
      assert (a + b)[..|a + b| - 1] == a + b[..|b| - 1];
      InQueueAppend(a, b[..|b| - 1], item);
    }
  }

  lemma InQueueFirst(queue: seq<Delivery>, item: nat)
    requires queue != []
    ensures InQueue(queue, item) == InQueue(queue[1..], item) + if queue[0].item == item then 1 else 0
  {
    InQueueAppend([queue[0]], queue[1..], item);
    assert queue == [queue[0]] + queue[1..];
    assert [queue[0]][..0] == [] && InQueue([], item) == 0;
  }

  lemma {:induction false} InQueueInserted(queue: seq<Delivery>, d: Delivery, item: nat)
    ensures InQueue(Inserted(queue, d), item) == InQueue(queue, item) + if d.item == item then 1 else 0
  {
    if queue == [] || queue[|queue| - 1].date <= d.date {
      assert (queue + [d])[..|queue|] == queue;
    } else {
      var front, last := queue[..|queue| - 1], queue[|queue| - 1];
      InQueueInserted(front, d, item);
      assert (Inserted(front, d) + [last])[..|queue|] == Inserted(front, d);
    }
  }

  lemma {:induction false} InQueuesSet(consumers: seq<Consumer>, c: nat, consumer: Consumer, item: nat)
    requires c < |consumers|
    ensures InQueues(consumers[c := consumer], item)
         == InQueues(consumers, item) - InQueue(consumers[c].queue, item) + InQueue(consumer.queue, item)
  {
    var last := |consumers| - 1;
    if c < last {
      InQueuesSet(consumers[..last], c, consumer, item);
      assert consumers[c := consumer][..last] == consumers[..last][c := consumer];
    } else {
      assert consumers[c := consumer][..last] == consumers[..last];
    }
  }

  lemma {:induction false} InLettersAppend(a: seq<Letter>, b: seq<Letter>, item: nat)
    ensures InLetters(a + b, item) == InLetters(a, item) + InLetters(b, item)
  {
    if b == [] {
      assert a + b == a;
    } else {
      assert (a + b)[..|a + b| - 1] == a + b[..|b| - 1];
      InLettersAppend(a, b[..|b| - 1], item);
    }
  }

  lemma InLettersOne(letter: Letter, item: nat)
    ensures InLetters([letter], item) == if letter.delivery.item == item then 1 else 0
  {
    assert [letter][..0] == [] && InLetters([], item) == 0;
  }

  lemma InLettersWithout(letters: seq<Letter>, index: nat, item: nat)
    requires index < |letters|
    ensures InLetters(letters, item)
         == InLetters(Without(letters, index), item) + if letters[index].delivery.item == item then 1 else 0
  {
    InLettersAppend(letters[..index], letters[index + 1..], item);
    InLettersAppend([letters[index]], letters[index + 1..], item);
    InLettersAppend(letters[..index], [letters[index]] + letters[index + 1..], item);
    InLettersOne(letters[index], item);
    assert letters == letters[..index] + ([letters[index]] + letters[index + 1..]);
  }

  lemma AmongAppend(items: seq<nat>, x: nat, item: nat)
    ensures Among(items + [x], item) == Among(items, item) + if x == item then 1 else 0
  {
    assert (items + [x])[..|items|] == items;
  }

  // ---------------------------------------------------------------- one step

  lemma QueuesStep(w: World, e: Event, item: nat)
    requires Enabled(w, e)
    ensures InQueues(NextConsumers(w, e), item)
         == if e.Enqueue? then
              InQueues(w.consumers, item) + (if Parcelled(w.goroutines[e.g]).delivery.item == item then 1 else 0)
            else if e.Poll? && NextState(w, e).stage.Holding? then
              InQueues(w.consumers, item) - (if NextState(w, e).stage.delivery.item == item then 1 else 0)
            else InQueues(w.consumers, item)
  {
    match e {
      case Subscribe(configuration) =>
        assert NextConsumers(w, e)[..|w.consumers|] == w.consumers;
        assert InQueue([], item) == 0;
      case Enqueue(g) =>
        var parcel := Parcelled(w.goroutines[g]);
        InQueuesSet(w.consumers, parcel.consumer, NextConsumers(w, e)[parcel.consumer], item);
        InQueueInserted(w.consumers[parcel.consumer].queue, parcel.delivery.(arrival := w.arrivals), item);
      case Poll(g) =>
        var c := w.goroutines[g].consumer;
        if !w.consumers[c].stopped && w.consumers[c].queue != [] {
          InQueuesSet(w.consumers, c, NextConsumers(w, e)[c], item);
          InQueueFirst(w.consumers[c].queue, item);
        }
      case StopConsumer(g) =>
        var c := w.goroutines[g].phase.next;
        InQueuesSet(w.consumers, c, NextConsumers(w, e)[c], item);
      case _ =>
    }
  }

  lemma LettersStep(w: World, e: Event, item: nat)
    requires Enabled(w, e)
    ensures InLetters(NextLetters(w, e), item)
         == if e.Park? then
              InLetters(w.letters, item) + (if w.goroutines[e.g].stage.delivery.item == item then 1 else 0)
            else if e.Revive? then
              InLetters(w.letters, item)
              - (if w.letters[Find(w.letters, e.reference).value].delivery.item == item then 1 else 0)
            else InLetters(w.letters, item)
  {
    if e.Park? {
      var letter := Letter(w.sequence + 1, w.goroutines[e.g].consumer, w.goroutines[e.g].stage.delivery);
      InLettersAppend(w.letters, [letter], item);
      InLettersOne(letter, item);
    } else if e.Revive? {
      InLettersWithout(w.letters, Find(w.letters, e.reference).value, item);
    }
  }

  lemma DroppedStep(w: World, e: Event, item: nat)
    requires Enabled(w, e)
    ensures Among(NextDropped(w, e), item)
         == Among(w.dropped, item)
            + if (e.Begin? && w.cancelled) || e.Interrupt? then Carried(w.goroutines[e.g], item) else 0
  {
    if (e.Begin? && w.cancelled) || e.Interrupt? {
      AmongAppend(w.dropped, NextDropped(w, e)[|w.dropped|], item);
    }
  }

  lemma CarriedStep(w: World, e: Event, item: nat)
    requires Enabled(w, e)
    ensures Count(NextGoroutines(w, e), Carrying(item)) - Count(Spawned(w, e), Carrying(item))
         == Count(w.goroutines, Carrying(item))
            + if Acts(e) then Carried(NextState(w, e), item) - Carried(w.goroutines[e.g], item) else 0
  {
    CountStep(w, e, Carrying(item));
    CountWokenBy(w, e, Carrying(item));
    hide NextGoroutines, Spawned, WokenBy, Count, Carried;
  }

  /** What the acting goroutine gives away or takes up. */
  lemma HandedOver(w: World, e: Event, item: nat)
    requires Enabled(w, e) && Acts(e)
    ensures Carried(w.goroutines[e.g], item)
         == Carried(NextState(w, e), item)
            + (if e.Enqueue? then (if Parcelled(w.goroutines[e.g]).delivery.item == item then 1 else 0)
               else if e.Poll? && NextState(w, e).stage.Holding? then
                 -(if NextState(w, e).stage.delivery.item == item then 1 else 0)
               else if (e.Begin? && w.cancelled) || e.Interrupt? || e.Park? || Retries(w, e) || (e.Deliver? && e.good)
               then Carried(w.goroutines[e.g], item)
               else 0)
  {
  }

  /** Every step keeps an item in its place or moves it to one other place. */
  lemma PlacesStep(w: World, e: Event, item: nat)
    requires Enabled(w, e)
    ensures Places(Apply(w, e), item)
         == Places(w, item) + if e.Publish? && |w.items| <= item < |w.items| + |e.targets| then 1 else 0
  {
    QueuesStep(w, e, item);
    LettersStep(w, e, item);
    DroppedStep(w, e, item);
    CarriedStep(w, e, item);
    CarriedSpawned(w, e, item);
    if Acts(e) {
      HandedOver(w, e, item);
    }
    if e.Deliver? && e.good {
      AmongAppend(w.done, w.goroutines[e.g].stage.delivery.item, item);
    }
    hide NextConsumers, NextLetters, NextDropped, NextGoroutines, Spawned, Count, InQueues, InLetters, Among;
  }

  lemma {:induction false} PlacesHold(events: seq<Event>, w: World, item: nat)
    requires Exec(events) == Some(w)
    ensures Places(w, item) == if item < |w.items| then 1 else 0
  {
    if events != [] {
      var last := |events| - 1;
      var before := Exec(events[..last]).value;
      PlacesHold(events[..last], before, item);
      PlacesStep(before, events[last], item);
      hide Places, Enabled, NextConsumers, NextLetters, NextDropped, NextGoroutines, NextWait;
    }
  }
}
