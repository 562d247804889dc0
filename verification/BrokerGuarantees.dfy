/** What the in-memory broker promises its callers, over every run. */
module BrokerGuarantees {
  import opened Wrappers
  import opened BrokerModel
  import opened BrokerProtocol
  import opened BrokerCounting
  import opened BrokerConservation
  import opened BrokerContents
  import opened BrokerWakeup

  /**
   Each delivery created is in exactly one place: a hand, a worker or a retry
   timer, a queue, the dead letters, or done; it is abandoned only after Stop
   cancelled the workers.
   */
  lemma EveryDeliveryInOnePlace(events: seq<Event>, w: World, item: nat)
    requires Exec(events) == Some(w) && item < |w.items|
    ensures Count(w.goroutines, Carrying(item)) + InQueues(w.consumers, item) + InLetters(w.letters, item)
            + Among(w.done, item) + Among(w.dropped, item) == 1
    ensures !w.cancelled ==>
              Count(w.goroutines, Carrying(item)) + InQueues(w.consumers, item) + InLetters(w.letters, item)
              + Among(w.done, item) == 1
  {
    PlacesHold(events, w, item);
    SoundHolds(events, w);
    if !w.cancelled {
      assert Among([], item) == 0;
    }
  }

  /** Every queue is in publication order, ties in order of arrival, and holds only deliveries of its consumer. */
  lemma QueuesInPublicationOrder(events: seq<Event>, w: World, c: nat, i: nat)
    requires Exec(events) == Some(w) && c < |w.consumers| && i < |w.consumers[c].queue|
    ensures InOrder(w.consumers[c].queue)
    ensures var d := w.consumers[c].queue[i];
            d.item < |w.items| && w.items[d.item] == Origin(c, d.date)
  {
    ContentsHold(events, w);
    assert QueueOk(w, c);
    assert Belongs(w, c, w.consumers[c].queue[i]);
  }

  /**
   A dead letter consumed exactly the attempt budget of its consumer, which is
   registered; references are unique, and one is revived at most once.
   */
  lemma DeadLettersAreExhausted(events: seq<Event>, w: World)
    requires Exec(events) == Some(w)
    ensures forall i | 0 <= i < |w.letters| ::
              && w.letters[i].consumer < |w.consumers|
              && w.letters[i].delivery.attempts == BudgetAt(w, w.letters[i].consumer)
    ensures forall i, j | 0 <= i < j < |w.letters| :: w.letters[i].reference != w.letters[j].reference
    ensures forall i, j | 0 <= i < j < |w.revived| :: w.revived[i] != w.revived[j]
  {
    ContentsHold(events, w);
    forall i | 0 <= i < |w.letters|
      ensures w.letters[i].consumer < |w.consumers|
           && w.letters[i].delivery.attempts == BudgetAt(w, w.letters[i].consumer)
    {
      assert LetterOk(w, w.letters[i]);
    }
  }

  /** No handler call goes beyond the attempt budget. */
  lemma AttemptsWithinBudget(events: seq<Event>, w: World, g: nat)
    requires Exec(events) == Some(w)
    requires g < |w.goroutines| && w.goroutines[g].Worker? && w.goroutines[g].stage.Running?
    ensures w.goroutines[g].consumer < |w.consumers|
    ensures 1 <= w.goroutines[g].stage.delivery.attempts <= BudgetAt(w, w.goroutines[g].consumer)
  {
    ContentsHold(events, w);
    assert GoroutineOk(w, w.goroutines[g]);
  }

  // ---------------------------------------------------------------- a second Stop

  const ONE := Configuration(Fifo, 5, 8)

  const SECOND_STOP := [Subscribe(ONE), Publish([0], 0), Enqueue(1), Poll(0), Begin(0), Stop, Stop]

  function ItemAt(attempts: nat): Delivery {
    Delivery(0, attempts, 0, 0)
  }

  /** The state after the first n events. */
  function SecondStopState(n: nat): World {
    World(
      if n == 0 then [] else [Consumer(ONE, if n == 3 then [ItemAt(0)] else [], false)],
      (if n == 0 then []
       else [Worker(0, if n <= 3 then Polling
                       else if n == 4 then BrokerProtocol.Holding(ItemAt(0)) else Running(ItemAt(1)))])
      + (if n <= 1 then [] else [if n == 2 then Caller([Parcel(0, ItemAt(0))], None) else Caller([], Some(0))])
      + (if n <= 5 then [] else [Stopper(Flagged)])
      + (if n <= 6 then [] else [Stopper(Returned(false))]),
      [], 0, n >= 6, false, if n == 0 then 0 else 1,
      if n <= 1 then [] else [Origin(0, 0)],
      if n <= 2 then 0 else 1, [], [], [])
  }

  lemma SubscribeStep()
    ensures Enabled(Init(), SECOND_STOP[0]) && Apply(Init(), SECOND_STOP[0]) == SecondStopState(1)
  {
    var w, after := Init(), SecondStopState(1);
    assert NextGoroutines(w, Subscribe(ONE)) == after.goroutines by {
      assert Workers(0, 0) == [] && Workers(0, 1) == Workers(0, 0) + [Worker(0, Polling)];
      assert after.goroutines == [Worker(0, Polling)];
      assert w.goroutines + Workers(0, 1) == [Worker(0, Polling)];
    }
    assert NextConsumers(w, Subscribe(ONE)) == after.consumers;
    hide NextGoroutines, NextConsumers, Workers;
  }

  lemma PublishStep()
    ensures Enabled(SecondStopState(1), SECOND_STOP[1])
    ensures Apply(SecondStopState(1), SECOND_STOP[1]) == SecondStopState(2)
  {
    assert [0][1..] == [];
    assert Parcels([], 1, 0) == [];
    assert Parcels([0], 0, 0) == [Parcel(0, ItemAt(0))];
    assert Origins([0], 0) == [Origin(0, 0)];
    var w := SecondStopState(1);
    assert w.items + Origins([0], 0) == [Origin(0, 0)];
    assert w.goroutines + [Caller([Parcel(0, ItemAt(0))], None)] == SecondStopState(2).goroutines;
  }

  lemma EnqueueStep()
    ensures Enabled(SecondStopState(2), SECOND_STOP[2])
    ensures Apply(SecondStopState(2), SECOND_STOP[2]) == SecondStopState(3)
  {
    var w := SecondStopState(2);
    assert w.goroutines[1] == Caller([Parcel(0, ItemAt(0))], None);
    assert [Parcel(0, ItemAt(0))][1..] == [];
    assert Inserted([], ItemAt(0)) == [ItemAt(0)];
    assert w.goroutines[1 := Caller([], Some(0))] + [] == SecondStopState(3).goroutines;
    assert NextConsumers(w, Enqueue(1)) == SecondStopState(3).consumers;
  }

  lemma WorkStep(n: nat)
    requires n == 3 || n == 4
    ensures Enabled(SecondStopState(n), SECOND_STOP[n])
    ensures Apply(SecondStopState(n), SECOND_STOP[n]) == SecondStopState(n + 1)
  {
    var w := SecondStopState(n);
    assert w.goroutines[0].Worker?;
    assert w.goroutines[0 := NextState(w, SECOND_STOP[n])] + [] == SecondStopState(n + 1).goroutines;
    assert [ItemAt(0)][1..] == [];
    assert NextConsumers(w, SECOND_STOP[n]) == SecondStopState(n + 1).consumers;
  }

  lemma StopStep(n: nat)
    requires n == 5 || n == 6
    ensures Enabled(SecondStopState(n), SECOND_STOP[n])
    ensures Apply(SecondStopState(n), SECOND_STOP[n]) == SecondStopState(n + 1)
  {
    assert SecondStopState(n).goroutines + Spawned(SecondStopState(n), SECOND_STOP[n])
        == SecondStopState(n + 1).goroutines;
  }

  lemma SecondStopStep(n: nat)
    requires n < |SECOND_STOP|
    ensures Enabled(SecondStopState(n), SECOND_STOP[n])
    ensures Apply(SecondStopState(n), SECOND_STOP[n]) == SecondStopState(n + 1)
  {
    SecondStopStart();
    hide SecondStopState, Apply, Enabled;
    if n == 0 {
      SubscribeStep();
    } else if n == 1 {
      PublishStep();
    } else if n == 2 {
      EnqueueStep();
    } else if n <= 4 {
      WorkStep(n);
    } else {
      StopStep(n);
    }
  }

  lemma SecondStopStart()
    ensures SecondStopState(0) == Init()
  {
  }

  lemma {:induction false} RunOf(all: seq<Event>, states: nat -> World, n: nat)
    requires n <= |all| && states(0) == Init()
    requires forall k | 0 <= k < |all| :: Enabled(states(k), all[k]) && Apply(states(k), all[k]) == states(k + 1)
    ensures Exec(all[..n]) == Some(states(n))
  {
    hide Apply, Enabled;
    if n > 0 {
      RunOf(all, states, n - 1);
      ExecNext(all[..n - 1], states(n - 1), all[n - 1]);
      assert all[..n - 1] + [all[n - 1]] == all[..n];
    }
  }

  lemma ExecNext(events: seq<Event>, w: World, e: Event)
    requires Exec(events) == Some(w) && Enabled(w, e)
    ensures Exec(events + [e]) == Some(Apply(w, e))
  {
    hide Apply, Enabled;
    assert (events + [e])[..|events + [e]| - 1] == events;
  }

  /** Only the Stop that stopped the broker waits: a second one returns while a handler still runs. */
  lemma SecondStopReturnsEarly() returns (w: World)
    ensures Exec(SECOND_STOP) == Some(w)
    ensures |w.goroutines| == 4 && w.goroutines[3] == Stopper(Returned(false))
    ensures w.goroutines[0].Worker? && w.goroutines[0].stage.Running?
  {
    w := SecondStopState(7);
    forall k | 0 <= k < |SECOND_STOP|
      ensures Enabled(SecondStopState(k), SECOND_STOP[k])
           && Apply(SecondStopState(k), SECOND_STOP[k]) == SecondStopState(k + 1)
    {
      SecondStopStep(k);
    }
    SecondStopStart();
    RunOf(SECOND_STOP, SecondStopState, 7);
    assert SECOND_STOP[..7] == SECOND_STOP;
  }
}
