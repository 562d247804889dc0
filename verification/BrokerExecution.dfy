/**
 The broker's objects under its goroutines: whatever the schedule, running each
 critical section in place on the consumers and the dead letters continues a run
 of the state machine, so what holds of all runs holds of the objects.
 */
module BrokerExecution {
  import opened Wrappers
  import opened BrokerModel
  import opened BrokerProtocol
  import opened BrokerGuarantees
  import opened MemoryBroker

  /** The stage a worker reaches by its turn at the queue. */
  function StageOf(turn: Turn): Stage {
    match turn
    case Took(delivery) => Holding(delivery)
    case Blocked => Sleeping
    case Leave => Exited
  }

  /** Steps that touch neither a queue nor the dead letters. */
  predicate OnlyGoroutines(e: Event) {
    || e.Signal? || e.Begin? || e.Deliver? || e.Fire? || e.Interrupt?
    || e.Cancel? || e.Broadcast? || e.StartWait? || e.Return?
  }

  /** The queue of a consumer is in order in every reachable state. */
  lemma Sorted(events: seq<Event>, w: World, c: nat)
    requires Exec(events) == Some(w) && c < |w.consumers|
    ensures InOrder(w.consumers[c].queue)
  {
    hide Exec;
    if w.consumers[c].queue != [] {
      QueuesInPublicationOrder(events, w, c, 0);
    }
  }

  lemma HeadPrecedes(queue: seq<Delivery>)
    requires InOrder(queue) && queue != []
    ensures queue == [queue[0]] + queue[1..] && forall d | d in queue[1..] :: Before(queue[0], d)
  {
  }

  lemma HeadIsOldest(events: seq<Event>, w: World, c: nat)
    requires Exec(events) == Some(w) && c < |w.consumers|
    ensures var queue := w.consumers[c].queue;
            queue != [] ==> queue == [queue[0]] + queue[1..] && forall d | d in queue[1..] :: Before(queue[0], d)
  {
    hide Exec, InOrder, Before;
    if w.consumers[c].queue != [] {
      Sorted(events, w, c);
      HeadPrecedes(w.consumers[c].queue);
    }
  }

  /** What a worker's turn at the queue does to the state. */
  lemma PollEffect(w: World, g: nat)
    requires Enabled(w, Poll(g))
    ensures var c := w.goroutines[g].consumer;
            var consumer := w.consumers[c];
            var turn := if consumer.stopped then Leave else if consumer.queue == [] then Blocked
                        else Took(consumer.queue[0]);
            && Apply(w, Poll(g)).goroutines == w.goroutines[g := Worker(c, StageOf(turn))]
            && Apply(w, Poll(g)).consumers
               == w.consumers[c := if turn.Took? then consumer.(queue := consumer.queue[1..]) else consumer]
    ensures KeepsLetters(w, Poll(g))
    ensures Apply(w, Poll(g)).arrivals == w.arrivals
  {
  }

  lemma EnqueueEffect(w: World, g: nat)
    requires Enabled(w, Enqueue(g))
    ensures var parcel := Parcelled(w.goroutines[g]);
            var consumer := w.consumers[parcel.consumer];
            Apply(w, Enqueue(g)).consumers == w.consumers[parcel.consumer :=
              consumer.(queue := Inserted(consumer.queue, parcel.delivery.(arrival := w.arrivals)))]
    ensures KeepsLetters(w, Enqueue(g))
    ensures Apply(w, Enqueue(g)).arrivals == w.arrivals + 1
  {
  }

  predicate KeepsLetters(w: World, e: Event)
    requires Enabled(w, e)
  {
    && Apply(w, e).letters == w.letters && Apply(w, e).sequence == w.sequence && Apply(w, e).stopped == w.stopped
  }

  lemma ParkEffect(w: World, g: nat)
    requires Enabled(w, Park(g))
    ensures var w' := Apply(w, Park(g));
            && w'.consumers == w.consumers && w'.arrivals == w.arrivals && w'.stopped == w.stopped
            && w'.sequence == w.sequence + 1
            && w'.letters ==
               w.letters + [Letter(w.sequence + 1, w.goroutines[g].consumer, w.goroutines[g].stage.delivery)]
  {
  }

  lemma ReviveEffect(w: World, reference: nat)
    requires !w.stopped && Find(w.letters, reference).Some?
    ensures Enabled(w, Revive(reference))
    ensures var w' := Apply(w, Revive(reference));
            var index := Find(w.letters, reference).value;
            && w'.consumers == w.consumers && w'.arrivals == w.arrivals && w'.stopped == w.stopped
            && w'.sequence == w.sequence && w'.letters == Without(w.letters, index)
            && w'.goroutines == w.goroutines
                 + [Caller([Parcel(w.letters[index].consumer, Revived(w.letters[index].delivery))], None)]
  {
  }

  /** A reference is found at most once, so without its letter it is found no more. */
  lemma TakenOut(events: seq<Event>, w: World, reference: nat)
    requires Exec(events) == Some(w) && Find(w.letters, reference).Some?
    ensures var index := Find(w.letters, reference).value;
            var rest := Without(w.letters, index);
            && w.letters[index].consumer < |w.consumers|
            && forall i | 0 <= i < |rest| :: rest[i].reference != reference
  {
    DeadLettersAreExhausted(events, w);
  }

  /** The reference just drawn is new. */
  lemma ReferenceIsNew(events: seq<Event>, w: World, letters: seq<Letter>, c: nat, delivery: Delivery)
    requires Exec(events) == Some(w) && w.letters == letters + [Letter(w.sequence, c, delivery)]
    ensures forall i | 0 <= i < |letters| :: letters[i].reference != w.sequence
  {
    DeadLettersAreExhausted(events, w);
    assert w.letters[|letters|].reference == w.sequence;
    forall i | 0 <= i < |letters| ensures letters[i].reference != w.sequence {
      assert w.letters[i] == letters[i];
    }
  }

  /** The consumer as its workers see it. */
  ghost function View(consumer: MemoryConsumer): Consumer
    reads consumer
  {
    Consumer(consumer.configuration, consumer.queue, consumer.stopped)
  }

  ghost predicate Matches(objects: seq<MemoryConsumer>, consumers: seq<Consumer>)
    reads objects
  {
    && |objects| == |consumers|
    && (forall i, j | 0 <= i < j < |objects| :: objects[i] != objects[j])
    && (forall i | 0 <= i < |objects| :: View(objects[i]) == consumers[i])
  }

  /** All objects but one match, whatever the one may be. */
  ghost predicate OthersMatch(objects: seq<MemoryConsumer>, consumers: seq<Consumer>, c: nat)
    requires c < |objects|
    reads set i | 0 <= i < |objects| && objects[i] != objects[c] :: objects[i]
  {
    && |objects| == |consumers|
    && (forall i, j | 0 <= i < j < |objects| :: objects[i] != objects[j])
    && (forall i | 0 <= i < |objects| && objects[i] != objects[c] :: View(objects[i]) == consumers[i])
  }

  lemma MatchesAt(objects: seq<MemoryConsumer>, consumers: seq<Consumer>, c: nat)
    requires Matches(objects, consumers) && c < |objects|
    ensures |objects| == |consumers| && View(objects[c]) == consumers[c] && OthersMatch(objects, consumers, c)
  {
  }

  /** Updating one object updates one consumer. */
  lemma MatchesUpdated(objects: seq<MemoryConsumer>, consumers: seq<Consumer>, c: nat)
    requires c < |objects| && OthersMatch(objects, consumers, c)
    ensures Matches(objects, consumers[c := View(objects[c])])
  {
  }

  class Broker {
    var consumers: seq<MemoryConsumer>
    const deadLetters: DeadLetters
    var arrivals: nat
    ghost var events: seq<Event>
    ghost var world: World

    constructor ()
      ensures Valid() && consumers == [] && events == []
    {
      consumers, arrivals := [], 0;
      deadLetters := new DeadLetters();
      events, world := [], Init();
    }

    /** The objects are where the recorded run led. */
    ghost predicate Valid()
      reads this, consumers, deadLetters
    {
      && Exec(events) == Some(world)
      && Matches(consumers, world.consumers)
      && deadLetters.letters == world.letters
      && deadLetters.sequence == world.sequence
      && deadLetters.stopped == world.stopped
      && arrivals == world.arrivals
    }

    ghost method Record(e: Event)
      requires Exec(events) == Some(world) && Enabled(world, e)
      modifies `events, `world
      ensures events == old(events) + [e] && world == Apply(old(world), e)
      ensures Exec(events) == Some(world)
    {
      assert (events + [e])[..|events + [e]| - 1] == events;
      events, world := events + [e], Apply(world, e);
    }

    /** Any step of the goroutines outside the critical sections leaves the objects alone. */
    ghost method Elsewhere(e: Event)
      requires Valid() && Enabled(world, e) && OnlyGoroutines(e)
      modifies `events, `world
      ensures Valid() && events == old(events) + [e] && world == Apply(old(world), e)
    {
      hide Exec;
      Record(e);
    }

    method Subscribe(configuration: Configuration) returns (accepted: bool)
      requires Valid()
      modifies `consumers, `events, `world
      ensures Valid() && accepted == !deadLetters.stopped
      ensures !accepted ==> consumers == old(consumers) && events == old(events)
      ensures accepted ==> |consumers| == |old(consumers)| + 1 && consumers[..|consumers| - 1] == old(consumers)
      ensures accepted ==>
                && fresh(consumers[|old(consumers)|])
                && events == old(events) + [Event.Subscribe(configuration)]
    {
      hide Exec;
      if deadLetters.stopped {
        return false;
      }
      var consumer := new MemoryConsumer(configuration);
      consumers := consumers + [consumer];
      Record(Event.Subscribe(configuration));
      accepted := true;
    }

    /** Only draws up the parcels: the caller inserts them afterwards, outside the broker's mutex. */
    method Publish(targets: seq<nat>, date: Time) returns (accepted: bool)
      requires Valid() && forall i | 0 <= i < |targets| :: targets[i] < |consumers|
      modifies `events, `world
      ensures Valid() && accepted == !deadLetters.stopped
      ensures events == if accepted then old(events) + [Event.Publish(targets, date)] else old(events)
    {
      hide Exec;
      if deadLetters.stopped {
        return false;
      }
      Record(Event.Publish(targets, date));
      accepted := true;
    }

    /** The queue stays in publication order, and the delivery a worker takes precedes all it leaves. */
    method Await(c: nat, consumer: MemoryConsumer, ghost g: nat) returns (turn: Turn)
      requires Valid() && c < |consumers| && consumers[c] == consumer
      requires Enabled(world, Poll(g)) && world.goroutines[g].consumer == c
      modifies `events, `world, consumer`queue
      ensures Valid() && events == old(events) + [Poll(g)]
      ensures world.goroutines == old(world.goroutines)[g := Worker(c, StageOf(turn))]
      ensures turn.Took? ==>
                && old(consumer.queue) == [turn.delivery] + consumer.queue
                && forall d | d in consumer.queue :: Before(turn.delivery, d)
    {
      HeadIsOldest(events, world, c);
      PollEffect(world, g);
      hide Exec, Apply, Enabled, Before, Matches, OthersMatch;
      MatchesAt(consumers, world.consumers, c);
      turn := consumer.Await();
      MatchesUpdated(consumers, world.consumers, c);
      Record(Poll(g));
    }

    method Enqueue(c: nat, consumer: MemoryConsumer, delivery: Delivery, ghost g: nat)
      requires Valid() && c < |consumers| && consumers[c] == consumer
      requires Enabled(world, Event.Enqueue(g)) && Parcelled(world.goroutines[g]) == Parcel(c, delivery)
      modifies `events, `world, `arrivals, consumer`queue
      ensures Valid() && events == old(events) + [Event.Enqueue(g)]
      ensures InOrder(consumer.queue)
      ensures multiset(consumer.queue)
           == multiset(old(consumer.queue)) + multiset{delivery.(arrival := old(arrivals))}
    {
      InsertedMembers(consumer.queue, delivery.(arrival := arrivals));
      EnqueueEffect(world, g);
      hide Exec, Apply, Enabled, InOrder, Inserted, Matches, OthersMatch;
      MatchesAt(consumers, world.consumers, c);
      consumer.Enqueue(delivery.(arrival := arrivals));
      MatchesUpdated(consumers, world.consumers, c);
      arrivals := arrivals + 1;
      Record(Event.Enqueue(g));
      MatchesAt(consumers, world.consumers, c);
      Sorted(events, world, c);
    }

    method StopConsumer(c: nat, consumer: MemoryConsumer, ghost g: nat)
      requires Valid() && c < |consumers| && consumers[c] == consumer
      requires Enabled(world, Event.StopConsumer(g)) && world.goroutines[g].phase.next == c
      modifies `events, `world, consumer`stopped
      ensures Valid() && events == old(events) + [Event.StopConsumer(g)]
      ensures consumer.stopped
    {
      hide Exec, Matches, OthersMatch;
      MatchesAt(consumers, world.consumers, c);
      consumer.Stop();
      MatchesUpdated(consumers, world.consumers, c);
      Record(Event.StopConsumer(g));
    }

    /** The letter goes to the end, under a reference no other letter has. */
    method Park(c: nat, delivery: Delivery, ghost g: nat)
      requires Valid() && Enabled(world, Event.Park(g)) && world.goroutines[g] == Worker(c, Parking(delivery))
      modifies `events, `world, deadLetters`letters, deadLetters`sequence
      ensures Valid() && events == old(events) + [Event.Park(g)]
      ensures deadLetters.letters == old(deadLetters.letters) + [Letter(deadLetters.sequence, c, delivery)]
      ensures forall i | 0 <= i < |old(deadLetters.letters)| ::
                old(deadLetters.letters)[i].reference != deadLetters.sequence
    {
      ParkEffect(world, g);
      hide Exec, Apply, Enabled, Matches, OthersMatch;
      ghost var before := deadLetters.letters;
      deadLetters.Park(c, delivery);
      Record(Event.Park(g));
      ReferenceIsNew(events, world, before, c, delivery);
    }

    /** A revived letter is in the caller's hand, bound for a consumer that is registered. */
    method Resubmit(reference: nat) returns (revived: Option<Letter>)
      requires Valid()
      modifies `events, `world, deadLetters`letters
      ensures Valid()
      ensures revived.None? <==>
                deadLetters.stopped || forall i | 0 <= i < |old(deadLetters.letters)| ::
                  old(deadLetters.letters)[i].reference != reference
      ensures revived.None? ==> deadLetters.letters == old(deadLetters.letters) && events == old(events)
      ensures revived.Some? ==>
                && events == old(events) + [Revive(reference)]
                && revived.value in old(deadLetters.letters) && revived.value.reference == reference
                && revived.value.consumer < |consumers|
                && world.goroutines == old(world.goroutines)
                     + [Caller([Parcel(revived.value.consumer, Revived(revived.value.delivery))], None)]
                && forall i | 0 <= i < |deadLetters.letters| :: deadLetters.letters[i].reference != reference
    {
      if !deadLetters.stopped && Find(world.letters, reference).Some? {
        TakenOut(events, world, reference);
        ReviveEffect(world, reference);
      }
      hide Exec, Apply, Enabled, Matches, Without;
      revived := deadLetters.Resubmit(reference);
      if revived.Some? {
        Record(Revive(reference));
      }
    }

    /** Whether this call is the one that will wait. */
    method Stop() returns (first: bool)
      requires Valid()
      modifies `events, `world, deadLetters`stopped
      ensures Valid() && events == old(events) + [Event.Stop]
      ensures deadLetters.stopped && first == !old(deadLetters.stopped)
      ensures world.goroutines == old(world.goroutines) + [Stopper(if first then Flagged else Returned(false))]
    {
      hide Exec;
      first := !deadLetters.stopped;
      deadLetters.stopped := true;
      Record(Event.Stop);
    }
  }
}
