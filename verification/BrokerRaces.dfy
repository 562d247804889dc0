/** A run in which two publishers reverse the order of a FIFO consumer. */
module BrokerRaces {
  import opened Wrappers
  import opened BrokerModel
  import opened BrokerProtocol
  import opened BrokerGuarantees
  import opened BrokerOrder

  /** A run so far, the state it reaches, and what its one consumer took. */
  ghost predicate At(events: seq<Event>, w: World, taken: seq<Delivery>) {
    Exec(events) == Some(w) && Taken(events, 0) == taken
  }

  /** One consumer that is running, with its worker. */
  ghost predicate OneConsumer(w: World) {
    && |w.consumers| == 1 && w.consumers[0].configuration == ONE && !w.consumers[0].stopped
    && !w.stopped && !w.cancelled && w.goroutines != [] && w.goroutines[0].Worker? && w.goroutines[0].consumer == 0
  }

  lemma Extend(events: seq<Event>, w: World, taken: seq<Delivery>, e: Event)
    requires At(events, w, taken) && Enabled(w, e)
    ensures At(events + [e], Apply(w, e), taken + TakenBy(w, e, 0))
  {
    assert (events + [e])[..|events + [e]| - 1] == events;
    hide Apply, Enabled, TakenBy;
  }

  function Fresh(item: nat, date: Time): Delivery {
    Delivery(item, 0, date, 0)
  }

  lemma Start() returns (events: seq<Event>, w: World)
    ensures At(events, w, []) && OneConsumer(w) && w.goroutines == [Worker(0, Polling)]
    ensures w.consumers[0].queue == [] && w.items == [] && w.arrivals == 0
  {
    SubscribeStep();
    SecondStopStart();
    w := SecondStopState(1);
    Extend([], Init(), [], Subscribe(ONE));
    events := [Subscribe(ONE)];
    assert [] + events == events && [] + TakenBy(Init(), Subscribe(ONE), 0) == [];
    hide Exec, Taken, Apply, Enabled;
  }

  lemma DoPublish(events: seq<Event>, w: World, taken: seq<Delivery>, date: Time) returns (later: seq<Event>)
    requires At(events, w, taken) && OneConsumer(w)
    ensures At(later, w.(goroutines := w.goroutines + [Caller([Parcel(0, Fresh(|w.items|, date))], None)],
                         items := w.items + [Origin(0, date)]), taken)
  {
    hide Exec, Taken;
    var e := Publish([0], date);
    assert [0][1..] == [] && Parcels([], |w.items| + 1, date) == [];
    assert Parcels([0], |w.items|, date) == [Parcel(0, Fresh(|w.items|, date))];
    assert Origins([0], date) == [Origin(0, date)];
    Extend(events, w, taken, e);
    assert taken + TakenBy(w, e, 0) == taken;
    later := events + [e];
  }

  lemma DoEnqueue(events: seq<Event>, w: World, taken: seq<Delivery>, g: nat, d: Delivery) returns (later: seq<Event>)
    requires At(events, w, taken) && OneConsumer(w) && w.consumers[0].queue == []
    requires g < |w.goroutines| && w.goroutines[g] == Caller([Parcel(0, d)], None)
    ensures At(later, w.(goroutines := w.goroutines[g := Caller([], Some(0))], arrivals := w.arrivals + 1,
                         consumers := [w.consumers[0].(queue := [d.(arrival := w.arrivals)])]), taken)
  {
    hide Exec, Taken;
    var e := Enqueue(g);
    assert [Parcel(0, d)][1..] == [];
    assert w.goroutines[g := Caller([], Some(0))] + [] == w.goroutines[g := Caller([], Some(0))];
    Extend(events, w, taken, e);
    assert taken + TakenBy(w, e, 0) == taken;
    assert Inserted([], d.(arrival := w.arrivals)) == [d.(arrival := w.arrivals)];
    assert NextConsumers(w, e) == [w.consumers[0].(queue := [d.(arrival := w.arrivals)])];
    later := events + [e];
  }

  lemma DoTake(events: seq<Event>, w: World, taken: seq<Delivery>, d: Delivery) returns (later: seq<Event>)
    requires At(events, w, taken) && OneConsumer(w) && w.consumers[0].queue == [d]
    requires w.goroutines[0] == Worker(0, Polling)
    ensures At(later, w.(goroutines := w.goroutines[0 := Worker(0, Holding(d))],
                         consumers := [w.consumers[0].(queue := [])]), taken + [d])
  {
    hide Exec, Taken;
    var e := Poll(0);
    assert [d][1..] == [];
    assert w.goroutines[0 := Worker(0, Holding(d))] + [] == w.goroutines[0 := Worker(0, Holding(d))];
    Extend(events, w, taken, e);
    assert NextConsumers(w, e) == [w.consumers[0].(queue := [])];
    later := events + [e];
  }

  /** The handler of what the worker holds is called and succeeds. */
  lemma DoHandle(events: seq<Event>, w: World, taken: seq<Delivery>, d: Delivery) returns (later: seq<Event>)
    requires At(events, w, taken) && OneConsumer(w) && w.goroutines[0] == Worker(0, Holding(d))
    ensures At(later, w.(goroutines := w.goroutines[0 := Worker(0, Polling)], done := w.done + [d.item]), taken)
  {
    hide Exec, Taken;
    var begun := w.(goroutines := w.goroutines[0 := Worker(0, Running(Attempted(d)))]);
    Extend(events, w, taken, Begin(0));
    assert taken + TakenBy(w, Begin(0), 0) == taken;
    assert w.goroutines[0 := Worker(0, Running(Attempted(d)))] + [] == begun.goroutines;
    assert Apply(w, Begin(0)) == begun;
    Extend(events + [Begin(0)], begun, taken, Deliver(0, true));
    assert taken + TakenBy(begun, Deliver(0, true), 0) == taken;
    assert begun.goroutines[0 := Worker(0, Polling)] + [] == w.goroutines[0 := Worker(0, Polling)];
    later := events + [Begin(0)] + [Deliver(0, true)];
  }

  /**
   The first publisher draws its date and pauses; the second publishes, and its
   event is processed; then the first one's event is inserted, and taken after it.
   */
  lemma RacingPublishersReorder() returns (events: seq<Event>, w: World)
    ensures Exec(events) == Some(w) && |w.consumers| == 1 && w.consumers[0].configuration.ordering == Fifo
    ensures Taken(events, 0) == [Delivery(1, 0, 2, 0), Delivery(0, 0, 1, 1)]
    ensures !DatesAscend(Taken(events, 0))
  {
    events, w := Start();
    hide Exec, Taken;
    var first, second := Fresh(0, 1), Fresh(1, 2);
    events := DoPublish(events, w, [], 1);
    w := w.(goroutines := w.goroutines + [Caller([Parcel(0, first)], None)], items := w.items + [Origin(0, 1)]);
    events := DoPublish(events, w, [], 2);
    w := w.(goroutines := w.goroutines + [Caller([Parcel(0, second)], None)], items := w.items + [Origin(0, 2)]);
    events := DoEnqueue(events, w, [], 2, second);
    w := w.(goroutines := w.goroutines[2 := Caller([], Some(0))], arrivals := 1,
            consumers := [w.consumers[0].(queue := [second])]);
    events := DoTake(events, w, [], second);
    w := w.(goroutines := w.goroutines[0 := Worker(0, Holding(second))],
            consumers := [w.consumers[0].(queue := [])]);
    events := DoHandle(events, w, [second], second);
    w := w.(goroutines := w.goroutines[0 := Worker(0, Polling)], done := w.done + [1]);
    events, w := FirstComesLate(events, w, first, second);
    assert Taken(events, 0)[0].date > Taken(events, 0)[1].date;
  }

  lemma FirstComesLate(before: seq<Event>, start: World, first: Delivery, second: Delivery)
    returns (events: seq<Event>, w: World)
    requires At(before, start, [second]) && OneConsumer(start) && start.consumers[0].queue == []
    requires start.goroutines[0] == Worker(0, Polling) && start.arrivals == 1
    requires |start.goroutines| > 1 && start.goroutines[1] == Caller([Parcel(0, first)], None)
    ensures At(events, w, [second, first.(arrival := 1)]) && OneConsumer(w)
  {
    hide Exec, Taken;
    var late := first.(arrival := 1);
    events := DoEnqueue(before, start, [second], 1, first);
    w := start.(goroutines := start.goroutines[1 := Caller([], Some(0))], arrivals := 2,
                consumers := [start.consumers[0].(queue := [late])]);
    events := DoTake(events, w, [second], late);
    w := w.(goroutines := w.goroutines[0 := Worker(0, Holding(late))], consumers := [w.consumers[0].(queue := [])]);
    assert [second] + [late] == [second, late];
  }
}
