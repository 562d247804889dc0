/**
 The order in which the deliveries of a consumer are taken off its queue, and so,
 with the one worker of a FIFO consumer, the order in which they are processed. It
 goes back exactly by a delivery inserted below one that was taken already.
 */
module BrokerOrder {
  import opened Wrappers
  import opened BrokerModel
  import opened BrokerProtocol
  import opened BrokerGuarantees

  /** What a worker of the consumer takes in this step. */
  function TakenBy(w: World, e: Event, c: nat): seq<Delivery>
    requires Enabled(w, e)
  {
    if e.Poll? && w.goroutines[e.g].consumer == c && !w.consumers[c].stopped && w.consumers[c].queue != []
    then [w.consumers[c].queue[0]] else []
  }

  /** What the workers of the consumer took over a run, in order. */
  function Taken(events: seq<Event>, c: nat): seq<Delivery> {
    if events == [] then []
    else
      var last := |events| - 1;
      var before := Exec(events[..last]);
      Taken(events[..last], c)
      + if before.Some? && Enabled(before.value, events[last]) then TakenBy(before.value, events[last], c) else []
  }

  /** Some delivery taken was published later. */
  predicate Late(taken: seq<Delivery>, d: Delivery) {
    exists i | 0 <= i < |taken| :: d.date < taken[i].date
  }

  function Queue(w: World, c: nat): seq<Delivery> {
    if c < |w.consumers| then w.consumers[c].queue else []
  }

  /** It waits in the queue although a delivery published later was taken. */
  predicate Behind(w: World, taken: seq<Delivery>, c: nat, d: Delivery) {
    d in Queue(w, c) && Late(taken, d)
  }

  /** The insertion of a delivery below one taken already, by a second publisher, a retry timer or a revival. */
  predicate EnqueuesLate(w: World, e: Event, taken: seq<Delivery>, c: nat, d: Delivery) {
    && Enabled(w, e) && e.Enqueue?
    && Parcelled(w.goroutines[e.g]).consumer == c
    && Parcelled(w.goroutines[e.g]).delivery.(arrival := w.arrivals) == d
    && Late(taken, d)
  }

  ghost predicate DatesAscend(taken: seq<Delivery>) {
    forall i, j | 0 <= i < j < |taken| :: taken[i].date <= taken[j].date
  }

  // ---------------------------------------------------------------- one step

  /** A step inserts one delivery, takes the head, or leaves the queue alone. */
  lemma QueueStep(w: World, e: Event, c: nat)
    requires Enabled(w, e)
    ensures e.Enqueue? && Parcelled(w.goroutines[e.g]).consumer == c ==>
              && c < |w.consumers| && TakenBy(w, e, c) == []
              && Queue(Apply(w, e), c)
                 == Inserted(Queue(w, c), Parcelled(w.goroutines[e.g]).delivery.(arrival := w.arrivals))
    ensures !(e.Enqueue? && Parcelled(w.goroutines[e.g]).consumer == c) ==>
              Queue(w, c) == TakenBy(w, e, c) + Queue(Apply(w, e), c)
    ensures |w.consumers| <= |Apply(w, e).consumers|
  {
    hide NextGoroutines, NextWait, NextLetters, NextDropped;
  }

  /** The head is published no later than what it leaves behind. */
  lemma HeadTaken(queue: seq<Delivery>, taken: seq<Delivery>, d: Delivery)
    requires InOrder(queue) && queue != [] && d in queue[1..]
    ensures Late(taken + [queue[0]], d) <==> Late(taken, d)
  {
    var i :| 0 <= i < |queue[1..]| && queue[1..][i] == d;
    assert Before(queue[0], queue[i + 1]);
    if Late(taken, d) {
      var j :| 0 <= j < |taken| && d.date < taken[j].date;
      assert (taken + [queue[0]])[j] == taken[j];
    }
  }

  /** Which steps leave a delivery waiting behind: exactly its insertion below one taken already. */
  lemma BehindExactly(w: World, e: Event, taken: seq<Delivery>, c: nat, d: Delivery)
    requires Enabled(w, e) && InOrder(Queue(w, c)) && !Behind(w, taken, c, d)
    ensures Behind(Apply(w, e), taken + TakenBy(w, e, c), c, d) <==> EnqueuesLate(w, e, taken, c, d)
  {
    QueueStep(w, e, c);
    var queue, after, t := Queue(w, c), Queue(Apply(w, e), c), TakenBy(w, e, c);
    hide Apply, Inserted, Late, TakenBy, InOrder, Queue;
    if e.Enqueue? && Parcelled(w.goroutines[e.g]).consumer == c {
      InsertedMember(queue, Parcelled(w.goroutines[e.g]).delivery.(arrival := w.arrivals), d);
      assert taken + t == taken;
    } else if t == [] {
      assert taken + t == taken && queue == after;
    } else {
      assert queue[0] == t[0] && after == queue[|t|..];
      AfterTheHead(w, e, taken, c, d);
    }
  }

  lemma InsertedMember(queue: seq<Delivery>, inserted: Delivery, d: Delivery)
    ensures d in Inserted(queue, inserted) <==> d in queue || d == inserted
  {
    InsertedMembers(queue, inserted);
    assert d in Inserted(queue, inserted) <==> d in multiset(Inserted(queue, inserted));
    assert d in queue <==> d in multiset(queue);
    hide Inserted;
  }

  lemma AfterTheHead(w: World, e: Event, taken: seq<Delivery>, c: nat, d: Delivery)
    requires Enabled(w, e) && InOrder(Queue(w, c)) && !Behind(w, taken, c, d) && TakenBy(w, e, c) != []
    requires Queue(w, c) == TakenBy(w, e, c) + Queue(Apply(w, e), c)
    ensures !Behind(Apply(w, e), taken + TakenBy(w, e, c), c, d)
  {
    var after := Queue(Apply(w, e), c);
    assert Queue(w, c)[1..] == after && TakenBy(w, e, c) == [Queue(w, c)[0]];
    if d in after {
      HeadTaken(Queue(w, c), taken, d);
    }
    hide Apply, Enabled, Late, TakenBy, Queue, InOrder;
  }

  // ---------------------------------------------------------------- runs

  lemma {:induction false} Prefix(events: seq<Event>, n: nat, c: nat)
    requires Exec(events).Some? && n <= |events|
    ensures Exec(events[..n]).Some?
    ensures n < |events| ==>
              && Enabled(Exec(events[..n]).value, events[n])
              && Exec(events[..n + 1]) == Some(Apply(Exec(events[..n]).value, events[n]))
              && Taken(events[..n + 1], c)
                 == Taken(events[..n], c) + TakenBy(Exec(events[..n]).value, events[n], c)
  {
    hide Apply, Enabled, TakenBy;
    if n == |events| {
      assert events[..n] == events;
    } else if n + 1 == |events| {
      assert events[..n + 1] == events;
    } else {
      var front := events[..|events| - 1];
      Prefix(front, n, c);
      assert front[..n] == events[..n] && front[..n + 1] == events[..n + 1];
    }
  }

  ghost predicate BehindAt(events: seq<Event>, n: nat, c: nat, d: Delivery) {
    n <= |events| && Exec(events[..n]).Some? && Behind(Exec(events[..n]).value, Taken(events[..n], c), c, d)
  }

  ghost predicate EnqueuesLateAt(events: seq<Event>, n: nat, c: nat, d: Delivery) {
    && n < |events| && Exec(events[..n]).Some?
    && EnqueuesLate(Exec(events[..n]).value, events[n], Taken(events[..n], c), c, d)
  }

  /** The step takes this delivery. */
  ghost predicate TakesAt(events: seq<Event>, n: nat, c: nat, d: Delivery) {
    && n < |events| && Exec(events[..n]).Some? && Enabled(Exec(events[..n]).value, events[n])
    && TakenBy(Exec(events[..n]).value, events[n], c) == [d]
  }

  lemma QueueInOrder(events: seq<Event>, w: World, c: nat)
    requires Exec(events) == Some(w)
    ensures InOrder(Queue(w, c))
  {
    hide Exec;
    if Queue(w, c) != [] {
      QueuesInPublicationOrder(events, w, c, 0);
    }
  }

  lemma BehindStep(events: seq<Event>, n: nat, c: nat, d: Delivery)
    requires Exec(events).Some? && n < |events|
    ensures !BehindAt(events, n, c, d) ==> (BehindAt(events, n + 1, c, d) <==> EnqueuesLateAt(events, n, c, d))
  {
    Prefix(events, n, c);
    QueueInOrder(events[..n], Exec(events[..n]).value, c);
    hide Exec, Apply, Enabled, Taken, TakenBy, Behind, EnqueuesLate, InOrder;
    var w := Exec(events[..n]).value;
    if !Behind(w, Taken(events[..n], c), c, d) {
      BehindExactly(w, events[n], Taken(events[..n], c), c, d);
    }
  }

  lemma {:induction false} NotBehindSoFar(events: seq<Event>, n: nat, c: nat, d: Delivery)
    requires Exec(events).Some? && n <= |events|
    requires forall m: nat | m < n :: !EnqueuesLateAt(events, m, c, d)
    ensures !BehindAt(events, n, c, d)
  {
    if n == 0 {
      assert events[..0] == [];
    } else {
      NotBehindSoFar(events, n - 1, c, d);
      BehindStep(events, n - 1, c, d);
    }
  }

  lemma LateGrows(taken: seq<Delivery>, more: seq<Delivery>, d: Delivery)
    requires Late(taken, d)
    ensures Late(taken + more, d)
  {
    var i :| 0 <= i < |taken| && d.date < taken[i].date;
    assert (taken + more)[i] == taken[i];
  }

  lemma {:induction false} LateStays(events: seq<Event>, m: nat, n: nat, c: nat, d: Delivery)
    requires Exec(events).Some? && m <= n <= |events| && Late(Taken(events[..m], c), d)
    ensures Late(Taken(events[..n], c), d)
    decreases n
  {
    hide Exec, Apply, Enabled, Taken, TakenBy, Late;
    if m < n {
      LateStays(events, m, n - 1, c, d);
      Prefix(events, n - 1, c);
      LateGrows(Taken(events[..n - 1], c), TakenBy(Exec(events[..n - 1]).value, events[n - 1], c), d);
    }
  }

  /** The delivery a step takes was waiting in the queue. */
  lemma TakenWasQueued(events: seq<Event>, n: nat, c: nat, d: Delivery)
    requires Exec(events).Some? && TakesAt(events, n, c, d)
    ensures BehindAt(events, n, c, d) <==> Late(Taken(events[..n], c), d)
  {
  }

  /**
   A worker takes a delivery after one published later if and only if the delivery
   had been inserted below one that was taken already.
   */
  lemma TakenLateExactly(events: seq<Event>, n: nat, c: nat, d: Delivery)
    requires Exec(events).Some? && TakesAt(events, n, c, d)
    ensures Late(Taken(events[..n], c), d) <==> exists m: nat | m < n :: EnqueuesLateAt(events, m, c, d)
  {
    TakenWasQueued(events, n, c, d);
    if m: nat :| m < n && EnqueuesLateAt(events, m, c, d) {
      LateStays(events, m, n, c, d);
    } else {
      NotBehindSoFar(events, n, c, d);
    }
  }

  /** The step goes back before a delivery taken already. */
  ghost predicate GoesBackAt(events: seq<Event>, n: nat, c: nat) {
    exists d :: TakesAt(events, n, c, d) && Late(Taken(events[..n], c), d)
  }

  lemma OneMoreTaken(taken: seq<Delivery>, d: Delivery)
    ensures DatesAscend(taken + [d]) <==> DatesAscend(taken) && !Late(taken, d)
  {
    var longer := taken + [d];
    if DatesAscend(longer) {
      assert forall i | 0 <= i < |taken| :: longer[i] == taken[i] && longer[i].date <= longer[|taken|].date;
    }
  }

  lemma AscendStep(events: seq<Event>, n: nat, c: nat)
    requires Exec(events).Some? && n < |events|
    ensures DatesAscend(Taken(events[..n + 1], c)) <==>
              DatesAscend(Taken(events[..n], c)) && !GoesBackAt(events, n, c)
  {
    Prefix(events, n, c);
    hide Exec, Apply, Enabled, Taken, DatesAscend, Late;
    var taken, t := Taken(events[..n], c), TakenBy(Exec(events[..n]).value, events[n], c);
    if t == [] {
      assert taken + t == taken;
    } else {
      OneMoreTaken(taken, t[0]);
      assert t == [t[0]];
      assert TakesAt(events, n, c, t[0]);
    }
  }

  lemma NothingTaken(events: seq<Event>, c: nat)
    ensures DatesAscend(Taken(events[..0], c))
  {
    assert events[..0] == [];
  }

  lemma {:induction false} AscendsExactly(events: seq<Event>, n: nat, c: nat)
    requires Exec(events).Some? && n <= |events|
    ensures DatesAscend(Taken(events[..n], c)) <==> forall k: nat | k < n :: !GoesBackAt(events, k, c)
  {
    hide Exec, GoesBackAt, DatesAscend, Taken;
    if n == 0 {
      NothingTaken(events, c);
    } else {
      AscendsExactly(events, n - 1, c);
      AscendStep(events, n - 1, c);
    }
  }

  /**
   The FIFO promise, exactly: over any run the deliveries of a consumer are taken
   in the order of their publication dates if and only if none of those taken had
   been inserted below one that was taken already.
   */
  lemma FifoOrderExactly(events: seq<Event>, c: nat)
    requires Exec(events).Some?
    ensures DatesAscend(Taken(events, c)) <==>
              forall m: nat, n: nat, d | m < n && TakesAt(events, n, c, d) :: !EnqueuesLateAt(events, m, c, d)
  {
    assert events[..|events|] == events;
    AscendsExactly(events, |events|, c);
    hide Exec, Taken, Late, DatesAscend, TakesAt, EnqueuesLateAt;
    if forall k: nat | k < |events| :: !GoesBackAt(events, k, c) {
      forall m: nat, n: nat, d | m < n && TakesAt(events, n, c, d) ensures !EnqueuesLateAt(events, m, c, d) {
        TakesInside(events, n, c, d);
        assert !GoesBackAt(events, n, c);
        TakenLateExactly(events, n, c, d);
      }
    }
    if forall m: nat, n: nat, d | m < n && TakesAt(events, n, c, d) :: !EnqueuesLateAt(events, m, c, d) {
      forall k: nat | k < |events| ensures !GoesBackAt(events, k, c) {
        if GoesBackAt(events, k, c) {
          var d :| TakesAt(events, k, c, d) && Late(Taken(events[..k], c), d);
          TakenLateExactly(events, k, c, d);
          assert false;
        }
      }
    }
  }

  lemma TakesInside(events: seq<Event>, n: nat, c: nat, d: Delivery)
    requires TakesAt(events, n, c, d)
    ensures n < |events|
  {
  }
}
