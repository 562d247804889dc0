/**
 The values of the in-memory broker and the meaning of its critical sections: the
 ready queue of a consumer and the list of dead letters.
 */
module BrokerModel {
  import opened Wrappers

  type Time = int

  datatype Ordering = Fifo | Unordered

  datatype Configuration = Configuration(ordering: Ordering, maximumAttempts: int, workers: nat)

  /** A FIFO consumer has one worker whatever it configures. */
  function WorkersOf(configuration: Configuration): nat {
    if configuration.ordering == Unordered then configuration.workers else 1
  }

  /** One event for one consumer; arrival numbers the insertions into queues. */
  datatype Delivery = Delivery(item: nat, attempts: nat, date: Time, arrival: nat)

  datatype Letter = Letter(reference: nat, consumer: nat, delivery: Delivery)

  // ---------------------------------------------------------------- the ready queue

  /** Behind every delivery of the same or an earlier date. */
  function Inserted(queue: seq<Delivery>, d: Delivery): (r: seq<Delivery>)
    ensures |r| == |queue| + 1
  {
    if queue == [] || queue[|queue| - 1].date <= d.date then queue + [d]
    else Inserted(queue[..|queue| - 1], d) + [queue[|queue| - 1]]
  }

  predicate Before(a: Delivery, b: Delivery) {
    a.date < b.date || (a.date == b.date && a.arrival < b.arrival)
  }

  /** By publication date, and by arrival where the dates are equal. */
  ghost predicate InOrder(queue: seq<Delivery>) {
    forall i, j | 0 <= i < j < |queue| :: Before(queue[i], queue[j])
  }

  lemma {:induction false} InsertedMembers(queue: seq<Delivery>, d: Delivery)
    ensures multiset(Inserted(queue, d)) == multiset(queue) + multiset{d}
  {
    if queue != [] && d.date < queue[|queue| - 1].date {
      InsertedMembers(queue[..|queue| - 1], d);
      assert queue == queue[..|queue| - 1] + [queue[|queue| - 1]];
    }
  }

  lemma MemberOfInserted(queue: seq<Delivery>, d: Delivery, i: nat)
    requires i <= |queue|
    ensures Inserted(queue, d)[i] == d || Inserted(queue, d)[i] in queue
  {
    InsertedMembers(queue, d);
    assert Inserted(queue, d)[i] in multiset(Inserted(queue, d));
  }

  /** Inserting the latest arrival keeps the order, ties included. */
  lemma {:induction false} InsertedInOrder(queue: seq<Delivery>, d: Delivery)
    requires InOrder(queue) && forall i | 0 <= i < |queue| :: queue[i].arrival < d.arrival
    ensures InOrder(Inserted(queue, d))
  {
    if queue != [] && d.date < queue[|queue| - 1].date {
      var front, last := queue[..|queue| - 1], queue[|queue| - 1];
      InsertedInOrder(front, d);
      forall i | 0 <= i <= |front| ensures Before(Inserted(front, d)[i], last) {
        MemberOfInserted(front, d, i);
      }
    }
  }

  lemma SameFirst(a: seq<Delivery>, b: seq<Delivery>)
    requires InOrder(a) && InOrder(b) && a != [] && b != [] && a[0] in b && b[0] in a
    ensures a[0] == b[0]
  {
  }

  lemma WithoutFirst(a: seq<Delivery>)
    requires a != []
    ensures multiset(a[1..]) == multiset(a) - multiset{a[0]}
  {
    assert a == [a[0]] + a[1..];
  }

  /** Order and contents determine the queue: it is the one sorted arrangement of what was enqueued. */
  lemma {:induction false} OrderIsUnique(a: seq<Delivery>, b: seq<Delivery>)
    requires InOrder(a) && InOrder(b) && multiset(a) == multiset(b)
    ensures a == b
  {
    assert |a| == |multiset(a)| == |multiset(b)| == |b|;
    if a != [] {
      assert a[0] in multiset(b) && b[0] in multiset(a);
      SameFirst(a, b);
      WithoutFirst(a);
      WithoutFirst(b);
      OrderIsUnique(a[1..], b[1..]);
      assert a == [a[0]] + a[1..] && b == [b[0]] + b[1..];
    }
  }

  // ---------------------------------------------------------------- dead letters

  function Find(letters: seq<Letter>, reference: nat): (index: Option<nat>)
    ensures index.Some? ==>
              && index.value < |letters| && letters[index.value].reference == reference
              && forall i | 0 <= i < index.value :: letters[i].reference != reference
    ensures index.None? ==> forall i | 0 <= i < |letters| :: letters[i].reference != reference
  {
    if letters == [] then None
    else if letters[0].reference == reference then Some(0)
    else
      var rest := Find(letters[1..], reference);
      if rest.Some? then Some(rest.value + 1) else None
  }

  function Without(letters: seq<Letter>, index: nat): seq<Letter>
    requires index < |letters|
  {
    letters[..index] + letters[index + 1..]
  }

  /** A revived delivery starts over with its publication date. */
  function Revived(d: Delivery): Delivery {
    d.(attempts := 0)
  }
}
