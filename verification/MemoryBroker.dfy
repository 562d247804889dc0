/** The critical sections of eventbus/broker_memory.go, each under its mutex. */
module MemoryBroker {
  import opened Wrappers
  import opened BrokerModel

  datatype Turn = Took(delivery: Delivery) | Blocked | Leave

  lemma ShiftedUp(queue: seq<Delivery>, d: Delivery, position: nat)
    requires position <= |queue|
    ensures var grown := queue + [d];
            (grown[..position + 1] + grown[position..|grown| - 1])[position := d]
            == queue[..position] + [d] + queue[position..]
  {
  }

  lemma {:induction false} InsertedAt(queue: seq<Delivery>, d: Delivery, position: nat)
    requires position <= |queue|
    requires position > 0 ==> queue[position - 1].date <= d.date
    requires forall k | position <= k < |queue| :: d.date < queue[k].date
    ensures Inserted(queue, d) == queue[..position] + [d] + queue[position..]
  {
    if position < |queue| {
      var front := queue[..|queue| - 1];
      InsertedAt(front, d, position);
      assert front[..position] == queue[..position];
      assert queue[position..] == front[position..] + [queue[|queue| - 1]];
    } else {
      assert queue[..position] == queue && queue[position..] == [];
    }
  }

  class MemoryConsumer {
    const configuration: Configuration
    var queue: seq<Delivery>
    var stopped: bool

    constructor (configuration: Configuration)
      ensures this.configuration == configuration && queue == [] && !stopped
    {
      this.configuration, queue, stopped := configuration, [], false;
    }

    /** Grows the queue by one slot, shifts the later deliveries up, and fills the gap. */
    method Enqueue(delivery: Delivery)
      modifies `queue
      ensures queue == Inserted(old(queue), delivery)
    {
      ghost var before := queue;
      var position := |queue|;
      while position > 0 && delivery.date < queue[position - 1].date
        invariant 0 <= position <= |queue| && queue == before
        invariant forall k | position <= k < |queue| :: delivery.date < queue[k].date
      {
        position := position - 1;
      }
      queue := queue + [delivery];
      queue := queue[..position + 1] + queue[position..|queue| - 1];
      queue := queue[position := delivery];
      ShiftedUp(before, delivery, position);
      InsertedAt(before, delivery, position);
    }

    /** One pass of the loop of await: pop the head, block, or leave because the consumer stopped. */
    method Await() returns (turn: Turn)
      modifies `queue
      ensures turn == if stopped then Leave else if old(queue) == [] then Blocked else Took(old(queue)[0])
      ensures queue == if turn.Took? then old(queue)[1..] else old(queue)
    {
      if |queue| == 0 && !stopped {
        return Blocked;
      }
      if stopped {
        return Leave;
      }
      turn := Took(queue[0]);
      queue := queue[1..];
    }

    method Stop()
      modifies `stopped
      ensures stopped
    {
      stopped := true;
    }
  }

  class DeadLetters {
    var letters: seq<Letter>
    var sequence: nat
    var stopped: bool

    constructor ()
      ensures letters == [] && sequence == 0 && !stopped
    {
      letters, sequence, stopped := [], 0, false;
    }

    method Park(consumer: nat, delivery: Delivery)
      modifies `letters, `sequence
      ensures sequence == old(sequence) + 1
      ensures letters == old(letters) + [Letter(sequence, consumer, delivery)]
    {
      sequence := sequence + 1;
      letters := letters + [Letter(sequence, consumer, delivery)];
    }

    /** Oldest first; a limit of zero or less means all. */
    method FindExhausted(limit: int) returns (found: seq<Letter>)
      ensures found <= letters
      ensures limit > 0 ==> |found| == if limit < |letters| then limit else |letters|
      ensures limit <= 0 ==> found == letters
    {
      var count := |letters|;
      if limit > 0 && limit < count {
        count := limit;
      }
      found := letters[..count];
    }

    /** Takes the letter out, so that no second call finds it. */
    method Resubmit(reference: nat) returns (revived: Option<Letter>)
      modifies `letters
      ensures var index := Find(old(letters), reference);
              if stopped || index.None? then revived == None && letters == old(letters)
              else revived == Some(old(letters)[index.value]) && letters == Without(old(letters), index.value)
    {
      if stopped {
        return None;
      }
      var position := 0;
      while position < |letters|
        invariant 0 <= position <= |letters| && letters == old(letters)
        invariant forall i | 0 <= i < position :: letters[i].reference != reference
      {
        if letters[position].reference == reference {
          revived := Some(letters[position]);
          letters := letters[..position] + letters[position + 1..];
          return;
        }
        position := position + 1;
      }
      return None;
    }
  }
}
