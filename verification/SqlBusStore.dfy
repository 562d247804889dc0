/**
 The store of sqlbus/store_sql.go: three mutable tables, each method one
 statement (or one short statement sequence) that updates them in place. Every
 contract equates the tables afterwards with the statement's meaning in
 SqlBusModel, and reports exactly when a row was affected.
 */
module SqlBusStore {
  import opened Wrappers
  import opened SqlBusModel

  /** The consumer takes messages of this type from its boundary on. */
  predicate Covering(consumer: Consumer, key: ConsumerKey, message: Message) {
    key.eventType == message.eventType && consumer.boundary <= message.date
  }

  /** Pending, failed with its backoff over, or processing under a lease that ran out. */
  predicate Ready(row: Delivery, now: Time, leaseCutoff: Time) {
    match row.status
    case Pending => true
    case Processing => row.claimDate.Some? && row.claimDate.value < leaseCutoff
    case Completed => false
    case Failed => row.nextAttemptDate.Some? && row.nextAttemptDate.value <= now
    case Exhausted => false
  }

  predicate Unfinished(row: Delivery) {
    row.status != Completed && row.status != Exhausted
  }

  class SqlStore {
    var messages: map<MessageId, Message>
    var consumers: map<ConsumerKey, Consumer>
    var deliveries: map<DeliveryKey, Delivery>

    constructor ()
      ensures Tables() == Database(map[], map[], map[])
    {
      messages, consumers, deliveries := map[], map[], map[];
    }

    function Tables(): Database
      reads this
    {
      Database(messages, consumers, deliveries)
    }

    method CreateMessage(id: MessageId, message: Message)
      requires id !in messages
      modifies `messages
      ensures messages == old(messages)[id := message]
    {
      messages := messages[id := message];
    }

    /** Writes the rows one key at a time; a row that is already there stays as it is. */
    method CreateDeliveries(keys: seq<DeliveryKey>)
      modifies `deliveries
      ensures deliveries == PendingRows(KeySet(keys)) + old(deliveries)
      ensures forall k :: k in deliveries <==> k in old(deliveries) || k in keys
      ensures forall k | k in deliveries ::
                deliveries[k] == if k in old(deliveries) then old(deliveries)[k]
                                 else Delivery(Pending, 0, None, None, None, None, "")
    {
      var index := 0;
      while index < |keys|
        invariant 0 <= index <= |keys|
        invariant deliveries == PendingRows(KeySet(keys[..index])) + old(deliveries)
      {
        assert KeySet(keys[..index + 1]) == KeySet(keys[..index]) + {keys[index]};
        if keys[index] !in deliveries {
          deliveries := deliveries[keys[index] := PENDING_DELIVERY];
        }
        index := index + 1;
      }
      assert keys[..index] == keys;
    }

    method RegisterConsumer(key: ConsumerKey, consumer: Consumer)
      modifies `consumers
      ensures Tables() == SqlBusModel.RegisterConsumer(old(Tables()), key, consumer)
      ensures consumers.Keys == old(consumers).Keys + {key} && consumers[key].heartbeat == consumer.heartbeat
      ensures key !in old(consumers) ==> consumers[key] == consumer
      ensures key in old(consumers) ==>
                && consumers[key].boundary == old(consumers)[key].boundary
                && consumers[key].frontier == old(consumers)[key].frontier
                && consumers[key].mode == old(consumers)[key].mode
      ensures forall other | other in old(consumers) && other != key :: consumers[other] == old(consumers)[other]
    {
      if key in consumers {
        consumers := consumers[key := consumers[key].(heartbeat := consumer.heartbeat)];
      } else {
        consumers := consumers[key := consumer];
      }
    }

    method Heartbeat(key: ConsumerKey, at: Time) returns (alive: bool)
      modifies `consumers
      ensures alive == (key in old(consumers))
      ensures Tables() == SqlBusModel.Heartbeat(old(Tables()), key, at)
      ensures consumers.Keys == old(consumers).Keys && (alive ==> consumers[key].heartbeat == at)
      ensures alive ==> consumers[key].(heartbeat := 0) == old(consumers)[key].(heartbeat := 0)
      ensures forall other | other in consumers && other != key :: consumers[other] == old(consumers)[other]
    {
      alive := key in consumers;
      if alive {
        consumers := consumers[key := consumers[key].(heartbeat := at)];
      }
    }

    method ExpireBroadcastConsumers(cutoff: Time)
      modifies `consumers
      ensures Tables() == SqlBusModel.ExpireBroadcastConsumers(old(Tables()), cutoff)
      ensures forall key | key in consumers :: key in old(consumers) && consumers[key] == old(consumers)[key]
      ensures forall key | key in old(consumers) ::
                key !in consumers <==> old(consumers)[key].mode == Broadcast && old(consumers)[key].heartbeat < cutoff
    {
      consumers := map key | key in consumers
                     && !(consumers[key].mode == Broadcast && consumers[key].heartbeat < cutoff)
                     :: consumers[key];
    }

    method MaterializeDeliveries(key: ConsumerKey)
      modifies `deliveries
      ensures Tables() == SqlBusModel.MaterializeDeliveries(old(Tables()), key)
      ensures forall k | k in old(deliveries) :: k in deliveries && deliveries[k] == old(deliveries)[k]
      ensures forall k | k !in old(deliveries) ::
                k in deliveries <==>
                && key in consumers && k.consumer == key.id && k.message in messages
                && messages[k.message].eventType == key.eventType
                && consumers[key].frontier <= messages[k.message].date
      ensures forall k | k in deliveries && k !in old(deliveries) :: deliveries[k].status == Pending
    {
      if key !in consumers {
        NothingScanned(Tables(), key);
        return;
      }
      var frontier := consumers[key].frontier;
      assert forall k: DeliveryKey :: k.consumer == key.id ==> k == DeliveryKey(k.message, key.id);
      var ids := set id | id in messages && messages[id].eventType == key.eventType
                   && frontier <= messages[id].date && DeliveryKey(id, key.id) !in deliveries;
      MissingRows(Tables(), key, ids);
      deliveries := deliveries + RowsFor(ids, key.id);
    }

    method AdvanceFrontier(key: ConsumerKey, frontier: Time)
      modifies `consumers
      ensures Tables() == SqlBusModel.AdvanceFrontier(old(Tables()), key, frontier)
      ensures consumers.Keys == old(consumers).Keys
      ensures key in consumers ==>
                && consumers[key].frontier ==
                   (if old(consumers)[key].frontier < frontier then frontier else old(consumers)[key].frontier)
                && consumers[key].(frontier := 0) == old(consumers)[key].(frontier := 0)
      ensures forall other | other in consumers && other != key :: consumers[other] == old(consumers)[other]
    {
      if key in consumers && consumers[key].frontier < frontier {
        consumers := consumers[key := consumers[key].(frontier := frontier)];
      }
    }

    method FindDueDeliveries(key: ConsumerKey, ordering: Ordering, now: Time, leaseCutoff: Time, limit: nat)
      returns (ids: seq<MessageId>)
      ensures IsDueListing(Tables(), key, ordering, now, leaseCutoff, limit, ids)
      ensures forall id | id in ids ::
                && id in messages && DeliveryKey(id, key.id) in deliveries
                && Ready(deliveries[DeliveryKey(id, key.id)], now, leaseCutoff)
                && (ordering == Fifo ==> Heads(key, id))
      ensures |ids| <= limit
      ensures forall i, j | 0 <= i < j < |ids| ::
                && ids[i] in messages && ids[j] in messages
                && (messages[ids[i]].date < messages[ids[j]].date
                    || (messages[ids[i]].date == messages[ids[j]].date && ids[i] < ids[j]))
      ensures |ids| < limit ==>
                forall id | id in messages && DeliveryKey(id, key.id) in deliveries && id !in ids ::
                  || !Ready(deliveries[DeliveryKey(id, key.id)], now, leaseCutoff)
                  || (ordering == Fifo && !Heads(key, id))
    {
      FindableIsReady(key, ordering, now, leaseCutoff);
      var tables := Tables();
      ids := [];
      var rest := messages.Keys;
      while rest != {}
        invariant rest <= messages.Keys && InTotalOrder(tables, ids)
        invariant forall id :: id in ids <==> Findable(tables, key, ordering, id, now, leaseCutoff) && id !in rest
      {
        AnyOf(rest);
        var id :| id in rest;
        rest := rest - {id};
        if Findable(tables, key, ordering, id, now, leaseCutoff) {
          ids := InsertInOrder(tables, ids, id);
        }
      }
      if |ids| > limit {
        FirstOnes(tables, ids, limit);
        ids := ids[..limit];
      }
    }

    /** Below the frontier of its consumer, with no unfinished row before it. */
    predicate Heads(key: ConsumerKey, id: MessageId)
      requires id in messages
      reads this
    {
      && key in consumers && messages[id].date < consumers[key].frontier
      && forall k | k in deliveries && k.consumer == key.id && k.message in messages && Unfinished(deliveries[k]) ::
           messages[k.message].date > messages[id].date
           || (messages[k.message].date == messages[id].date && k.message >= id)
    }

    lemma FindableIsReady(key: ConsumerKey, ordering: Ordering, now: Time, leaseCutoff: Time)
      ensures forall id ::
                Findable(Tables(), key, ordering, id, now, leaseCutoff) <==>
                && id in messages && DeliveryKey(id, key.id) in deliveries
                && Ready(deliveries[DeliveryKey(id, key.id)], now, leaseCutoff)
                && (ordering == Fifo ==> Heads(key, id))
    {
    }

    method ClaimDelivery(key: DeliveryKey, token: Token, now: Time, leaseCutoff: Time, attempts: nat)
      returns (claimed: bool)
      modifies `deliveries
      ensures claimed == Claimable(old(Tables()), key, attempts, now, leaseCutoff)
      ensures Tables() == SqlBusModel.ClaimDelivery(old(Tables()), key, token, now, leaseCutoff, attempts)
      ensures claimed <==>
              && key in old(deliveries) && old(deliveries)[key].attempts == attempts
              && Ready(old(deliveries)[key], now, leaseCutoff)
      ensures claimed ==>
                deliveries == old(deliveries)[key :=
                  Delivery(Processing, attempts + 1, Some(token), Some(now), old(deliveries)[key].nextAttemptDate,
                           old(deliveries)[key].completionDate, old(deliveries)[key].lastError)]
      ensures !claimed ==> deliveries == old(deliveries)
    {
      claimed := false;
      if key in deliveries {
        var row := deliveries[key];
        if row.attempts == attempts && Due(row, now, leaseCutoff) {
          deliveries := deliveries[key := row.(status := Processing, claimToken := Some(token),
                                               claimDate := Some(now), attempts := attempts + 1)];
          claimed := true;
        }
      }
    }

    method ClaimDeliveryInOrder(
      key: DeliveryKey, token: Token, now: Time, leaseCutoff: Time, attempts: nat, date: Time)
      returns (claimed: bool)
      modifies `deliveries
      ensures claimed == ClaimableInOrder(old(Tables()), key, attempts, now, leaseCutoff, date)
      ensures Tables() ==
              SqlBusModel.ClaimDeliveryInOrder(old(Tables()), key, token, now, leaseCutoff, attempts, date)
      ensures claimed <==>
              && key in old(deliveries) && old(deliveries)[key].attempts == attempts
              && Ready(old(deliveries)[key], now, leaseCutoff)
              && (forall k | k in old(deliveries) && k.consumer == key.consumer && k.message in messages
                             && Unfinished(old(deliveries)[k]) ::
                    messages[k.message].date > date || (messages[k.message].date == date && k.message >= key.message))
              && (forall k | k in old(deliveries) && k.consumer == key.consumer && k != key
                             && old(deliveries)[k].status == Processing && old(deliveries)[k].claimDate.Some? ::
                    old(deliveries)[k].claimDate.value < leaseCutoff)
      ensures claimed ==>
                deliveries == old(deliveries)[key :=
                  Delivery(Processing, attempts + 1, Some(token), Some(now), old(deliveries)[key].nextAttemptDate,
                           old(deliveries)[key].completionDate, old(deliveries)[key].lastError)]
      ensures !claimed ==> deliveries == old(deliveries)
    {
      claimed := false;
      if key in deliveries {
        var row := deliveries[key];
        if && row.attempts == attempts && Due(row, now, leaseCutoff)
           && !EarlierIncompleteExists(Tables(), key.consumer, date, key.message)
           && !ConcurrentProcessingExists(Tables(), key.consumer, key.message, leaseCutoff)
        {
          deliveries := deliveries[key := row.(status := Processing, claimToken := Some(token),
                                               claimDate := Some(now), attempts := attempts + 1)];
          claimed := true;
        }
      }
    }

    method CompleteDelivery(key: DeliveryKey, token: Token, at: Time) returns (settled: bool)
      modifies `deliveries
      ensures settled == HoldsClaim(old(Tables()), key, token)
      ensures Tables() == SqlBusModel.CompleteDelivery(old(Tables()), key, token, at)
      ensures settled <==>
              && key in old(deliveries) && old(deliveries)[key].status == Processing
              && old(deliveries)[key].claimToken == Some(token)
      ensures settled ==>
                deliveries == old(deliveries)[key :=
                  Delivery(Completed, old(deliveries)[key].attempts, Some(token), old(deliveries)[key].claimDate,
                           old(deliveries)[key].nextAttemptDate, Some(at), "")]
      ensures !settled ==> deliveries == old(deliveries)
    {
      settled := HoldsClaim(Tables(), key, token);
      if settled {
        var row := deliveries[key];
        deliveries := deliveries[key := row.(status := Completed, completionDate := Some(at), lastError := "")];
      }
    }

    method FailDelivery(
      key: DeliveryKey, token: Token, cause: string, next: Time, attempts: nat, maximumAttempts: nat)
      returns (settled: bool)
      modifies `deliveries
      ensures settled == HoldsClaim(old(Tables()), key, token)
      ensures Tables() ==
              SqlBusModel.FailDelivery(old(Tables()), key, token, cause, next, attempts, maximumAttempts)
      ensures settled <==>
              && key in old(deliveries) && old(deliveries)[key].status == Processing
              && old(deliveries)[key].claimToken == Some(token)
      ensures settled ==>
                deliveries == old(deliveries)[key :=
                  Delivery(if attempts < maximumAttempts then Failed else Exhausted, old(deliveries)[key].attempts,
                           Some(token), old(deliveries)[key].claimDate, Some(next),
                           old(deliveries)[key].completionDate, cause)]
      ensures !settled ==> deliveries == old(deliveries)
    {
      var status := Failed;
      if attempts >= maximumAttempts {
        status := Exhausted;
      }
      settled := HoldsClaim(Tables(), key, token);
      if settled {
        var row := deliveries[key];
        deliveries := deliveries[key := row.(status := status, lastError := cause, nextAttemptDate := Some(next))];
      }
    }

    method ResubmitDelivery(key: DeliveryKey) returns (resubmitted: bool)
      modifies `deliveries
      ensures resubmitted == Resubmittable(old(Tables()), key)
      ensures Tables() == SqlBusModel.ResubmitDelivery(old(Tables()), key)
      ensures resubmitted <==> key in old(deliveries) && old(deliveries)[key].status in {Failed, Exhausted}
      ensures resubmitted ==>
                deliveries == old(deliveries)[key :=
                  Delivery(Pending, 0, old(deliveries)[key].claimToken, old(deliveries)[key].claimDate, None,
                           old(deliveries)[key].completionDate, "")]
      ensures !resubmitted ==> deliveries == old(deliveries)
    {
      resubmitted := false;
      if key in deliveries && (deliveries[key].status == Failed || deliveries[key].status == Exhausted) {
        deliveries := deliveries[key := deliveries[key].(status := Pending, attempts := 0,
                                                         nextAttemptDate := None, lastError := "")];
        resubmitted := true;
      }
    }

    method DeleteSettledMessages(olderThan: Time)
      modifies `messages
      ensures Tables() == SqlBusModel.DeleteSettledMessages(old(Tables()), olderThan)
      ensures forall id | id in messages :: id in old(messages) && messages[id] == old(messages)[id]
      ensures forall id | id in old(messages) ::
                id !in messages <==>
                && old(messages)[id].date < olderThan
                && forall key | key in consumers && Covering(consumers[key], key, old(messages)[id]) ::
                     && DeliveryKey(id, key.id) in deliveries
                     && deliveries[DeliveryKey(id, key.id)].status == Completed
    {
      var tables := Tables();
      messages := map id | id in messages && !Settled(tables, id, olderThan) :: messages[id];
    }

    method DeleteMessagesOlderThan(cutoff: Time) returns (count: nat)
      modifies `messages
      ensures Tables() == SqlBusModel.DeleteMessagesOlderThan(old(Tables()), cutoff)
      ensures count == |old(messages).Keys - messages.Keys|
      ensures forall id :: id in messages <==> id in old(messages) && old(messages)[id].date >= cutoff
      ensures forall id | id in messages :: messages[id] == old(messages)[id]
    {
      var kept := map id | id in messages && messages[id].date >= cutoff :: messages[id];
      count := |messages.Keys - kept.Keys|;
      messages := kept;
    }

    /** Both sweeps, in the order the source runs them. */
    method DeleteOrphanDeliveries()
      modifies `deliveries
      ensures Tables() ==
              DeleteDeliveriesWithoutConsumer(DeleteDeliveriesWithoutMessage(old(Tables())))
      ensures deliveries ==
              map k | k in old(deliveries) && k.message in messages && Registered(Tables(), k.consumer)
                :: old(deliveries)[k]
      ensures forall k | k in old(deliveries) ::
                k in deliveries <==> k.message in messages && exists key | key in consumers :: key.id == k.consumer
    {
      deliveries := map k | k in deliveries && k.message in messages :: deliveries[k];
      var tables := Tables();
      deliveries := map k | k in deliveries && Registered(tables, k.consumer) :: deliveries[k];
    }
  }

  function RowsFor(ids: set<MessageId>, consumer: ConsumerId): map<DeliveryKey, Delivery> {
    map id | id in ids :: DeliveryKey(id, consumer) := PENDING_DELIVERY
  }

  lemma RowFor(ids: set<MessageId>, consumer: ConsumerId, k: DeliveryKey)
    ensures k in RowsFor(ids, consumer) <==> k.consumer == consumer && k.message in ids
    ensures k in RowsFor(ids, consumer) ==> RowsFor(ids, consumer)[k] == PENDING_DELIVERY
  {
    assert k.consumer == consumer ==> k == DeliveryKey(k.message, consumer);
  }

  lemma RowMaterialized(db: Database, key: ConsumerKey, k: DeliveryKey)
    ensures var rows := MaterializeDeliveries(db, key).deliveries;
            && (k in rows <==> k in db.deliveries || (k.consumer == key.id && Scanned(db, key, k.message)))
            && (k in rows ==> rows[k] == if k in db.deliveries then db.deliveries[k] else PENDING_DELIVERY)
  {
    assert k.consumer == key.id ==> k == DeliveryKey(k.message, key.id);
  }

  lemma NothingScanned(db: Database, key: ConsumerKey)
    requires key !in db.consumers
    ensures MaterializeDeliveries(db, key) == db
  {
    var rows := MaterializeDeliveries(db, key).deliveries;
    forall k ensures (k in rows <==> k in db.deliveries) && (k in rows ==> rows[k] == db.deliveries[k]) {
      RowMaterialized(db, key, k);
    }
    assert rows == db.deliveries;
  }

  /** The anti-join: only the scanned messages without a row get one. */
  lemma MissingRows(db: Database, key: ConsumerKey, ids: set<MessageId>)
    requires forall id :: id in ids <==> Scanned(db, key, id) && DeliveryKey(id, key.id) !in db.deliveries
    ensures db.deliveries + RowsFor(ids, key.id) == MaterializeDeliveries(db, key).deliveries
  {
    var rows, target := db.deliveries + RowsFor(ids, key.id), MaterializeDeliveries(db, key).deliveries;
    forall k ensures (k in rows <==> k in target) && (k in rows ==> rows[k] == target[k]) {
      RowFor(ids, key.id, k);
      RowMaterialized(db, key, k);
      assert k.consumer == key.id ==> k == DeliveryKey(k.message, key.id);
    }
  }

  lemma AnyOf(ids: set<MessageId>)
    requires ids != {}
    ensures exists id :: id in ids
  {
    assert (forall id :: id !in ids) ==> ids == {};
  }

  lemma NothingBefore(
    db: Database, key: ConsumerKey, id: MessageId, now: Time, leaseCutoff: Time, k: DeliveryKey)
    requires Findable(db, key, Fifo, id, now, leaseCutoff)
    requires k in db.deliveries && k.consumer == key.id && k.message in db.messages
    requires Incomplete(db.deliveries[k].status)
    ensures !Before(db.messages[k.message].date, k.message, db.messages[id].date, id)
  {
  }

  /** Of a FIFO consumer the query yields at most the head: the first incomplete row in the total order. */
  lemma FifoFindsOnlyTheHead(
    db: Database, key: ConsumerKey, now: Time, leaseCutoff: Time, limit: nat, ids: seq<MessageId>)
    requires IsDueListing(db, key, Fifo, now, leaseCutoff, limit, ids)
    ensures |ids| <= 1
    ensures forall i, k | 0 <= i < |ids| && ids[i] in db.messages && k in db.deliveries && k.consumer == key.id
              && k.message in db.messages && Incomplete(db.deliveries[k].status) ::
              !Before(db.messages[k.message].date, k.message, db.messages[ids[i]].date, ids[i])
  {
    if |ids| > 1 {
      NothingBefore(db, key, ids[1], now, leaseCutoff, DeliveryKey(ids[0], key.id));
      assert false;
    }
  }

  /** The ORDER BY of FindDueDeliveries. */
  method InsertInOrder(tables: Database, ids: seq<MessageId>, id: MessageId) returns (r: seq<MessageId>)
    requires InTotalOrder(tables, ids) && id in tables.messages && id !in ids
    ensures InTotalOrder(tables, r) && forall other :: other in r <==> other in ids || other == id
  {
    var position := |ids|;
    while position > 0
          && Before(tables.messages[id].date, id, tables.messages[ids[position - 1]].date, ids[position - 1])
      invariant 0 <= position <= |ids|
      invariant position < |ids| ==>
                  Before(tables.messages[id].date, id, tables.messages[ids[position]].date, ids[position])
    {
      position := position - 1;
    }
    r := ids[..position] + [id] + ids[position..];
    Insertion(tables, ids, id, position);
  }

  predicate Follows(tables: Database, a: MessageId, b: MessageId)
    requires a in tables.messages && b in tables.messages
  {
    Before(tables.messages[a].date, a, tables.messages[b].date, b)
  }

  lemma Insertion(tables: Database, ids: seq<MessageId>, id: MessageId, position: nat)
    requires InTotalOrder(tables, ids) && id in tables.messages && id !in ids && position <= |ids|
    requires position > 0 ==> !Follows(tables, id, ids[position - 1])
    requires position < |ids| ==> Follows(tables, id, ids[position])
    ensures var r := ids[..position] + [id] + ids[position..];
            InTotalOrder(tables, r) && forall other :: other in r <==> other in ids || other == id
  {
    var r := ids[..position] + [id] + ids[position..];
    InsertedMembers(ids, id, position);
    assert forall i | 0 <= i < |r| :: r[i] == if i < position then ids[i] else if i == position then id else ids[i - 1];
    assert position > 0 ==> Follows(tables, ids[position - 1], id);
    forall i, j | 0 <= i < j < |r| ensures Follows(tables, r[i], r[j]) {
      InsertedPair(tables, ids, id, position, i, j);
    }
  }

  lemma InsertedMembers(ids: seq<MessageId>, id: MessageId, position: nat)
    requires position <= |ids|
    ensures forall other :: other in ids[..position] + [id] + ids[position..] <==> other in ids || other == id
  {
    assert ids == ids[..position] + ids[position..];
  }

  lemma InsertedPair(tables: Database, ids: seq<MessageId>, id: MessageId, position: nat, i: nat, j: nat)
    requires InTotalOrder(tables, ids) && id in tables.messages && position <= |ids| && i < j <= |ids|
    requires position > 0 ==> Follows(tables, ids[position - 1], id)
    requires position < |ids| ==> Follows(tables, id, ids[position])
    ensures var a := if i < position then ids[i] else if i == position then id else ids[i - 1];
            var b := if j < position then ids[j] else if j == position then id else ids[j - 1];
            Follows(tables, a, b)
  {
    if j == position && i < position - 1 {
      assert Follows(tables, ids[i], ids[position - 1]);
    } else if i == position && j > position + 1 {
      assert Follows(tables, ids[position], ids[j - 1]);
    }
  }

  lemma FirstOnes(tables: Database, ids: seq<MessageId>, limit: nat)
    requires InTotalOrder(tables, ids) && limit < |ids|
    ensures InTotalOrder(tables, ids[..limit])
    ensures forall id | id in ids && id !in ids[..limit] ::
              forall i | 0 <= i < limit :: Before(tables.messages[ids[i]].date, ids[i], tables.messages[id].date, id)
  {
    forall id, i | id in ids && id !in ids[..limit] && 0 <= i < limit
      ensures Before(tables.messages[ids[i]].date, ids[i], tables.messages[id].date, id)
    {
      assert ids == ids[..limit] + ids[limit..];
      var j :| 0 <= j < |ids[limit..]| && ids[limit..][j] == id;
      assert ids[limit..][j] == ids[limit + j];
    }
  }
}
