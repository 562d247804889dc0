/**
 The in-memory broker as a state machine over its goroutines. Each event is one
 critical section, one operation of a condition variable or of the wait group,
 one handler call or one timer; the scheduler interleaves them freely.

 Signal wakes one waiting worker and is lost when none waits; Broadcast wakes
 all; a woken worker has to look at the queue again before it may block. A
 worker blocks in the same critical section in which it found the queue empty.
 */
module BrokerProtocol {
  import opened Wrappers
  import opened BrokerModel

  datatype Consumer = Consumer(configuration: Configuration, queue: seq<Delivery>, stopped: bool)

  datatype Stage =
    | Polling
    | Sleeping
    | Woken
    | Holding(delivery: Delivery)    // popped, context not checked yet
    | Running(delivery: Delivery)    // inside the handler
    | Backoff(delivery: Delivery)    // a FIFO worker waiting out a retry delay
    | Parking(delivery: Delivery)    // about to record a dead letter
    | Exited

  datatype TimerStage = Waiting(delivery: Delivery) | Inserting(delivery: Delivery) | Signalling | Ended

  datatype StopPhase = Flagged | Stopping(next: nat) | Broadcasting(next: nat) | Awaiting | Returned(waited: bool)

  /** A delivery in the hand of a publisher or a resubmitter. */
  datatype Parcel = Parcel(consumer: nat, delivery: Delivery)

  datatype Goroutine =
    | Caller(parcels: seq<Parcel>, signal: Option<nat>)
    | Worker(consumer: nat, stage: Stage)
    | Timer(consumer: nat, timer: TimerStage)
    | Stopper(phase: StopPhase)

  datatype Origin = Origin(consumer: nat, date: Time)

  datatype World = World(
    consumers: seq<Consumer>,
    goroutines: seq<Goroutine>,
    letters: seq<Letter>,
    sequence: nat,
    stopped: bool,
    cancelled: bool,
    wait: int,               // the counter of the wait group
    items: seq<Origin>,      // every delivery ever created, by item number
    arrivals: nat,           // insertions into queues so far
    done: seq<nat>,          // items delivered successfully
    dropped: seq<nat>,       // items abandoned because the broker stopped
    revived: seq<nat>)       // references resubmitted successfully

  datatype Event =
    | Subscribe(configuration: Configuration)
    | Publish(targets: seq<nat>, date: Time)
    | Revive(reference: nat)
    | Stop
    | Enqueue(g: nat)
    | Signal(g: nat, sleeper: Option<nat>)
    | Poll(g: nat)
    | Begin(g: nat)
    | Deliver(g: nat, good: bool)
    | Park(g: nat)
    | Fire(g: nat)
    | Interrupt(g: nat)
    | Cancel(g: nat)
    | StopConsumer(g: nat)
    | Broadcast(g: nat)
    | StartWait(g: nat)
    | Return(g: nat)

  function Init(): World {
    World([], [], [], 0, false, false, 0, [], 0, [], [], [])
  }

  // ---------------------------------------------------------------- enabledness

  predicate IsSleeping(g: Goroutine, c: nat) {
    g == Worker(c, Sleeping)
  }

  /** The consumer whose condition the goroutine is about to signal. */
  function Signalled(g: Goroutine): Option<nat> {
    if g.Caller? then g.signal else if g.Timer? && g.timer == Signalling then Some(g.consumer) else None
  }

  predicate Wakes(w: World, c: nat, sleeper: Option<nat>) {
    match sleeper
    case Some(s) => s < |w.goroutines| && IsSleeping(w.goroutines[s], c)
    case None => forall s | 0 <= s < |w.goroutines| :: !IsSleeping(w.goroutines[s], c)
  }

  predicate Enabled(w: World, e: Event) {
    match e
    case Subscribe(_) => !w.stopped
    case Publish(targets, _) => !w.stopped && forall i | 0 <= i < |targets| :: targets[i] < |w.consumers|
    case Revive(reference) => !w.stopped && Find(w.letters, reference).Some?
    case Stop => true
    case _ => e.g < |w.goroutines| && Ready(w, w.goroutines[e.g], e)
  }

  predicate Ready(w: World, g: Goroutine, e: Event) {
    match e
    case Enqueue(_) =>
      || (g.Caller? && g.parcels != [] && g.signal == None && g.parcels[0].consumer < |w.consumers|)
      || (g.Timer? && g.timer.Inserting? && g.consumer < |w.consumers|)
    case Signal(_, sleeper) => Signalled(g).Some? && Wakes(w, Signalled(g).value, sleeper)
    case Poll(_) => g.Worker? && g.consumer < |w.consumers| && (g.stage == Polling || g.stage == Woken)
    case Begin(_) => g.Worker? && g.stage.Holding?
    case Deliver(_, _) => g.Worker? && g.consumer < |w.consumers| && g.stage.Running?
    case Park(_) => g.Worker? && g.stage.Parking?
    case Fire(_) => (g.Worker? && g.stage.Backoff?) || (g.Timer? && g.timer.Waiting?)
    case Interrupt(_) => w.cancelled && ((g.Worker? && g.stage.Backoff?) || (g.Timer? && g.timer.Waiting?))
    case Cancel(_) => g == Stopper(Flagged)
    case StopConsumer(_) => g.Stopper? && g.phase.Stopping? && g.phase.next < |w.consumers|
    case Broadcast(_) => g.Stopper? && g.phase.Broadcasting?
    case StartWait(_) => g.Stopper? && g.phase == Stopping(|w.consumers|)
    case Return(_) => g == Stopper(Awaiting) && w.wait == 0
    case _ => false
  }

  // ---------------------------------------------------------------- steps

  function Attempted(d: Delivery): Delivery {
    d.(attempts := d.attempts + 1)
  }

  /** A worker after the handler returned. */
  function AfterHandler(configuration: Configuration, d: Delivery, good: bool): Stage {
    if good then Polling
    else if d.attempts >= configuration.maximumAttempts then Parking(d)
    else if configuration.ordering == Unordered then Polling else Backoff(d)
  }

  predicate Retries(w: World, e: Event) {
    && Enabled(w, e) && e.Deliver? && !e.good
    && var g := w.goroutines[e.g];
       var configuration := w.consumers[g.consumer].configuration;
       g.stage.delivery.attempts < configuration.maximumAttempts && configuration.ordering == Unordered
  }

  /** The acting goroutine afterwards. */
  function NextState(w: World, e: Event): Goroutine
    requires Enabled(w, e) && !e.Subscribe? && !e.Publish? && !e.Revive? && !e.Stop?
  {
    var g := w.goroutines[e.g];
    match e
    case Enqueue(_) =>
      if g.Caller? then Caller(g.parcels[1..], Some(g.parcels[0].consumer)) else Timer(g.consumer, Signalling)
    case Signal(_, _) => if g.Caller? then Caller(g.parcels, None) else Timer(g.consumer, Ended)
    case Poll(_) =>
      var consumer := w.consumers[g.consumer];
      Worker(g.consumer,
             if consumer.stopped then Exited
             else if consumer.queue == [] then Sleeping else Holding(consumer.queue[0]))
    case Begin(_) => Worker(g.consumer, if w.cancelled then Exited else Running(Attempted(g.stage.delivery)))
    case Deliver(_, good) =>
      Worker(g.consumer, AfterHandler(w.consumers[g.consumer].configuration, g.stage.delivery, good))
    case Park(_) => Worker(g.consumer, Polling)
    case Fire(_) =>
      if g.Worker? then Worker(g.consumer, Running(Attempted(g.stage.delivery)))
      else Timer(g.consumer, Inserting(g.timer.delivery))
    case Interrupt(_) => if g.Worker? then Worker(g.consumer, Polling) else Timer(g.consumer, Ended)
    case Cancel(_) => Stopper(Stopping(0))
    case StopConsumer(_) => Stopper(Broadcasting(g.phase.next))
    case Broadcast(_) => Stopper(Stopping(g.phase.next + 1))
    case StartWait(_) => Stopper(Awaiting)
    case Return(_) => Stopper(Returned(true))
  }

  function Parcels(targets: seq<nat>, from: nat, date: Time): (r: seq<Parcel>)
    ensures |r| == |targets|
  {
    if targets == [] then []
    else [Parcel(targets[0], Delivery(from, 0, date, 0))] + Parcels(targets[1..], from + 1, date)
  }

  function Origins(targets: seq<nat>, date: Time): seq<Origin> {
    seq(|targets|, i requires 0 <= i < |targets| => Origin(targets[i], date))
  }

  function Workers(consumer: nat, n: nat): seq<Goroutine> {
    if n == 0 then [] else Workers(consumer, n - 1) + [Worker(consumer, Polling)]
  }

  function Spawned(w: World, e: Event): seq<Goroutine>
    requires Enabled(w, e)
  {
    match e
    case Subscribe(configuration) => Workers(|w.consumers|, WorkersOf(configuration))
    case Publish(targets, date) => [Caller(Parcels(targets, |w.items|, date), None)]
    case Revive(reference) =>
      var letter := w.letters[Find(w.letters, reference).value];
      [Caller([Parcel(letter.consumer, Revived(letter.delivery))], None)]
    case Stop => [Stopper(if w.stopped then Returned(false) else Flagged)]
    case Deliver(_, _) =>
      if Retries(w, e)
      then [Timer(w.goroutines[e.g].consumer, Waiting(w.goroutines[e.g].stage.delivery))] else []
    case _ => []
  }

  function WakeAll(goroutines: seq<Goroutine>, c: nat): (r: seq<Goroutine>)
    ensures |r| == |goroutines|
  {
    if goroutines == [] then []
    else
      WakeAll(goroutines[..|goroutines| - 1], c)
      + [if IsSleeping(goroutines[|goroutines| - 1], c) then Worker(c, Woken) else goroutines[|goroutines| - 1]]
  }

  function WokenBy(w: World, e: Event): (r: seq<Goroutine>)
    requires Enabled(w, e)
    ensures |r| == |w.goroutines|
  {
    match e
    case Signal(_, Some(s)) => w.goroutines[s := Worker(w.goroutines[s].consumer, Woken)]
    case Broadcast(g) => WakeAll(w.goroutines, w.goroutines[g].phase.next)
    case _ => w.goroutines
  }

  function NextGoroutines(w: World, e: Event): seq<Goroutine>
    requires Enabled(w, e)
  {
    (if e.Subscribe? || e.Publish? || e.Revive? || e.Stop? then w.goroutines else WokenBy(w, e)[e.g := NextState(w, e)])
    + Spawned(w, e)
  }

  function Parcelled(g: Goroutine): Parcel
    requires (g.Caller? && g.parcels != []) || (g.Timer? && g.timer.Inserting?)
  {
    if g.Caller? then g.parcels[0] else Parcel(g.consumer, g.timer.delivery)
  }

  function NextConsumers(w: World, e: Event): seq<Consumer>
    requires Enabled(w, e)
  {
    match e
    case Subscribe(configuration) => w.consumers + [Consumer(configuration, [], false)]
    case Enqueue(g) =>
      var parcel := Parcelled(w.goroutines[g]);
      var consumer := w.consumers[parcel.consumer];
      w.consumers[parcel.consumer :=
                    consumer.(queue := Inserted(consumer.queue, parcel.delivery.(arrival := w.arrivals)))]
    case Poll(g) =>
      var c := w.goroutines[g].consumer;
      if !w.consumers[c].stopped && w.consumers[c].queue != []
      then w.consumers[c := w.consumers[c].(queue := w.consumers[c].queue[1..])] else w.consumers
    case StopConsumer(g) =>
      var c := w.goroutines[g].phase.next;
      w.consumers[c := w.consumers[c].(stopped := true)]
    case _ => w.consumers
  }

  /** wait.Add by Subscribe and scheduleRetry; wait.Done by a worker or timer that ends. */
  function NextWait(w: World, e: Event): int
    requires Enabled(w, e)
  {
    match e
    case Subscribe(configuration) => w.wait + WorkersOf(configuration)
    case Deliver(_, _) => if Retries(w, e) then w.wait + 1 else w.wait
    case Poll(g) => if w.consumers[w.goroutines[g].consumer].stopped then w.wait - 1 else w.wait
    case Begin(_) => if w.cancelled then w.wait - 1 else w.wait
    case Signal(g, _) => if w.goroutines[g].Timer? then w.wait - 1 else w.wait
    case Interrupt(g) => if w.goroutines[g].Timer? then w.wait - 1 else w.wait
    case _ => w.wait
  }

  function NextLetters(w: World, e: Event): seq<Letter>
    requires Enabled(w, e)
  {
    match e
    case Park(g) => w.letters + [Letter(w.sequence + 1, w.goroutines[g].consumer, w.goroutines[g].stage.delivery)]
    case Revive(reference) => Without(w.letters, Find(w.letters, reference).value)
    case _ => w.letters
  }

  function NextDropped(w: World, e: Event): seq<nat>
    requires Enabled(w, e)
  {
    match e
    case Begin(g) => if w.cancelled then w.dropped + [w.goroutines[g].stage.delivery.item] else w.dropped
    case Interrupt(g) =>
      w.dropped + [if w.goroutines[g].Worker? then w.goroutines[g].stage.delivery.item
                   else w.goroutines[g].timer.delivery.item]
    case _ => w.dropped
  }

  function Apply(w: World, e: Event): World
    requires Enabled(w, e)
  {
    World(
      NextConsumers(w, e),
      NextGoroutines(w, e),
      NextLetters(w, e),
      if e.Park? then w.sequence + 1 else w.sequence,
      w.stopped || e.Stop?,
      w.cancelled || e.Cancel?,
      NextWait(w, e),
      if e.Publish? then w.items + Origins(e.targets, e.date) else w.items,
      if e.Enqueue? then w.arrivals + 1 else w.arrivals,
      if e.Deliver? && e.good then w.done + [w.goroutines[e.g].stage.delivery.item] else w.done,
      NextDropped(w, e),
      if e.Revive? then w.revived + [e.reference] else w.revived)
  }

  function Exec(events: seq<Event>): Option<World> {
    if events == [] then Some(Init())
    else
      var last := |events| - 1;
      var before := Exec(events[..last]);
      if before.Some? && Enabled(before.value, events[last])
      then Some(Apply(before.value, events[last])) else None
  }
}
