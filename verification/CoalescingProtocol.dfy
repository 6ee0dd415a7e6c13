// The read loop as producer, the indication loop as consumer, and the closing of the client.

module CoalescingProtocol {
  import opened Coalescing
  import opened Wrappers

  datatype Producer =
    | Idle
    | Offering(event: Event)     // in enqueueIndication
    | Overflowing(event: Event)  // saw the queue full, about to lock the store
    | Stored                     // stored an event, about to post the token

  datatype Consumer =
    | Popping                    // about to pop the store
    | Parked                     // the store was empty; waiting on queue, token or close
    | Delivering(event: Event)
    | Ended

  // `offered`, `delivered`, `overwritten`, `dropped` and `lost` record what became of every event, and
  // `spilled` the numbers of those that went through the store.
  datatype Sys = Sys(
    capacity: nat,
    queue: seq<Event>,
    store: Store,
    token: bool,
    producer: Producer,
    consumer: Consumer,
    closed: bool,
    offered: seq<Event>,
    delivered: seq<Event>,
    overwritten: seq<(Event, Event)>,
    dropped: seq<Event>,
    lost: seq<Event>,
    spilled: set<nat>)

  datatype Action =
    | Offer(kind: EventType, service: nat, message: nat)
    | Enqueue
    | FindFull                   // queue full, coalescible
    | Spill                      // into the store, whatever the queue is like by now
    | PostToken
    | TimeOut                    // not coalescible, queue still full
    | Abandon                    // not coalescible, client closing
    | Pop
    | ReceiveEvent
    | ReceiveToken
    | Deliver
    | AbortDelivery              // client closing
    | EndLoop                    // client closing
    | Close

  predicate Enabled(s: Sys, a: Action) {
    match a
    case Offer(_, _, _) => s.producer.Idle?
    case Enqueue => s.producer.Offering? && |s.queue| < s.capacity
    case FindFull => s.producer.Offering? && |s.queue| == s.capacity && CoalescingKey(s.producer.event).Some?
    case Spill => s.producer.Overflowing? && CoalescingKey(s.producer.event).Some?
    case PostToken => s.producer.Stored?
    case TimeOut => s.producer.Offering? && CoalescingKey(s.producer.event).None?
    case Abandon => s.producer.Offering? && CoalescingKey(s.producer.event).None? && s.closed
    case Pop => s.consumer.Popping?
    case ReceiveEvent => s.consumer.Parked? && s.queue != []
    case ReceiveToken => s.consumer.Parked? && s.token
    case Deliver => s.consumer.Delivering?
    case AbortDelivery => s.consumer.Delivering? && s.closed
    case EndLoop => s.consumer.Parked? && s.closed
    case Close => true
  }

  function Apply(s: Sys, a: Action): Sys
    requires Enabled(s, a)
  {
    match a
    case Offer(kind, service, message) =>
      var e := Event(|s.offered|, kind, service, message);
      s.(producer := Offering(e), offered := s.offered + [e])
    case Enqueue => s.(queue := s.queue + [s.producer.event], producer := Idle)
    case FindFull => s.(producer := Overflowing(s.producer.event))
    case Spill =>
      var e := s.producer.event;
      var key := CoalescingKey(e).value;
      s.(store := Put(s.store, key, e),
         overwritten := if key in s.store.events then s.overwritten + [(s.store.events[key], e)] else s.overwritten,
         producer := Stored, spilled := s.spilled + {e.id})
    case PostToken => s.(token := true, producer := Idle)
    case TimeOut => s.(dropped := s.dropped + [s.producer.event], producer := Idle)
    case Abandon => s.(lost := s.lost + [s.producer.event], producer := Idle)
    case Pop =>
      var (store, event) := Take(s.store);
      s.(store := store, consumer := if event.Some? then Delivering(event.value) else Parked)
    case ReceiveEvent => s.(queue := s.queue[1..], consumer := Delivering(s.queue[0]))
    case ReceiveToken => s.(token := false, consumer := Popping)
    case Deliver => s.(delivered := s.delivered + [s.consumer.event], consumer := Popping)
    case AbortDelivery => s.(lost := s.lost + [s.consumer.event], consumer := Ended)
    case EndLoop => s.(consumer := Ended)
    case Close => s.(closed := true)
  }

  ghost predicate Initial(s: Sys) {
    && s.capacity > 0 && s.queue == [] && s.store == EMPTY_STORE && !s.token
    && s.producer == Idle && s.consumer == Popping && !s.closed
    && s.offered == [] && s.delivered == [] && s.overwritten == [] && s.dropped == [] && s.lost == []
    && s.spilled == {}
  }

  ghost predicate IsRun(states: seq<Sys>, actions: seq<Action>) {
    && |states| == |actions| + 1
    && Initial(states[0])
    && forall i | 0 <= i < |actions| :: Enabled(states[i], actions[i]) && states[i + 1] == Apply(states[i], actions[i])
  }

  // ------------------------------------------------------------------ the invariant

  predicate HoldsEvent(p: Producer) {
    p.Offering? || p.Overflowing?
  }

  function InProducer(s: Sys): seq<Event> {
    if HoldsEvent(s.producer) then [s.producer.event] else []
  }

  function InConsumer(s: Sys): seq<Event> {
    if s.consumer.Delivering? then [s.consumer.event] else []
  }

  function Losers(pairs: seq<(Event, Event)>): seq<Event> {
    seq(|pairs|, i requires 0 <= i < |pairs| => pairs[i].0)
  }

  // In how many places an event is.
  ghost function Places(s: Sys, e: Event): nat
    requires ValidStore(s.store)
  {
    Count(InProducer(s), e) + Count(s.queue, e) + Count(Contents(s.store), e) + Count(InConsumer(s), e)
    + Count(s.delivered, e) + Count(Losers(s.overwritten), e) + Count(s.dropped, e) + Count(s.lost, e)
  }

  // Every event is in as many places as it was offered times.
  ghost predicate Conserved(s: Sys)
    requires ValidStore(s.store)
  {
    forall e :: Count(s.offered, e) == Places(s, e)
  }

  // Events are numbered by arrival; the one being offered is newer than everything stored.
  ghost predicate Numbered(s: Sys)
    requires ValidStore(s.store)
  {
    && (forall i | 0 <= i < |s.offered| :: s.offered[i].id == i)
    && (HoldsEvent(s.producer) ==> |s.offered| > 0 && s.producer.event == s.offered[|s.offered| - 1])
    && (forall k <- s.store.events ::
          s.store.events[k].id < if HoldsEvent(s.producer) then s.producer.event.id else |s.offered|)
  }

  // An event is overwritten only by a newer one under its key; only events without a key are
  // dropped; nothing is lost while the client is open.
  ghost predicate LossesJustified(s: Sys) {
    && (forall i | 0 <= i < |s.overwritten| ::
          var (loser, winner) := s.overwritten[i];
          CoalescingKey(loser).Some? && CoalescingKey(loser) == CoalescingKey(winner) && loser.id < winner.id)
    && (forall e <- s.dropped :: CoalescingKey(e).None?)
    && (!s.closed ==> s.lost == [])
  }

  // If something is stored while the consumer sleeps, a token is there or about to be posted.
  ghost predicate NoLostWakeup(s: Sys) {
    s.consumer.Parked? && s.store.order != [] ==> s.token || s.producer.Stored?
  }

  // The number the next event through the queue has at least.
  function Horizon(s: Sys): nat {
    if HoldsEvent(s.producer) then s.producer.event.id else |s.offered|
  }

  // Of the events that did not go through the store, the delivered ones are in the order they were
  // offered, then comes the one being delivered, then the queue.
  ghost predicate QueueInOrder(s: Sys) {
    && (forall n <- s.spilled :: n < Horizon(s))
    && (forall k <- s.store.events :: s.store.events[k].id in s.spilled)
    && (forall i | 0 <= i < |s.queue| :: s.queue[i].id < Horizon(s) && s.queue[i].id !in s.spilled)
    && (forall i, j | 0 <= i < j < |s.queue| :: s.queue[i].id < s.queue[j].id)
    && (s.consumer.Delivering? && s.consumer.event.id !in s.spilled ==>
          && s.consumer.event.id < Horizon(s)
          && forall i | 0 <= i < |s.queue| :: s.consumer.event.id < s.queue[i].id)
    && (forall i | 0 <= i < |s.delivered| && s.delivered[i].id !in s.spilled ::
          && s.delivered[i].id < Horizon(s)
          && (s.consumer.Delivering? && s.consumer.event.id !in s.spilled ==>
                s.delivered[i].id < s.consumer.event.id)
          && forall j | 0 <= j < |s.queue| :: s.delivered[i].id < s.queue[j].id)
    && (forall i, j | 0 <= i < j < |s.delivered| ::
          s.delivered[i].id !in s.spilled && s.delivered[j].id !in s.spilled ==>
            s.delivered[i].id < s.delivered[j].id)
  }

  ghost predicate Inv(s: Sys) {
    && ValidStore(s.store) && |s.queue| <= s.capacity
    && Conserved(s) && Numbered(s) && LossesJustified(s) && NoLostWakeup(s) && QueueInOrder(s)
  }

  // ---- conservation, step by step

  lemma LosersAppend(pairs: seq<(Event, Event)>, pair: (Event, Event))
    ensures Losers(pairs + [pair]) == Losers(pairs) + [pair.0]
  {
  }

  lemma ContentsAt(st: Store, i: nat)
    requires ValidStore(st) && i < |st.order|
    ensures st.order[i] in st.events && |Contents(st)| == |st.order| && Contents(st)[i] == st.events[st.order[i]]
  {
    hide CoalescingKey;
  }

  lemma SpillConserves(s: Sys, x: Event)
    requires ValidStore(s.store) && Enabled(s, Spill)
    requires ValidStore(Apply(s, Spill).store)
    ensures Places(Apply(s, Spill), x) == Places(s, x)
  {
    hide ValidStore, CoalescingKey, Count, Contents, Losers, Put;
    var t := Apply(s, Spill);
    var e := s.producer.event;
    var key := CoalescingKey(e).value;
    PutKeepsOrder(s.store, key, e);
    CountOne(e, x);
    if key in s.store.events {
      var loser := s.store.events[key];
      var i :| 0 <= i < |s.store.order| && s.store.order[i] == key && Contents(t.store) == Contents(s.store)[i := e];
      ContentsAt(s.store, i);
      CountUpdate(Contents(s.store), i, e, x);
      LosersAppend(s.overwritten, (loser, e));
      CountConcat(Losers(s.overwritten), [loser], x);
      CountOne(loser, x);
    } else {
      CountConcat(Contents(s.store), [e], x);
    }
  }

  lemma PopConserves(s: Sys, x: Event)
    requires ValidStore(s.store) && Enabled(s, Pop)
    requires ValidStore(Apply(s, Pop).store)
    ensures Places(Apply(s, Pop), x) == Places(s, x)
  {
    hide ValidStore, Take, Count, Contents, Losers;
    TakeIsFirst(s.store);
    var (rest, event) := Take(s.store);
    if event.Some? {
      CountConcat([event.value], Contents(rest), x);
      CountOne(event.value, x);
    }
  }

  lemma ReceiveConserves(s: Sys, x: Event)
    requires ValidStore(s.store) && Enabled(s, ReceiveEvent)
    ensures Places(Apply(s, ReceiveEvent), x) == Places(s, x)
  {
    hide ValidStore, Count, Contents, Losers;
    assert s.queue == [s.queue[0]] + s.queue[1..];
    CountConcat([s.queue[0]], s.queue[1..], x);
    CountOne(s.queue[0], x);
  }

  lemma OfferCounts(s: Sys, a: Action, x: Event)
    requires ValidStore(s.store) && Enabled(s, a) && a.Offer?
    ensures Places(Apply(s, a), x) - Count(Apply(s, a).offered, x) == Places(s, x) - Count(s.offered, x)
  {
    hide ValidStore, Count, Contents, Losers;
    var e := Apply(s, a).producer.event;
    CountOne(e, x);
    CountConcat(s.offered, [e], x);
  }

  // The steps of the producer that take the event elsewhere than to the store.
  lemma ProducerConserves(s: Sys, a: Action, x: Event)
    requires ValidStore(s.store) && Enabled(s, a)
    requires a.Enqueue? || a.FindFull? || a.PostToken? || a.TimeOut? || a.Abandon?
    ensures Places(Apply(s, a), x) == Places(s, x)
  {
    hide ValidStore, Count, Contents, Losers, CoalescingKey;
    if s.producer.Offering? {
      var e := s.producer.event;
      CountOne(e, x);
      CountConcat(s.queue, [e], x);
      CountConcat(s.dropped, [e], x);
      CountConcat(s.lost, [e], x);
    }
  }

  lemma ConsumerConserves(s: Sys, a: Action, x: Event)
    requires ValidStore(s.store) && Enabled(s, a)
    requires a.ReceiveToken? || a.Deliver? || a.AbortDelivery? || a.EndLoop? || a.Close?
    ensures Places(Apply(s, a), x) == Places(s, x)
  {
    hide ValidStore, Count, Contents, Losers;
    if s.consumer.Delivering? {
      CountOne(s.consumer.event, x);
      CountConcat(s.delivered, [s.consumer.event], x);
      CountConcat(s.lost, [s.consumer.event], x);
    }
  }

  lemma PlacesKept(s: Sys, a: Action, x: Event)
    requires Enabled(s, a) && ValidStore(s.store) && ValidStore(Apply(s, a).store)
    ensures Places(Apply(s, a), x) - Count(Apply(s, a).offered, x) == Places(s, x) - Count(s.offered, x)
  {
    hide ValidStore, Count, Contents, Losers, Places, CoalescingKey, Put, Take;
    if a.Spill? {
      SpillConserves(s, x);
    } else if a.Pop? {
      PopConserves(s, x);
    } else if a.ReceiveEvent? {
      ReceiveConserves(s, x);
    } else if a.Offer? {
      OfferCounts(s, a, x);
    } else if a.Enqueue? || a.FindFull? || a.PostToken? || a.TimeOut? || a.Abandon? {
      ProducerConserves(s, a, x);
    } else {
      ConsumerConserves(s, a, x);
    }
  }

  lemma ConservationKept(s: Sys, a: Action)
    requires Enabled(s, a) && ValidStore(s.store) && ValidStore(Apply(s, a).store) && Conserved(s)
    ensures Conserved(Apply(s, a))
  {
    hide ValidStore, Count, Places, Apply;
    forall x
      ensures Count(Apply(s, a).offered, x) == Places(Apply(s, a), x)
    {
      PlacesKept(s, a, x);
      assert Count(s.offered, x) == Places(s, x);
    }
  }

  // ---- the rest

  lemma StoreStaysValid(s: Sys, a: Action)
    requires ValidStore(s.store) && Enabled(s, a)
    ensures ValidStore(Apply(s, a).store)
    ensures a.Pop? ==> forall k <- Apply(s, a).store.events ::
                         k in s.store.events && Apply(s, a).store.events[k] == s.store.events[k]
    ensures a.Pop? ==> (Apply(s, a).consumer.Parked? <==> s.store.order == [])
    ensures a.Pop? && s.store.order == [] ==> Apply(s, a).store == s.store
  {
    if a.Spill? {
      PutKeepsOrder(s.store, CoalescingKey(s.producer.event).value, s.producer.event);
    } else if a.Pop? {
      TakeIsFirst(s.store);
      if s.store.order != [] {
        assert s.store.order[0] in s.store.events;
      }
    }
    hide ValidStore, CoalescingKey;
  }

  lemma NumbersKept(s: Sys, a: Action)
    requires ValidStore(s.store) && Numbered(s) && Enabled(s, a)
    requires ValidStore(Apply(s, a).store)
    ensures Numbered(Apply(s, a))
  {
    StoreStaysValid(s, a);
    hide ValidStore, Take;
  }

  lemma LossesKept(s: Sys, a: Action)
    requires ValidStore(s.store) && Numbered(s) && LossesJustified(s) && Enabled(s, a)
    ensures LossesJustified(Apply(s, a))
  {
    hide IsCoalescible, Take;
  }

  lemma WakeupsKept(s: Sys, a: Action)
    requires ValidStore(s.store) && NoLostWakeup(s) && Enabled(s, a)
    ensures NoLostWakeup(Apply(s, a))
  {
    StoreStaysValid(s, a);
    hide ValidStore, Take, CoalescingKey;
  }

  lemma OrderKeptByProducer(s: Sys, a: Action)
    requires ValidStore(s.store) && Numbered(s) && QueueInOrder(s) && Enabled(s, a)
    requires a.Offer? || a.Enqueue? || a.FindFull? || a.PostToken? || a.TimeOut? || a.Abandon?
    ensures QueueInOrder(Apply(s, a))
  {
    hide ValidStore, CoalescingKey;
  }

  lemma OrderKeptBySpill(s: Sys)
    requires ValidStore(s.store) && Numbered(s) && QueueInOrder(s) && Enabled(s, Spill)
    ensures QueueInOrder(Apply(s, Spill))
  {
    hide ValidStore, CoalescingKey;
  }

  lemma OrderKeptByPop(s: Sys)
    requires ValidStore(s.store) && Numbered(s) && QueueInOrder(s) && Enabled(s, Pop)
    ensures QueueInOrder(Apply(s, Pop))
  {
    StoreStaysValid(s, Pop);
    if s.store.order != [] {
      TakeHead(s.store);
    }
    hide ValidStore, Take, CoalescingKey;
  }

  lemma OrderKeptByConsumer(s: Sys, a: Action)
    requires QueueInOrder(s) && Enabled(s, a)
    requires a.ReceiveEvent? || a.ReceiveToken? || a.Deliver? || a.AbortDelivery? || a.EndLoop? || a.Close?
    ensures QueueInOrder(Apply(s, a))
  {
    hide CoalescingKey;
  }

  lemma OrderKept(s: Sys, a: Action)
    requires ValidStore(s.store) && Numbered(s) && QueueInOrder(s) && Enabled(s, a)
    ensures QueueInOrder(Apply(s, a))
  {
    hide ValidStore, Numbered, QueueInOrder, CoalescingKey, Put, Take;
    if a.Spill? {
      OrderKeptBySpill(s);
    } else if a.Pop? {
      OrderKeptByPop(s);
    } else if a.Offer? || a.Enqueue? || a.FindFull? || a.PostToken? || a.TimeOut? || a.Abandon? {
      OrderKeptByProducer(s, a);
    } else {
      OrderKeptByConsumer(s, a);
    }
  }

  lemma StepPreserves(s: Sys, a: Action)
    requires Inv(s) && Enabled(s, a)
    ensures Inv(Apply(s, a))
  {
    StoreStaysValid(s, a);
    ConservationKept(s, a);
    NumbersKept(s, a);
    LossesKept(s, a);
    WakeupsKept(s, a);
    OrderKept(s, a);
    hide ValidStore, Numbered, LossesJustified, NoLostWakeup, Conserved, QueueInOrder, CoalescingKey, Put, Take;
  }

  lemma {:induction false} RunsAreSafe(states: seq<Sys>, actions: seq<Action>, k: nat)
    requires IsRun(states, actions) && k < |states|
    ensures Inv(states[k])
  {
    if k > 0 {
      RunsAreSafe(states, actions, k - 1);
      StepPreserves(states[k - 1], actions[k - 1]);
    }
  }

  // ------------------------------------------------------------------ what users rely on

  // While the client is open, a coalescible indication that was offered is still on its way, was
  // delivered, or was overwritten by a newer one under its key.
  lemma CoalescibleSurvives(states: seq<Sys>, actions: seq<Action>, k: nat, e: Event)
    requires IsRun(states, actions) && k < |states|
    requires var s := states[k]; !s.closed && e in s.offered && CoalescingKey(e).Some?
    ensures var s := states[k];
            || e in InProducer(s) || e in s.queue || e in s.store.events.Values || e in InConsumer(s)
            || e in s.delivered
            || (exists i :: 0 <= i < |s.overwritten| && s.overwritten[i].0 == e
                            && CoalescingKey(s.overwritten[i].1) == CoalescingKey(e) && e.id < s.overwritten[i].1.id)
  {
    RunsAreSafe(states, actions, k);
    var s := states[k];
    CountMember(s.offered, e);
    assert Places(s, e) > 0;
    CountMember(InProducer(s), e);
    CountMember(s.queue, e);
    CountMember(InConsumer(s), e);
    CountMember(s.delivered, e);
    CountMember(s.dropped, e);
    CountMember(Contents(s.store), e);
    CountMember(Losers(s.overwritten), e);
    assert Count([], e) == 0;
    hide Count;
    if e in Contents(s.store) {
      var i :| 0 <= i < |s.store.order| && Contents(s.store)[i] == e;
      assert s.store.order[i] in s.store.events;
    } else if e in Losers(s.overwritten) {
      var i :| 0 <= i < |s.overwritten| && Losers(s.overwritten)[i] == e;
      assert s.overwritten[i].0 == e;
    }
  }

  // No indication is delivered twice, and only offered ones are delivered.
  lemma DeliveredOnce(states: seq<Sys>, actions: seq<Action>, k: nat, i: nat, j: nat)
    requires IsRun(states, actions) && k < |states|
    requires i < j < |states[k].delivered|
    ensures states[k].delivered[i] in states[k].offered
    ensures states[k].delivered[i] != states[k].delivered[j]
  {
    RunsAreSafe(states, actions, k);
    var s := states[k];
    var e := s.delivered[i];
    assert Count(s.offered, e) == Places(s, e);
    CountMember(s.delivered, e);
    CountMember(s.offered, e);
    UniqueInOffered(s, e);
    if s.delivered[j] == e {
      TwiceInSequence(s.delivered, i, j);
    }
  }

  lemma {:induction false} UniqueInOffered(s: Sys, e: Event)
    requires ValidStore(s.store) && Numbered(s)
    ensures Count(s.offered, e) <= 1
  {
    if e in s.offered {
      var i :| 0 <= i < |s.offered| && s.offered[i] == e;
      var rest := s.offered[..i] + s.offered[i + 1..];
      assert s.offered == s.offered[..i] + [e] + s.offered[i + 1..];
      assert multiset(s.offered) == multiset(rest) + multiset{e};
      assert e !in rest;
    }
  }

  lemma TwiceInSequence(es: seq<Event>, i: nat, j: nat)
    requires i < j < |es| && es[i] == es[j]
    ensures Count(es, es[i]) >= 2
  {
    assert es == es[..i] + [es[i]] + es[i + 1..j] + [es[j]] + es[j + 1..];
  }

  // The consumer is never asleep for good while something is stored: it can run, or the producer
  // is about to wake it.
  lemma StoredEventsGetOut(states: seq<Sys>, actions: seq<Action>, k: nat)
    requires IsRun(states, actions) && k < |states|
    requires states[k].store.order != [] && !states[k].consumer.Ended?
    ensures var s := states[k];
            || Enabled(s, Pop) || Enabled(s, ReceiveToken) || Enabled(s, Deliver) || Enabled(s, PostToken)
  {
    RunsAreSafe(states, actions, k);
  }

  // Events that went through the queue are delivered in the order they were offered; edge events
  // always go through it.
  lemma QueuedAreDeliveredInOrder(states: seq<Sys>, actions: seq<Action>, k: nat, i: nat, j: nat)
    requires IsRun(states, actions) && k < |states| && i < j < |states[k].delivered|
    requires states[k].delivered[i].id !in states[k].spilled && states[k].delivered[j].id !in states[k].spilled
    ensures states[k].delivered[i].id < states[k].delivered[j].id
  {
    RunsAreSafe(states, actions, k);
  }

  lemma SpilledByStep(s: Sys, a: Action, n: nat)
    requires ValidStore(s.store) && Numbered(s) && Enabled(s, a) && n in Apply(s, a).spilled && n !in s.spilled
    ensures n < |Apply(s, a).offered| && CoalescingKey(Apply(s, a).offered[n]).Some?
  {
    hide CoalescingKey, ValidStore, Take, Put;
    assert a.Spill?;
  }

  lemma OfferedGrows(s: Sys, a: Action)
    requires Enabled(s, a)
    ensures s.offered <= Apply(s, a).offered
  {
    hide CoalescingKey, Take, Put;
  }

  lemma {:induction false} OnlyCoalescibleAreSpilled(states: seq<Sys>, actions: seq<Action>, k: nat, n: nat)
    requires IsRun(states, actions) && k < |states| && n in states[k].spilled
    ensures n < |states[k].offered| && CoalescingKey(states[k].offered[n]).Some?
  {
    hide CoalescingKey, Apply, ValidStore, Conserved, Numbered, LossesJustified, QueueInOrder, NoLostWakeup, Enabled;
    assert k > 0;
    RunsAreSafe(states, actions, k - 1);
    if n in states[k - 1].spilled {
      OnlyCoalescibleAreSpilled(states, actions, k - 1, n);
      OfferedGrows(states[k - 1], actions[k - 1]);
    } else {
      SpilledByStep(states[k - 1], actions[k - 1], n);
    }
  }

  // While the queue has never been full nothing goes through the store, so everything is delivered in
  // order and nothing is overwritten.
  lemma {:induction false} OnlyOverflowSpills(states: seq<Sys>, actions: seq<Action>, k: nat)
    requires IsRun(states, actions) && k < |states|
    requires forall j | 0 <= j < k :: |states[j].queue| < states[j].capacity
    ensures var s := states[k];
            s.spilled == {} && s.store.events == map[] && s.overwritten == [] && !s.producer.Overflowing?
  {
    hide CoalescingKey, IsCoalescible;
    RunsAreSafe(states, actions, k);
    if k > 0 {
      OnlyOverflowSpills(states, actions, k - 1);
      RunsAreSafe(states, actions, k - 1);
      StoreStaysValid(states[k - 1], actions[k - 1]);
    }
  }
}
