// The indication pipeline of pkg/qmi/client.go: a bounded queue, a store that keeps the newest
// event per coalescing key when the queue is full, a wake-up token, and the delivering loop.

module Coalescing {
  import opened Wrappers

  // The event types of the client.
  datatype EventType =
    | Unknown | PacketServiceStatusChanged | ServingSystemChanged | NASOperatorNameChanged
    | NASNetworkTimeChanged | NASSignalInfoChanged | NASNetworkReject | NASIncrementalNetworkScan
    | NASCellLocationInfoChanged | ModemReset | NewMessage | WMSSMSCAddress
    | WMSTransportNetworkRegistrationStatus | IMSRegistrationStatus | IMSServicesStatus
    | IMSSettingsChanged | VoiceCallStatus | VoiceSupplementaryService | USSD | VoiceUSSDReleased
    | VoiceUSSDNoWaitResult | SimStatusChanged | UIMSessionClosed | UIMRefresh | UIMSlotStatus
    | NASEventReport | VoiceSupplementaryServiceRequest

  // An indication; `id` numbers indications in order of arrival.
  datatype Event = Event(id: nat, kind: EventType, service: nat, message: nat)

  // The coalescing keys of the Go code are strings with one prefix per type.
  datatype Key = Key(kind: EventType, service: nat, message: nat)

  predicate IsCoalescible(kind: EventType) {
    kind in {PacketServiceStatusChanged, ServingSystemChanged, NASOperatorNameChanged, NASNetworkTimeChanged,
             NASSignalInfoChanged, NASNetworkReject, NASIncrementalNetworkScan, NASEventReport,
             WMSTransportNetworkRegistrationStatus, ModemReset, UIMSessionClosed}
  }

  // The other types, whose every indication counts.
  lemma EdgeTypes(kind: EventType)
    ensures !IsCoalescible(kind) <==>
            kind in {Unknown, NASCellLocationInfoChanged, NewMessage, WMSSMSCAddress, IMSRegistrationStatus,
                     IMSServicesStatus, IMSSettingsChanged, VoiceCallStatus, VoiceSupplementaryService, USSD,
                     VoiceUSSDReleased, VoiceUSSDNoWaitResult, SimStatusChanged, UIMRefresh, UIMSlotStatus,
                     VoiceSupplementaryServiceRequest}
  {
  }

  // Two indications coalesce exactly when they are of one such type, service and message.
  lemma CoalesceIff(d: Event, e: Event)
    ensures CoalescingKey(d).Some? && CoalescingKey(d) == CoalescingKey(e) <==>
            IsCoalescible(d.kind) && d.kind == e.kind && d.service == e.service && d.message == e.message
  {
    hide IsCoalescible;
  }

  function CoalescingKey(e: Event): Option<Key> {
    if IsCoalescible(e.kind) then Some(Key(e.kind, e.service, e.message)) else None
  }

  // The coalescedEventStore: a map and the order in which its keys first arrived.
  datatype Store = Store(events: map<Key, Event>, order: seq<Key>)

  const EMPTY_STORE := Store(map[], [])

  ghost predicate ValidStore(st: Store) {
    && (forall i, j | 0 <= i < j < |st.order| :: st.order[i] != st.order[j])
    && (forall k :: k in st.events <==> k in st.order)
    && (forall k <- st.events :: CoalescingKey(st.events[k]) == Some(k))
  }

  function Put(st: Store, key: Key, event: Event): Store {
    Store(st.events[key := event], if key in st.events then st.order else st.order + [key])
  }

  // Take the oldest key that has an event; keys without one are discarded on the way.
  function Take(st: Store): (Store, Option<Event>)
    decreases |st.order|
  {
    if st.order == [] then (st, None)
    else
      var key := st.order[0];
      var rest := Store(st.events - {key}, st.order[1..]);
      if key in st.events then (rest, Some(st.events[key])) else Take(rest)
  }

  // The stored events in the order they will be taken.
  ghost function Contents(st: Store): seq<Event>
    requires ValidStore(st)
  {
    seq(|st.order|, i requires 0 <= i < |st.order| => st.events[st.order[i]])
  }

  class CoalescedStore {
    var events: map<Key, Event>
    var order: seq<Key>

    ghost function View(): Store
      reads this
    {
      Store(events, order)
    }

    constructor ()
      ensures View() == EMPTY_STORE
    {
      events, order := map[], [];
    }

    method StoreCoalescedEvent(key: Key, event: Event)
      modifies this
      ensures View() == Put(old(View()), key, event)
      // Every other key keeps its event and its place; the key itself keeps its place or comes last.
      ensures old(ValidStore(View())) && CoalescingKey(event) == Some(key) ==>
                && ValidStore(View()) && old(order) <= order && View().events[key] == event
                && (forall k <- old(events) | k != key :: k in events && events[k] == old(events)[k])
                && (key !in old(events) ==> Contents(View()) == old(Contents(View())) + [event])
    {
      if ValidStore(View()) && CoalescingKey(event) == Some(key) {
        PutKeepsOrder(View(), key, event);
      }
      if key !in events {
        order := order + [key];
      }
      events := events[key := event];
    }

    method PopCoalescedEvent() returns (event: Option<Event>)
      modifies this
      ensures (View(), event) == Take(old(View()))
    {
      while |order| > 0
        invariant Take(View()) == Take(old(View()))
        decreases |order|
      {
        var key := order[0];
        order := order[1..];
        if key in events {
          event := Some(events[key]);
          events := events - {key};
          return;
        }
        events := events - {key};
      }
      event := None;
    }
  }

  // ------------------------------------------------------------------ laws of the store

  // Storing keeps the order free of duplicates and equal to the keys; it replaces the event of
  // its key in place or appends, and leaves every other event alone.
  lemma PutKeepsOrder(st: Store, key: Key, event: Event)
    requires ValidStore(st) && CoalescingKey(event) == Some(key)
    ensures var t := Put(st, key, event);
            && ValidStore(t)
            && |Contents(st)| == |st.order|
            && (key !in st.events ==> Contents(t) == Contents(st) + [event])
            && (key in st.events ==>
                  exists i :: 0 <= i < |st.order| && st.order[i] == key && Contents(t) == Contents(st)[i := event])
  {
    hide CoalescingKey;
    var t := Put(st, key, event);
    assert forall k :: k in t.order <==> k in st.order || k == key;
    if key in st.events {
      var i :| 0 <= i < |st.order| && st.order[i] == key;
      assert Contents(t) == Contents(st)[i := event];
    } else {
      assert t.order[|st.order|] == key;
      assert Contents(t) == Contents(st) + [event];
    }
  }

  // Taking from a valid store yields its first event and leaves the others.
  lemma TakeIsFirst(st: Store)
    requires ValidStore(st)
    ensures var (t, event) := Take(st);
            && ValidStore(t)
            && (st.order == [] <==> event == None)
            && (event.Some? ==> Contents(st) == [event.value] + Contents(t))
            && (event == None ==> t == st)
  {
    if st.order != [] {
      TakeHead(st);
      TailIsValid(st);
      ContentsSplit(st);
      hide Take, ValidStore, Contents;
    }
  }

  lemma TakeHead(st: Store)
    requires st.order != [] && st.order[0] in st.events
    ensures Take(st) == (Store(st.events - {st.order[0]}, st.order[1..]), Some(st.events[st.order[0]]))
  {
  }

  lemma ContentsSplit(st: Store)
    requires ValidStore(st) && st.order != []
    requires ValidStore(Store(st.events - {st.order[0]}, st.order[1..]))
    ensures Contents(st) == [st.events[st.order[0]]] + Contents(Store(st.events - {st.order[0]}, st.order[1..]))
  {
    hide CoalescingKey;
  }

  lemma TailIsValid(st: Store)
    requires ValidStore(st) && st.order != []
    ensures ValidStore(Store(st.events - {st.order[0]}, st.order[1..]))
  {
    hide CoalescingKey;
    forall k <- st.events | k != st.order[0]
      ensures k in st.order[1..]
    {
      var i :| 0 <= i < |st.order| && st.order[i] == k;
      assert st.order[1..][i - 1] == k;
    }
  }

  // ------------------------------------------------------------------ counting

  function Count(es: seq<Event>, e: Event): nat {
    multiset(es)[e]
  }

  lemma CountConcat(xs: seq<Event>, ys: seq<Event>, e: Event)
    ensures Count(xs + ys, e) == Count(xs, e) + Count(ys, e)
  {
  }

  lemma CountOne(x: Event, e: Event)
    ensures Count([x], e) == if x == e then 1 else 0
    ensures Count([], e) == 0
  {
  }

  lemma CountUpdate(xs: seq<Event>, i: nat, y: Event, e: Event)
    requires i < |xs|
    ensures Count(xs[i := y], e) == Count(xs, e) - (if xs[i] == e then 1 else 0) + (if y == e then 1 else 0)
  {
    assert multiset(xs[i := y]) == multiset(xs) - multiset{xs[i]} + multiset{y};
  }

  lemma CountMember(xs: seq<Event>, e: Event)
    ensures Count(xs, e) > 0 <==> e in xs
  {
  }
}
