// One lazily allocated service of the manager and its client: the mutex sections of the ensure and
// rebind functions of pkg/manager/service_recovery.go and of cleanup in pkg/manager/manager.go.

module ServiceSlot {
  import opened Wrappers

  // The current client and the published service, by number.
  datatype Slot = Slot(client: Option<nat>, service: Option<nat>)

  // The second check of an ensure call: the client to allocate on, or None to return.
  function CheckSection(s: Slot): Option<nat> {
    if s.service.Some? then None else s.client
  }

  // Publish a service allocated on `client` unless the client has been replaced.
  function PublishSection(s: Slot, client: nat, service: nat): (Slot, bool) {
    if s.client != Some(client) then (s, false) else (s.(service := Some(service)), true)
  }

  // The first section of a rebind: withdraw the service; the result is what was published and where
  // to allocate the next one.
  function WithdrawSection(s: Slot): (Slot, Option<nat>, Option<nat>) {
    (s.(service := None), s.service, s.client)
  }

  // cleanup takes both.
  function ClearSection(s: Slot): (Slot, Option<nat>, Option<nat>) {
    (Slot(None, None), s.service, s.client)
  }

  // A rebind that is not disturbed replaces the service and keeps the client.
  lemma RebindReplaces(s: Slot, service: nat)
    requires s.client.Some?
    ensures var (withdrawn, previous, target) := WithdrawSection(s);
            && target == s.client && previous == s.service
            && PublishSection(withdrawn, target.value, service) == (s.(service := Some(service)), true)
  {
  }

  // After a cleanup nothing allocated before it can be published, whatever client is opened next.
  lemma ClearedSlotRefuses(s: Slot, target: nat, service: nat, next: Option<nat>)
    requires next != Some(target)
    ensures var slot := ClearSection(s).0.(client := next);
            PublishSection(slot, target, service) == (slot, false)
  {
  }

  // An ensure call allocates only where its publication will succeed and displace nothing, as long as
  // nobody else writes the slot; and once it has published, the next ensure call allocates nothing.
  lemma EnsurePublishesOnce(s: Slot, service: nat)
    requires CheckSection(s).Some?
    ensures var (t, published) := PublishSection(s, CheckSection(s).value, service);
            published && s.service.None? && t.service == Some(service) && t.client == s.client && CheckSection(t).None?
  {
  }

  class ManagedService {
    var client: Option<nat>
    var service: Option<nat>

    ghost function View(): Slot
      reads this
    {
      Slot(client, service)
    }

    method Check() returns (allocateOn: Option<nat>)
      ensures allocateOn == CheckSection(View())
    {
      if service.Some? {
        return None;
      }
      allocateOn := client;
    }

    method Publish(target: nat, handle: nat) returns (published: bool)
      modifies this`service
      ensures (View(), published) == PublishSection(old(View()), target, handle)
    {
      if client != Some(target) {
        return false;
      }
      service := Some(handle);
      published := true;
    }

    method Withdraw() returns (previous: Option<nat>, target: Option<nat>)
      modifies this`service
      ensures (View(), previous, target) == WithdrawSection(old(View()))
    {
      previous, target := service, client;
      service := None;
    }

    method Clear() returns (previous: Option<nat>, target: Option<nat>)
      modifies this
      ensures (View(), previous, target) == ClearSection(old(View()))
    {
      previous, target := service, client;
      client, service := None, None;
    }
  }
}
