// Ensure calls, rebinds, cleanups and client openings of one service, interleaved. Every handle the
// modem gave out is on a ledger that says who is responsible for closing it.

module ServiceRebind {
  import opened ServiceSlot
  import opened Wrappers

  datatype Owner = Held(p: nat) | Published | Closed

  datatype Handle = Handle(client: nat, owner: Owner, closes: nat)

  // Where a goroutine stands; the recovery mutex is held from the Locked states on.
  datatype Proc =
    | Idle
    | EnsureLocking
    | EnsureLocked
    | RebindLocking
    | RebindLocked
    | Retiring(previous: Option<nat>, target: Option<nat>)    // closing the withdrawn service
    | Allocating(client: nat)
    | Publishing(client: nat, handle: nat)
    | Discarding(handle: nat)                             // the client was replaced meanwhile
    | CleanupClosing(previous: Option<nat>, target: Option<nat>)
    | CleanupClient(target: Option<nat>)

  datatype Sys = Sys(
    slot: Slot,
    mutex: Option<nat>,
    procs: map<nat, Proc>,
    handles: map<nat, Handle>,
    clients: nat,
    next: nat)

  datatype Action =
    | CallEnsure(p: nat)
    | LockEnsure(p: nat)
    | Recheck(p: nat)
    | CallRebind(p: nat)
    | LockRebind(p: nat)
    | Withdraw(p: nat)
    | ClosePrevious(p: nat)
    | AllocateFails(p: nat)
    | Allocate(p: nat)
    | Publish(p: nat)
    | Discard(p: nat)
    | Cleanup(p: nat)
    | CloseService(p: nat)
    | CloseClient(p: nat)
    | OpenClient(withService: bool)

  predicate Enabled(s: Sys, a: Action) {
    match a
    case OpenClient(_) => s.slot.client.None?
    case _ =>
      && a.p in s.procs
      && var pc := s.procs[a.p];
         match a
         case CallEnsure(_) => pc.Idle?
         case LockEnsure(_) => pc.EnsureLocking? && s.mutex.None?
         case Recheck(_) => pc.EnsureLocked?
         case CallRebind(_) => pc.Idle?
         case LockRebind(_) => pc.RebindLocking? && s.mutex.None?
         case Withdraw(_) => pc.RebindLocked?
         case ClosePrevious(_) => pc.Retiring?
         case AllocateFails(_) => pc.Allocating?
         case Allocate(_) => pc.Allocating?
         case Publish(_) => pc.Publishing?
         case Discard(_) => pc.Discarding?
         case Cleanup(_) => pc.Idle?
         case CloseService(_) => pc.CleanupClosing?
         case CloseClient(_) => pc.CleanupClient?
         case OpenClient(_) => false
  }

  function Move(s: Sys, p: nat, pc: Proc): Sys {
    s.(procs := s.procs[p := pc])
  }

  function Unlock(s: Sys, p: nat): Sys {
    Move(s.(mutex := None), p, Idle)
  }

  function SetOwner(handles: map<nat, Handle>, h: Option<nat>, owner: Owner): map<nat, Handle> {
    if h.Some? && h.value in handles then handles[h.value := handles[h.value].(owner := owner)] else handles
  }

  function CloseHandle(handles: map<nat, Handle>, h: Option<nat>): map<nat, Handle> {
    if h.Some? && h.value in handles then
      handles[h.value := handles[h.value].(owner := Closed, closes := handles[h.value].closes + 1)]
    else handles
  }

  function Apply(s: Sys, a: Action): Sys
    requires Enabled(s, a)
  {
    match a
    case CallEnsure(p) => Move(s, p, if CheckSection(s.slot).Some? then EnsureLocking else Idle)
    case LockEnsure(p) => Move(s.(mutex := Some(p)), p, EnsureLocked)
    case Recheck(p) =>
      var target := CheckSection(s.slot);
      if target.Some? then Move(s, p, Allocating(target.value)) else Unlock(s, p)
    case CallRebind(p) => Move(s, p, RebindLocking)
    case LockRebind(p) => Move(s.(mutex := Some(p)), p, RebindLocked)
    case Withdraw(p) =>
      var (slot, previous, target) := WithdrawSection(s.slot);
      Move(s.(slot := slot, handles := SetOwner(s.handles, previous, Held(p))), p, Retiring(previous, target))
    case ClosePrevious(p) =>
      var pc := s.procs[p];
      var t := s.(handles := CloseHandle(s.handles, pc.previous));
      if pc.target.Some? then Move(t, p, Allocating(pc.target.value)) else Unlock(t, p)
    case AllocateFails(p) => Unlock(s, p)
    case Allocate(p) =>
      var c := s.procs[p].client;
      Move(s.(handles := s.handles[s.next := Handle(c, Held(p), 0)], next := s.next + 1), p, Publishing(c, s.next))
    case Publish(p) =>
      var pc := s.procs[p];
      var (slot, published) := PublishSection(s.slot, pc.client, pc.handle);
      if published then
        Unlock(s.(slot := slot, handles := SetOwner(s.handles, Some(pc.handle), Published)), p)
      else Move(s, p, Discarding(pc.handle))
    case Discard(p) => Unlock(s.(handles := CloseHandle(s.handles, Some(s.procs[p].handle))), p)
    case Cleanup(p) =>
      var (slot, previous, target) := ClearSection(s.slot);
      Move(s.(slot := slot, handles := SetOwner(s.handles, previous, Held(p))), p, CleanupClosing(previous, target))
    case CloseService(p) =>
      Move(s.(handles := CloseHandle(s.handles, s.procs[p].previous)), p, CleanupClient(s.procs[p].target))
    case CloseClient(p) => Move(s, p, Idle)
    case OpenClient(withService) => OpenWith(s, withService)
  }

  // Opening a client and allocating the service on it, as one step.
  function OpenWith(s: Sys, withService: bool): Sys {
    var t := s.(slot := s.slot.(client := Some(s.clients)), clients := s.clients + 1);
    if withService then
      t.(slot := t.slot.(service := Some(s.next)),
         handles := s.handles[s.next := Handle(s.clients, Published, 0)], next := s.next + 1)
    else t
  }

  ghost predicate Initial(s: Sys) {
    && s.slot == Slot(None, None) && s.mutex.None? && s.handles == map[] && s.clients == 0 && s.next == 0
    && (forall p <- s.procs :: s.procs[p].Idle?)
  }

  ghost predicate IsRun(states: seq<Sys>, actions: seq<Action>) {
    && |states| == |actions| + 1
    && Initial(states[0])
    && forall i | 0 <= i < |actions| :: Enabled(states[i], actions[i]) && states[i + 1] == Apply(states[i], actions[i])
  }

  // ------------------------------------------------------------------ the invariant

  // The handle a goroutine must still publish or close.
  function Owes(pc: Proc): Option<nat> {
    if pc.Publishing? || pc.Discarding? then Some(pc.handle)
    else if pc.Retiring? || pc.CleanupClosing? then pc.previous
    else None
  }

  predicate Critical(pc: Proc) {
    pc.EnsureLocked? || pc.RebindLocked? || pc.Retiring? || pc.Allocating? || pc.Publishing? || pc.Discarding?
  }

  // The client a goroutine is about to allocate or publish on.
  function Target(pc: Proc): Option<nat> {
    if pc.Allocating? || pc.Publishing? then Some(pc.client) else if pc.Retiring? then pc.target else None
  }

  predicate MutexAt(s: Sys, p: nat)
    requires p in s.procs
  {
    Critical(s.procs[p]) <==> s.mutex == Some(p)
  }

  // A handle has one owner: the slot, one goroutine that knows it, or nobody once it is closed,
  // which happens once.
  predicate OwnedAt(s: Sys, h: nat)
    requires h in s.handles
  {
    var e := s.handles[h];
    && h < s.next && e.client < s.clients
    && (e.owner.Published? <==> s.slot.service == Some(h))
    && (e.owner.Held? ==> e.owner.p in s.procs && Owes(s.procs[e.owner.p]) == Some(h))
    && e.closes == (if e.owner.Closed? then 1 else 0)
  }

  // A goroutine owns the handle it must publish or close; what it is to publish was allocated on the
  // client it remembers.
  predicate DebtAt(s: Sys, p: nat)
    requires p in s.procs
  {
    var pc := s.procs[p];
    && (Owes(pc).Some? ==> Owes(pc).value in s.handles && s.handles[Owes(pc).value].owner == Held(p))
    && (pc.Publishing? ==> pc.handle in s.handles && s.handles[pc.handle].client == pc.client)
  }

  // Nothing is published on the client a goroutine is about to publish on.
  predicate TargetAt(s: Sys, p: nat)
    requires p in s.procs
  {
    var t := Target(s.procs[p]);
    t.Some? ==> t.value < s.clients && (s.slot.client == t ==> s.slot.service.None?)
  }

  // The published service is one of the current client.
  predicate Current(s: Sys) {
    && (s.slot.client.Some? ==> s.slot.client.value < s.clients)
    && (s.slot.service.Some? ==>
          && s.slot.service.value in s.handles
          && s.slot.client == Some(s.handles[s.slot.service.value].client))
  }

  ghost predicate Inv(s: Sys) {
    && Current(s)
    && (forall p <- s.procs :: MutexAt(s, p))
    && (forall h <- s.handles :: OwnedAt(s, h))
    && (forall p <- s.procs :: DebtAt(s, p))
    && (forall p <- s.procs :: TargetAt(s, p))
  }

  // ------------------------------------------------------------------ preservation, point by point

  // What the invariant says about the goroutine that takes the step and about the published handle.
  predicate ActorOk(s: Sys, a: Action)
    requires Enabled(s, a)
  {
    && Current(s)
    && (!a.OpenClient? ==> MutexAt(s, a.p) && DebtAt(s, a.p) && TargetAt(s, a.p))
    && (!a.OpenClient? && Owes(s.procs[a.p]).Some? && Owes(s.procs[a.p]).value in s.handles ==>
          OwnedAt(s, Owes(s.procs[a.p]).value))
    && (s.slot.service.Some? && s.slot.service.value in s.handles ==> OwnedAt(s, s.slot.service.value))
  }

  lemma KeepsMutexAt(s: Sys, a: Action, p: nat)
    requires Enabled(s, a) && ActorOk(s, a) && p in s.procs && MutexAt(s, p)
    ensures p in Apply(s, a).procs && MutexAt(Apply(s, a), p)
  {
  }

  lemma KeepsOwnedAt(s: Sys, a: Action, h: nat)
    requires Enabled(s, a) && ActorOk(s, a) && h in Apply(s, a).handles
    requires h in s.handles ==> OwnedAt(s, h)
    requires s.next !in s.handles
    ensures OwnedAt(Apply(s, a), h)
  {
  }

  lemma KeepsDebtAt(s: Sys, a: Action, p: nat)
    requires Enabled(s, a) && ActorOk(s, a) && p in s.procs && DebtAt(s, p)
    requires s.next !in s.handles
    ensures p in Apply(s, a).procs && DebtAt(Apply(s, a), p)
  {
  }

  lemma KeepsTargetAt(s: Sys, a: Action, p: nat)
    requires Enabled(s, a) && ActorOk(s, a) && p in s.procs && TargetAt(s, p) && MutexAt(s, p)
    ensures p in Apply(s, a).procs && TargetAt(Apply(s, a), p)
  {
  }

  lemma KeepsCurrent(s: Sys, a: Action)
    requires Enabled(s, a) && ActorOk(s, a) && s.next !in s.handles
    ensures Current(Apply(s, a))
  {
  }

  lemma KeepsProcs(s: Sys, a: Action)
    requires Enabled(s, a)
    ensures Apply(s, a).procs.Keys == s.procs.Keys
  {
  }

  lemma ActorIsOk(s: Sys, a: Action)
    requires Inv(s) && Enabled(s, a)
    ensures ActorOk(s, a) && s.next !in s.handles
  {
    hide MutexAt, DebtAt, TargetAt, Current, Owes;
  }

  lemma StepPreserves(s: Sys, a: Action)
    requires Inv(s) && Enabled(s, a)
    ensures Inv(Apply(s, a))
  {
    hide MutexAt, OwnedAt, DebtAt, TargetAt, Current, ActorOk, Apply, Enabled;
    ActorIsOk(s, a);
    KeepsProcs(s, a);
    KeepsCurrent(s, a);
    forall p <- s.procs
      ensures MutexAt(Apply(s, a), p) && DebtAt(Apply(s, a), p) && TargetAt(Apply(s, a), p)
    {
      KeepsMutexAt(s, a, p);
      KeepsDebtAt(s, a, p);
      KeepsTargetAt(s, a, p);
    }
    forall h <- Apply(s, a).handles
      ensures OwnedAt(Apply(s, a), h)
    {
      KeepsOwnedAt(s, a, h);
    }
  }

  // ------------------------------------------------------------------ what holds of every run

  lemma {:induction false} RunsAreSafe(states: seq<Sys>, actions: seq<Action>, i: nat)
    requires IsRun(states, actions) && i < |states|
    ensures Inv(states[i])
  {
    hide Inv, Apply, Enabled;
    if i > 0 {
      RunsAreSafe(states, actions, i - 1);
      StepPreserves(states[i - 1], actions[i - 1]);
    } else {
      InitiallySafe(states[0]);
    }
  }

  lemma InitiallySafe(s: Sys)
    requires Initial(s)
    ensures Inv(s)
  {
  }

  // Whatever is published was allocated on the current client and has not been closed.
  lemma PublishedBelongsToTheCurrentClient(states: seq<Sys>, actions: seq<Action>, i: nat)
    requires IsRun(states, actions) && i < |states| && states[i].slot.service.Some?
    ensures var s := states[i]; var h := s.slot.service.value;
            h in s.handles && s.slot.client == Some(s.handles[h].client) && s.handles[h].closes == 0
  {
    RunsAreSafe(states, actions, i);
    var s := states[i];
    assert OwnedAt(s, s.slot.service.value);
  }

  // Every handle is the published one, or closed once, or in the hands of one goroutine.
  lemma HandlesAreAccounted(states: seq<Sys>, actions: seq<Action>, i: nat, h: nat)
    requires IsRun(states, actions) && i < |states| && h in states[i].handles
    ensures var s := states[i]; var e := s.handles[h];
            match e.owner
            case Published => s.slot.service == Some(h) && e.closes == 0
            case Held(p) => p in s.procs && Owes(s.procs[p]) == Some(h) && e.closes == 0 && s.slot.service != Some(h)
            case Closed => e.closes == 1 && s.slot.service != Some(h)
  {
    RunsAreSafe(states, actions, i);
    assert OwnedAt(states[i], h);
  }

  // Two goroutines never own the same handle.
  lemma OwnersAreSingle(states: seq<Sys>, actions: seq<Action>, i: nat, p: nat, q: nat)
    requires IsRun(states, actions) && i < |states| && p in states[i].procs && q in states[i].procs
    requires Owes(states[i].procs[p]).Some? && Owes(states[i].procs[p]) == Owes(states[i].procs[q])
    ensures p == q
  {
    RunsAreSafe(states, actions, i);
    assert DebtAt(states[i], p) && DebtAt(states[i], q);
  }

  // When no call is under way, nothing has leaked.
  lemma NothingLeaks(states: seq<Sys>, actions: seq<Action>, i: nat, h: nat)
    requires IsRun(states, actions) && i < |states| && h in states[i].handles
    requires forall p <- states[i].procs :: states[i].procs[p].Idle?
    ensures states[i].slot.service == Some(h) || states[i].handles[h].closes == 1
  {
    RunsAreSafe(states, actions, i);
    assert OwnedAt(states[i], h);
  }

  // ------------------------------------------------------------------ the startup retry

  // An attempt of openClientAndAllocateServices that fails: the client is closed and dropped, the
  // services it had published stay.
  function FailedStart(s: Sys, withService: bool): Sys {
    var t := OpenWith(s, withService);
    t.(slot := t.slot.(client := None))
  }

  // The invariant survives such an attempt exactly when it had not published the service yet.
  lemma FailedStartBreaksTheInvariant(s: Sys, withService: bool)
    requires Inv(s) && s.slot.client.None?
    ensures Inv(FailedStart(s, withService)) <==> !withService
  {
    var t := FailedStart(s, withService);
    if !withService {
      forall h <- s.handles
        ensures OwnedAt(t, h)
      {
        assert OwnedAt(s, h);
      }
      forall p <- s.procs
        ensures MutexAt(t, p) && DebtAt(t, p) && TargetAt(t, p)
      {
        assert MutexAt(s, p) && DebtAt(s, p) && TargetAt(s, p);
      }
    } else {
      assert !Current(t);
    }
  }

  // A handle nobody will close: not published, not closed, and owed by no goroutine.
  ghost predicate Orphan(s: Sys, h: nat) {
    && h in s.handles && s.handles[h].closes == 0 && s.slot.service != Some(h)
    && forall p <- s.procs :: Owes(s.procs[p]) != Some(h)
  }

  // The next attempt then overwrites the service, and the old handle has no owner left to close it.
  lemma RetryOrphansAHandle(s: Sys)
    requires Inv(s) && s.slot.client.None?
    ensures Orphan(OpenWith(FailedStart(s, true), true), s.next)
  {
    forall p <- s.procs
      ensures Owes(s.procs[p]) != Some(s.next)
    {
      assert DebtAt(s, p);
      if Owes(s.procs[p]).Some? {
        assert OwnedAt(s, Owes(s.procs[p]).value);
      }
    }
  }

  // ------------------------------------------------------------------ opening in two steps

  // The publication of allocateServices: whatever is in the slot is overwritten.
  function StartPublish(s: Sys): Sys
    requires s.slot.client.Some?
  {
    s.(slot := s.slot.(service := Some(s.next)),
       handles := s.handles[s.next := Handle(s.slot.client.value, Published, 0)], next := s.next + 1)
  }

  // When the client is opened in a step of its own, the publication that follows keeps the invariant
  // exactly when no ensure call got in between: nothing is published yet and nobody is about to.
  lemma StartPublishKeepsTheInvariantIff(s: Sys)
    requires Inv(s) && s.slot.client.Some?
    ensures Inv(StartPublish(s)) <==>
              s.slot.service.None? && forall p <- s.procs :: Target(s.procs[p]) != s.slot.client
  {
    var t := StartPublish(s);
    if s.slot.service.Some? {
      assert OwnedAt(s, s.slot.service.value);
      assert !OwnedAt(t, s.slot.service.value);
    } else if p :| p in s.procs && Target(s.procs[p]) == s.slot.client {
      assert !TargetAt(t, p);
    } else {
      forall h <- t.handles
        ensures OwnedAt(t, h)
      {
        if h != s.next {
          assert OwnedAt(s, h);
        }
      }
      forall p <- t.procs
        ensures MutexAt(t, p) && DebtAt(t, p) && TargetAt(t, p)
      {
        assert MutexAt(s, p) && DebtAt(s, p) && TargetAt(s, p);
        if Owes(s.procs[p]).Some? {
          assert OwnedAt(s, Owes(s.procs[p]).value);
        }
      }
    }
  }

  // Otherwise a handle is lost without any failure: the one an ensure call had published, ...
  lemma StartOrphansThePublished(s: Sys)
    requires Inv(s) && s.slot.client.Some? && s.slot.service.Some?
    ensures Orphan(StartPublish(s), s.slot.service.value)
  {
    var h := s.slot.service.value;
    assert OwnedAt(s, h);
    forall p <- s.procs
      ensures Owes(s.procs[p]) != Some(h)
    {
      assert DebtAt(s, p);
    }
  }

  // ... or the one of the start, when an ensure call that is under way publishes over it.
  lemma EnsureOrphansTheStart(s: Sys, p: nat)
    requires Inv(s) && s.slot.client.Some? && p in s.procs
    requires s.procs[p].Publishing? && Some(s.procs[p].client) == s.slot.client
    ensures Enabled(StartPublish(s), Publish(p)) && Orphan(Apply(StartPublish(s), Publish(p)), s.next)
  {
    var t := Apply(StartPublish(s), Publish(p));
    assert DebtAt(s, p);
    assert OwnedAt(s, s.procs[p].handle);
    forall q <- t.procs
      ensures Owes(t.procs[q]) != Some(s.next)
    {
      assert DebtAt(s, q);
      if Owes(s.procs[q]).Some? {
        assert OwnedAt(s, Owes(s.procs[q]).value);
      }
    }
  }

  // ------------------------------------------------------------------ calls that nobody disturbs

  // An ensure call with a service there, or without a client, returns at once.
  lemma EnsureReturnsAtOnce(s: Sys, p: nat)
    requires p in s.procs && s.procs[p].Idle?
    ensures (s.slot.service.Some? || s.slot.client.None?) <==> Apply(s, CallEnsure(p)).procs[p].Idle?
    ensures Apply(s, CallEnsure(p)).slot == s.slot && Apply(s, CallEnsure(p)).handles == s.handles
  {
  }

  // Allocating and publishing on a client that stays.
  function Allocated(s: Sys, p: nat): Sys
    requires p in s.procs && s.procs[p].Allocating?
  {
    Apply(Apply(s, Allocate(p)), Publish(p))
  }

  lemma AllocatedIsPublished(s: Sys, p: nat)
    requires p in s.procs && s.procs[p].Allocating? && s.slot.client == Some(s.procs[p].client)
    ensures Allocated(s, p) ==
            s.(slot := s.slot.(service := Some(s.next)), mutex := None, procs := s.procs[p := Idle],
               handles := s.handles[s.next := Handle(s.procs[p].client, Published, 0)], next := s.next + 1)
  {
    var c := s.procs[p].client;
    var t := Apply(s, Allocate(p));
    assert t.handles[s.next := t.handles[s.next].(owner := Published)] ==
           s.handles[s.next := Handle(c, Published, 0)];
    assert t.procs[p := Idle] == s.procs[p := Idle];
  }

  // With a client and no service, it allocates one, which is published on that client when it returns.
  lemma EnsurePublishes(s: Sys, p: nat) returns (t: Sys)
    requires p in s.procs && s.procs[p].Idle? && s.mutex.None?
    requires s.slot.client.Some? && s.slot.service.None?
    ensures t.slot == Slot(s.slot.client, Some(s.next)) && p in t.procs && t.procs[p].Idle? && t.mutex.None?
    ensures t.handles == s.handles[s.next := Handle(s.slot.client.value, Published, 0)]
    ensures t == After(s, [CallEnsure(p), LockEnsure(p), Recheck(p), Allocate(p), Publish(p)])
  {
    var a := Apply(s, CallEnsure(p));
    var b := Apply(a, LockEnsure(p));
    var c := Apply(b, Recheck(p));
    AllocatedIsPublished(c, p);
    AfterFive(s, CallEnsure(p), LockEnsure(p), Recheck(p), Allocate(p), Publish(p));
    t := Allocated(c, p);
  }

  lemma PublishedIsListed(s: Sys)
    requires Inv(s) && s.slot.service.Some?
    ensures s.slot.service.value in s.handles && s.slot.service.value < s.next
  {
    assert OwnedAt(s, s.slot.service.value);
  }

  // The service withdrawn and closed.
  function Withdrawn(s: Sys, p: nat): Sys
    requires p in s.procs && s.procs[p].RebindLocked?
  {
    Apply(Apply(s, Withdraw(p)), ClosePrevious(p))
  }

  lemma WithdrawnIsClosed(s: Sys, p: nat)
    requires p in s.procs && s.procs[p].RebindLocked? && s.slot.client.Some?
    requires s.slot.service.Some? ==> s.slot.service.value in s.handles
    ensures var t := Withdrawn(s, p);
            && t.slot == Slot(s.slot.client, None) && t.next == s.next && p in t.procs
            && t.procs[p] == Allocating(s.slot.client.value)
            && (s.slot.service.Some? ==>
                  var h := s.slot.service.value;
                  h in t.handles && t.handles[h].owner == Closed && t.handles[h].closes == s.handles[h].closes + 1)
  {
  }

  // A rebind with a client closes what was published, once, and puts a new service in its place.
  lemma RebindPublishes(s: Sys, p: nat) returns (t: Sys)
    requires Inv(s) && p in s.procs && s.procs[p].Idle? && s.mutex.None? && s.slot.client.Some?
    ensures t.slot == Slot(s.slot.client, Some(s.next)) && p in t.procs && t.procs[p].Idle? && t.mutex.None?
    ensures s.next in t.handles && t.handles[s.next] == Handle(s.slot.client.value, Published, 0)
    ensures s.slot.service.Some? ==>
              var h := s.slot.service.value;
              && h in s.handles && h in t.handles
              && t.handles[h].owner == Closed && t.handles[h].closes == s.handles[h].closes + 1
    ensures var a := Apply(Apply(s, CallRebind(p)), LockRebind(p));
            p in a.procs && a.procs[p].RebindLocked? && p in Withdrawn(a, p).procs
            && Withdrawn(a, p).procs[p].Allocating? && t == Allocated(Withdrawn(a, p), p)
  {
    if s.slot.service.Some? {
      PublishedIsListed(s);
    }
    hide Inv;
    var a := Apply(Apply(s, CallRebind(p)), LockRebind(p));
    WithdrawnIsClosed(a, p);
    hide Withdrawn, Allocated;
    AllocatedIsPublished(Withdrawn(a, p), p);
    t := Allocated(Withdrawn(a, p), p);
  }

  // The actions one after the other, as long as they are enabled.
  function After(s: Sys, actions: seq<Action>): Sys
    decreases |actions|
  {
    if actions == [] || !Enabled(s, actions[0]) then s else After(Apply(s, actions[0]), actions[1..])
  }

  lemma AfterFive(s: Sys, a: Action, b: Action, c: Action, d: Action, e: Action)
    requires Enabled(s, a) && Enabled(Apply(s, a), b) && Enabled(Apply(Apply(s, a), b), c)
    requires Enabled(Apply(Apply(Apply(s, a), b), c), d)
    requires Enabled(Apply(Apply(Apply(Apply(s, a), b), c), d), e)
    ensures After(s, [a, b, c, d, e]) == Apply(Apply(Apply(Apply(Apply(s, a), b), c), d), e)
  {
    hide Apply, Enabled;
    var t := Apply(Apply(Apply(Apply(Apply(s, a), b), c), d), e);
    assert After(t, []) == t;
    assert After(Apply(Apply(Apply(Apply(s, a), b), c), d), [e]) == t;
    assert After(Apply(Apply(Apply(s, a), b), c), [d, e]) == t by {
      assert [d, e][1..] == [e];
    }
    assert After(Apply(Apply(s, a), b), [c, d, e]) == t by {
      assert [c, d, e][1..] == [d, e];
    }
    assert After(Apply(s, a), [b, c, d, e]) == t by {
      assert [b, c, d, e][1..] == [c, d, e];
    }
    assert [a, b, c, d, e][1..] == [b, c, d, e];
  }
}
