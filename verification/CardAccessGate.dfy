// The ticketed card-access gate of pkg/manager/card_access_gate.go.
//
// `CardAccessGate` has one method per mutex section of the Go type. What a section does to the
// fields is given by the functions on `Gate`; the interleavings of sections, parking and waking
// are studied in CardAccessGateProtocol.dfy, which uses the same functions.

module CardGate {

  // The fields of the gate. `canceled` is the key set of the Go map. The notification channel is
  // represented by how often it was closed and replaced: channel number c is closed exactly
  // when c < channel.
  datatype Gate = Gate(
    active: nat,
    barrier: bool,
    nextTicket: nat,
    servingTicket: nat,
    canceled: set<nat>,
    channel: nat)

  const ZERO_GATE := Gate(0, false, 0, 0, {}, 0)

  // Outcome of the locked part of a wait loop: admitted, or parked on a channel.
  datatype Attempt = Admitted | Parked(waitCh: nat)

  function Init(g: Gate): Gate {
    if g.nextTicket == 0 then g.(nextTicket := 1, servingTicket := 1) else g
  }

  function SkipCanceled(g: Gate): Gate
    decreases |g.canceled|
  {
    if g.servingTicket in g.canceled then
      SkipCanceled(g.(canceled := g.canceled - {g.servingTicket}, servingTicket := g.servingTicket + 1))
    else
      g
  }

  function Settle(g: Gate): Gate {
    SkipCanceled(Init(g))
  }

  function Signal(g: Gate): Gate {
    g.(channel := g.channel + 1)
  }

  // The conditions the wait loops evaluate on a settled gate.
  predicate MayAcquire(g: Gate) {
    !g.barrier && g.nextTicket == g.servingTicket
  }

  predicate MayBegin(g: Gate, ticket: nat) {
    !g.barrier && g.active == 0 && ticket == g.servingTicket
  }

  function AcquireSection(g: Gate): (Gate, Attempt) {
    var s := Settle(g);
    if MayAcquire(s) then (s.(active := s.active + 1), Admitted) else (s, Parked(s.channel))
  }

  function ReleaseSection(g: Gate): Gate {
    var r := if g.active > 0 then g.(active := g.active - 1) else g;
    if r.active == 0 then Signal(r) else r
  }

  function BeginAttempt(s: Gate, ticket: nat): (Gate, Attempt) {
    if MayBegin(s, ticket) then
      (s.(servingTicket := s.servingTicket + 1, barrier := true), Admitted)
    else
      (s, Parked(s.channel))
  }

  // Draw a ticket and evaluate the begin condition for the first time.
  function BeginSection(g: Gate): (Gate, nat, Attempt) {
    var i := Init(g);
    var ticket := i.nextTicket;
    var (after, attempt) := BeginAttempt(SkipCanceled(i.(nextTicket := ticket + 1)), ticket);
    (after, ticket, attempt)
  }

  // Evaluate it again after a wake-up.
  function BeginRetrySection(g: Gate, ticket: nat): (Gate, Attempt) {
    BeginAttempt(Settle(g), ticket)
  }

  function CancelSection(g: Gate, ticket: nat): Gate {
    Signal(Settle(g.(canceled := g.canceled + {ticket})))
  }

  function WindowReleaseSection(g: Gate): Gate {
    Signal(g.(barrier := false))
  }

  function WaitIdleSection(g: Gate): Attempt {
    if g.barrier then Parked(g.channel) else Admitted
  }

  // What every section keeps true of the ticket counters.
  ghost predicate WellFormed(g: Gate) {
    && (g.nextTicket == 0 ==> g.servingTicket == 0)
    && (g.nextTicket > 0 ==> g.servingTicket > 0)
    && g.servingTicket <= g.nextTicket
    && (forall t <- g.canceled :: g.servingTicket <= t < g.nextTicket)
  }

  // Skipping moves the counter to the first ticket that is not canceled, forgets exactly the
  // tickets it passed, and touches nothing else.
  lemma {:induction false} SkipCanceledIsFirstLive(g: Gate)
    ensures var s := SkipCanceled(g);
            && g.servingTicket <= s.servingTicket
            && s.servingTicket !in g.canceled
            && (forall t | g.servingTicket <= t < s.servingTicket :: t in g.canceled)
            && s.canceled == (set t | t in g.canceled && !(g.servingTicket <= t < s.servingTicket))
            && s == g.(servingTicket := s.servingTicket, canceled := s.canceled)
    decreases |g.canceled|
  {
    if g.servingTicket in g.canceled {
      var h := g.(canceled := g.canceled - {g.servingTicket}, servingTicket := g.servingTicket + 1);
      SkipCanceledIsFirstLive(h);
      forall t | g.servingTicket <= t < SkipCanceled(g).servingTicket
        ensures t in g.canceled
      {
        assert t == g.servingTicket || t in h.canceled;
      }
    }
  }

  // Settling twice is settling once, and it keeps the counters well-formed.
  lemma SettleIsStable(g: Gate)
    requires WellFormed(g)
    ensures WellFormed(Settle(g)) && Settle(g).nextTicket > 0
    ensures Settle(Settle(g)) == Settle(g)
  {
    SkipCanceledIsFirstLive(Init(g));
    var s := SkipCanceled(Init(g));
    if s.servingTicket > s.nextTicket {
      assert s.nextTicket in Init(g).canceled;
    }
  }

  // Releasing an operation undoes its admission, except that the last one out wakes everybody.
  lemma ReleaseUndoesAcquire(g: Gate)
    requires AcquireSection(g).1.Admitted?
    ensures var s := Settle(g);
            ReleaseSection(AcquireSection(g).0) == if s.active == 0 then Signal(s) else s
  {
    hide SkipCanceled;
    assert Settle(g).(active := Settle(g).active + 1).(active := Settle(g).active) == Settle(g);
  }

  // A release too many neither goes below zero nor touches tickets or barrier.
  lemma ExtraReleaseOnlySignals(g: Gate)
    requires g.active == 0
    ensures ReleaseSection(g) == Signal(g)
  {
  }

  class CardAccessGate {
    var active: nat
    var barrier: bool
    var nextTicket: nat
    var servingTicket: nat
    var canceled: set<nat>
    var channel: nat

    ghost function View(): Gate
      reads this
    {
      Gate(active, barrier, nextTicket, servingTicket, canceled, channel)
    }

    constructor ()
      ensures View() == ZERO_GATE
    {
      active, barrier, nextTicket, servingTicket, canceled, channel := 0, false, 0, 0, {}, 0;
    }

    method SignalLocked()
      modifies this
      ensures View() == Signal(old(View()))
    {
      channel := channel + 1;
    }

    method InitLocked()
      modifies this
      ensures View() == Init(old(View()))
    {
      if nextTicket == 0 {
        nextTicket := 1;
        servingTicket := 1;
      }
    }

    method SkipCanceledLocked()
      modifies this
      ensures View() == Settle(old(View()))
    {
      InitLocked();
      while servingTicket in canceled
        invariant SkipCanceled(View()) == Settle(old(View()))
        decreases |canceled|
      {
        canceled := canceled - {servingTicket};
        servingTicket := servingTicket + 1;
      }
    }

    // One pass of the loop of acquire, up to the unlock.
    method AcquireLocked() returns (attempt: Attempt)
      modifies this
      ensures (View(), attempt) == AcquireSection(old(View()))
    {
      SkipCanceledLocked();
      if !barrier && nextTicket == servingTicket {
        active := active + 1;
        return Admitted;
      }
      attempt := Parked(channel);
    }

    method Release()
      modifies this
      ensures View() == ReleaseSection(old(View()))
    {
      if active > 0 {
        active := active - 1;
      }
      if active == 0 {
        SignalLocked();
      }
    }

    // The first locked part of begin. An admitted caller receives the window it now owns.
    method BeginLocked() returns (ticket: nat, attempt: Attempt, window: QuietWindow?)
      modifies this
      ensures (View(), ticket, attempt) == BeginSection(old(View()))
      ensures attempt.Admitted? <==> window != null
      ensures window != null ==> fresh(window) && window.gate == this && !window.done
    {
      InitLocked();
      ticket := nextTicket;
      nextTicket := nextTicket + 1;
      SkipCanceledLocked();
      attempt, window := BeginAttemptLocked(ticket);
    }

    method BeginRetryLocked(ticket: nat) returns (attempt: Attempt, window: QuietWindow?)
      modifies this
      ensures (View(), attempt) == BeginRetrySection(old(View()), ticket)
      ensures attempt.Admitted? <==> window != null
      ensures window != null ==> fresh(window) && window.gate == this && !window.done
    {
      SkipCanceledLocked();
      attempt, window := BeginAttemptLocked(ticket);
    }

    method BeginAttemptLocked(ticket: nat) returns (attempt: Attempt, window: QuietWindow?)
      modifies this
      ensures (View(), attempt) == BeginAttempt(old(View()), ticket)
      ensures attempt.Admitted? <==> window != null
      ensures window != null ==> fresh(window) && window.gate == this && !window.done
    {
      if !barrier && active == 0 && ticket == servingTicket {
        servingTicket := servingTicket + 1;
        barrier := true;
        window := new QuietWindow(this);
        return Admitted, window;
      }
      return Parked(channel), null;
    }

    // The locked part of begin that runs when the context is done first.
    method CancelLocked(ticket: nat)
      modifies this
      ensures View() == CancelSection(old(View()), ticket)
    {
      canceled := canceled + {ticket};
      SkipCanceledLocked();
      SignalLocked();
    }

    method WaitBarrierIdleLocked() returns (attempt: Attempt)
      ensures attempt == WaitIdleSection(View())
    {
      attempt := if barrier then Parked(channel) else Admitted;
    }
  }

  // The release closure returned by begin; `done` is the state of its sync.Once.
  class QuietWindow {
    const gate: CardAccessGate
    var done: bool

    constructor (gate: CardAccessGate)
      ensures this.gate == gate && !done
    {
      this.gate := gate;
      done := false;
    }

    method Release()
      modifies this, gate
      ensures done
      ensures gate.View() == if old(done) then old(gate.View()) else WindowReleaseSection(old(gate.View()))
    {
      if !done {
        done := true;
        gate.barrier := false;
        gate.SignalLocked();
      }
    }
  }
}
