// Interleavings of the card-access gate: any number of goroutines, each step one mutex section,
// one park, one wake-up or one context cancellation.

module CardGateProtocol {
  import opened CardGate

  // Where a goroutine stands. `ch` is the number of the channel it waits on.
  datatype Proc =
    | Idle
    | AcquireEntry                         // in acquire, about to lock
    | AcquireParked(ch: nat)
    | Operating                            // admitted by acquire, release still to come
    | BeginEntry                           // in begin, about to lock
    | BeginParked(ticket: nat, ch: nat)
    | BeginWoken(ticket: nat)              // received from the channel, about to lock again
    | BeginCanceling(ticket: nat)          // saw its context done, about to lock
    | WaitEntry                            // in waitBarrierIdle
    | WaitParked(ch: nat)

  // `granted`, `released` and `dropped` record the windows granted (in order), the windows whose
  // closure has run, and the tickets canceled; `owner` maps each waiting ticket to its goroutine.
  datatype Sys = Sys(
    gate: Gate,
    procs: map<nat, Proc>,
    owner: map<nat, nat>,
    granted: seq<nat>,
    released: set<nat>,
    dropped: set<nat>)

  datatype Action =
    | CallAcquire(p: nat) | CallBegin(p: nat) | CallWait(p: nat)
    | AcquireLock(p: nat) | AcquireWake(p: nat) | AcquireGiveUp(p: nat)
    | OperationDone(p: nat)
    | BeginLock(p: nat) | BeginWake(p: nat) | BeginRetry(p: nat) | BeginGiveUp(p: nat) | CancelLock(p: nat)
    | RunWindowClosure(window: nat)        // by anyone, any number of times
    | WaitLock(p: nat) | WaitWake(p: nat) | WaitGiveUp(p: nat)

  predicate Closed(s: Sys, ch: nat) {
    ch < s.gate.channel
  }

  predicate Enabled(s: Sys, a: Action) {
    match a
    case RunWindowClosure(w) => w in s.granted
    case _ =>
      && a.p in s.procs
      && var pc := s.procs[a.p];
         match a
         case CallAcquire(_) => pc.Idle?
         case CallBegin(_) => pc.Idle?
         case CallWait(_) => pc.Idle?
         case AcquireLock(_) => pc.AcquireEntry?
         case AcquireWake(_) => pc.AcquireParked? && Closed(s, pc.ch)
         case AcquireGiveUp(_) => pc.AcquireParked?
         case OperationDone(_) => pc.Operating?
         case BeginLock(_) => pc.BeginEntry?
         case BeginWake(_) => pc.BeginParked? && Closed(s, pc.ch)
         case BeginRetry(_) => pc.BeginWoken?
         case BeginGiveUp(_) => pc.BeginParked?
         case CancelLock(_) => pc.BeginCanceling?
         case WaitLock(_) => pc.WaitEntry?
         case WaitWake(_) => pc.WaitParked? && Closed(s, pc.ch)
         case WaitGiveUp(_) => pc.WaitParked?
         case RunWindowClosure(_) => false
  }

  function Move(s: Sys, p: nat, pc: Proc): Sys {
    s.(procs := s.procs[p := pc])
  }

  // The effect of a begin attempt by p, which holds `ticket`, on everything but the gate.
  function AfterBeginAttempt(s: Sys, p: nat, ticket: nat, attempt: Attempt): Sys {
    match attempt
    case Admitted => Move(s.(owner := s.owner - {ticket}, granted := s.granted + [ticket]), p, Idle)
    case Parked(ch) => Move(s, p, BeginParked(ticket, ch))
  }

  function Apply(s: Sys, a: Action): Sys
    requires Enabled(s, a)
  {
    match a
    case CallAcquire(p) => Move(s, p, AcquireEntry)
    case CallBegin(p) => Move(s, p, BeginEntry)
    case CallWait(p) => Move(s, p, WaitEntry)
    case AcquireLock(p) =>
      var (g, attempt) := AcquireSection(s.gate);
      Move(s.(gate := g), p, if attempt.Admitted? then Operating else AcquireParked(attempt.waitCh))
    case AcquireWake(p) => Move(s, p, AcquireEntry)
    case AcquireGiveUp(p) => Move(s, p, Idle)
    case OperationDone(p) => Move(s.(gate := ReleaseSection(s.gate)), p, Idle)
    case BeginLock(p) =>
      var (g, ticket, attempt) := BeginSection(s.gate);
      AfterBeginAttempt(s.(gate := g, owner := s.owner[ticket := p]), p, ticket, attempt)
    case BeginWake(p) => Move(s, p, BeginWoken(s.procs[p].ticket))
    case BeginRetry(p) =>
      var ticket := s.procs[p].ticket;
      var (g, attempt) := BeginRetrySection(s.gate, ticket);
      AfterBeginAttempt(s.(gate := g), p, ticket, attempt)
    case BeginGiveUp(p) => Move(s, p, BeginCanceling(s.procs[p].ticket))
    case CancelLock(p) =>
      var ticket := s.procs[p].ticket;
      Move(s.(gate := CancelSection(s.gate, ticket), owner := s.owner - {ticket},
              dropped := s.dropped + {ticket}), p, Idle)
    case RunWindowClosure(w) =>
      if w in s.released then s
      else s.(gate := WindowReleaseSection(s.gate), released := s.released + {w})
    case WaitLock(p) =>
      var attempt := WaitIdleSection(s.gate);
      Move(s, p, if attempt.Admitted? then Idle else WaitParked(attempt.waitCh))
    case WaitWake(p) => Move(s, p, WaitEntry)
    case WaitGiveUp(p) => Move(s, p, Idle)
  }

  ghost predicate Initial(s: Sys) {
    && s.gate == ZERO_GATE
    && (forall p <- s.procs :: s.procs[p] == Idle)
    && s.owner == map[] && s.granted == [] && s.released == {} && s.dropped == {}
  }

  // A run: the states it passes and the action taken in each.
  ghost predicate IsRun(states: seq<Sys>, actions: seq<Action>) {
    && |states| == |actions| + 1
    && Initial(states[0])
    && forall i | 0 <= i < |actions| :: Enabled(states[i], actions[i]) && states[i + 1] == Apply(states[i], actions[i])
  }

  // ---------------------------------------------------------------- the inductive invariant

  function Operators(procs: map<nat, Proc>): set<nat> {
    set p | p in procs && procs[p].Operating?
  }

  predicate HoldsTicket(pc: Proc) {
    pc.BeginParked? || pc.BeginWoken? || pc.BeginCanceling?
  }

  predicate WindowOpen(s: Sys, w: nat) {
    w in s.granted && w !in s.released
  }

  // Every ticket from the serving one on is either canceled or owned by one waiting goroutine.
  ghost predicate TicketsOwned(s: Sys) {
    && WellFormed(s.gate)
    && (forall t :: t in s.owner <==> s.gate.servingTicket <= t < s.gate.nextTicket && t !in s.gate.canceled)
    && (forall t <- s.owner ::
          s.owner[t] in s.procs && HoldsTicket(s.procs[s.owner[t]]) && s.procs[s.owner[t]].ticket == t)
    && (forall p <- s.procs | HoldsTicket(s.procs[p]) ::
          s.procs[p].ticket in s.owner && s.owner[s.procs[p].ticket] == p)
  }

  // The counter counts the admitted operations; none coexists with the barrier; the barrier is
  // up exactly while the last granted window is open.
  ghost predicate Exclusive(s: Sys) {
    && s.gate.active == |Operators(s.procs)|
    && (s.gate.barrier ==> s.gate.active == 0)
    && (s.gate.barrier <==> s.granted != [] && WindowOpen(s, s.granted[|s.granted| - 1]))
    && (forall i | 0 <= i < |s.granted| - 1 :: s.granted[i] in s.released)
    && (forall w <- s.released :: w in s.granted)
  }

  // Windows are granted in ticket order; every ticket below the serving one was granted or dropped.
  ghost predicate InOrder(s: Sys) {
    && (forall i, j | 0 <= i < j < |s.granted| :: s.granted[i] < s.granted[j])
    && (forall t <- s.granted :: 0 < t < s.gate.servingTicket && t !in s.dropped)
    && (forall t <- s.dropped :: 0 < t < s.gate.nextTicket && t !in s.owner)
    && (forall t | 0 < t < s.gate.nextTicket :: t in s.granted || t in s.dropped || t in s.owner)
    && s.gate.canceled <= s.dropped
  }

  // A goroutine parked on the channel that is still open waits for a condition that is false.
  ghost predicate SleepsRightly(g: Gate, pc: Proc) {
    match pc
    case AcquireParked(ch) => ch <= g.channel && (ch == g.channel ==> !MayAcquire(Settle(g)))
    case BeginParked(t, ch) => ch <= g.channel && (ch == g.channel ==> !MayBegin(Settle(g), t))
    case WaitParked(ch) => ch <= g.channel && (ch == g.channel ==> g.barrier)
    case _ => true
  }

  ghost predicate NoLostWakeup(s: Sys) {
    forall p <- s.procs :: SleepsRightly(s.gate, s.procs[p])
  }

  ghost predicate Inv(s: Sys) {
    TicketsOwned(s) && Exclusive(s) && InOrder(s) && NoLostWakeup(s)
  }

  // ---------------------------------------------------------------- preservation

  lemma OperatorsAfterMove(procs: map<nat, Proc>, p: nat, pc: Proc)
    requires p in procs
    ensures Operators(procs[p := pc])
         == if pc.Operating? then Operators(procs) + {p} else Operators(procs) - {p}
  {
  }

  // Settling only drops canceled tickets, so it preserves the invariant.
  lemma SettlePreserves(s: Sys)
    requires Inv(s)
    ensures Inv(s.(gate := Settle(s.gate)))
  {
    SkipCanceledIsFirstLive(Init(s.gate));
    SettleIsStable(s.gate);
  }

  lemma MoveKeepsTickets(s: Sys, p: nat, pc: Proc)
    requires TicketsOwned(s) && p in s.procs
    requires HoldsTicket(s.procs[p]) <==> HoldsTicket(pc)
    requires HoldsTicket(pc) ==> pc.ticket == s.procs[p].ticket
    ensures TicketsOwned(Move(s, p, pc))
  {
  }

  lemma MoveKeepsExclusive(s: Sys, p: nat, pc: Proc)
    requires Exclusive(s) && p in s.procs && !s.procs[p].Operating? && !pc.Operating?
    ensures Exclusive(Move(s, p, pc))
  {
    OperatorsAfterMove(s.procs, p, pc);
  }

  lemma PlainMovePreserves(s: Sys, p: nat, pc: Proc)
    requires Inv(s) && p in s.procs
    requires HoldsTicket(s.procs[p]) <==> HoldsTicket(pc)
    requires HoldsTicket(pc) ==> pc.ticket == s.procs[p].ticket
    requires !s.procs[p].Operating? && !pc.Operating?
    requires pc.AcquireParked? ==> pc.ch == s.gate.channel && !MayAcquire(Settle(s.gate))
    requires pc.BeginParked? ==> pc.ch == s.gate.channel && !MayBegin(Settle(s.gate), pc.ticket)
    requires pc.WaitParked? ==> pc.ch == s.gate.channel && s.gate.barrier
    ensures Inv(Move(s, p, pc))
  {
    hide TicketsOwned, Exclusive, Settle;
    MoveKeepsTickets(s, p, pc);
    MoveKeepsExclusive(s, p, pc);
  }

  ghost predicate Settled(g: Gate) {
    g.nextTicket > 0 && g.servingTicket !in g.canceled
  }

  lemma AdmitOperationPreserves(s: Sys, p: nat)
    requires Inv(s) && Settled(s.gate) && MayAcquire(s.gate)
    requires p in s.procs && s.procs[p].AcquireEntry?
    ensures Inv(Move(s.(gate := s.gate.(active := s.gate.active + 1)), p, Operating))
  {
    OperatorsAfterMove(s.procs, p, Operating);
    var t := Move(s.(gate := s.gate.(active := s.gate.active + 1)), p, Operating);
    assert p !in Operators(s.procs);
    assert Settle(s.gate) == s.gate && Settle(t.gate) == t.gate;
    assert TicketsOwned(t);
    assert NoLostWakeup(t);
  }

  lemma AcquirePreserves(s: Sys, p: nat)
    requires Inv(s) && Enabled(s, AcquireLock(p))
    ensures Inv(Apply(s, AcquireLock(p)))
  {
    SettlePreserves(s);
    SettleIsStable(s.gate);
    SkipCanceledIsFirstLive(Init(s.gate));
    var t := s.(gate := Settle(s.gate));
    if MayAcquire(t.gate) {
      AdmitOperationPreserves(t, p);
    } else {
      PlainMovePreserves(t, p, AcquireParked(t.gate.channel));
    }
  }

  lemma DoneKeepsTickets(s: Sys, p: nat)
    requires TicketsOwned(s) && Enabled(s, OperationDone(p))
    ensures TicketsOwned(Apply(s, OperationDone(p)))
  {
    hide SkipCanceled, Settle;
  }

  lemma DoneKeepsExclusive(s: Sys, p: nat)
    requires Exclusive(s) && Enabled(s, OperationDone(p))
    ensures Exclusive(Apply(s, OperationDone(p)))
  {
    hide SkipCanceled, Settle;
    OperatorsAfterMove(s.procs, p, Idle);
    assert p in Operators(s.procs);
  }

  lemma DoneKeepsOrder(s: Sys, p: nat)
    requires InOrder(s) && Enabled(s, OperationDone(p))
    ensures InOrder(Apply(s, OperationDone(p)))
  {
    hide SkipCanceled, Settle;
  }

  // The last operation to finish closes the channel; before that the begin condition stays false.
  lemma DoneKeepsWakeups(s: Sys, p: nat)
    requires Inv(s) && Enabled(s, OperationDone(p))
    ensures NoLostWakeup(Apply(s, OperationDone(p)))
  {
    hide TicketsOwned, InOrder, SkipCanceled;
    OperatorsAfterMove(s.procs, p, Idle);
    assert p in Operators(s.procs);
    SkipCanceledIsFirstLive(Init(s.gate));
    SkipCanceledIsFirstLive(Init(Apply(s, OperationDone(p)).gate));
  }

  lemma DonePreserves(s: Sys, p: nat)
    requires Inv(s) && Enabled(s, OperationDone(p))
    ensures Inv(Apply(s, OperationDone(p)))
  {
    hide TicketsOwned, Exclusive, InOrder, NoLostWakeup, Apply, Enabled;
    DoneKeepsTickets(s, p);
    DoneKeepsExclusive(s, p);
    DoneKeepsOrder(s, p);
    DoneKeepsWakeups(s, p);
  }

  // A begin attempt on a settled gate, by a goroutine that owns the ticket.
  lemma AttemptPreserves(s: Sys, p: nat, ticket: nat)
    requires Inv(s) && Settled(s.gate)
    requires p in s.procs && s.procs[p] == BeginWoken(ticket)
    ensures var (g, attempt) := BeginAttempt(s.gate, ticket);
            Inv(AfterBeginAttempt(s.(gate := g), p, ticket, attempt))
  {
    assert Settle(s.gate) == s.gate;
    if MayBegin(s.gate, ticket) {
      GrantPreserves(s, p, ticket);
    } else {
      PlainMovePreserves(s, p, BeginParked(ticket, s.gate.channel));
    }
  }

  function Grant(s: Sys, p: nat, ticket: nat): Sys {
    var g := s.gate.(servingTicket := s.gate.servingTicket + 1, barrier := true);
    AfterBeginAttempt(s.(gate := g), p, ticket, Admitted)
  }

  lemma GrantKeepsTickets(s: Sys, p: nat, ticket: nat)
    requires TicketsOwned(s) && Settled(s.gate) && MayBegin(s.gate, ticket)
    requires p in s.procs && s.procs[p] == BeginWoken(ticket)
    ensures TicketsOwned(Grant(s, p, ticket))
  {
    var t := Grant(s, p, ticket);
    forall q <- t.procs | HoldsTicket(t.procs[q])
      ensures t.procs[q].ticket in t.owner && t.owner[t.procs[q].ticket] == q
    {
      assert q != p && HoldsTicket(s.procs[q]);
    }
  }

  lemma GrantKeepsOrder(s: Sys, p: nat, ticket: nat)
    requires TicketsOwned(s) && InOrder(s) && Settled(s.gate) && MayBegin(s.gate, ticket)
    requires p in s.procs && s.procs[p] == BeginWoken(ticket)
    ensures InOrder(Grant(s, p, ticket))
  {
    var t := Grant(s, p, ticket);
    forall x | 0 < x < t.gate.nextTicket
      ensures x in t.granted || x in t.dropped || x in t.owner
    {
      assert x in s.granted || x in s.dropped || x in s.owner;
      if x == ticket {
        assert t.granted[|s.granted|] == ticket;
      }
    }
    assert ticket in s.owner;
    forall i, j | 0 <= i < j < |t.granted|
      ensures t.granted[i] < t.granted[j]
    {
      assert s.granted[i] in s.granted;
    }
  }

  lemma GrantPreserves(s: Sys, p: nat, ticket: nat)
    requires Inv(s) && Settled(s.gate) && MayBegin(s.gate, ticket)
    requires p in s.procs && s.procs[p] == BeginWoken(ticket)
    ensures Inv(Grant(s, p, ticket))
  {
    var t := Grant(s, p, ticket);
    GrantKeepsTickets(s, p, ticket);
    GrantKeepsOrder(s, p, ticket);
    OperatorsAfterMove(s.procs, p, Idle);
    assert Exclusive(t) by {
      assert t.granted[|t.granted| - 1] == ticket;
      assert ticket in t.granted && ticket !in s.granted;
    }
    assert NoLostWakeup(t) by {
      SkipCanceledIsFirstLive(Init(t.gate));
    }
  }

  lemma RetryPreserves(s: Sys, p: nat)
    requires Inv(s) && Enabled(s, BeginRetry(p))
    ensures Inv(Apply(s, BeginRetry(p)))
  {
    SettlePreserves(s);
    SettleIsStable(s.gate);
    SkipCanceledIsFirstLive(Init(s.gate));
    AttemptPreserves(s.(gate := Settle(s.gate)), p, s.procs[p].ticket);
  }

  // Drawing a ticket, seen as a step of its own: the caller owns the ticket and will attempt.
  function Draw(s: Sys, p: nat): Sys {
    var i := Init(s.gate);
    Move(s.(gate := i.(nextTicket := i.nextTicket + 1), owner := s.owner[i.nextTicket := p]),
         p, BeginWoken(i.nextTicket))
  }

  lemma DrawKeepsTickets(s: Sys, p: nat)
    requires TicketsOwned(s) && p in s.procs && s.procs[p].BeginEntry?
    ensures TicketsOwned(Draw(s, p))
  {
    var t := Draw(s, p);
    forall x
      ensures x in t.owner <==> t.gate.servingTicket <= x < t.gate.nextTicket && x !in t.gate.canceled
    {
      assert x in s.owner <==> s.gate.servingTicket <= x < s.gate.nextTicket && x !in s.gate.canceled;
    }
    forall q <- t.procs | HoldsTicket(t.procs[q])
      ensures t.procs[q].ticket in t.owner && t.owner[t.procs[q].ticket] == q
    {
      assert q == p || HoldsTicket(s.procs[q]);
    }
  }

  lemma DrawKeepsExclusive(s: Sys, p: nat)
    requires Exclusive(s) && p in s.procs && s.procs[p].BeginEntry?
    ensures Exclusive(Draw(s, p))
  {
    OperatorsAfterMove(s.procs, p, BeginWoken(Init(s.gate).nextTicket));
  }

  lemma DrawKeepsOrder(s: Sys, p: nat)
    requires TicketsOwned(s) && InOrder(s) && p in s.procs && s.procs[p].BeginEntry?
    ensures InOrder(Draw(s, p))
  {
    var t := Draw(s, p);
    forall x | 0 < x < t.gate.nextTicket
      ensures x in t.granted || x in t.dropped || x in t.owner
    {
      assert x == Init(s.gate).nextTicket || x < s.gate.nextTicket;
    }
  }

  lemma DrawKeepsWakeups(s: Sys, p: nat)
    requires Inv(s) && p in s.procs && s.procs[p].BeginEntry?
    ensures NoLostWakeup(Draw(s, p))
  {
    hide Exclusive, InOrder, Settle;
    var t := Draw(s, p);
    DrawKeepsSettling(s, p);
    forall q <- t.procs ensures SleepsRightly(t.gate, t.procs[q]) {
      assert q == p || SleepsRightly(s.gate, s.procs[q]);
    }
  }

  // The new ticket leaves the serving one, and keeps operations out.
  lemma DrawKeepsSettling(s: Sys, p: nat)
    requires TicketsOwned(s) && p in s.procs && s.procs[p].BeginEntry?
    ensures var g, h := Settle(s.gate), Settle(Draw(s, p).gate);
            && h.servingTicket == g.servingTicket && h.barrier == g.barrier && h.active == g.active
            && h.servingTicket < h.nextTicket && h.channel == s.gate.channel
  {
    SettleIsStable(s.gate);
    SkipCanceledIsFirstLive(Init(s.gate));
    SkipCanceledIsFirstLive(Draw(s, p).gate);
  }

  lemma DrawPreserves(s: Sys, p: nat)
    requires Inv(s) && p in s.procs && s.procs[p].BeginEntry?
    ensures Inv(Draw(s, p))
  {
    hide TicketsOwned, Exclusive, InOrder, NoLostWakeup, Draw;
    DrawKeepsTickets(s, p);
    DrawKeepsExclusive(s, p);
    DrawKeepsOrder(s, p);
    DrawKeepsWakeups(s, p);
  }

  lemma BeginPreserves(s: Sys, p: nat)
    requires Inv(s) && Enabled(s, BeginLock(p))
    ensures Inv(Apply(s, BeginLock(p)))
  {
    var t := Draw(s, p);
    var ticket := t.procs[p].ticket;
    DrawPreserves(s, p);
    SettlePreserves(t);
    assert Settled(SkipCanceled(t.gate)) by { SkipCanceledIsFirstLive(t.gate); }
    AttemptPreserves(t.(gate := SkipCanceled(t.gate)), p, ticket);
    BeginIsDrawThenAttempt(s, p);
  }

  lemma BeginIsDrawThenAttempt(s: Sys, p: nat)
    requires Enabled(s, BeginLock(p))
    ensures var t := Draw(s, p);
            var ticket := t.procs[p].ticket;
            var (g, attempt) := BeginAttempt(SkipCanceled(t.gate), ticket);
            Apply(s, BeginLock(p)) == AfterBeginAttempt(t.(gate := g), p, ticket, attempt)
  {
    var t := Draw(s, p);
    var ticket := t.procs[p].ticket;
    var attempt := BeginAttempt(SkipCanceled(t.gate), ticket).1;
    var pc := if attempt.Admitted? then Idle else BeginParked(ticket, attempt.waitCh);
    assert t.procs[p := pc] == s.procs[p := pc];
  }

  // Dropping a ticket, before settling and signalling.
  function Drop(s: Sys, p: nat, ticket: nat): Sys {
    Move(s.(gate := s.gate.(canceled := s.gate.canceled + {ticket}), owner := s.owner - {ticket},
            dropped := s.dropped + {ticket}), p, Idle)
  }

  lemma DropKeepsTickets(s: Sys, p: nat, ticket: nat)
    requires TicketsOwned(s) && p in s.procs && s.procs[p] == BeginCanceling(ticket)
    ensures TicketsOwned(Drop(s, p, ticket))
  {
    var t := Drop(s, p, ticket);
    forall q <- t.procs | HoldsTicket(t.procs[q])
      ensures t.procs[q].ticket in t.owner && t.owner[t.procs[q].ticket] == q
    {
      assert q != p && HoldsTicket(s.procs[q]);
    }
  }

  lemma SettleThenSignal(g: Gate)
    ensures Settle(Signal(g)) == Signal(Settle(g))
    decreases |g.canceled|
  {
    if g.nextTicket > 0 && g.servingTicket in g.canceled {
      SettleThenSignal(g.(canceled := g.canceled - {g.servingTicket}, servingTicket := g.servingTicket + 1));
    } else if g.nextTicket == 0 && 1 in g.canceled {
      var h := Init(g);
      SettleThenSignal(h.(canceled := g.canceled - {1}, servingTicket := 2));
    }
  }

  // Dropping a ticket and waking everybody.
  function DropAndSignal(s: Sys, p: nat, ticket: nat): Sys {
    var d := Drop(s, p, ticket);
    d.(gate := Signal(d.gate))
  }

  lemma DropAndSignalKeepsTickets(s: Sys, p: nat, ticket: nat)
    requires TicketsOwned(s) && p in s.procs && s.procs[p] == BeginCanceling(ticket)
    ensures TicketsOwned(DropAndSignal(s, p, ticket))
  {
    DropKeepsTickets(s, p, ticket);
  }

  lemma DropAndSignalKeepsExclusive(s: Sys, p: nat, ticket: nat)
    requires Exclusive(s) && p in s.procs && s.procs[p] == BeginCanceling(ticket)
    ensures Exclusive(DropAndSignal(s, p, ticket))
  {
    OperatorsAfterMove(s.procs, p, Idle);
  }

  lemma DropAndSignalKeepsOrder(s: Sys, p: nat, ticket: nat)
    requires TicketsOwned(s) && InOrder(s) && p in s.procs && s.procs[p] == BeginCanceling(ticket)
    ensures InOrder(DropAndSignal(s, p, ticket))
  {
    assert ticket in s.owner;
  }

  // Every parked goroutine now waits on a closed channel.
  lemma DropAndSignalWakes(s: Sys, p: nat, ticket: nat)
    requires NoLostWakeup(s) && p in s.procs
    ensures NoLostWakeup(DropAndSignal(s, p, ticket))
  {
    hide Settle;
  }

  lemma CancelIsDropSignalSettle(s: Sys, p: nat)
    requires Enabled(s, CancelLock(p))
    ensures var t := DropAndSignal(s, p, s.procs[p].ticket);
            t.(gate := Settle(t.gate)) == Apply(s, CancelLock(p))
  {
    SettleThenSignal(Drop(s, p, s.procs[p].ticket).gate);
    hide Settle;
  }

  lemma CancelPreserves(s: Sys, p: nat)
    requires Inv(s) && Enabled(s, CancelLock(p))
    ensures Inv(Apply(s, CancelLock(p)))
  {
    hide TicketsOwned, Exclusive, InOrder, NoLostWakeup, DropAndSignal, Apply;
    var ticket := s.procs[p].ticket;
    DropAndSignalKeepsTickets(s, p, ticket);
    DropAndSignalKeepsExclusive(s, p, ticket);
    DropAndSignalKeepsOrder(s, p, ticket);
    DropAndSignalWakes(s, p, ticket);
    SettlePreserves(DropAndSignal(s, p, ticket));
    CancelIsDropSignalSettle(s, p);
  }

  lemma ClosurePreserves(s: Sys, w: nat)
    requires Inv(s) && Enabled(s, RunWindowClosure(w))
    ensures Inv(Apply(s, RunWindowClosure(w)))
  {
  }

  lemma WaitPreserves(s: Sys, p: nat)
    requires Inv(s) && Enabled(s, WaitLock(p))
    ensures Inv(Apply(s, WaitLock(p)))
  {
    PlainMovePreserves(s, p, if s.gate.barrier then WaitParked(s.gate.channel) else Idle);
  }

  lemma StepPreserves(s: Sys, a: Action)
    requires Inv(s) && Enabled(s, a)
    ensures Inv(Apply(s, a))
  {
    hide TicketsOwned, Exclusive, InOrder, NoLostWakeup, Settle, SkipCanceled;
    match a
    case CallAcquire(p) => PlainMovePreserves(s, p, AcquireEntry);
    case CallBegin(p) => PlainMovePreserves(s, p, BeginEntry);
    case CallWait(p) => PlainMovePreserves(s, p, WaitEntry);
    case AcquireLock(p) => AcquirePreserves(s, p);
    case AcquireWake(p) => PlainMovePreserves(s, p, AcquireEntry);
    case AcquireGiveUp(p) => PlainMovePreserves(s, p, Idle);
    case OperationDone(p) => DonePreserves(s, p);
    case BeginLock(p) => BeginPreserves(s, p);
    case BeginWake(p) => PlainMovePreserves(s, p, BeginWoken(s.procs[p].ticket));
    case BeginRetry(p) => RetryPreserves(s, p);
    case BeginGiveUp(p) => PlainMovePreserves(s, p, BeginCanceling(s.procs[p].ticket));
    case CancelLock(p) => CancelPreserves(s, p);
    case RunWindowClosure(w) => ClosurePreserves(s, w);
    case WaitLock(p) => WaitPreserves(s, p);
    case WaitWake(p) => PlainMovePreserves(s, p, WaitEntry);
    case WaitGiveUp(p) => PlainMovePreserves(s, p, Idle);
  }

  // Every state of every run satisfies the invariant.
  lemma {:induction false} RunsAreSafe(states: seq<Sys>, actions: seq<Action>, k: nat)
    requires IsRun(states, actions) && k < |states|
    ensures Inv(states[k])
  {
    if k == 0 {
      assert Operators(states[0].procs) == {};
    } else {
      RunsAreSafe(states, actions, k - 1);
      StepPreserves(states[k - 1], actions[k - 1]);
    }
  }

  // ---------------------------------------------------------------- what users rely on

  // A quiet window never coexists with a card operation, nor with another window.
  lemma WindowsAreExclusive(states: seq<Sys>, actions: seq<Action>, k: nat)
    requires IsRun(states, actions) && k < |states|
    ensures var s := states[k];
            && (forall w, p | WindowOpen(s, w) && p in s.procs :: !s.procs[p].Operating?)
            && (forall v, w | WindowOpen(s, v) && WindowOpen(s, w) :: v == w)
            && (s.gate.barrier <==> exists w :: WindowOpen(s, w))
  {
    RunsAreSafe(states, actions, k);
    var s := states[k];
    forall w | WindowOpen(s, w)
      ensures w == s.granted[|s.granted| - 1]
    {
      var i :| 0 <= i < |s.granted| && s.granted[i] == w;
    }
    if s.gate.barrier {
      assert WindowOpen(s, s.granted[|s.granted| - 1]);
      assert |Operators(s.procs)| == 0;
      forall p <- s.procs ensures !s.procs[p].Operating? {
        assert p !in Operators(s.procs);
      }
    }
  }

  // Windows are granted in strictly increasing ticket order, and a ticket overtaken by a granted
  // one was granted before it or canceled.
  lemma WindowsAreFirstComeFirstServed(states: seq<Sys>, actions: seq<Action>, k: nat)
    requires IsRun(states, actions) && k < |states|
    ensures var s := states[k];
            && (forall i, j | 0 <= i < j < |s.granted| :: s.granted[i] < s.granted[j])
            && (forall t, j | 0 <= j < |s.granted| && 0 < t < s.granted[j] :: t in s.granted[..j] || t in s.dropped)
            && (forall t <- s.granted :: t !in s.dropped)
  {
    RunsAreSafe(states, actions, k);
    var s := states[k];
    forall t, j | 0 <= j < |s.granted| && 0 < t < s.granted[j]
      ensures t in s.granted[..j] || t in s.dropped
    {
      assert s.granted[j] in s.granted;
      assert t !in s.owner;
      if t !in s.dropped {
        var i :| 0 <= i < |s.granted| && s.granted[i] == t;
        assert i < j;
        assert s.granted[..j][i] == t;
      }
    }
  }

  // The ticket counter never goes back along a run.
  lemma {:induction false} TicketsOnlyGrow(states: seq<Sys>, actions: seq<Action>, i: nat, k: nat)
    requires IsRun(states, actions) && i <= k < |states|
    ensures states[i].gate.nextTicket <= states[k].gate.nextTicket
  {
    if i < k {
      TicketsOnlyGrow(states, actions, i, k - 1);
      var s, a := states[k - 1], actions[k - 1];
      SkipCanceledIsFirstLive(Init(s.gate));
      SkipCanceledIsFirstLive(Init(s.gate).(nextTicket := Init(s.gate).nextTicket + 1));
      if a.CancelLock? {
        SkipCanceledIsFirstLive(Init(s.gate.(canceled := s.gate.canceled + {s.procs[a.p].ticket})));
      }
    }
  }

  // Once a begin has drawn a ticket, no card operation is admitted before that ticket is canceled
  // or its window is released.
  lemma NoOperationOvertakesABegin(states: seq<Sys>, actions: seq<Action>, i: nat, k: nat, t: nat)
    requires IsRun(states, actions) && i <= k < |actions|
    requires 0 < t < states[i].gate.nextTicket
    requires actions[k].AcquireLock? && states[k + 1].procs[actions[k].p].Operating?
    ensures t in states[k].dropped || t in states[k].released
  {
    TicketsOnlyGrow(states, actions, i, k);
    RunsAreSafe(states, actions, k);
    var s := states[k];
    SkipCanceledIsFirstLive(Init(s.gate));
    if t in s.granted {
      var j :| 0 <= j < |s.granted| && s.granted[j] == t;
      assert WindowOpen(s, t) ==> j == |s.granted| - 1;
    }
  }

  // Only the first run of its own closure ends a window; running the closure of another, earlier
  // window leaves the open one in place.
  lemma OnlyItsOwnClosureEndsAWindow(s: Sys, a: Action, w: nat)
    requires Inv(s) && Enabled(s, a) && WindowOpen(s, w)
    ensures WindowOpen(Apply(s, a), w) <==> a != RunWindowClosure(w)
    ensures a.RunWindowClosure? && a != RunWindowClosure(w) ==> Apply(s, a) == s
  {
    var j :| 0 <= j < |s.granted| && s.granted[j] == w;
    assert j == |s.granted| - 1;
    var t := Apply(s, a);
    assert w in t.granted by {
      assert t.granted[j] == w;
    }
  }

  // ---------------------------------------------------------------- who is admitted

  predicate NoWindow(s: Sys) {
    forall w <- s.granted :: w in s.released
  }

  predicate NobodyOperates(s: Sys) {
    forall p <- s.procs :: !s.procs[p].Operating?
  }

  // The gate's own tests, said in terms of windows, operations and waiting begins.
  lemma TestsMeanWindowsAndTickets(s: Sys)
    requires Inv(s)
    ensures s.gate.barrier <==> !NoWindow(s)
    ensures s.gate.active == 0 <==> NobodyOperates(s)
    ensures MayAcquire(Settle(s.gate)) <==> NoWindow(s) && s.owner == map[]
  {
    hide NoLostWakeup, Settle, NoWindow, NobodyOperates;
    BarrierMeansWindow(s);
    NobodyIsCounted(s);
    SettledHeadIsOwned(s);
  }

  lemma NobodyIsCounted(s: Sys)
    ensures Operators(s.procs) == {} <==> NobodyOperates(s)
  {
    forall p <- s.procs ensures s.procs[p].Operating? <==> p in Operators(s.procs) {
    }
    assert NobodyOperates(s) ==> Operators(s.procs) == {};
  }

  lemma BarrierMeansWindow(s: Sys)
    requires Exclusive(s)
    ensures s.gate.barrier <==> !NoWindow(s)
  {
    if s.gate.barrier {
      assert s.granted[|s.granted| - 1] in s.granted;
    } else {
      forall w <- s.granted ensures w in s.released {
        var i :| 0 <= i < |s.granted| && s.granted[i] == w;
      }
    }
  }

  // After settling, the serving ticket is the smallest owned one, if any is owned.
  lemma SettledHeadIsOwned(s: Sys)
    requires TicketsOwned(s)
    ensures var g := Settle(s.gate);
            && g.servingTicket <= g.nextTicket && (g.nextTicket == g.servingTicket <==> s.owner == map[])
            && (g.servingTicket < g.nextTicket ==> g.servingTicket in s.owner)
            && (forall t <- s.owner :: g.servingTicket <= t)
            && g.barrier == s.gate.barrier && g.active == s.gate.active
  {
    SkipCanceledIsFirstLive(Init(s.gate));
    SettleIsStable(s.gate);
    var g := Settle(s.gate);
    assert g.servingTicket < g.nextTicket ==> g.servingTicket in s.owner;
    if s.owner != map[] {
      var t :| t in s.owner;
    }
  }

  // A card operation is admitted exactly when no window is open and no begin owns a ticket, however
  // many operations run already.
  lemma AcquireAdmitsExactlyWhen(states: seq<Sys>, actions: seq<Action>, k: nat)
    requires IsRun(states, actions) && k < |actions| && actions[k].AcquireLock?
    ensures states[k + 1].procs[actions[k].p].Operating? <==> NoWindow(states[k]) && states[k].owner == map[]
  {
    hide Inv, Settle, NoWindow;
    RunsAreSafe(states, actions, k);
    TestsMeanWindowsAndTickets(states[k]);
  }

  // A begin gets its window at once exactly when no window is open, nobody operates and nobody else
  // owns a ticket.
  lemma BeginAdmitsExactlyWhen(states: seq<Sys>, actions: seq<Action>, k: nat)
    requires IsRun(states, actions) && k < |actions| && actions[k].BeginLock?
    ensures var s := states[k];
            states[k + 1].procs[actions[k].p].Idle? <==> NoWindow(s) && NobodyOperates(s) && s.owner == map[]
    ensures var s, t := states[k], states[k + 1];
            t.granted == if t.procs[actions[k].p].Idle? then s.granted + [t.gate.nextTicket - 1] else s.granted
  {
    RunsAreSafe(states, actions, k);
    var s, p := states[k], actions[k].p;
    BeginTests(s, p);
    BeginIsDrawThenAttempt(s, p);
  }

  lemma BeginTests(s: Sys, p: nat)
    requires Inv(s) && p in s.procs && s.procs[p].BeginEntry?
    ensures var t := Draw(s, p);
            && MayBegin(SkipCanceled(t.gate), t.procs[p].ticket) <==>
               NoWindow(s) && NobodyOperates(s) && s.owner == map[]
    ensures SkipCanceled(Draw(s, p).gate).nextTicket == Draw(s, p).procs[p].ticket + 1
  {
    hide NoLostWakeup;
    var t := Draw(s, p);
    var ticket := t.procs[p].ticket;
    TestsMeanWindowsAndTickets(s);
    DrawKeepsTickets(s, p);
    SettledHeadIsOwned(t);
    SkipCanceledIsFirstLive(t.gate);
    assert Settle(t.gate) == SkipCanceled(t.gate);
    if s.owner == map[] {
      assert t.owner == map[ticket := p];
    } else {
      var x :| x in s.owner;
      assert x in t.owner && x < ticket;
    }
  }

  // A begin that was woken gets its window exactly when no window is open, nobody operates and its
  // ticket is the first one owned.
  lemma BeginRetryAdmitsExactlyWhen(states: seq<Sys>, actions: seq<Action>, k: nat)
    requires IsRun(states, actions) && k < |actions| && actions[k].BeginRetry?
    ensures var s, p := states[k], actions[k].p;
            states[k + 1].procs[p].Idle? <==>
            NoWindow(s) && NobodyOperates(s) && forall t <- s.owner :: s.procs[p].ticket <= t
  {
    RunsAreSafe(states, actions, k);
    var s, p := states[k], actions[k].p;
    RetryTests(s, p);
    hide Inv, Settle;
  }

  lemma RetryTests(s: Sys, p: nat)
    requires Inv(s) && p in s.procs && HoldsTicket(s.procs[p])
    ensures MayBegin(Settle(s.gate), s.procs[p].ticket) <==>
            NoWindow(s) && NobodyOperates(s) && forall t <- s.owner :: s.procs[p].ticket <= t
  {
    hide NoLostWakeup, Settle, NoWindow, NobodyOperates;
    TestsMeanWindowsAndTickets(s);
    SettledHeadIsOwned(s);
    var head := Settle(s.gate).servingTicket;
    assert s.procs[p].ticket in s.owner;
    assert head in s.owner && head <= s.procs[p].ticket;
  }

  lemma WaitEndsExactlyWhen(states: seq<Sys>, actions: seq<Action>, k: nat)
    requires IsRun(states, actions) && k < |actions| && actions[k].WaitLock?
    ensures states[k + 1].procs[actions[k].p].Idle? <==> NoWindow(states[k])
  {
    hide NoWindow, Settle, Inv;
    RunsAreSafe(states, actions, k);
    TestsMeanWindowsAndTickets(states[k]);
  }

  // A goroutine asleep on the open channel has a reason: a window, a begin before it, or for a begin
  // an operation.
  lemma SleepersHaveAReason(states: seq<Sys>, actions: seq<Action>, k: nat, p: nat)
    requires IsRun(states, actions) && k < |states| && p in states[k].procs
    ensures var s := states[k];
            && (s.procs[p].AcquireParked? && !Closed(s, s.procs[p].ch) ==> !NoWindow(s) || s.owner != map[])
            && (s.procs[p].WaitParked? && !Closed(s, s.procs[p].ch) ==> !NoWindow(s))
            && (s.procs[p].BeginParked? && !Closed(s, s.procs[p].ch) ==>
                  !NoWindow(s) || !NobodyOperates(s) || exists t <- s.owner :: t < s.procs[p].ticket)
  {
    RunsAreSafe(states, actions, k);
    hide NoWindow, NobodyOperates, Settle, TicketsOwned, Exclusive, InOrder;
    var s := states[k];
    TestsMeanWindowsAndTickets(s);
    if s.procs[p].BeginParked? {
      RetryTests(s, p);
    }
  }

  // ---------------------------------------------------------------- progress

  predicate Waiting(pc: Proc) {
    !pc.Idle? && !pc.Operating?
  }

  // The goroutine runs next without anybody's help, and its next section ends its wait.
  ghost predicate CanFinishWaiting(s: Sys, p: nat)
    requires p in s.procs
  {
    match s.procs[p]
    case AcquireEntry => AcquireSection(s.gate).1.Admitted?
    case AcquireParked(ch) => Closed(s, ch) && AcquireSection(s.gate).1.Admitted?
    case BeginEntry => BeginSection(s.gate).2.Admitted?
    case BeginParked(t, ch) => Closed(s, ch) && BeginRetrySection(s.gate, t).1.Admitted?
    case BeginWoken(t) => BeginRetrySection(s.gate, t).1.Admitted?
    case BeginCanceling(_) => true
    case WaitEntry => WaitIdleSection(s.gate).Admitted?
    case WaitParked(ch) => Closed(s, ch) && WaitIdleSection(s.gate).Admitted?
    case _ => false
  }

  // No lost wake-up and no deadlock: when no operation runs and no window is open, and somebody
  // waits, some waiter is at its turn and is not asleep on an open channel.
  lemma SomeWaiterCanRun(states: seq<Sys>, actions: seq<Action>, k: nat, p: nat) returns (q: nat)
    requires IsRun(states, actions) && k < |states|
    requires var s := states[k];
             && p in s.procs && Waiting(s.procs[p])
             && (forall r <- s.procs :: !s.procs[r].Operating?)
             && (forall w :: !WindowOpen(s, w))
    ensures q in states[k].procs && CanFinishWaiting(states[k], q)
  {
    RunsAreSafe(states, actions, k);
    var s := states[k];
    assert !s.gate.barrier;
    assert s.gate.active == 0 by {
      assert Operators(s.procs) == {};
    }
    SkipCanceledIsFirstLive(Init(s.gate));
    var g := Settle(s.gate);
    SettleIsStable(s.gate);
    if s.procs[p].WaitEntry? || s.procs[p].WaitParked? || s.procs[p].BeginCanceling? {
      q := p;
    } else if g.servingTicket < g.nextTicket {
      // the serving ticket is owned by a waiting begin
      assert g.servingTicket in s.owner;
      q := s.owner[g.servingTicket];
    } else if s.procs[p].BeginEntry? {
      // the ticket p draws is the serving one
      SkipCanceledIsFirstLive(Init(s.gate).(nextTicket := Init(s.gate).nextTicket + 1));
      q := p;
    } else {
      // nobody waits for a window, so operations may start
      assert MayAcquire(g);
      q := p;
    }
  }
}
