// Probes and cleanups running side by side: each step is one mutex section, one channel operation,
// one WaitGroup operation or one hook call. Cleanups are run by stops, by
// recoveries and by starts that fail; starts and recoveries lift the barrier that cleanups leave.

module ImsProbeProtocol {
  import opened ImsProbe
  import opened Wrappers

  datatype Pc =
    | Queued              // passed the first section, waits for the slot
    | HasToken            // took the token
    | Rejected            // second section refused; the token goes back next
    | Admitted
    | Leased
    | Windowed            // inside its card quiet window
    | Started             // its call is up
    | CallStopped         // or was never started
    | WindowReleased      // or was never opened
    | LeaseReleased       // or was never obtained
    | CancelCleared
    | WgDone
    | Finished

  // The counters record the hook calls made for the probe.
  datatype Probe = Probe(
    pc: Pc,
    client: nat,
    leases: nat, releases: nat,
    windows: nat, windowEnds: nat,
    starts: nat, stops: nat)

  datatype Role = Stop | Recovery | Start

  datatype AgentPc =
    | Entered
    | Blocked             // cleanup: raised the flag, waits for the admitted probe
    | Waited
    | Cleared             // took the client out of the manager
    | Closed              // closed it
    | Opened              // start or recovery: opened a client
    | Converged           // marked the core ready
    | Ended

  // A call of Stop, of doRecoverFromModemReset or of StartCoreContext. `guarded` is false once the
  // barrier was lifted between the block and the clearing of its cleanup.
  datatype Agent = Agent(role: Role, pc: AgentPc, guarded: bool, taken: Option<nat>)

  // `holder` is the probe that has the token; `closedBy` maps each closed client to whether the
  // cleanup that closed it was guarded.
  datatype Sys = Sys(
    b: Barrier,
    probes: map<nat, Probe>,
    agents: map<nat, Agent>,
    holder: Option<nat>,
    closedBy: map<nat, bool>,
    clients: nat)

  datatype Action =
    | Check(p: nat)
    | GiveUp(p: nat)                     // context done while queued
    | TakeToken(p: nat)
    | Decide(p: nat)
    | PutBack(p: nat)
    | Call(p: nat, ok: bool)             // the next hook of an admitted probe and its answer
    | ClearCancel(p: nat)
    | DoneWg(p: nat)
    | PutToken(p: nat)
    | BeginStop(k: nat)
    | BeginRecovery(k: nat)
    | BeginStart(k: nat)                 // lifts the barrier
    | Block(k: nat)
    | Wait(k: nat)
    | Clear(k: nat)
    | CloseClient(k: nat)
    | Open(k: nat)
    | Converge(k: nat)                   // of a recovery: lifts the barrier
    | End(k: nat)
    | DialState(state: State)            // the dial state machine sets the state
    | SetPdn(active: bool)

  predicate Holding(pc: Pc) {
    !pc.Queued? && !pc.Finished?
  }

  // Between admission and the WaitGroup's Done.
  predicate InScope(pc: Pc) {
    pc.Admitted? || UsesLease(pc) || pc.LeaseReleased? || pc.CancelCleared?
  }

  predicate UsesLease(pc: Pc) {
    pc.Leased? || pc.Windowed? || pc.Started? || pc.CallStopped? || pc.WindowReleased?
  }

  predicate Calling(pc: Pc) {
    pc.Admitted? || UsesLease(pc)
  }

  // The next hook call of an admitted probe: lease; then profile discovery and quiet window; then
  // start; then settings and stop; then the end of the window; then the release of the lease.
  function AfterCall(pr: Probe, ok: bool): Probe
    requires Calling(pr.pc)
  {
    match pr.pc
    case Admitted => if ok then pr.(pc := Pc.Leased, leases := pr.leases + 1) else pr.(pc := Pc.LeaseReleased)
    case Leased => if ok then pr.(pc := Windowed, windows := pr.windows + 1) else pr.(pc := WindowReleased)
    case Windowed => if ok then pr.(pc := Started, starts := pr.starts + 1) else pr.(pc := Pc.CallStopped)
    case Started => pr.(pc := Pc.CallStopped, stops := pr.stops + 1)
    case CallStopped => pr.(pc := WindowReleased, windowEnds := pr.windowEnds + 1)
    case _ => pr.(pc := Pc.LeaseReleased, releases := pr.releases + 1)
  }

  predicate ProbeAt(s: Sys, p: nat, pc: Pc) {
    p in s.probes && s.probes[p].pc == pc
  }

  predicate AgentAt(s: Sys, k: nat, pc: AgentPc) {
    k in s.agents && s.agents[k].pc == pc
  }

  predicate MayBlock(g: Agent) {
    g.pc.Entered?
  }

  predicate MayOpen(g: Agent) {
    (g.role.Start? && g.pc.Entered?) || (g.role.Recovery? && g.pc.Closed?)
  }

  // A stop ends when its cleanup is over; a start or a recovery when it converged or gave up.
  predicate MayEnd(g: Agent) {
    g.pc.Closed? || g.pc.Converged? || (g.role.Recovery? && g.pc.Opened?)
  }

  predicate Enabled(s: Sys, a: Action) {
    match a
    case Check(p) => p !in s.probes && CheckSection(s.b).None?
    case GiveUp(p) => ProbeAt(s, p, Queued)
    case TakeToken(p) => ProbeAt(s, p, Queued) && s.b.token
    case Decide(p) => ProbeAt(s, p, HasToken)
    case PutBack(p) => ProbeAt(s, p, Rejected)
    case Call(p, _) => p in s.probes && Calling(s.probes[p].pc)
    case ClearCancel(p) => ProbeAt(s, p, Pc.LeaseReleased)
    case DoneWg(p) => ProbeAt(s, p, CancelCleared) && s.b.wg > 0
    case PutToken(p) => ProbeAt(s, p, WgDone)
    case BeginStop(k) => k !in s.agents
    case BeginRecovery(k) => k !in s.agents && s.b.state != StateStopping
    case BeginStart(k) => k !in s.agents && !s.b.coreReady && s.b.state == StateDisconnected
    case Block(k) => k in s.agents && MayBlock(s.agents[k])
    case Wait(k) => AgentAt(s, k, Blocked) && s.b.wg == 0
    case Clear(k) => AgentAt(s, k, Waited)
    case CloseClient(k) => AgentAt(s, k, Cleared)
    case Open(k) => k in s.agents && MayOpen(s.agents[k])
    case Converge(k) => AgentAt(s, k, Opened)
    case End(k) => k in s.agents && MayEnd(s.agents[k])
    case DialState(state) => state != StateStopping
    case SetPdn(_) => true
  }

  function MoveProbe(s: Sys, p: nat, pr: Probe): Sys {
    s.(probes := s.probes[p := pr])
  }

  function MoveAgent(s: Sys, k: nat, g: Agent): Sys {
    s.(agents := s.agents[k := g])
  }

  // A cleanup that has blocked and not cleared yet.
  predicate Pending(g: Agent) {
    g.pc.Blocked? || g.pc.Waited?
  }

  function Unguard(agents: map<nat, Agent>): map<nat, Agent> {
    map k | k in agents :: if Pending(agents[k]) then agents[k].(guarded := false) else agents[k]
  }

  function Lift(s: Sys): Sys {
    s.(b := s.b.(blocked := false), agents := Unguard(s.agents))
  }

  predicate IsLift(s: Sys, a: Action) {
    a.BeginStart? || (a.Converge? && a.k in s.agents && s.agents[a.k].role.Recovery?)
  }

  function ApplyProbe(s: Sys, a: Action): Sys
    requires Enabled(s, a)
  {
    match a
    case Check(p) => MoveProbe(s, p, Probe(Queued, 0, 0, 0, 0, 0, 0, 0))
    case GiveUp(p) => MoveProbe(s, p, s.probes[p].(pc := Finished))
    case TakeToken(p) =>
      MoveProbe(s.(b := s.b.(token := false), holder := Some(p)), p, s.probes[p].(pc := HasToken))
    case Decide(p) =>
      var (b, refused) := DecideSection(s.b, p);
      MoveProbe(s.(b := b), p,
                if refused.Some? then s.probes[p].(pc := Rejected)
                else s.probes[p].(pc := Admitted, client := s.b.client.value))
    case PutBack(p) =>
      MoveProbe(s.(b := s.b.(token := true), holder := None), p, s.probes[p].(pc := Finished))
    case Call(p, ok) => MoveProbe(s, p, AfterCall(s.probes[p], ok))
    case ClearCancel(p) => MoveProbe(s.(b := s.b.(cancel := None)), p, s.probes[p].(pc := CancelCleared))
    case DoneWg(p) => MoveProbe(s.(b := s.b.(wg := s.b.wg - 1)), p, s.probes[p].(pc := WgDone))
    case PutToken(p) =>
      MoveProbe(s.(b := s.b.(token := true), holder := None), p, s.probes[p].(pc := Finished))
    case _ => s
  }

  function ApplyAgent(s: Sys, a: Action): Sys
    requires Enabled(s, a)
  {
    match a
    case BeginStop(k) => MoveAgent(s.(b := s.b.(state := StateStopping)), k, Agent(Stop, Entered, true, None))
    case BeginRecovery(k) =>
      MoveAgent(s.(b := s.b.(state := StateDisconnected)), k, Agent(Recovery, Entered, true, None))
    case BeginStart(k) =>
      var t := Lift(s);
      MoveAgent(t.(b := t.b.(state := StateConnecting)), k, Agent(Start, Entered, true, None))
    case Block(k) => MoveAgent(s.(b := BlockSection(s.b).0), k, s.agents[k].(pc := Blocked))
    case Wait(k) => MoveAgent(s, k, s.agents[k].(pc := Waited))
    case Clear(k) =>
      var (b, taken) := ClearSection(s.b);
      MoveAgent(s.(b := b), k, s.agents[k].(pc := Cleared, taken := taken))
    case CloseClient(k) =>
      var g := s.agents[k];
      MoveAgent(if g.taken.Some? then s.(closedBy := s.closedBy[g.taken.value := g.guarded]) else s, k,
                g.(pc := Closed))
    case Open(k) =>
      MoveAgent(s.(b := s.b.(client := Some(s.clients)), clients := s.clients + 1), k, s.agents[k].(pc := Opened))
    case Converge(k) =>
      var t := if s.agents[k].role.Recovery? then Lift(s) else s;
      MoveAgent(t.(b := t.b.(coreReady := true)), k, t.agents[k].(pc := Converged))
    case End(k) =>
      MoveAgent(if s.agents[k].pc.Opened? then s else s.(b := s.b.(state := StateDisconnected)), k,
                s.agents[k].(pc := Ended))
    case DialState(state) => s.(b := s.b.(state := state))
    case SetPdn(active) => s.(b := s.b.(activePdn := active))
    case _ => s
  }

  predicate ProbeAction(a: Action) {
    a.Check? || a.GiveUp? || a.TakeToken? || a.Decide? || a.PutBack? || a.Call? || a.ClearCancel? || a.DoneWg?
    || a.PutToken?
  }

  function Apply(s: Sys, a: Action): Sys
    requires Enabled(s, a)
  {
    if ProbeAction(a) then ApplyProbe(s, a) else ApplyAgent(s, a)
  }

  ghost predicate Initial(s: Sys) {
    && s.b == Barrier(true, 0, None, false, StateDisconnected, false, None, false)
    && s.probes == map[] && s.agents == map[] && s.holder.None? && s.closedBy == map[] && s.clients == 0
  }

  ghost predicate IsRun(states: seq<Sys>, actions: seq<Action>) {
    && |states| == |actions| + 1
    && Initial(states[0])
    && forall i | 0 <= i < |actions| :: Enabled(states[i], actions[i]) && states[i + 1] == Apply(states[i], actions[i])
  }

  // ------------------------------------------------------------------ the invariant

  // The token is in the channel or with exactly one probe.
  ghost predicate TokenConserved(s: Sys) {
    && (s.b.token <==> s.holder.None?)
    && (s.holder.Some? ==> s.holder.value in s.probes)
    && (forall p <- s.probes :: Holding(s.probes[p].pc) <==> s.holder == Some(p))
  }

  predicate HolderInScope(s: Sys) {
    s.holder.Some? && s.holder.value in s.probes && InScope(s.probes[s.holder.value].pc)
  }

  // The WaitGroup counts the admitted probe, and its cancel function is installed.
  ghost predicate ScopeCounted(s: Sys) {
    && s.b.wg == (if HolderInScope(s) then 1 else 0)
    && (s.b.cancel.Some? <==> HolderInScope(s) && !s.probes[s.holder.value].pc.CancelCleared?)
    && (s.b.cancel.Some? ==> s.b.cancel == s.holder)
  }

  // What a probe has called so far.
  predicate Balanced(pr: Probe) {
    && pr.starts == pr.stops + (if pr.pc.Started? then 1 else 0)
    && pr.windows == pr.windowEnds + (if pr.pc.Windowed? || pr.pc.Started? || pr.pc.CallStopped? then 1 else 0)
    && pr.leases == pr.releases + (if UsesLease(pr.pc) then 1 else 0)
    && pr.starts <= pr.windows <= pr.leases <= 1
    && (pr.pc.Leased? ==> pr.windows == 0)
    && (pr.pc.Windowed? ==> pr.starts == 0)
    && (pr.pc.Queued? || pr.pc.HasToken? || pr.pc.Rejected? || pr.pc.Admitted? ==> pr.leases == 0)
  }

  ghost predicate CallsBalanced(s: Sys) {
    forall p <- s.probes :: Balanced(s.probes[p])
  }

  // While a cleanup is guarded it has the flag up, and past its wait no probe is admitted.
  ghost predicate BarrierHolds(s: Sys) {
    forall k <- s.agents | Pending(s.agents[k]) && s.agents[k].guarded ::
      s.b.blocked && (s.agents[k].pc.Waited? ==> s.b.wg == 0)
  }

  // Clients are numbered by opening; a client being closed or closed is not the current one.
  predicate TakenOnce(s: Sys, k: nat)
    requires k in s.agents
  {
    s.agents[k].taken.Some? ==> s.agents[k].taken.value < s.clients && s.agents[k].taken != s.b.client
  }

  ghost predicate ClientsOnce(s: Sys) {
    && (s.b.client.Some? ==> s.b.client.value < s.clients && s.b.client.value !in s.closedBy)
    && (forall c <- s.closedBy :: c < s.clients)
    && (forall k <- s.agents :: TakenOnce(s, k))
  }

  // No admitted probe uses a client that a guarded cleanup has taken or closed.
  ghost predicate TakenUnused(s: Sys) {
    forall k, p | k in s.agents && p in s.probes && InScope(s.probes[p].pc)
                  && s.agents[k].pc.Cleared? && s.agents[k].guarded ::
      s.agents[k].taken != Some(s.probes[p].client)
  }

  ghost predicate ClosedUnused(s: Sys) {
    forall p <- s.probes | InScope(s.probes[p].pc) && s.probes[p].client in s.closedBy ::
      !s.closedBy[s.probes[p].client]
  }

  ghost predicate Inv(s: Sys) {
    && TokenConserved(s) && ScopeCounted(s) && CallsBalanced(s)
    && BarrierHolds(s) && ClientsOnce(s) && TakenUnused(s) && ClosedUnused(s)
  }

  // ------------------------------------------------------------------ preservation, part by part

  lemma AgentsLeaveProbesAlone(s: Sys, a: Action)
    requires Enabled(s, a) && !ProbeAction(a)
    ensures var t := Apply(s, a);
            && t.probes == s.probes && t.holder == s.holder
            && t.b.token == s.b.token && t.b.wg == s.b.wg && t.b.cancel == s.b.cancel
  {
    hide Unguard;
  }

  lemma ProbesLeaveAgentsAlone(s: Sys, a: Action)
    requires Enabled(s, a) && ProbeAction(a)
    ensures var t := Apply(s, a);
            && t.agents == s.agents && t.closedBy == s.closedBy && t.clients == s.clients
            && t.b == s.b.(token := t.b.token, wg := t.b.wg, cancel := t.b.cancel)
            && (s.b.blocked ==> t.b.wg <= s.b.wg)
  {
    hide AfterCall;
  }

  lemma KeepsToken(s: Sys, a: Action)
    requires TokenConserved(s) && Enabled(s, a)
    ensures TokenConserved(Apply(s, a))
  {
    if !ProbeAction(a) {
      hide Apply, Enabled;
      AgentsLeaveProbesAlone(s, a);
    }
  }

  lemma KeepsScope(s: Sys, a: Action)
    requires TokenConserved(s) && ScopeCounted(s) && Enabled(s, a)
    ensures ScopeCounted(Apply(s, a))
  {
    if !ProbeAction(a) {
      hide Apply, Enabled;
      AgentsLeaveProbesAlone(s, a);
    }
  }

  lemma CallKeepsBalance(pr: Probe, ok: bool)
    requires Balanced(pr) && Calling(pr.pc)
    ensures Balanced(AfterCall(pr, ok))
  {
  }

  lemma KeepsBalance(s: Sys, a: Action)
    requires CallsBalanced(s) && Enabled(s, a)
    ensures CallsBalanced(Apply(s, a))
  {
    hide DecideSection, CheckSection;
    if !ProbeAction(a) {
      hide Apply, Enabled;
      AgentsLeaveProbesAlone(s, a);
    } else if a.Call? {
      CallKeepsBalance(s.probes[a.p], a.ok);
      hide AfterCall;
    }
  }

  lemma KeepsBarrier(s: Sys, a: Action)
    requires BarrierHolds(s) && Enabled(s, a)
    ensures BarrierHolds(Apply(s, a))
  {
    if ProbeAction(a) {
      hide Apply, Enabled;
      ProbesLeaveAgentsAlone(s, a);
    }
  }

  lemma KeepsTakenOnce(s: Sys, a: Action, k: nat)
    requires Enabled(s, a) && !ProbeAction(a) && k in Apply(s, a).agents
    requires k in s.agents ==> TakenOnce(s, k)
    requires s.b.client.Some? ==> s.b.client.value < s.clients
    ensures TakenOnce(Apply(s, a), k)
  {
  }

  lemma KeepsCurrent(s: Sys, a: Action)
    requires ClientsOnce(s) && Enabled(s, a) && !ProbeAction(a)
    ensures var t := Apply(s, a);
            && (t.b.client.Some? ==> t.b.client.value < t.clients && t.b.client.value !in t.closedBy)
            && (forall c <- t.closedBy :: c < t.clients)
  {
    hide Unguard;
    if a.CloseClient? {
      assert TakenOnce(s, a.k);
    }
  }

  lemma KeepsClients(s: Sys, a: Action)
    requires ClientsOnce(s) && Enabled(s, a)
    ensures ClientsOnce(Apply(s, a))
  {
    if ProbeAction(a) {
      hide Apply, Enabled;
      ProbesLeaveAgentsAlone(s, a);
    } else {
      hide Apply, Enabled, TakenOnce;
      KeepsCurrent(s, a);
      forall k <- Apply(s, a).agents
        ensures TakenOnce(Apply(s, a), k)
      {
        KeepsTakenOnce(s, a, k);
      }
    }
  }

  // With the WaitGroup at zero nobody is admitted.
  lemma NobodyAdmitted(s: Sys, p: nat)
    requires TokenConserved(s) && ScopeCounted(s) && s.b.wg == 0 && p in s.probes
    ensures !InScope(s.probes[p].pc)
  {
  }

  // A probe step admits at most one probe, and only with the current client.
  lemma ScopeGrowsByTheCurrentClient(s: Sys, a: Action, p: nat)
    requires Enabled(s, a) && ProbeAction(a) && p in Apply(s, a).probes && InScope(Apply(s, a).probes[p].pc)
    ensures p in s.probes
    ensures || (InScope(s.probes[p].pc) && Apply(s, a).probes[p].client == s.probes[p].client)
            || Some(Apply(s, a).probes[p].client) == s.b.client
  {
  }

  lemma KeepsTaken(s: Sys, a: Action)
    requires Inv(s) && Enabled(s, a)
    ensures TakenUnused(Apply(s, a))
  {
    hide CallsBalanced, ClosedUnused;
    var t := Apply(s, a);
    if ProbeAction(a) {
      ProbesLeaveAgentsAlone(s, a);
      hide Apply, Enabled, TokenConserved, ScopeCounted, BarrierHolds;
      forall k, p |
        && k in t.agents && p in t.probes
        && InScope(t.probes[p].pc) && t.agents[k].pc.Cleared? && t.agents[k].guarded
        ensures t.agents[k].taken != Some(t.probes[p].client)
      {
        ScopeGrowsByTheCurrentClient(s, a, p);
      }
    } else {
      AgentsLeaveProbesAlone(s, a);
      ClearingIsGuarded(s, a);
    }
  }

  lemma ClearingIsGuarded(s: Sys, a: Action)
    requires TokenConserved(s) && ScopeCounted(s) && BarrierHolds(s) && Enabled(s, a)
    ensures a.Clear? && s.agents[a.k].guarded ==> forall p <- s.probes :: !InScope(s.probes[p].pc)
  {
    if a.Clear? && s.agents[a.k].guarded {
      assert s.b.wg == 0;
      forall p <- s.probes
        ensures !InScope(s.probes[p].pc)
      {
        NobodyAdmitted(s, p);
      }
    }
  }

  lemma KeepsClosed(s: Sys, a: Action)
    requires Inv(s) && Enabled(s, a)
    ensures ClosedUnused(Apply(s, a))
  {
    hide CallsBalanced, TokenConserved, ScopeCounted, BarrierHolds;
    var t := Apply(s, a);
    if ProbeAction(a) {
      ProbesLeaveAgentsAlone(s, a);
      hide Apply, Enabled;
      forall p <- t.probes | InScope(t.probes[p].pc) && t.probes[p].client in t.closedBy
        ensures !t.closedBy[t.probes[p].client]
      {
        ScopeGrowsByTheCurrentClient(s, a, p);
      }
    } else {
      AgentsLeaveProbesAlone(s, a);
    }
  }

  lemma StepPreserves(s: Sys, a: Action)
    requires Inv(s) && Enabled(s, a)
    ensures Inv(Apply(s, a))
  {
    hide TokenConserved, ScopeCounted, CallsBalanced, BarrierHolds, ClientsOnce, TakenUnused, ClosedUnused;
    hide Apply, Enabled;
    KeepsToken(s, a);
    KeepsScope(s, a);
    KeepsBalance(s, a);
    KeepsBarrier(s, a);
    KeepsClients(s, a);
    KeepsTaken(s, a);
    KeepsClosed(s, a);
  }

  // ------------------------------------------------------------------ what holds of every run

  lemma {:induction false} RunsAreSafe(states: seq<Sys>, actions: seq<Action>, i: nat)
    requires IsRun(states, actions) && i < |states|
    ensures Inv(states[i])
  {
    hide Inv, Apply, Enabled;
    if i > 0 {
      RunsAreSafe(states, actions, i - 1);
      StepPreserves(states[i - 1], actions[i - 1]);
    } else {
      InitiallySafe(states[0]);
    }
  }

  lemma InitiallySafe(s: Sys)
    requires Initial(s)
    ensures Inv(s)
  {
  }

  // At most one probe is past the slot, whatever the others do.
  lemma OneProbeAtATime(states: seq<Sys>, actions: seq<Action>, i: nat, p: nat, q: nat)
    requires IsRun(states, actions) && i < |states|
    requires p in states[i].probes && Holding(states[i].probes[p].pc)
    requires q in states[i].probes && Holding(states[i].probes[q].pc)
    ensures p == q && !states[i].b.token
  {
    RunsAreSafe(states, actions, i);
  }

  // Every call a probe starts is stopped once and inside its quiet window, every window is ended
  // once and every lease released once before the probe leaves its scope.
  lemma ProbesCleanUpAfterThemselves(states: seq<Sys>, actions: seq<Action>, i: nat, p: nat)
    requires IsRun(states, actions) && i < |states| && p in states[i].probes
    ensures var pr := states[i].probes[p];
            && pr.stops <= pr.starts <= 1 && pr.windowEnds <= pr.windows <= 1 && pr.releases <= pr.leases <= 1
            && (pr.stops < pr.starts ==> pr.windowEnds < pr.windows)
            && (pr.windowEnds < pr.windows ==> pr.releases < pr.leases)
            && (pr.releases < pr.leases ==> InScope(pr.pc))
            && (pr.pc.Finished? ==> pr.starts == pr.stops && pr.windows == pr.windowEnds && pr.leases == pr.releases)
  {
    RunsAreSafe(states, actions, i);
    assert Balanced(states[i].probes[p]);
  }

  // A cleanup that has passed its wait finds no admitted probe until someone lifts the barrier.
  lemma BarrierIsTight(states: seq<Sys>, actions: seq<Action>, i: nat, k: nat, p: nat)
    requires IsRun(states, actions) && i < |states|
    requires AgentAt(states[i], k, Waited) && states[i].agents[k].guarded
    requires p in states[i].probes
    ensures !InScope(states[i].probes[p].pc)
  {
    RunsAreSafe(states, actions, i);
    NobodyAdmitted(states[i], p);
  }

  // A cleanup that still waits is not stuck: the probe it waits for can always take a step, and its
  // cancel function was there to be called unless it is already past its last hook.
  lemma CleanupIsNotStuck(states: seq<Sys>, actions: seq<Action>, i: nat, ok: bool)
    requires IsRun(states, actions) && i < |states| && states[i].b.wg != 0
    ensures var s := states[i];
            && s.holder.Some? && s.holder.value in s.probes && InScope(s.probes[s.holder.value].pc)
            && (|| Enabled(s, Call(s.holder.value, ok))
                || Enabled(s, ClearCancel(s.holder.value))
                || Enabled(s, DoneWg(s.holder.value)))
            && (s.b.cancel == s.holder || s.probes[s.holder.value].pc.CancelCleared?)
  {
    RunsAreSafe(states, actions, i);
  }

  // The steps a probe that holds the token can still take.
  function StepsLeft(pc: Pc): nat {
    match pc
    case HasToken => 12
    case Admitted => 11
    case Leased => 10
    case Windowed => 9
    case Started => 8
    case CallStopped => 7
    case WindowReleased => 6
    case LeaseReleased => 5
    case CancelCleared => 4
    case WgDone => 3
    case Rejected => 3
    case _ => 0
  }

  // The next step of the probe that holds the token.
  function NextStep(s: Sys): Action
    requires s.holder.Some? && s.holder.value in s.probes
  {
    var p := s.holder.value;
    var pc := s.probes[p].pc;
    if pc.HasToken? then Decide(p)
    else if pc.Rejected? then PutBack(p)
    else if Calling(pc) then Call(p, false)
    else if pc.LeaseReleased? then ClearCancel(p)
    else if pc.CancelCleared? then DoneWg(p)
    else PutToken(p)
  }

  // Each step brings the probe closer to giving the token back.
  lemma HolderAdvances(s: Sys)
    requires TokenConserved(s) && ScopeCounted(s) && s.holder.Some?
    ensures s.holder.value in s.probes && Enabled(s, NextStep(s)) && ProbeAction(NextStep(s))
    ensures var t := Apply(s, NextStep(s));
            if t.holder.Some? then
              && t.holder == s.holder && t.holder.value in t.probes
              && StepsLeft(t.probes[t.holder.value].pc) < StepsLeft(s.probes[s.holder.value].pc)
            else t.b.token
  {
  }

  // ------------------------------------------------------------------ clean lifts

  predicate NonePending(s: Sys) {
    forall k <- s.agents :: !Pending(s.agents[k])
  }

  predicate Exposed(s: Sys) {
    exists p :: p in s.probes && InScope(s.probes[p].pc) && s.probes[p].client in s.closedBy
  }

  ghost predicate AllGuarded(s: Sys) {
    && (forall k <- s.agents :: s.agents[k].guarded)
    && (forall c <- s.closedBy :: s.closedBy[c])
  }

  lemma StepKeepsGuarded(s: Sys, a: Action)
    requires AllGuarded(s) && Enabled(s, a) && (IsLift(s, a) ==> NonePending(s))
    ensures AllGuarded(Apply(s, a))
  {
    if ProbeAction(a) {
      hide Apply, Enabled;
      ProbesLeaveAgentsAlone(s, a);
    } else if IsLift(s, a) {
      NothingToUnguard(s);
      hide Unguard;
    } else {
      hide Unguard;
    }
  }

  lemma NothingToUnguard(s: Sys)
    requires NonePending(s)
    ensures Unguard(s.agents) == s.agents
  {
  }

  lemma GuardedIsNotExposed(s: Sys)
    requires Inv(s) && AllGuarded(s)
    ensures !Exposed(s)
  {
  }

  // The barrier is lifted only when no cleanup is between its block and its clearing.
  ghost predicate CleanLifts(states: seq<Sys>, actions: seq<Action>)
    requires IsRun(states, actions)
  {
    forall i | 0 <= i < |actions| && IsLift(states[i], actions[i]) :: NonePending(states[i])
  }

  lemma {:induction false} CleanRunsAreGuarded(states: seq<Sys>, actions: seq<Action>, i: nat)
    requires IsRun(states, actions) && CleanLifts(states, actions) && i < |states|
    ensures AllGuarded(states[i])
  {
    hide AllGuarded, Apply, Enabled, NonePending, IsLift;
    if i > 0 {
      CleanRunsAreGuarded(states, actions, i - 1);
      StepKeepsGuarded(states[i - 1], actions[i - 1]);
    } else {
      InitiallyGuarded(states[0]);
    }
  }

  lemma InitiallyGuarded(s: Sys)
    requires Initial(s)
    ensures AllGuarded(s)
  {
  }

  // In such runs a cleanup never closes a client that a probe still uses.
  lemma ProbesNeverUseAClosedClient(states: seq<Sys>, actions: seq<Action>, i: nat, p: nat)
    requires IsRun(states, actions) && CleanLifts(states, actions) && i < |states|
    requires p in states[i].probes && InScope(states[i].probes[p].pc)
    ensures states[i].probes[p].client !in states[i].closedBy
  {
    RunsAreSafe(states, actions, i);
    CleanRunsAreGuarded(states, actions, i);
    GuardedIsNotExposed(states[i]);
  }

  // ------------------------------------------------------------------ what gets through

  // A probe that checked in is admitted by its second section exactly when the barrier is down, nobody
  // stops the manager, the core is ready with a client and no data call is up; it then uses that client.
  lemma ProbesAreAdmittedExactlyWhen(s: Sys, p: nat)
    requires Enabled(s, Decide(p))
    ensures var t := Apply(s, Decide(p));
            && p in t.probes
            && (t.probes[p].pc.Admitted? <==>
                  !s.b.blocked && s.b.state != StateStopping && s.b.coreReady && s.b.client.Some? && !s.b.activePdn)
            && (t.probes[p].pc.Admitted? ==> Some(t.probes[p].client) == s.b.client)
            && (!t.probes[p].pc.Admitted? ==> t.probes[p].pc.Rejected? && t.b == s.b)
  {
  }

  // With hooks that all succeed an admitted probe leases, opens its window, starts its call, stops it,
  // ends the window and gives the lease back, once each.
  lemma SuccessfulProbe(pr: Probe)
    requires pr.pc.Admitted?
    ensures var leased := AfterCall(pr, true);
            var windowed := AfterCall(leased, true);
            var started := AfterCall(windowed, true);
            var stopped := AfterCall(started, true);
            var closed := AfterCall(stopped, true);
            AfterCall(closed, true) ==
              pr.(pc := Pc.LeaseReleased, leases := pr.leases + 1, windows := pr.windows + 1, starts := pr.starts + 1,
                  stops := pr.stops + 1, windowEnds := pr.windowEnds + 1, releases := pr.releases + 1)
  {
  }
}
