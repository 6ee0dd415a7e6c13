// When lifting the probe barrier is harmless: exactly when no cleanup is between its block and its
// clearing of the client.

module ImsProbeLifts {
  import opened ImsProbe
  import opened ImsProbeProtocol
  import opened Wrappers

  // A continuation of s in which the barrier is not lifted again.
  ghost predicate Continues(states: seq<Sys>, actions: seq<Action>) {
    && |states| == |actions| + 1
    && forall i | 0 <= i < |actions| ::
         && Enabled(states[i], actions[i]) && !IsLift(states[i], actions[i])
         && states[i + 1] == Apply(states[i], actions[i])
  }

  ghost predicate Follows(s: Sys, t: Sys) {
    exists states, actions :: Continues(states, actions) && states[0] == s && states[|states| - 1] == t
  }

  lemma FollowsItself(s: Sys)
    ensures Follows(s, s)
  {
    assert Continues([s], []);
  }

  lemma FollowStep(s: Sys, t: Sys, a: Action)
    requires Follows(s, t) && Enabled(t, a) && !IsLift(t, a)
    ensures Follows(s, Apply(t, a))
  {
    var states, actions :| Continues(states, actions) && states[0] == s && states[|states| - 1] == t;
    assert Continues(states + [Apply(t, a)], actions + [a]);
  }

  // No continuation exposes a probe to a closed client.
  ghost predicate StaysSafe(s: Sys) {
    forall t :: Follows(s, t) ==> !Exposed(t)
  }

  // ------------------------------------------------------------------ one direction

  lemma {:induction false} ContinuationsStayGuarded(states: seq<Sys>, actions: seq<Action>, i: nat)
    requires Continues(states, actions) && i < |states| && Inv(states[0]) && AllGuarded(states[0])
    ensures Inv(states[i]) && AllGuarded(states[i])
  {
    hide Inv, AllGuarded, Apply, Enabled, IsLift;
    if i > 0 {
      ContinuationsStayGuarded(states, actions, i - 1);
      StepPreserves(states[i - 1], actions[i - 1]);
      StepKeepsGuarded(states[i - 1], actions[i - 1]);
    }
  }

  lemma GuardedStaysSafe(s: Sys)
    requires Inv(s) && AllGuarded(s)
    ensures StaysSafe(s)
  {
    hide Inv, AllGuarded, Exposed;
    forall t | Follows(s, t)
      ensures !Exposed(t)
    {
      var states, actions :| Continues(states, actions) && states[0] == s && states[|states| - 1] == t;
      ContinuationsStayGuarded(states, actions, |states| - 1);
      GuardedIsNotExposed(t);
    }
  }

  // ------------------------------------------------------------------ the other direction

  // The probe that holds the slot, if any, runs to its end.
  lemma {:induction false} FreeTheSlot(s: Sys, t: Sys) returns (u: Sys)
    requires Follows(s, t) && Inv(t)
    ensures Follows(s, u) && Inv(u) && u.holder.None?
    ensures u.agents == t.agents && u.closedBy == t.closedBy && u.clients == t.clients
    ensures u.b == t.b.(token := true, wg := 0, cancel := None)
    decreases if t.holder.Some? && t.holder.value in t.probes then StepsLeft(t.probes[t.holder.value].pc) + 1 else 0
  {
    hide Follows, Apply, Enabled, NextStep, CallsBalanced, BarrierHolds, ClientsOnce, TakenUnused, ClosedUnused;
    if t.holder.None? {
      u := t;
    } else {
      HolderAdvances(t);
      var a := NextStep(t);
      ProbesLeaveAgentsAlone(t, a);
      ProbeStepIsNoLift(t, a);
      FollowStep(s, t, a);
      StepPreserves(t, a);
      u := FreeTheSlot(s, Apply(t, a));
    }
  }

  lemma ProbeStepIsNoLift(t: Sys, a: Action)
    requires ProbeAction(a)
    ensures !IsLift(t, a)
  {
  }

  lemma {:induction false} FreshNumber(used: set<nat>) returns (n: nat)
    ensures forall m <- used :: m < n
  {
    if used == {} {
      n := 0;
    } else {
      var m :| m in used;
      var rest := used - {m};
      var bound := FreshNumber(rest);
      n := if m < bound then bound else m + 1;
      assert used == rest + {m};
    }
  }

  // What it takes for a probe to be admitted now.
  predicate Admits(b: Barrier) {
    !b.blocked && b.state != StateStopping && b.coreReady && b.client.Some? && b.token && b.wg == 0
  }

  // A new probe is admitted.
  lemma AdmitAProbe(s: Sys, t: Sys, p: nat) returns (u: Sys)
    requires Follows(s, t) && Admits(t.b) && !t.b.activePdn && p !in t.probes
    ensures Follows(s, u) && u.agents == t.agents && u.closedBy == t.closedBy
    ensures u.b.client == t.b.client
    ensures p in u.probes && u.probes[p].pc.Admitted? && Some(u.probes[p].client) == t.b.client
  {
    hide Follows;
    FollowStep(s, t, Check(p));
    u := Apply(t, Check(p));
    FollowStep(s, u, TakeToken(p));
    u := Apply(u, TakeToken(p));
    FollowStep(s, u, Decide(p));
    u := Apply(u, Decide(p));
  }

  // And then the pending cleanup, past its wait, takes and closes the client that probe uses.
  lemma CleanupClosesIt(s: Sys, t: Sys, p: nat, k: nat) returns (u: Sys)
    requires Follows(s, t) && AgentAt(t, k, Waited)
    requires p in t.probes && InScope(t.probes[p].pc) && t.b.client == Some(t.probes[p].client)
    ensures Follows(s, u) && Exposed(u)
  {
    hide Follows;
    FollowStep(s, t, Clear(k));
    u := Apply(t, Clear(k));
    FollowStep(s, u, CloseClient(k));
    u := Apply(u, CloseClient(k));
    assert p in u.probes && InScope(u.probes[p].pc) && u.probes[p].client in u.closedBy;
  }

  // With the barrier down, a client and a ready core, a pending cleanup can expose a probe.
  lemma ReadyExposes(s: Sys, t: Sys, k: nat) returns (u: Sys)
    requires Follows(s, t) && Inv(t) && k in t.agents && Pending(t.agents[k])
    requires !t.b.blocked && t.b.coreReady && t.b.client.Some? && t.b.state != StateStopping
    ensures Follows(s, u) && Exposed(u)
  {
    hide Follows, Inv, Exposed;
    u := FreeTheSlot(s, t);
    FollowStep(s, u, SetPdn(false));
    u := Apply(u, SetPdn(false));
    if u.agents[k].pc.Blocked? {
      FollowStep(s, u, Wait(k));
      u := Apply(u, Wait(k));
    }
    var p := FreshNumber(u.probes.Keys);
    u := AdmitAProbe(s, u, p);
    u := CleanupClosesIt(s, u, p, k);
  }

  // A start that lifts the barrier goes on to open a client and to mark the core ready.
  lemma StartGetsReady(s: Sys, j: nat) returns (t: Sys)
    requires Inv(s) && Enabled(s, BeginStart(j))
    ensures Follows(Apply(s, BeginStart(j)), t) && Inv(t)
    ensures !t.b.blocked && t.b.coreReady && t.b.client.Some? && t.b.state == StateConnecting
    ensures forall k <- s.agents | Pending(s.agents[k]) :: k in t.agents && Pending(t.agents[k])
  {
    hide Follows, Inv;
    var l := Apply(s, BeginStart(j));
    StepPreserves(s, BeginStart(j));
    FollowsItself(l);
    StepPreserves(l, Open(j));
    FollowStep(l, l, Open(j));
    t := Apply(l, Open(j));
    StepPreserves(t, Converge(j));
    FollowStep(l, t, Converge(j));
    t := Apply(t, Converge(j));
  }

  lemma StartExposes(s: Sys, j: nat, k: nat)
    requires Inv(s) && Enabled(s, BeginStart(j)) && k in s.agents && Pending(s.agents[k])
    ensures !StaysSafe(Apply(s, BeginStart(j)))
  {
    hide Follows, Inv, Exposed, Apply, Enabled;
    var t := StartGetsReady(s, j);
    var u := ReadyExposes(Apply(s, BeginStart(j)), t, k);
  }

  // A start's lift is harmless exactly when no cleanup is pending: then no probe ever uses a client
  // that is closed, as long as the barrier is not lifted again; otherwise one can.
  lemma StartIsSafeIff(s: Sys, j: nat)
    requires Inv(s) && AllGuarded(s) && Enabled(s, BeginStart(j))
    ensures StaysSafe(Apply(s, BeginStart(j))) <==> NonePending(s)
  {
    hide StaysSafe, Inv, AllGuarded, Apply, Enabled;
    if NonePending(s) {
      StepPreserves(s, BeginStart(j));
      StepKeepsGuarded(s, BeginStart(j));
      GuardedStaysSafe(Apply(s, BeginStart(j)));
    } else {
      var k :| k in s.agents && Pending(s.agents[k]);
      StartExposes(s, j, k);
    }
  }

  lemma RecoveryGetsReady(s: Sys, j: nat) returns (t: Sys)
    requires Inv(s) && AgentAt(s, j, Opened) && s.agents[j].role.Recovery? && s.b.client.Some?
    ensures Enabled(s, Converge(j)) && Follows(Apply(s, Converge(j)), t) && Inv(t)
    ensures !t.b.blocked && t.b.coreReady && t.b.client.Some? && t.b.state == StateDisconnected
    ensures forall k <- s.agents | Pending(s.agents[k]) :: k in t.agents && Pending(t.agents[k])
  {
    hide Follows, Inv;
    var l := Apply(s, Converge(j));
    StepPreserves(s, Converge(j));
    FollowsItself(l);
    StepPreserves(l, End(j));
    FollowStep(l, l, End(j));
    t := Apply(l, End(j));
  }

  lemma RecoveryExposes(s: Sys, j: nat, k: nat)
    requires Inv(s) && AgentAt(s, j, Opened) && s.agents[j].role.Recovery? && s.b.client.Some?
    requires k in s.agents && Pending(s.agents[k])
    ensures Enabled(s, Converge(j)) && !StaysSafe(Apply(s, Converge(j)))
  {
    hide Follows, Inv, Exposed, Apply;
    var t := RecoveryGetsReady(s, j);
    var u := ReadyExposes(Apply(s, Converge(j)), t, k);
  }

  // The same of the lift of a recovery whose client is still there.
  lemma RecoveryIsSafeIff(s: Sys, j: nat)
    requires Inv(s) && AllGuarded(s) && AgentAt(s, j, Opened) && s.agents[j].role.Recovery? && s.b.client.Some?
    ensures Enabled(s, Converge(j))
    ensures StaysSafe(Apply(s, Converge(j))) <==> NonePending(s)
  {
    hide StaysSafe, Inv, AllGuarded, Apply;
    if NonePending(s) {
      StepPreserves(s, Converge(j));
      StepKeepsGuarded(s, Converge(j));
      GuardedStaysSafe(Apply(s, Converge(j)));
    } else {
      var k :| k in s.agents && Pending(s.agents[k]);
      RecoveryExposes(s, j, k);
    }
  }

  // ------------------------------------------------------------------ a run that gets there

  ghost predicate Reachable(s: Sys) {
    exists states, actions :: IsRun(states, actions) && states[|states| - 1] == s
  }

  lemma ReachStart(s: Sys)
    requires Initial(s)
    ensures Reachable(s)
  {
    assert IsRun([s], []);
  }

  lemma ReachStep(s: Sys, a: Action)
    requires Reachable(s) && Enabled(s, a)
    ensures Reachable(Apply(s, a))
  {
    var states, actions :| IsRun(states, actions) && states[|states| - 1] == s;
    assert IsRun(states + [Apply(s, a)], actions + [a]);
  }

  lemma ReachableIsSafe(s: Sys)
    requires Reachable(s)
    ensures Inv(s)
  {
    var states, actions :| IsRun(states, actions) && states[|states| - 1] == s;
    RunsAreSafe(states, actions, |states| - 1);
  }

  // A manager that was started.
  lemma Started() returns (s: Sys)
    ensures Reachable(s) && s.probes == map[] && s.holder.None? && s.closedBy == map[] && s.clients == 1
    ensures s.b == Barrier(true, 0, None, false, StateDisconnected, true, Some(0), false)
    ensures s.agents == map[0 := Agent(Start, Ended, true, None)]
  {
    hide Reachable, Initial;
    s := Fresh();
    ReachStep(s, BeginStart(0));
    s := Apply(s, BeginStart(0));
    ReachStep(s, Open(0));
    s := Apply(s, Open(0));
    ReachStep(s, Converge(0));
    s := Apply(s, Converge(0));
    ReachStep(s, End(0));
    s := Apply(s, End(0));
  }

  lemma Fresh() returns (s: Sys)
    ensures Reachable(s)
    ensures s == Sys(Barrier(true, 0, None, false, StateDisconnected, false, None, false), map[], map[], None, map[], 0)
  {
    hide Reachable;
    s := Sys(Barrier(true, 0, None, false, StateDisconnected, false, None, false), map[], map[], None, map[], 0);
    ReachStart(s);
  }

  // Two stops, both past their wait.
  lemma TwoStops() returns (s: Sys)
    ensures Reachable(s) && s.probes == map[] && s.holder.None? && s.closedBy == map[] && s.clients == 1
    ensures s.b == Barrier(true, 0, None, true, StateStopping, true, Some(0), false)
    ensures s.agents == map[0 := Agent(Start, Ended, true, None), 1 := Agent(Stop, Waited, true, None),
                            2 := Agent(Stop, Waited, true, None)]
  {
    hide Reachable, Unguard;
    s := Started();
    ReachStep(s, BeginStop(1));
    s := Apply(s, BeginStop(1));
    ReachStep(s, BeginStop(2));
    s := Apply(s, BeginStop(2));
    ReachStep(s, Block(1));
    s := Apply(s, Block(1));
    ReachStep(s, Block(2));
    s := Apply(s, Block(2));
    ReachStep(s, Wait(1));
    s := Apply(s, Wait(1));
    ReachStep(s, Wait(2));
    s := Apply(s, Wait(2));
  }

  // One of them completes; the manager counts as stopped, and a start may begin while the other stop
  // has its clearing and closing still to do.
  lemma OverlappingStopsLetAStartIn() returns (s: Sys)
    ensures Reachable(s) && Inv(s) && AllGuarded(s) && Enabled(s, BeginStart(3)) && !NonePending(s)
    ensures !StaysSafe(Apply(s, BeginStart(3)))
  {
    hide Reachable, Unguard, Inv, StaysSafe;
    s := TwoStops();
    ReachStep(s, Clear(1));
    s := Apply(s, Clear(1));
    ReachStep(s, CloseClient(1));
    s := Apply(s, CloseClient(1));
    ReachStep(s, End(1));
    s := Apply(s, End(1));
    ReachableIsSafe(s);
    assert 2 in s.agents && Pending(s.agents[2]);
    StartIsSafeIff(s, 3);
  }
}
