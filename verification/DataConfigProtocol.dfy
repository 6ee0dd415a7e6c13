// Reconfiguration among others. The two mutexes of ReconfigureDataConfig keep out other
// reconfigurations only; SetAPN, Stop, Connect, Disconnect, StartCore and the event loop write the same
// fields between its locked sections. One reconfiguration at a time runs here, section by section, with
// any number of such writes in between.

module DataConfigProtocol {
  import opened Wrappers
  import opened DataConfig

  // The place a reconfiguration has reached: disconnecting, updating, redialling, rolling back.
  // Clearing is its deferred last section.
  datatype Pc =
    | Idle
    | EntryCheck | Suspending | HangingUp | Resetting | Marking
    | Checking | Undoing | Applying | RedialCheck | LastCheck | Wanting
    | Starting | Preparing | Dialling4 | Dialling6 | DialCheck
    | HangingUpAgain | ResettingAgain | Restoring
    | Clearing
    | Done

  // Besides the manager's fields: what the reconfiguration found and was asked for, and its result; and,
  // ghostly, the others' latest intent and their latest APN since it began, each with whether the
  // reconfiguration has not overwritten it since; the APNs set since the update; and its calls.
  datatype Sys = Sys(
    f: Fields,
    pc: Pc,
    request: Config,
    previous: Config,
    saved: bool,
    active: bool,
    result: Option<Error>,
    intent: bool,
    intentNewer: bool,
    apn: Option<string>,
    apnNewer: bool,
    apns: set<string>,
    calls: seq<Call>)

  datatype Step =
    | Begin(request: Config)
    | Next(ok: bool)
    | SetApn(apn: string)
    | Announce(wanted: bool)
    | Stop
    | Other(g: Fields)

  ghost predicate Init(s: Sys) {
    s.pc.Idle? && !s.f.reconfiguring && s.apn.None? && !s.intentNewer && !s.apnNewer && s.calls == []
  }

  // The other goroutines. Announcing covers the assignments of Connect, Disconnect, Start and StartCore;
  // Other covers dials, disconnects and cleanups under way elsewhere. Only Stop makes the state Stopping.
  predicate OthersMay(f: Fields, g: Fields) {
    && g.config == f.config && g.desired == f.desired && g.reconfiguring == f.reconfiguring
    && (g.state == Stopping ==> f.state == Stopping)
  }

  predicate Enabled(s: Sys, step: Step) {
    match step
    case Begin(_) => s.pc.Idle? || s.pc.Done?
    case Next(_) => !s.pc.Idle? && !s.pc.Done?
    case Other(g) => OthersMay(s.f, g)
    case _ => true
  }

  // The first locked section, and the test of the request before it.
  function BeginSection(s: Sys, request: Config): Sys {
    var t := s.(request := request, previous := s.f.config, saved := s.f.desired, active := Active(s.f),
                intentNewer := false, apn := None, apnNewer := false, apns := {}, calls := []);
    if !Valid(request) then t.(pc := Done, result := Some(InvalidConfig))
    else if s.f.state == Stopping then t.(pc := Done, result := Some(ManagerStopping))
    else if s.f.config == request then t.(pc := Done, result := None)
    else t.(pc := if Active(s.f) then EntryCheck else Marking)
  }

  // Up to the update, which is where a stop is noticed.
  predicate Disconnecting(pc: Pc) {
    pc.EntryCheck? || pc.Suspending? || pc.HangingUp? || pc.Resetting? || pc.Marking?
  }

  function DisconnectSection(s: Sys, ok: bool): Sys
    requires Disconnecting(s.pc)
  {
    match s.pc
    case EntryCheck => if ok then s.(pc := Suspending) else s.(pc := Done, result := Some(Canceled))
    case Suspending =>
      s.(f := s.f.(reconfiguring := true, desired := false), intentNewer := false, pc := HangingUp)
    case HangingUp => s.(f := HangUp(s.f), pc := Resetting)
    case Resetting => s.(f := ResetState(s.f), pc := Checking)
    case Marking => s.(f := s.f.(reconfiguring := true), pc := Checking)
  }

  predicate Updating(pc: Pc) {
    pc.Checking? || pc.Undoing? || pc.Applying? || pc.RedialCheck? || pc.LastCheck? || pc.Wanting?
  }

  function UpdateSection(s: Sys, ok: bool): Sys
    requires Updating(s.pc)
  {
    match s.pc
    case Checking => s.(pc := if ok then Applying else Undoing)
    case Undoing =>
      s.(f := s.f.(reconfiguring := false, desired := s.saved), intentNewer := false, pc := Clearing,
      result := Some(Canceled))
    case Applying =>
      if s.f.state == Stopping then s.(pc := Clearing, result := Some(ManagerStopping))
      else s.(f := s.f.(config := s.request), apnNewer := false, apns := {},
              pc := if s.active && s.saved then RedialCheck else LastCheck)
    case RedialCheck => if ok then s.(pc := Wanting) else s.(pc := Restoring, result := Some(Canceled))
    case LastCheck =>
      if ok then s.(pc := Clearing, result := None) else s.(pc := Restoring, result := Some(Canceled))
    case Wanting => s.(f := s.f.(desired := true), intentNewer := false, pc := Starting)
  }

  predicate Dialling(pc: Pc) {
    pc.Starting? || pc.Preparing? || pc.Dialling4? || pc.Dialling6? || pc.DialCheck?
  }

  function Start(s: Sys): Sys {
    match StartDial(s.f)
    case NothingToDo => s.(pc := DialCheck)
    case InProgress => s.(pc := HangingUpAgain, result := Some(DialFailed))
    case Dials => s.(f := s.f.(state := Connecting), pc := Preparing)
  }

  function FailDial(s: Sys): Sys {
    s.(f := ResetState(s.f), pc := HangingUpAgain, result := Some(DialFailed))
  }

  function Dial4(s: Sys, ok: bool): Sys {
    var t := s.(calls := s.calls + [Call(IPv4, s.f.config.apn)]);
    if !s.f.config.ipv4 then s.(pc := Dialling6)
    else if ok && s.f.wds4 then t.(f := s.f.(v4 := true), pc := Dialling6)
    else FailDial(t)
  }

  function Dial6(s: Sys, ok: bool): Sys {
    var t := s.(f := s.f.(state := Connected), pc := DialCheck);
    if s.f.config.ipv6 && s.f.wds6
    then t.(f := t.f.(v6 := s.f.v6 || ok), calls := s.calls + [Call(IPv6, s.f.config.apn)])
    else t
  }

  function DialSection(s: Sys, ok: bool): Sys
    requires Dialling(s.pc)
  {
    match s.pc
    case Starting => Start(s)
    case Preparing => if ok && (s.f.wds4 || s.f.wds6) then s.(pc := Dialling4) else FailDial(s)
    case Dialling4 => Dial4(s, ok)
    case Dialling6 => Dial6(s, ok)
    case DialCheck =>
      if ok then s.(pc := Clearing, result := None) else s.(pc := HangingUpAgain, result := Some(Canceled))
  }

  predicate RollingBack(pc: Pc) {
    pc.HangingUpAgain? || pc.ResettingAgain? || pc.Restoring?
  }

  function RollBackSection(s: Sys): Sys
    requires RollingBack(s.pc)
  {
    match s.pc
    case HangingUpAgain => s.(f := HangUp(s.f), pc := ResettingAgain)
    case ResettingAgain => s.(f := ResetState(s.f), pc := Restoring)
    case Restoring =>
      s.(f := Restore(s.f, s.previous, s.saved), intentNewer := false, apnNewer := false, pc := Clearing)
  }

  // What the reconfiguration does next; `ok` answers for the context, the data plane or the modem.
  function NextSection(s: Sys, ok: bool): Sys {
    if Disconnecting(s.pc) then DisconnectSection(s, ok)
    else if Updating(s.pc) then UpdateSection(s, ok)
    else if Dialling(s.pc) then DialSection(s, ok)
    else if RollingBack(s.pc) then RollBackSection(s)
    else if s.pc.Clearing? then s.(f := s.f.(reconfiguring := false), pc := Done)
    else s
  }

  function Apply(s: Sys, step: Step): Sys {
    match step
    case Begin(request) => BeginSection(s, request)
    case Next(ok) => NextSection(s, ok)
    case SetApn(a) =>
      s.(f := s.f.(config := s.f.config.(apn := a)), apn := Some(a), apnNewer := true, apns := s.apns + {a})
    case Announce(wanted) => s.(f := s.f.(desired := wanted), intent := wanted, intentNewer := true)
    case Stop => s.(f := s.f.(desired := false, state := Stopping), intent := false, intentNewer := true)
    case Other(g) => s.(f := g)
  }

  // ------------------------------------------------------------------ the invariant

  // What the reconfiguration wrote last as the desire, or found.
  function OwnDesire(s: Sys): bool {
    if s.pc.HangingUp? || s.pc.Resetting? || s.pc.RedialCheck? || s.pc.Wanting? then false
    else if s.pc.Checking? || s.pc.Undoing? || s.pc.Applying? then s.saved && !s.active
    else s.saved
  }

  predicate DesireInv(s: Sys) {
    if s.intentNewer then s.f.desired == s.intent
    else s.pc.Idle? || s.pc.Restoring? || s.f.desired == OwnDesire(s)
  }

  // Where the reconfiguration goes depends on what it found, and a stop that it notices was announced
  // after its last write of the desire.
  predicate PathInv(s: Sys) {
    && (s.pc.EntryCheck? || s.pc.Suspending? || s.pc.HangingUp? || s.pc.Resetting? ==> s.active)
    && (s.pc.Marking? ==> !s.active)
    && (s.pc.RedialCheck? || s.pc.Wanting? || Dialling(s.pc) || s.pc.HangingUpAgain? || s.pc.ResettingAgain? ==>
          s.active && s.saved)
    && (s.pc.LastCheck? ==> !s.active || !s.saved)
    && (s.pc.Marking? || s.pc.Checking? || s.pc.Undoing? || s.pc.Applying? ==>
          s.f.state == Stopping ==> s.intentNewer)
    && (s.pc.Clearing? && s.result == Some(ManagerStopping) ==> s.intentNewer)
    && (RollingBack(s.pc) ==> s.result.Some? && s.result != Some(ManagerStopping))
  }

  // Whether the request has been put in force and not been taken back.
  predicate InForce(s: Sys) {
    || s.pc.RedialCheck? || s.pc.LastCheck? || s.pc.Wanting? || Dialling(s.pc) || RollingBack(s.pc)
    || ((s.pc.Clearing? || s.pc.Done?) && s.result.None?)
  }

  function InForceConfig(s: Sys): Config {
    if InForce(s) then s.request else s.previous
  }

  predicate ConfigInv(s: Sys) {
    && (s.apnNewer ==> s.apn.Some? && s.apn.value in s.apns)
    && (s.pc.Idle? || s.f.config == if s.apnNewer then InForceConfig(s).(apn := s.apn.value) else InForceConfig(s))
  }

  predicate Fresh(c: Call, request: Config, apns: set<string>) {
    (c.apn == request.apn || c.apn in apns) && (if c.family.IPv4? then request.ipv4 else request.ipv6)
  }

  predicate BeforeUpdate(pc: Pc) {
    Disconnecting(pc) || pc.Checking? || pc.Applying?
  }

  ghost predicate CallsInv(s: Sys) {
    && (s.calls != [] ==> !BeforeUpdate(s.pc) && s.active && s.saved)
    && forall i | 0 <= i < |s.calls| :: Fresh(s.calls[i], s.request, s.apns)
  }

  predicate FlagInv(s: Sys) {
    s.pc.Idle? || s.pc.Done? || s.pc.EntryCheck? || s.pc.Suspending? || s.pc.Marking? ==> !s.f.reconfiguring
  }

  ghost predicate Inv(s: Sys) {
    DesireInv(s) && PathInv(s) && ConfigInv(s) && CallsInv(s) && FlagInv(s)
  }

  lemma InitInv(s: Sys)
    requires Init(s)
    ensures Inv(s)
  {
  }

  // Every section keeps the invariant, a few of them at a time.
  lemma EntryPreserves(s: Sys, ok: bool)
    requires Inv(s) && (s.pc.EntryCheck? || s.pc.Suspending?)
    ensures Inv(DisconnectSection(s, ok))
  {
    hide Fresh;
  }

  lemma DisconnectPreserves(s: Sys, ok: bool)
    requires Inv(s) && (s.pc.HangingUp? || s.pc.Resetting? || s.pc.Marking?)
    ensures Inv(DisconnectSection(s, ok))
  {
    hide Fresh;
  }

  lemma CheckPreserves(s: Sys, ok: bool)
    requires Inv(s) && (s.pc.Checking? || s.pc.Undoing?)
    ensures Inv(UpdateSection(s, ok))
  {
    hide Fresh;
  }

  lemma ApplyPreserves(s: Sys, ok: bool)
    requires Inv(s) && s.pc.Applying?
    ensures Inv(UpdateSection(s, ok))
  {
    hide Fresh;
  }

  lemma RedialCheckPreserves(s: Sys, ok: bool)
    requires Inv(s) && (s.pc.RedialCheck? || s.pc.Wanting?)
    ensures Inv(UpdateSection(s, ok))
  {
    hide Fresh;
  }

  lemma LastCheckPreserves(s: Sys, ok: bool)
    requires Inv(s) && s.pc.LastCheck?
    ensures Inv(UpdateSection(s, ok))
  {
    hide Fresh;
  }

  lemma StartPreserves(s: Sys, ok: bool)
    requires Inv(s) && s.pc.Starting?
    ensures Inv(DialSection(s, ok))
  {
    hide Fresh, StartDial, Dial4, Dial6, FailDial;
  }

  lemma PreparePreserves(s: Sys, ok: bool)
    requires Inv(s) && (s.pc.Preparing? || s.pc.DialCheck?)
    ensures Inv(DialSection(s, ok))
  {
    hide Fresh;
  }

  lemma FreshCall(s: Sys, t: Sys, family: Family)
    requires ConfigInv(s) && CallsInv(s) && Dialling(s.pc) && s.active && s.saved
    requires if family.IPv4? then s.f.config.ipv4 else s.f.config.ipv6
    requires t == s.(f := t.f, pc := t.pc, result := t.result, calls := s.calls + [Call(family, s.f.config.apn)])
    requires !BeforeUpdate(t.pc)
    ensures CallsInv(t)
  {
    var c := Call(family, s.f.config.apn);
    assert Fresh(c, s.request, s.apns);
    hide Fresh, ConfigInv, BeforeUpdate;
  }

  // A call that is not asked for is not made.
  lemma NoCall(s: Sys, t: Sys)
    requires CallsInv(s) && Dialling(s.pc) && !BeforeUpdate(t.pc)
    requires t == s.(f := t.f, pc := t.pc, result := t.result)
    ensures CallsInv(t)
  {
    hide Fresh, BeforeUpdate;
  }

  lemma Call4Preserves(s: Sys, ok: bool)
    requires Inv(s) && s.pc.Dialling4?
    ensures Inv(DialSection(s, ok))
  {
    hide CallsInv;
    var t := DialSection(s, ok);
    if s.f.config.ipv4 {
      FreshCall(s, t, IPv4);
    } else {
      NoCall(s, t);
    }
  }

  lemma Call6Preserves(s: Sys, ok: bool)
    requires Inv(s) && s.pc.Dialling6?
    ensures Inv(DialSection(s, ok))
  {
    hide CallsInv;
    var t := DialSection(s, ok);
    if s.f.config.ipv6 && s.f.wds6 {
      FreshCall(s, t, IPv6);
    } else {
      NoCall(s, t);
    }
  }

  lemma RollBackPreserves(s: Sys)
    requires Inv(s) && RollingBack(s.pc)
    ensures Inv(RollBackSection(s))
  {
    hide Fresh;
  }

  lemma NextPreserves(s: Sys, ok: bool)
    requires Inv(s) && Enabled(s, Next(ok))
    ensures Inv(NextSection(s, ok))
  {
    hide Inv, DisconnectSection, UpdateSection, DialSection, RollBackSection;
    match s.pc
    case EntryCheck | Suspending => EntryPreserves(s, ok);
    case HangingUp | Resetting | Marking => DisconnectPreserves(s, ok);
    case Checking | Undoing => CheckPreserves(s, ok);
    case Applying => ApplyPreserves(s, ok);
    case RedialCheck | Wanting => RedialCheckPreserves(s, ok);
    case LastCheck => LastCheckPreserves(s, ok);
    case Starting => StartPreserves(s, ok);
    case Preparing | DialCheck => PreparePreserves(s, ok);
    case Dialling4 => Call4Preserves(s, ok);
    case Dialling6 => Call6Preserves(s, ok);
    case HangingUpAgain | ResettingAgain | Restoring => RollBackPreserves(s);
    case Clearing => ClearPreserves(s, ok);
  }

  lemma ClearPreserves(s: Sys, ok: bool)
    requires Inv(s) && s.pc.Clearing?
    ensures Inv(NextSection(s, ok))
  {
    hide Fresh, DisconnectSection, UpdateSection, DialSection, RollBackSection;
  }

  // So does whatever the others do.
  lemma OthersPreserve(s: Sys, step: Step)
    requires Inv(s) && Enabled(s, step) && !step.Begin? && !step.Next?
    ensures Inv(Apply(s, step))
  {
  }

  lemma BeginPreserves(s: Sys, request: Config)
    requires Inv(s) && Enabled(s, Begin(request))
    ensures Inv(BeginSection(s, request))
  {
  }

  lemma StepPreserves(s: Sys, step: Step)
    requires Inv(s) && Enabled(s, step)
    ensures Inv(Apply(s, step))
  {
    hide Inv, BeginSection, NextSection;
    match step
    case Begin(request) => BeginPreserves(s, request);
    case Next(ok) => NextPreserves(s, ok);
    case _ => OthersPreserve(s, step);
  }

  ghost predicate IsRun(states: seq<Sys>, steps: seq<Step>) {
    && |states| == |steps| + 1 && Init(states[0])
    && forall i | 0 <= i < |steps| :: Enabled(states[i], steps[i]) && states[i + 1] == Apply(states[i], steps[i])
  }

  lemma {:induction false} RunsAreSafe(states: seq<Sys>, steps: seq<Step>, n: nat)
    requires IsRun(states, steps) && n < |states|
    ensures Inv(states[n])
  {
    hide Inv, Init, Enabled, Apply;
    if n == 0 {
      InitInv(states[0]);
    } else {
      RunsAreSafe(states, steps, n - 1);
      StepPreserves(states[n - 1], steps[n - 1]);
    }
  }

  // ------------------------------------------------------------------ what survives

  // The others' latest intent survives a reconfiguration exactly when it was announced after the
  // reconfiguration's last write of it, or was what the reconfiguration had found.
  lemma IntentSurvivesIff(states: seq<Sys>, steps: seq<Step>, n: nat)
    requires IsRun(states, steps) && n < |states| && states[n].pc.Done?
    ensures var s := states[n]; s.f.desired == s.intent <==> s.intentNewer || s.intent == s.saved
    ensures !states[n].f.reconfiguring
  {
    hide IsRun;
    RunsAreSafe(states, steps, n);
  }

  // A stop that makes the reconfiguration give up at the update survives.
  lemma NoticedStopsSurvive(states: seq<Sys>, steps: seq<Step>, n: nat)
    requires IsRun(states, steps) && n < |states|
    requires states[n].pc.Clearing? && states[n].result == Some(ManagerStopping)
    ensures states[n].f.desired == states[n].intent
  {
    hide IsRun;
    RunsAreSafe(states, steps, n);
  }

  // The configuration has the request's families exactly without an error, else the previous ones; and
  // an APN set meanwhile survives exactly when it was set after the last write of the reconfiguration,
  // or is what that wrote or left.
  lemma ConfigSurvivesIff(states: seq<Sys>, steps: seq<Step>, n: nat)
    requires IsRun(states, steps) && n < |states| && states[n].pc.Done?
    ensures var s := states[n];
            var own := if s.result.None? then s.request else s.previous;
            && s.f.config.ipv4 == own.ipv4 && s.f.config.ipv6 == own.ipv6
            && (s.apn.None? ==> s.f.config.apn == own.apn)
            && (s.apn.Some? ==> (s.f.config.apn == s.apn.value <==> s.apnNewer || s.apn.value == own.apn))
  {
    hide IsRun;
    RunsAreSafe(states, steps, n);
  }

  // No call uses families or an APN older than the request, and there is none unless a connection was
  // up and desired.
  lemma CallsAreFresh(states: seq<Sys>, steps: seq<Step>, n: nat, i: nat)
    requires IsRun(states, steps) && n < |states| && i < |states[n].calls|
    ensures var s := states[n];
            && (s.calls[i].apn == s.request.apn || s.calls[i].apn in s.apns)
            && (if s.calls[i].family.IPv4? then s.request.ipv4 else s.request.ipv6)
            && s.active && s.saved
  {
    hide IsRun;
    RunsAreSafe(states, steps, n);
    assert Fresh(states[n].calls[i], states[n].request, states[n].apns);
  }

  // ------------------------------------------------------------------ a stopped manager redialled

  ghost predicate Reachable(s: Sys) {
    exists states, steps :: IsRun(states, steps) && states[|states| - 1] == s
  }

  lemma ReachStart(s: Sys)
    requires Init(s)
    ensures Reachable(s)
  {
    assert IsRun([s], []);
  }

  lemma ReachStep(s: Sys, step: Step)
    requires Reachable(s) && Enabled(s, step)
    ensures Reachable(Apply(s, step))
  {
    hide Init, Apply, Enabled;
    var states, steps :| IsRun(states, steps) && states[|states| - 1] == s;
    assert IsRun(states + [Apply(s, step)], steps + [step]);
  }

  // A connected manager is asked for another APN, and stopped while the reconfiguration is hanging up.
  lemma StopWhileDisconnecting(request: Config) returns (s: Sys)
    requires request.apn != "" && request.ipv4 && !request.ipv6
    ensures Reachable(s) && s.pc.Resetting? && s.request == request && s.active && s.saved
    ensures !s.intent && s.intentNewer && s.calls == [] && s.apns == {}
    ensures s.f == Fields(Config("", true, false), false, Stopping, false, false, true, false, true)
  {
    hide Reachable;
    var old0 := Config("", true, false);
    s := Sys(Fields(old0, true, Connected, true, false, true, false, false), Idle, old0, old0, true, true, None,
             true, false, None, false, {}, []);
    ReachStart(s);
    ReachStep(s, Begin(request));
    s := Apply(s, Begin(request));
    ReachStep(s, Next(true));
    s := Apply(s, Next(true));
    ReachStep(s, Next(true));
    s := Apply(s, Next(true));
    ReachStep(s, Next(true));
    s := Apply(s, Next(true));
    ReachStep(s, Stop);
    s := Apply(s, Stop);
  }

  // The disconnect overwrites the stop.
  lemma StopOverwritten(request: Config) returns (s: Sys)
    requires request.apn != "" && request.ipv4 && !request.ipv6
    ensures Reachable(s) && s.pc.Starting? && s.request == request && s.active && s.saved
    ensures !s.intent && s.calls == [] && s.apns == {}
    ensures s.f == Fields(request, true, Disconnected, false, false, true, false, true)
  {
    hide Reachable;
    s := StopWhileDisconnecting(request);
    ReachStep(s, Next(true));
    s := Apply(s, Next(true));
    ReachStep(s, Next(true));
    s := Apply(s, Next(true));
    ReachStep(s, Next(true));
    s := Apply(s, Next(true));
    ReachStep(s, Next(true));
    s := Apply(s, Next(true));
    ReachStep(s, Next(true));
    s := Apply(s, Next(true));
  }

  // The manager that was stopped last is connected again, and connection is desired.
  lemma StoppedManagerIsRedialled(request: Config) returns (s: Sys)
    requires request.apn != "" && request.ipv4 && !request.ipv6
    ensures Reachable(s) && s.pc.Done? && s.result.None? && !s.intent
    ensures s.f.desired && s.f.state == Connected && s.f.v4 && s.calls == [Call(IPv4, request.apn)]
  {
    hide Reachable;
    s := StopOverwritten(request);
    ReachStep(s, Next(true));
    s := Apply(s, Next(true));
    ReachStep(s, Next(true));
    s := Apply(s, Next(true));
    ReachStep(s, Next(true));
    s := Apply(s, Next(true));
    ReachStep(s, Next(true));
    s := Apply(s, Next(true));
    ReachStep(s, Next(true));
    s := Apply(s, Next(true));
    ReachStep(s, Next(true));
    s := Apply(s, Next(true));
  }
}
