// Admission of IMS probes and the probe body (pkg/manager/ims_probe.go).
//
// The functions on `Barrier` say what each mutex section and channel operation does; the class has
// one method per section. Their interleavings are studied in ImsProbeProtocol.dfy.

module ImsProbe {
  import opened Wrappers

  datatype State = StateDisconnected | StateConnecting | StateConnected | StateStopping

  // The manager fields the admission protocol uses. `token` is whether the slot channel holds its
  // token, `cancel` the probe whose cancel function is installed.
  datatype Barrier = Barrier(
    token: bool,
    wg: nat,
    cancel: Option<nat>,
    blocked: bool,
    state: State,
    coreReady: bool,
    client: Option<nat>,
    activePdn: bool)

  // Why a probe is not admitted; Canceled is a context that ended while it waited for the slot.
  datatype Refusal = NotReady | Stopping | ActivePdn | Canceled

  datatype ProbeError =
    | Refused(refusal: Refusal) | UnsupportedFamily
    | LeaseFailed | NilLease | DiscoverFailed | ProfileNotFound | WindowFailed | StartFailed
    | SettingsFailed | SettingsEmpty | CleanupFailed

  predicate Ready(b: Barrier) {
    b.coreReady && b.client.Some?
  }

  // The first section of beginIMSProbe.
  function CheckSection(b: Barrier): Option<Refusal> {
    if b.blocked then Some(NotReady)
    else if b.state == StateStopping then Some(Stopping)
    else if !Ready(b) then Some(NotReady)
    else None
  }

  // The second section, run with the slot token in hand.
  function DecideSection(b: Barrier, p: nat): (Barrier, Option<Refusal>) {
    if b.blocked || b.state == StateStopping || !Ready(b) || b.activePdn then
      (b, Some(if b.state == StateStopping then Stopping else if b.activePdn then ActivePdn else NotReady))
    else
      (b.(wg := b.wg + 1, cancel := Some(p)), None)
  }

  // blockIMSProbes up to the wait: the probe to cancel, if any.
  function BlockSection(b: Barrier): (Barrier, Option<nat>) {
    (b.(blocked := true), b.cancel)
  }

  // cleanup takes the client out of the manager.
  function ClearSection(b: Barrier): (Barrier, Option<nat>) {
    (b.(client := None, coreReady := false), b.client)
  }

  // When a probe is admitted, over the manager's fields: the core is ready with a client, nobody stops it
  // or has blocked probes, and, for the second section, no data call is up; and why it is not.
  lemma AdmittedExactlyWhen(b: Barrier, p: nat)
    ensures CheckSection(b).None? <==>
            !b.blocked && b.state != StateStopping && b.coreReady && b.client.Some?
    ensures DecideSection(b, p).1.None? <==>
            !b.blocked && b.state != StateStopping && b.coreReady && b.client.Some? && !b.activePdn
    ensures CheckSection(b) == Some(Stopping) <==> !b.blocked && b.state == StateStopping
    ensures DecideSection(b, p).1 == Some(Stopping) <==> b.state == StateStopping
    ensures DecideSection(b, p).1 == Some(ActivePdn) <==> b.state != StateStopping && b.activePdn
    ensures CheckSection(b) != Some(ActivePdn) && CheckSection(b) != Some(Canceled)
    ensures DecideSection(b, p).1 != Some(Canceled)
  {
  }

  // The two sections agree: what the second admits the first lets pass, and with no data call up also
  // the other way round. An admitted probe is counted, and a cleanup gets to cancel exactly it.
  lemma DecideAgreesWithCheck(b: Barrier, p: nat)
    ensures DecideSection(b, p).1.None? <==> CheckSection(b).None? && !b.activePdn
    ensures var (d, refused) := DecideSection(b, p);
            if refused.None? then d.wg == b.wg + 1 && BlockSection(d).1 == Some(p) else d == b
  {
  }

  // From a cleanup's block until the flag is lifted, both sections refuse everybody, however the rest
  // of the manager changes.
  lemma BlockedRefusesEverybody(b: Barrier, later: Barrier, p: nat)
    requires later.blocked == BlockSection(b).0.blocked
    ensures CheckSection(later).Some? && DecideSection(later, p).1.Some? && DecideSection(later, p).0 == later
  {
  }

  // After cleanup took the client, lifting the flag alone lets nobody in.
  lemma ClearedRefusesEverybody(b: Barrier, p: nat, blocked: bool, state: State, activePdn: bool)
    ensures var later := ClearSection(b).0.(blocked := blocked, state := state, activePdn := activePdn);
            CheckSection(later).Some? && DecideSection(later, p) == (later, DecideSection(later, p).1)
            && DecideSection(later, p).1.Some?
  {
  }

  class ProbeBarrier {
    var token: bool
    var wg: nat
    var cancel: Option<nat>
    var blocked: bool
    var state: State
    var coreReady: bool
    var client: Option<nat>
    var activePdn: bool

    ghost function View(): Barrier
      reads this
    {
      Barrier(token, wg, cancel, blocked, state, coreReady, client, activePdn)
    }

    method Check() returns (error: Option<Refusal>)
      ensures error == CheckSection(View())
    {
      if blocked {
        return Some(NotReady);
      }
      if state == StateStopping {
        return Some(Stopping);
      }
      if !coreReady || client.None? {
        return Some(NotReady);
      }
      error := None;
    }

    method Decide(p: nat) returns (error: Option<Refusal>)
      modifies this
      ensures (View(), error) == DecideSection(old(View()), p)
    {
      var ready := coreReady && client.Some?;
      if blocked || state == StateStopping || !ready || activePdn {
        if state == StateStopping {
          return Some(Stopping);
        }
        if activePdn {
          return Some(ActivePdn);
        }
        return Some(NotReady);
      }
      wg := wg + 1;
      cancel := Some(p);
      error := None;
    }

    method BlockProbes() returns (toCancel: Option<nat>)
      modifies this`blocked
      ensures (View(), toCancel) == BlockSection(old(View()))
    {
      blocked := true;
      toCancel := cancel;
    }

    method ClearServices() returns (taken: Option<nat>)
      modifies this`client, this`coreReady
      ensures (View(), taken) == ClearSection(old(View()))
    {
      taken := client;
      client := None;
      coreReady := false;
    }
  }

  // ------------------------------------------------------------------ the probe body

  // Answers of the hooks a probe calls. A lease hook may return a service together with an error.
  datatype ProbeHooks = ProbeHooks(
    admission: Option<Refusal>,
    service: bool,
    leaseOk: bool,
    discoverOk: bool,
    found: bool,
    windowOk: bool,
    startOk: bool,
    settingsOk: bool,
    settings: Option<nat>,
    stopOk: bool,
    releaseOk: bool)

  datatype Bracket =
    | ScopeEntered | Leased | WindowOpened | CallStarted
    | CallStopped | WindowClosed | LeaseReleased | ScopeLeft

  function Opens(e: Bracket): Option<nat> {
    match e
    case ScopeEntered => Some(0)
    case Leased => Some(1)
    case WindowOpened => Some(2)
    case CallStarted => Some(3)
    case _ => None
  }

  function Closes(e: Bracket): Option<nat> {
    match e
    case ScopeLeft => Some(0)
    case LeaseReleased => Some(1)
    case WindowClosed => Some(2)
    case CallStopped => Some(3)
    case _ => None
  }

  // The resources open after a trace, innermost last, or None when something is closed that is not
  // the innermost open resource.
  function Open(trace: seq<Bracket>): Option<seq<nat>> {
    if trace == [] then Some([])
    else
      var before := Open(trace[..|trace| - 1]);
      var e := trace[|trace| - 1];
      if before.None? then None
      else if Opens(e).Some? then Some(before.value + [Opens(e).value])
      else if before.value != [] && Closes(e) == Some(before.value[|before.value| - 1]) then
        Some(before.value[..|before.value| - 1])
      else None
  }

  lemma {:induction false} OpenStep(trace: seq<Bracket>, e: Bracket, open: seq<nat>, after: seq<nat>)
    requires Open(trace) == Some(open)
    requires if Opens(e).Some? then after == open + [Opens(e).value]
             else Closes(e).Some? && open == after + [Closes(e).value]
    ensures Open(trace + [e]) == Some(after)
  {
    assert (trace + [e])[..|trace|] == trace;
    if Opens(e).None? {
      assert open[..|open| - 1] == after;
    }
  }

  lemma OpenNothing()
    ensures Open([]) == Some([]) && Open([ScopeEntered]) == Some([0])
  {
    assert [ScopeEntered][..0] == [];
    assert Open([ScopeEntered][..0]) == Some([]);
    assert [] + [0] == [0];
  }

  // The error of the body before the deferred cleanup runs.
  function BodyError(hooks: ProbeHooks): Option<ProbeError> {
    if !hooks.discoverOk then Some(DiscoverFailed)
    else if !hooks.found then Some(ProfileNotFound)
    else if !hooks.windowOk then Some(WindowFailed)
    else if !hooks.startOk then Some(StartFailed)
    else if !hooks.settingsOk then Some(SettingsFailed)
    else if hooks.settings.None? then Some(SettingsEmpty)
    else None
  }

  predicate CallWasStarted(hooks: ProbeHooks) {
    hooks.discoverOk && hooks.found && hooks.windowOk && hooks.startOk
  }

  // The one input on which a probe leaves something open. The services' own constructors never
  // answer so; an injected hook may.
  predicate Leaks(familyOk: bool, hooks: ProbeHooks) {
    familyOk && hooks.admission.None? && hooks.service && !hooks.leaseOk
  }

  lemma LeakStaysOpen()
    ensures Open([ScopeEntered, Leased, ScopeLeft]) == None
  {
    var t: seq<Bracket> := [ScopeEntered, Leased];
    OpenNothing();
    OpenStep([ScopeEntered], Leased, [0], [0, 1]);
    assert [ScopeEntered] + [Leased] == t;
    assert [ScopeEntered, Leased, ScopeLeft][..2] == t;
  }

  // ProbeIMSPDNSettings. `trace` records what was opened and closed, `err` is the joined error.
  method Probe(familyOk: bool, hooks: ProbeHooks)
    returns (settings: Option<nat>, err: set<ProbeError>, trace: seq<Bracket>)
    // Everything opened is closed once and innermost first, exactly unless an admitted probe meets a
    // lease hook that returns a service beside an error: that service stays open.
    ensures Open(trace) == Some([]) <==> !Leaks(familyOk, hooks)
    ensures Leaks(familyOk, hooks) ==> trace == [ScopeEntered, Leased, ScopeLeft]
    // The probe succeeds exactly when every hook it calls does.
    ensures err == {} <==>
              familyOk && hooks.admission.None? && hooks.service && hooks.leaseOk && BodyError(hooks).None?
              && hooks.stopOk && hooks.releaseOk
    ensures err == {} ==> settings == hooks.settings
    // Settings come back together with an error exactly when only the cleanup failed.
    ensures settings.Some? && err != {} <==> err == {CleanupFailed}
    ensures CallStarted in trace <==>
              familyOk && hooks.admission.None? && hooks.service && hooks.leaseOk && CallWasStarted(hooks)
  {
    hide Open;
    OpenNothing();
    settings, err, trace := None, {}, [];
    if !familyOk {
      err := {UnsupportedFamily};
      return;
    }
    if hooks.admission.Some? {
      err := {Refused(hooks.admission.value)};
      return;
    }
    trace := [ScopeEntered];
    if hooks.service {
      OpenStep(trace, Leased, [0], [0, 1]);
      trace := trace + [Leased];
    }
    if !hooks.leaseOk {
      err := {LeaseFailed};
    } else if !hooks.service {
      err := {NilLease};
    } else {
      settings, err, trace := Body(hooks, trace);
    }
    if hooks.leaseOk || !hooks.service {
      OpenStep(trace, ScopeLeft, [0], []);
    } else {
      LeakStaysOpen();
      assert trace + [ScopeLeft] == [ScopeEntered, Leased, ScopeLeft];
    }
    trace := trace + [ScopeLeft];
  }

  // The body from the lease on, with its deferred cleanup.
  method Body(hooks: ProbeHooks, before: seq<Bracket>)
    returns (settings: Option<nat>, err: set<ProbeError>, trace: seq<Bracket>)
    requires Open(before) == Some([0, 1]) && CallStarted !in before
    ensures Open(trace) == Some([0])
    ensures err == {} <==> BodyError(hooks).None? && hooks.stopOk && hooks.releaseOk
    ensures err == {} ==> settings == hooks.settings
    ensures settings.Some? && err != {} <==> err == {CleanupFailed}
    ensures settings.Some? <==> BodyError(hooks).None?
    ensures CallStarted in trace <==> CallWasStarted(hooks)
  {
    hide Open;
    settings, err, trace := None, {}, before;
    var started, window := false, false;
    if !hooks.discoverOk {
      err := {DiscoverFailed};
    } else if !hooks.found {
      err := {ProfileNotFound};
    } else if !hooks.windowOk {
      err := {WindowFailed};
    } else {
      OpenStep(trace, WindowOpened, [0, 1], [0, 1, 2]);
      trace, window := trace + [WindowOpened], true;
      if !hooks.startOk {
        err := {StartFailed};
      } else {
        OpenStep(trace, CallStarted, [0, 1, 2], [0, 1, 2, 3]);
        trace, started := trace + [CallStarted], true;
        if !hooks.settingsOk {
          err := {SettingsFailed};
        } else if hooks.settings.None? {
          err := {SettingsEmpty};
        } else {
          settings := hooks.settings;
        }
      }
    }
    if started {
      OpenStep(trace, CallStopped, [0, 1, 2, 3], [0, 1, 2]);
      trace := trace + [CallStopped];
      err := if hooks.stopOk then err else err + {CleanupFailed};
    }
    if window {
      OpenStep(trace, WindowClosed, [0, 1, 2], [0, 1]);
      trace := trace + [WindowClosed];
    }
    OpenStep(trace, LeaseReleased, [0, 1], [0]);
    trace := trace + [LeaseReleased];
    err := if hooks.releaseOk then err else err + {CleanupFailed};
  }
}
