// The data-plane controller: topology convergence of pkg/manager/data_plane.go and the PDN
// sessions of pkg/manager/pdn_session.go that live on top of it. Every hook into the modem or the
// host is an answer supplied by the caller, so every pattern of failures is covered.

module DataPlane {
  import opened Wrappers

  datatype Mode = Unset | Native | Qmap

  datatype Spec = Spec(mode: Mode, defaultMux: nat)

  datatype Snapshot = Snapshot(
    generation: nat,
    mode: Mode,
    defaultInterface: string,
    defaultMux: nat,
    degraded: bool)

  const NO_SNAPSHOT := Snapshot(0, Unset, "", 0, false)

  // ------------------------------------------------------------------ resources

  // What an open call acquires, tagged with the session number it was drawn for.
  datatype Resource =
    | Mux(session: nat, master: string, muxID: nat)
    | Lease(session: nat, wds: nat)
    | Call(session: nat, handle: nat)

  datatype Entry = Acquire(resource: Resource) | Release(resource: Resource)

  // What is held after one more entry.
  function After(held: set<Resource>, e: Entry): set<Resource> {
    if e.Acquire? then held + {e.resource} else held - {e.resource}
  }

  // Acquiring needs the resource to be free, releasing needs it to be held.
  predicate Allowed(held: set<Resource>, e: Entry) {
    if e.Acquire? then e.resource !in held else e.resource in held
  }

  // The resources acquired and not yet released.
  function Outstanding(ledger: seq<Entry>): set<Resource> {
    if ledger == [] then {} else After(Outstanding(ledger[..|ledger| - 1]), ledger[|ledger| - 1])
  }

  // Nothing is acquired twice without a release between, or released without being held.
  predicate Legal(ledger: seq<Entry>) {
    ledger == [] ||
    (var before := ledger[..|ledger| - 1]; Legal(before) && Allowed(Outstanding(before), ledger[|ledger| - 1]))
  }

  lemma {:induction false} Append(ledger: seq<Entry>, e: Entry)
    ensures Outstanding(ledger + [e]) == After(Outstanding(ledger), e)
    ensures Legal(ledger + [e]) <==> Legal(ledger) && Allowed(Outstanding(ledger), e)
  {
    assert (ledger + [e])[..|ledger|] == ledger;
  }

  // ------------------------------------------------------------------ hook answers

  // Answers of the topology hooks; `discovered` is the master and the interface that already
  // carries the default mux, if any.
  datatype TopologyHooks = TopologyHooks(
    servicesOk: bool,
    netInterface: string,
    nativeFormatOk: bool,
    qmapFormatOk: bool,
    discovered: Option<(string, string)>,
    addedMux: Option<string>)

  datatype Settings = SettingsError | SettingsEmpty | SettingsRead(settings: nat)

  // Answers of the PDN hooks. A lease hook may return a service together with an error, or none
  // without one.
  datatype PdnHooks = PdnHooks(
    clientOk: bool,
    masterUp: bool,
    addedMux: Option<string>,
    leased: Option<nat>,
    leaseOk: bool,
    endpointOk: bool,
    bindOk: bool,
    started: Option<nat>,
    settings: Settings,
    isolateOk: bool,
    interfaceUp: bool)

  datatype PdnRequest = PdnRequest(muxID: nat, interfaceGiven: bool, userspaceOnly: bool)

  datatype PdnError =
    | TopologyNotReady | MuxConflict | NoClient | MasterDown | AddMuxFailed | LeaseFailed | NoEndpoint
    | BindFailed | StartFailed | SettingsFailed | IsolateFailed | InterfaceDown

  datatype CloseHooks = CloseHooks(downOk: bool, stopOk: bool, releaseOk: bool, deleteOk: bool)

  // Closed carries whether every hook succeeded.
  datatype CloseResult = Closed(clean: bool) | Stale

  class Session {
    const id: nat
    const generation: nat
    const interfaceName: string
    const handle: nat
    const settings: nat
    const master: string
    const muxID: nat
    const wds: Option<nat>

    constructor (id: nat, generation: nat, interfaceName: string, handle: nat, settings: nat, master: string,
                 muxID: nat, wds: Option<nat>)
      ensures this.id == id && this.generation == generation && this.interfaceName == interfaceName
      ensures this.handle == handle && this.settings == settings
      ensures this.master == master && this.muxID == muxID && this.wds == wds
    {
      this.id, this.generation, this.interfaceName := id, generation, interfaceName;
      this.handle, this.settings, this.master, this.muxID, this.wds := handle, settings, master, muxID, wds;
    }

    // The resources a session owns.
    function Owned(): set<Resource> {
      {Mux(id, master, muxID), Call(id, handle)} + (if wds.Some? then {Lease(id, wds.value)} else {})
    }
  }

  function OwnedBy(sessions: map<nat, Session>): set<Resource> {
    set id, r | id in sessions && r in sessions[id].Owned() :: r
  }

  // The resources of a session, in the order they were acquired.
  function ResourcesOf(s: Session): seq<Resource> {
    [Mux(s.id, s.master, s.muxID)] + Listed(if s.wds.Some? then Some(Lease(s.id, s.wds.value)) else None)
      + Listed(Some(Call(s.id, s.handle)))
  }

  // A close of this session would release it.
  predicate IsLive(s: Session, snapshot: Snapshot, sessions: map<nat, Session>) {
    s.id in sessions && sessions[s.id] == s && snapshot.generation == s.generation
  }

  // A resource is held only for a session of the map.
  lemma OwnersAreListed(sessions: map<nat, Session>)
    requires forall id <- sessions :: sessions[id].id == id
    ensures forall r <- OwnedBy(sessions) :: r.session in sessions
  {
  }

  lemma OwnedByOneMore(sessions: map<nat, Session>, s: Session)
    requires s.id !in sessions
    ensures OwnedBy(sessions[s.id := s]) == OwnedBy(sessions) + s.Owned()
  {
    var m := sessions[s.id := s];
    forall r
      ensures r in OwnedBy(m) <==> r in OwnedBy(sessions) + s.Owned()
    {
      if r in OwnedBy(sessions) {
        var id :| id in sessions && r in sessions[id].Owned();
        assert id in m && r in m[id].Owned();
      } else if r in s.Owned() {
        assert s.id in m && r in m[s.id].Owned();
      }
    }
  }

  lemma OwnedByOneLess(sessions: map<nat, Session>, id: nat)
    requires id in sessions
    requires forall i <- sessions :: sessions[i].id == i
    ensures OwnedBy(sessions - {id}) == OwnedBy(sessions) - sessions[id].Owned()
    ensures sessions[id].Owned() <= OwnedBy(sessions)
  {
    var m := sessions - {id};
    forall r
      ensures r in OwnedBy(m) <==> r in OwnedBy(sessions) && r !in sessions[id].Owned()
    {
      if r in OwnedBy(sessions) && r !in sessions[id].Owned() {
        var i :| i in sessions && r in sessions[i].Owned();
        assert i in m && r in m[i].Owned();
      }
    }
  }

  // ------------------------------------------------------------------ convergence as a function

  // What convergence reads and writes.
  datatype Plane = Plane(snapshot: Snapshot, master: string, masterIface: string, muxIface: string)

  const NO_PLANE := Plane(NO_SNAPSHOT, "", "", "")

  predicate SpecOk(spec: Spec) {
    spec.mode != Unset && !(spec.mode == Qmap && spec.defaultMux == 0)
  }

  predicate Cached(snapshot: Snapshot, spec: Spec) {
    snapshot.generation != 0 && snapshot.mode == spec.mode && snapshot.defaultMux == spec.defaultMux
  }

  function NativePlane(p: Plane, netInterface: string): Plane {
    p.(snapshot := Snapshot(p.snapshot.generation + 1, Native, netInterface, 0, false),
       masterIface := netInterface, muxIface := "")
  }

  function QmapPlane(p: Plane, master: string, muxIface: string, defaultMux: nat): Plane {
    Plane(Snapshot(p.snapshot.generation + 1, Qmap, muxIface, defaultMux, false), master, master, muxIface)
  }

  function ConvergeNative(p: Plane, hooks: TopologyHooks): Option<Plane> {
    if !hooks.nativeFormatOk then None else Some(NativePlane(p, hooks.netInterface))
  }

  function ConvergeQmap(p: Plane, spec: Spec, hooks: TopologyHooks): Option<Plane> {
    if !hooks.qmapFormatOk || (p.master == "" && hooks.discovered.None?) then None
    else if p.master == "" && hooks.discovered.value.1 != "" then
      Some(QmapPlane(p, hooks.discovered.value.0, hooks.discovered.value.1, spec.defaultMux))
    else if hooks.addedMux.None? then None
    else
      Some(QmapPlane(p, if p.master == "" then hooks.discovered.value.0 else p.master, hooks.addedMux.value,
                     spec.defaultMux))
  }

  // The plane after a convergence, or None when it fails, which leaves the plane alone.
  function Converge(p: Plane, spec: Spec, hooks: TopologyHooks): Option<Plane> {
    if !SpecOk(spec) then None
    else if Cached(p.snapshot, spec) then Some(p)
    else if !hooks.servicesOk || hooks.netInterface == "" then None
    else if spec.mode == Native then ConvergeNative(p, hooks)
    else if ConvergeQmap(p, spec, hooks).Some? then ConvergeQmap(p, spec, hooks)
    else if !hooks.nativeFormatOk then None
    else
      var q := NativePlane(p, hooks.netInterface);
      Some(q.(snapshot := q.snapshot.(degraded := true)))
  }

  // A QMAP topology can be had: the modem takes the format, the master is known or found, and the default
  // mux is found with it or can be added.
  predicate QmapWorks(p: Plane, hooks: TopologyHooks) {
    && hooks.qmapFormatOk
    && (p.master != "" || hooks.discovered.Some?)
    && ((p.master == "" && hooks.discovered.value.1 != "") || hooks.addedMux.Some?)
  }

  // Convergence succeeds exactly when the specification is sound and is in force already, or the services
  // and the interface are there and the mode, or for QMAP the fallback to native, can be had.
  lemma ConvergesExactlyWhen(p: Plane, spec: Spec, hooks: TopologyHooks)
    ensures Converge(p, spec, hooks).Some? <==>
              && (spec.mode == Native || (spec.mode == Qmap && spec.defaultMux != 0))
              && (|| (&& p.snapshot.generation != 0 && p.snapshot.mode == spec.mode
                      && p.snapshot.defaultMux == spec.defaultMux)
                  || (&& hooks.servicesOk && hooks.netInterface != ""
                      && (hooks.nativeFormatOk || (spec.mode == Qmap && QmapWorks(p, hooks)))))
  {
  }

  // What it converges to: the topology in force if that is the one asked for; else QMAP exactly when asked
  // for and to be had, on the known or found master with the found or added interface; else native on the
  // device's interface, degraded when QMAP was asked for.
  lemma ConvergesTo(p: Plane, spec: Spec, hooks: TopologyHooks)
    requires Converge(p, spec, hooks).Some?
    ensures var q := Converge(p, spec, hooks).value;
            if p.snapshot.generation != 0 && p.snapshot.mode == spec.mode && p.snapshot.defaultMux == spec.defaultMux
            then q == p
            else if spec.mode == Qmap && QmapWorks(p, hooks) then
              && q.snapshot.mode == Qmap && q.snapshot.defaultMux == spec.defaultMux && !q.snapshot.degraded
              && q.master == (if p.master != "" then p.master else hooks.discovered.value.0)
              && q.snapshot.defaultInterface ==
                 (if p.master == "" && hooks.discovered.value.1 != "" then hooks.discovered.value.1
                  else hooks.addedMux.value)
            else
              && q.snapshot.mode == Native && q.snapshot.defaultInterface == hooks.netInterface
              && q.master == p.master && (q.snapshot.degraded <==> spec.mode == Qmap)
  {
  }

  // The interfaces the dialler uses are those of the topology in force; only a native topology can
  // be the degraded one.
  predicate LinksAgree(p: Plane) {
    && (p.snapshot.generation == 0 ==> p.snapshot == NO_SNAPSHOT)
    && (p.snapshot.mode == Qmap ==>
          p.muxIface == p.snapshot.defaultInterface && p.masterIface == p.master
          && p.snapshot.defaultMux != 0 && !p.snapshot.degraded)
    && (p.snapshot.mode == Native ==>
          p.muxIface == "" && p.masterIface == p.snapshot.defaultInterface && p.snapshot.defaultMux == 0)
  }

  lemma ConvergeKeepsLinks(p: Plane, spec: Spec, hooks: TopologyHooks)
    requires LinksAgree(p)
    ensures Converge(p, spec, hooks).Some? ==>
              var q := Converge(p, spec, hooks).value;
              && LinksAgree(q) && q.snapshot.generation != 0
              && (q.snapshot.mode == Native || q.snapshot.mode == spec.mode)
              && (q == p || q.snapshot.generation == p.snapshot.generation + 1)
              && (q != p ==> (q.snapshot.degraded <==> q.snapshot.mode != spec.mode))
  {
  }

  // Converging once more to the same specification changes nothing, whatever the hooks answer, unless
  // the first run fell back to native or native was asked for together with a mux number.
  lemma ReconvergeIsANoOp(p: Plane, spec: Spec, hooks: TopologyHooks)
    requires LinksAgree(p) && Converge(p, spec, hooks).Some?
    ensures var q := Converge(p, spec, hooks).value;
            (forall again :: Converge(q, spec, again) == Some(q))
              <==> q.snapshot.mode == spec.mode && (spec.mode == Native ==> spec.defaultMux == 0)
  {
    var q := Converge(p, spec, hooks).value;
    if !(q.snapshot.mode == spec.mode && (spec.mode == Native ==> spec.defaultMux == 0)) {
      assert Converge(q, spec, hooks.(servicesOk := false)).None?;
    }
  }

  // A new topology strands every session that was live: none of them can be closed any more.
  lemma NewTopologyStrandsSessions(p: Plane, spec: Spec, hooks: TopologyHooks, s: Session, sessions: map<nat, Session>)
    requires LinksAgree(p) && Converge(p, spec, hooks).Some? && Converge(p, spec, hooks).value != p
    ensures !(IsLive(s, p.snapshot, sessions) && IsLive(s, Converge(p, spec, hooks).value.snapshot, sessions))
  {
    ConvergeKeepsLinks(p, spec, hooks);
  }

  // Generations start again after a cleanup: of the sessions a cleanup leaves behind, exactly those
  // of the first generation are live again once the next life has a topology.
  lemma StrandedSessionsReturnIff(spec: Spec, hooks: TopologyHooks, s: Session, sessions: map<nat, Session>)
    requires s.id in sessions && sessions[s.id] == s && Converge(NO_PLANE, spec, hooks).Some?
    ensures IsLive(s, Converge(NO_PLANE, spec, hooks).value.snapshot, sessions) <==> s.generation == 1
  {
  }

  // ------------------------------------------------------------------ opening as a function

  // How an open call ends: its error if any, and how far it got. Stage 1 has the mux, stage 2 the
  // lease answer, stage 3 the started call.
  datatype Opening = Opening(error: Option<PdnError>, stage: nat)

  function OpeningOf(snapshot: Snapshot, master: string, reserved: map<nat, nat>, req: PdnRequest, hooks: PdnHooks)
    : (o: Opening)
    ensures o.stage == 3 ==> hooks.started.Some?
  {
    if snapshot.generation == 0 || snapshot.mode != Qmap then Opening(Some(TopologyNotReady), 0)
    else if req.muxID == 0 || req.muxID == snapshot.defaultMux || req.muxID in reserved
    then Opening(Some(MuxConflict), 0)
    else Reserved(master, req, hooks)
  }

  function Reserved(master: string, req: PdnRequest, hooks: PdnHooks): (o: Opening)
    ensures o.stage == 3 ==> hooks.started.Some?
  {
    if !hooks.clientOk then Opening(Some(NoClient), 0)
    else if master == "" then Opening(Some(TopologyNotReady), 0)
    else if !hooks.masterUp then Opening(Some(MasterDown), 0)
    else if hooks.addedMux.None? then Opening(Some(AddMuxFailed), 0)
    else Establishing(req, hooks)
  }

  function Establishing(req: PdnRequest, hooks: PdnHooks): (o: Opening)
    ensures o.stage == 3 ==> hooks.started.Some?
  {
    if !hooks.leaseOk then Opening(Some(LeaseFailed), 2)
    else if !req.interfaceGiven && !hooks.endpointOk then Opening(Some(NoEndpoint), 2)
    else if !hooks.bindOk then Opening(Some(BindFailed), 2)
    else if hooks.started.None? then Opening(Some(StartFailed), 2)
    else if !hooks.settings.SettingsRead? then Opening(Some(SettingsFailed), 3)
    else if req.userspaceOnly && !hooks.isolateOk then Opening(Some(IsolateFailed), 3)
    else if !hooks.interfaceUp then Opening(Some(InterfaceDown), 3)
    else Opening(None, 3)
  }

  // When an open call succeeds: on a QMAP topology, for a mux that is neither zero nor the default one nor
  // reserved, with every hook it needs.
  lemma OpensExactlyWhen(snapshot: Snapshot, master: string, reserved: map<nat, nat>, req: PdnRequest,
      hooks: PdnHooks)
    ensures OpeningOf(snapshot, master, reserved, req, hooks).error.None? <==>
              && snapshot.generation != 0 && snapshot.mode == Qmap && master != ""
              && req.muxID != 0 && req.muxID != snapshot.defaultMux && req.muxID !in reserved
              && hooks.clientOk && hooks.masterUp && hooks.addedMux.Some? && hooks.leaseOk
              && (req.interfaceGiven || hooks.endpointOk)
              && hooks.bindOk && hooks.started.Some? && hooks.settings.SettingsRead?
              && (req.userspaceOnly ==> hooks.isolateOk) && hooks.interfaceUp
  {
  }

  // The error is that of the first hook that fails, in this order; the mux is acquired before the lease,
  // and the call is started before the settings are read.
  lemma FailsAtTheFirst(master: string, req: PdnRequest, hooks: PdnHooks)
    ensures var o := Reserved(master, req, hooks);
            var muxed := hooks.clientOk && master != "" && hooks.masterUp && hooks.addedMux.Some?;
            var bound := muxed && hooks.leaseOk && (req.interfaceGiven || hooks.endpointOk) && hooks.bindOk;
            var started := bound && hooks.started.Some?;
            var isolated := started && hooks.settings.SettingsRead? && (req.userspaceOnly ==> hooks.isolateOk);
            && (o.error == Some(NoClient) <==> !hooks.clientOk)
            && (o.error == Some(TopologyNotReady) <==> hooks.clientOk && master == "")
            && (o.error == Some(MasterDown) <==> hooks.clientOk && master != "" && !hooks.masterUp)
            && (o.error == Some(AddMuxFailed) <==>
                  hooks.clientOk && master != "" && hooks.masterUp && hooks.addedMux.None?)
            && (o.error == Some(LeaseFailed) <==> muxed && !hooks.leaseOk)
            && (o.error == Some(NoEndpoint) <==>
                  muxed && hooks.leaseOk && !req.interfaceGiven && !hooks.endpointOk)
            && (o.error == Some(BindFailed) <==>
                  muxed && hooks.leaseOk && (req.interfaceGiven || hooks.endpointOk) && !hooks.bindOk)
            && (o.error == Some(StartFailed) <==> bound && hooks.started.None?)
            && (o.error == Some(SettingsFailed) <==> started && !hooks.settings.SettingsRead?)
            && (o.error == Some(IsolateFailed) <==>
                  started && hooks.settings.SettingsRead? && req.userspaceOnly && !hooks.isolateOk)
            && (o.error == Some(InterfaceDown) <==> isolated && !hooks.interfaceUp)
            && (o.error.None? <==> isolated && hooks.interfaceUp)
            && o.stage == (if started then 3 else if muxed then 2 else 0)
  {
  }

  // A call on mux 0, the default mux or a reserved one is refused before anything is acquired.
  lemma ConflictsAreRefused(snapshot: Snapshot, master: string, reserved: map<nat, nat>, req: PdnRequest,
      hooks: PdnHooks)
    ensures var o := OpeningOf(snapshot, master, reserved, req, hooks);
            && (o.error == Some(MuxConflict) <==>
                  && snapshot.generation != 0 && snapshot.mode == Qmap
                  && (req.muxID == 0 || req.muxID == snapshot.defaultMux || req.muxID in reserved))
            && (o.error == Some(MuxConflict) ==> o.stage == 0)
            && (o.error == Some(TopologyNotReady) <==>
                  || snapshot.generation == 0 || snapshot.mode != Qmap
                  || (master == "" && hooks.clientOk && req.muxID != 0 && req.muxID != snapshot.defaultMux
                      && req.muxID !in reserved))
  {
  }

  function Held(r: Option<Resource>): set<Resource> {
    if r.Some? then {r.value} else {}
  }

  function Listed(r: Option<Resource>): seq<Resource> {
    if r.Some? then [r.value] else []
  }

  function Acquiring(r: Option<Resource>): seq<Entry> {
    if r.Some? then [Acquire(r.value)] else []
  }

  function Releasing(r: Option<Resource>): seq<Entry> {
    if r.Some? then [Release(r.value)] else []
  }

  // The lease and the call an open call obtained before it ended at a stage.
  function LeaseAt(id: nat, hooks: PdnHooks, stage: nat): Option<Resource> {
    if stage >= 2 && hooks.leased.Some? then Some(Lease(id, hooks.leased.value)) else None
  }

  function CallAt(id: nat, hooks: PdnHooks, stage: nat): Option<Resource>
    requires stage == 3 ==> hooks.started.Some?
  {
    if stage == 3 then Some(Call(id, hooks.started.value)) else None
  }

  // What an open call acquires, in order.
  function AcquiredBy(id: nat, snapshot: Snapshot, master: string, reserved: map<nat, nat>, req: PdnRequest,
      hooks: PdnHooks)
    : seq<Resource>
  {
    if OpeningOf(snapshot, master, reserved, req, hooks).stage == 0 then []
    else ReservedResources(id, master, req, hooks)
  }

  function ReservedResources(id: nat, master: string, req: PdnRequest, hooks: PdnHooks): seq<Resource> {
    var stage := Reserved(master, req, hooks).stage;
    if stage == 0 then []
    else [Mux(id, master, req.muxID)] + Listed(LeaseAt(id, hooks, stage)) + Listed(CallAt(id, hooks, stage))
  }

  function Acquires(rs: seq<Resource>): seq<Entry> {
    if rs == [] then [] else [Acquire(rs[0])] + Acquires(rs[1..])
  }

  // Releases in the reverse order.
  function Releases(rs: seq<Resource>): seq<Entry> {
    if rs == [] then [] else Releases(rs[1..]) + [Release(rs[0])]
  }

  lemma {:induction false} AcquiresCons(r: Resource, rs: seq<Resource>)
    ensures Acquires([r] + rs) == [Acquire(r)] + Acquires(rs)
    ensures Releases([r] + rs) == Releases(rs) + [Release(r)]
  {
    assert ([r] + rs)[1..] == rs;
  }

  lemma {:induction false} AcquiresAppend(a: seq<Resource>, b: seq<Resource>)
    ensures Acquires(a + b) == Acquires(a) + Acquires(b)
  {
    hide Acquires;
    Single(Mux(0, "", 0));
    if a == [] {
      assert a + b == b;
    } else {
      AcquiresAppend(a[1..], b);
      AcquiresCons(a[0], a[1..]);
      assert a == [a[0]] + a[1..];
      AcquiresCons(a[0], a[1..] + b);
      assert a + b == [a[0]] + (a[1..] + b);
    }
  }

  lemma {:induction false} ReleasesAppend(a: seq<Resource>, b: seq<Resource>)
    ensures Releases(a + b) == Releases(b) + Releases(a)
  {
    hide Releases;
    Single(Mux(0, "", 0));
    if a == [] {
      assert a + b == b;
    } else {
      ReleasesAppend(a[1..], b);
      AcquiresCons(a[0], a[1..]);
      assert a == [a[0]] + a[1..];
      AcquiresCons(a[0], a[1..] + b);
      assert a + b == [a[0]] + (a[1..] + b);
    }
  }

  lemma {:induction false} ListedEntries(r: Option<Resource>)
    ensures Acquires(Listed(r)) == Acquiring(r) && Releases(Listed(r)) == Releasing(r)
  {
  }

  // The ledger of acquiring a mux, perhaps a lease and perhaps a call, and of undoing it.
  lemma {:induction false} LedgerOf(mux: Resource, lease: Option<Resource>, call: Option<Resource>)
    ensures var rs := [mux] + Listed(lease) + Listed(call);
            && Acquires(rs) == [Acquire(mux)] + Acquiring(lease)
                                              + Acquiring(call)
            && Releases(rs) == Releasing(call)
                             + Releasing(lease) + [Release(mux)]
  {
    hide Acquires, Releases, Listed;
    AcquiresAppend([mux] + Listed(lease), Listed(call));
    AcquiresAppend([mux], Listed(lease));
    ReleasesAppend([mux] + Listed(lease), Listed(call));
    ReleasesAppend([mux], Listed(lease));
    ListedEntries(lease);
    ListedEntries(call);
    Single(mux);
  }

  lemma {:induction false} Single(r: Resource)
    ensures Acquires([]) == [] && Releases([]) == []
    ensures Acquires([r]) == [Acquire(r)] && Releases([r]) == [Release(r)]
  {
  }

  // ------------------------------------------------------------------ the controller

  class Controller {
    var snapshot: Snapshot
    var declared: Spec
    var master: string
    var masterIface: string
    var muxIface: string
    var nextSessionID: nat
    var sessions: map<nat, Session>
    var reserved: map<nat, nat>
    ghost var ledger: seq<Entry>

    function Now(): Plane
      reads this`snapshot, this`master, this`masterIface, this`muxIface
    {
      Plane(snapshot, master, masterIface, muxIface)
    }

    // Exactly the sessions of the map hold resources, and each holds its own.
    ghost predicate Valid()
      reads this
    {
      && (forall id <- sessions :: sessions[id].id == id && 0 < id <= nextSessionID)
      && Legal(ledger)
      && Outstanding(ledger) == OwnedBy(sessions)
      && LinksAgree(Now())
    }

    constructor ()
      ensures Valid() && Now() == NO_PLANE && sessions == map[] && reserved == map[] && ledger == []
    {
      snapshot, declared := NO_SNAPSHOT, Spec(Unset, 0);
      master, masterIface, muxIface := "", "", "";
      nextSessionID, sessions, reserved, ledger := 0, map[], map[], [];
    }

    // ConvergeDataPlane without the redial.
    method ConvergeLocked(spec: Spec, hooks: TopologyHooks) returns (ok: bool)
      requires Valid()
      modifies this`snapshot, this`declared, this`master, this`masterIface, this`muxIface
      ensures Valid()
      ensures var next := Converge(old(Now()), spec, hooks);
              (ok <==> next.Some?) && Now() == if ok then next.value else old(Now())
      ensures declared == if SpecOk(spec) then spec else old(declared)
    {
      hide Legal, Outstanding, OwnedBy;
      ConvergeKeepsLinks(Now(), spec, hooks);
      if spec.mode == Unset || (spec.mode == Qmap && spec.defaultMux == 0) {
        return false;
      }
      declared := spec;
      if snapshot.generation != 0 && snapshot.mode == spec.mode && snapshot.defaultMux == spec.defaultMux {
        return true;
      }
      if !hooks.servicesOk || hooks.netInterface == "" {
        return false;
      }
      if spec.mode == Native {
        ok := ConvergeNativeLocked(hooks);
        return;
      }
      ok := ConvergeQmapLocked(spec, hooks);
      if ok {
        return;
      }
      ok := ConvergeNativeLocked(hooks);
      if ok {
        snapshot := snapshot.(degraded := true);
      }
    }

    method ConvergeNativeLocked(hooks: TopologyHooks) returns (ok: bool)
      modifies this`snapshot, this`masterIface, this`muxIface
      ensures var next := ConvergeNative(old(Now()), hooks);
              (ok <==> next.Some?) && Now() == if ok then next.value else old(Now())
    {
      if !hooks.nativeFormatOk {
        return false;
      }
      masterIface, muxIface := hooks.netInterface, "";
      snapshot := Snapshot(snapshot.generation + 1, Native, hooks.netInterface, 0, false);
      ok := true;
    }

    method ConvergeQmapLocked(spec: Spec, hooks: TopologyHooks) returns (ok: bool)
      modifies this`snapshot, this`master, this`masterIface, this`muxIface
      ensures var next := ConvergeQmap(old(Now()), spec, hooks);
              (ok <==> next.Some?) && Now() == if ok then next.value else old(Now())
    {
      if !hooks.qmapFormatOk {
        return false;
      }
      var m := master;
      if m == "" {
        if hooks.discovered.None? {
          return false;
        }
        m := hooks.discovered.value.0;
        var existing := hooks.discovered.value.1;
        if existing != "" {
          master, masterIface, muxIface := m, m, existing;
          snapshot := Snapshot(snapshot.generation + 1, Qmap, existing, spec.defaultMux, false);
          return true;
        }
      }
      if hooks.addedMux.None? {
        return false;
      }
      master, masterIface, muxIface := m, m, hooks.addedMux.value;
      snapshot := Snapshot(snapshot.generation + 1, Qmap, hooks.addedMux.value, spec.defaultMux, false);
      ok := true;
    }

    // --------------------------------------------------------------- PDN sessions

    ghost method Record(e: Entry)
      requires Legal(ledger) && Allowed(Outstanding(ledger), e)
      modifies this`ledger
      ensures ledger == old(ledger) + [e] && Legal(ledger)
      ensures Outstanding(ledger) == After(old(Outstanding(ledger)), e)
    {
      Append(ledger, e);
      ledger := ledger + [e];
    }

    // The deferred rollback: stop, release and delete, as far as the call got.
    method Rollback(mux: Resource, lease: Option<Resource>, call: Option<Resource>)
      requires Legal(ledger)
      requires mux in Outstanding(ledger)
      requires lease.Some? ==> lease.value in Outstanding(ledger) && lease.value != mux
      requires call.Some? ==> call.value in Outstanding(ledger) && call.value != mux && call != lease
      modifies this`ledger
      ensures Legal(ledger)
      ensures ledger == old(ledger) + Releasing(call)
                                    + Releasing(lease) + [Release(mux)]
      ensures Outstanding(ledger) == old(Outstanding(ledger)) - {mux} - Held(lease) - Held(call)
    {
      hide Legal, Outstanding;
      if call.Some? {
        Record(Release(call.value));
      }
      if lease.Some? {
        Record(Release(lease.value));
      }
      Record(Release(mux));
    }

    // Asks for the lease, the binding and the call; obtained resources go on the ledger.
    method Establish(id: nat, req: PdnRequest, hooks: PdnHooks)
      returns (error: Option<PdnError>, lease: Option<Resource>, call: Option<Resource>)
      requires Legal(ledger)
      requires forall r <- Outstanding(ledger) :: r.session != id || r.Mux?
      modifies this`ledger
      ensures Legal(ledger)
      ensures var e := Establishing(req, hooks);
              error == e.error && lease == LeaseAt(id, hooks, e.stage) && call == CallAt(id, hooks, e.stage)
      ensures ledger == old(ledger) + Acquiring(lease)
                                    + Acquiring(call)
      ensures Outstanding(ledger) == old(Outstanding(ledger)) + Held(lease) + Held(call)
    {
      hide Legal, Outstanding;
      lease, call := None, None;
      if hooks.leased.Some? {
        lease := Some(Lease(id, hooks.leased.value));
        Record(Acquire(lease.value));
      }
      if !hooks.leaseOk {
        return Some(LeaseFailed), lease, call;
      }
      if !req.interfaceGiven && !hooks.endpointOk {
        return Some(NoEndpoint), lease, call;
      }
      if !hooks.bindOk {
        return Some(BindFailed), lease, call;
      }
      if hooks.started.None? {
        return Some(StartFailed), lease, call;
      }
      call := Some(Call(id, hooks.started.value));
      Record(Acquire(call.value));
      if !hooks.settings.SettingsRead? {
        return Some(SettingsFailed), lease, call;
      }
      if req.userspaceOnly && !hooks.isolateOk {
        return Some(IsolateFailed), lease, call;
      }
      if !hooks.interfaceUp {
        return Some(InterfaceDown), lease, call;
      }
      error := None;
    }

    // The part of OpenPDN between reserving the mux and dropping the reservation.
    method OpenReserved(id: nat, req: PdnRequest, hooks: PdnHooks) returns (error: Option<PdnError>, session: Session?)
      requires Valid() && 0 < id <= nextSessionID && id !in sessions
      modifies this`sessions, this`ledger
      ensures Valid()
      ensures error == Reserved(master, req, hooks).error
      ensures var rs := ReservedResources(id, master, req, hooks);
              && (error.None? ==>
                    && session != null && fresh(session) && session.id == id
                    && sessions == old(sessions)[id := session]
                    && session.generation == snapshot.generation
                    && session.Owned() == (set r | r in rs)
                    && ledger == old(ledger) + Acquires(rs))
              && (error.Some? ==>
                    && session == null && sessions == old(sessions)
                    && Outstanding(ledger) == old(Outstanding(ledger))
                    && ledger == old(ledger) + Acquires(rs) + Releases(rs))
    {
      hide Legal, Outstanding, OwnedBy, Acquires, Releases;
      Single(Mux(0, "", 0));
      assert ledger == ledger + [] + [];
      if !hooks.clientOk {
        return Some(NoClient), null;
      }
      if master == "" {
        return Some(TopologyNotReady), null;
      }
      if !hooks.masterUp {
        return Some(MasterDown), null;
      }
      if hooks.addedMux.None? {
        return Some(AddMuxFailed), null;
      }
      ghost var stage := Establishing(req, hooks).stage;
      LedgerOf(Mux(id, master, req.muxID), LeaseAt(id, hooks, stage), CallAt(id, hooks, stage));
      error, session := OpenMuxed(id, req, hooks);
    }

    // The part of OpenPDN from creating the mux on.
    method OpenMuxed(id: nat, req: PdnRequest, hooks: PdnHooks) returns (error: Option<PdnError>, session: Session?)
      requires Valid() && 0 < id <= nextSessionID && id !in sessions && hooks.addedMux.Some?
      modifies this`sessions, this`ledger
      ensures Valid()
      ensures var e := Establishing(req, hooks);
              var mux := Mux(id, master, req.muxID);
              var lease, call := LeaseAt(id, hooks, e.stage), CallAt(id, hooks, e.stage);
              && error == e.error
              && (error.None? ==>
                    && session != null && fresh(session) && session.id == id
                    && sessions == old(sessions)[id := session]
                    && session.generation == snapshot.generation
                    && session.Owned() == {mux} + Held(lease) + Held(call)
                    && ledger == old(ledger) + [Acquire(mux)] + Acquiring(lease) + Acquiring(call))
              && (error.Some? ==>
                    && session == null && sessions == old(sessions)
                    && Outstanding(ledger) == old(Outstanding(ledger))
                    && ledger == old(ledger) + [Acquire(mux)] + Acquiring(lease) + Acquiring(call)
                                 + Releasing(call) + Releasing(lease) + [Release(mux)])
    {
      hide Legal, Outstanding, OwnedBy, Acquiring, Releasing;
      OwnersAreListed(sessions);
      var mux := Mux(id, master, req.muxID);
      Record(Acquire(mux));
      var lease, call;
      error, lease, call := Establish(id, req, hooks);
      session := null;
      if error.Some? {
        Rollback(mux, lease, call);
      } else {
        session := Register(id, req, hooks);
      }
    }

    method Register(id: nat, req: PdnRequest, hooks: PdnHooks) returns (session: Session)
      requires forall id <- sessions :: sessions[id].id == id
      requires id !in sessions && hooks.addedMux.Some? && hooks.started.Some? && hooks.settings.SettingsRead?
      modifies this`sessions
      ensures fresh(session) && session.id == id && session.generation == snapshot.generation
      ensures session.Owned() == {Mux(id, master, req.muxID)} + Held(LeaseAt(id, hooks, 3)) + Held(CallAt(id, hooks, 3))
      ensures sessions == old(sessions)[id := session]
      ensures OwnedBy(sessions) == old(OwnedBy(sessions)) + session.Owned()
    {
      hide OwnedBy;
      session := new Session(id, snapshot.generation, hooks.addedMux.value, hooks.started.value,
                             hooks.settings.settings, master, req.muxID, hooks.leased);
      OwnedByOneMore(sessions, session);
      sessions := sessions[id := session];
    }

    // OpenPDN: either one fresh session that owns what was acquired, or no change to the session
    // map and everything acquired released once, in the reverse order.
    method Open(req: PdnRequest, hooks: PdnHooks) returns (error: Option<PdnError>, session: Session?)
      requires Valid()
      modifies this`nextSessionID, this`sessions, this`reserved, this`ledger
      ensures Valid()
      ensures reserved == old(reserved) && nextSessionID >= old(nextSessionID)
      ensures error == OpeningOf(snapshot, master, old(reserved), req, hooks).error
      ensures var id := old(nextSessionID) + 1;
              var rs := AcquiredBy(id, snapshot, master, old(reserved), req, hooks);
              && (error.None? ==>
                    && session != null && fresh(session) && session.id == id && id !in old(sessions)
                    && sessions == old(sessions)[id := session]
                    && session.generation == snapshot.generation
                    && session.Owned() == (set r | r in rs)
                    && ledger == old(ledger) + Acquires(rs))
              && (error.Some? ==>
                    && session == null && sessions == old(sessions)
                    && Outstanding(ledger) == old(Outstanding(ledger))
                    && ledger == old(ledger) + Acquires(rs) + Releases(rs))
    {
      hide Legal, Outstanding, OwnedBy, Acquires, Releases;
      Single(Mux(0, "", 0));
      assert ledger == ledger + [] + [];
      if snapshot.generation == 0 || snapshot.mode != Qmap {
        return Some(TopologyNotReady), null;
      }
      if req.muxID == 0 || req.muxID == snapshot.defaultMux {
        return Some(MuxConflict), null;
      }
      if req.muxID in reserved {
        return Some(MuxConflict), null;
      }
      nextSessionID := nextSessionID + 1;
      var id := nextSessionID;
      reserved := reserved[req.muxID := id];
      error, session := OpenReserved(id, req, hooks);
      reserved := reserved - {req.muxID};
    }

    // Close of a session: a second close does nothing, a session from another topology generation is
    // refused, and a live one gives back its call, its lease and its mux whatever the hooks answer.
    method Close(s: Session, hooks: CloseHooks) returns (result: CloseResult)
      requires Valid()
      modifies this`sessions, this`ledger
      ensures Valid()
      ensures result == (if s.id !in old(sessions) then Closed(true)
                         else if old(sessions)[s.id] != s || snapshot.generation != s.generation then Stale
                         else Closed(hooks.downOk && hooks.stopOk && hooks.releaseOk && hooks.deleteOk))
      ensures IsLive(s, snapshot, old(sessions)) ==>
                && sessions == old(sessions) - {s.id}
                && ledger == old(ledger) + Releases(ResourcesOf(s))
                && Outstanding(ledger) == old(Outstanding(ledger)) - s.Owned()
                && s.Owned() <= old(Outstanding(ledger))
      ensures !IsLive(s, snapshot, old(sessions)) ==> sessions == old(sessions) && ledger == old(ledger)
    {
      hide Legal, Outstanding, OwnedBy, Acquires, Releases;
      if s.id !in sessions {
        return Closed(true);
      }
      if sessions[s.id] != s || snapshot.generation != s.generation {
        return Stale;
      }
      OwnedByOneLess(sessions, s.id);
      sessions := sessions - {s.id};
      var mux, call := Mux(s.id, s.master, s.muxID), Call(s.id, s.handle);
      var lease := if s.wds.Some? then Some(Lease(s.id, s.wds.value)) else None;
      LedgerOf(mux, lease, Some(call));
      Rollback(mux, lease, Some(call));
      result := Closed(hooks.downOk && hooks.stopOk && hooks.releaseOk && hooks.deleteOk);
    }

    // closeManagedPDNSessions: exactly the sessions of the current generation are closed.
    method CloseAll(hooks: nat -> CloseHooks)
      requires Valid()
      modifies this`sessions, this`ledger
      ensures Valid()
      ensures forall id ::
                id in sessions <==> id in old(sessions) && old(sessions)[id].generation != snapshot.generation
      ensures forall id <- sessions :: sessions[id] == old(sessions)[id]
    {
      hide Legal, Outstanding, OwnedBy, Releases;
      var ids := sessions.Keys;
      var before := sessions;
      while ids != {}
        invariant Valid()
        invariant ids <= before.Keys
        invariant forall id ::
                    id in sessions <==>
                    id in before && (id in ids || before[id].generation != snapshot.generation)
        invariant forall id <- sessions :: sessions[id] == before[id]
        decreases |ids|
      {
        var id :| id in ids;
        var s := before[id];
        var _ := Close(s, hooks(id));
        ids := ids - {id};
      }
    }

    // The data-plane part of the manager's cleanup.
    method Cleanup(hooks: nat -> CloseHooks)
      requires Valid()
      modifies this`sessions, this`ledger, this`snapshot, this`master, this`masterIface, this`muxIface
      ensures Valid()
      ensures Now() == NO_PLANE
      ensures forall id ::
                id in sessions <==> id in old(sessions) && old(sessions)[id].generation != old(snapshot).generation
      ensures forall id <- sessions :: sessions[id] == old(sessions)[id]
    {
      hide Legal, Outstanding, OwnedBy;
      CloseAll(hooks);
      snapshot := NO_SNAPSHOT;
      master, masterIface, muxIface := "", "", "";
    }
  }

  // A life that strands a session, and a next one in which it is live again and can be closed.
  method StrandedSessionReturns(spec: Spec, topology: TopologyHooks, req: PdnRequest, hooks: PdnHooks,
                                closing: nat -> CloseHooks)
    returns (c: Controller, s: Session)
    requires spec.mode == Qmap && spec.defaultMux > 0
    requires topology.servicesOk && topology.netInterface != "" && topology.nativeFormatOk && topology.qmapFormatOk
    requires topology.discovered.Some? && topology.discovered.value.0 != "" && topology.addedMux.Some?
    requires req.muxID > 0 && req.muxID != spec.defaultMux
    requires hooks.clientOk && hooks.masterUp && hooks.addedMux.Some? && Establishing(req, hooks).error.None?
    ensures fresh(c) && fresh(s) && c.Valid() && c.snapshot.generation == 1
    ensures IsLive(s, c.snapshot, c.sessions) && s.Owned() <= Outstanding(c.ledger)
  {
    hide Outstanding, Legal, OwnedBy;
    c := new Controller();
    var ok := c.ConvergeLocked(spec, topology);
    assert c.snapshot.generation == 1 && c.snapshot.mode == Qmap && c.master != "";
    var error, opening := c.Open(req, hooks);
    assert error.None? && opening != null;
    s := opening;
    assert IsLive(s, c.snapshot, c.sessions);
    ok := c.ConvergeLocked(Spec(Native, 0), topology);
    assert c.snapshot.generation == 2 && !IsLive(s, c.snapshot, c.sessions);
    c.Cleanup(closing);
    assert c.sessions[s.id] == s && !IsLive(s, c.snapshot, c.sessions);
    ok := c.ConvergeLocked(spec, topology);
    StrandedSessionsReturnIff(spec, topology, s, c.sessions);
    OwnedByOneLess(c.sessions, s.id);
  }
}
