// Changing the data configuration of a running manager (ReconfigureDataConfig of
// pkg/manager/data_config.go) when nobody interferes: disconnect, update, redial, with rollback.
// What others may do meanwhile is studied in DataConfigProtocol.dfy, over the same functions.

module DataConfig {
  import opened Wrappers

  datatype Config = Config(apn: string, ipv4: bool, ipv6: bool)

  datatype State = Disconnected | Connecting | Connected | Stopping

  datatype Error = InvalidConfig | ManagerStopping | Canceled | DialFailed

  // The manager fields the transaction reads and writes. `v4` and `v6` are whether a data call of the
  // family is on record, `wds4` and `wds6` whether its service is there.
  datatype Fields = Fields(
    config: Config,
    desired: bool,
    state: State,
    v4: bool,
    v6: bool,
    wds4: bool,
    wds6: bool,
    reconfiguring: bool)

  // A request for a data call, as the modem sees it.
  datatype Family = IPv4 | IPv6
  datatype Call = Call(family: Family, apn: string)

  predicate Valid(c: Config) {
    c.ipv4 || c.ipv6
  }

  predicate Active(f: Fields) {
    f.state == Connected || f.state == Connecting || f.v4 || f.v6
  }

  // A handle is dropped only where its service is there to hang up.
  function HangUp(f: Fields): Fields {
    f.(v4 := f.v4 && !f.wds4, v6 := f.v6 && !f.wds6)
  }

  function ResetState(f: Fields): Fields {
    f.(state := Disconnected)
  }

  function Restore(f: Fields, previous: Config, wanted: bool): Fields {
    f.(config := previous, desired := wanted)
  }

  // What the locked start of a dial decides.
  datatype DialStart = NothingToDo | InProgress | Dials

  function StartDial(f: Fields): DialStart {
    if !f.desired || f.state == Connected || f.state == Stopping then NothingToDo
    else if f.state == Connecting && f.v4 then InProgress
    else Dials
  }

  predicate UsesOnly(c: Call, request: Config) {
    && c.apn == request.apn
    && (c.family.IPv4? ==> request.ipv4)
    && (c.family.IPv6? ==> request.ipv6)
  }

  // Answers met on the way: the context before the disconnect, after it, before and after the dial;
  // whether the data plane is ready; and whether the modem grants each call.
  datatype Hooks = Hooks(ctx: nat -> bool, ready: bool, grants4: bool, grants6: bool)

  // A dial that starts gets through unless the data plane is not ready, no service is there or an IPv4
  // call asked for is refused; a refused IPv6 call does not count.
  predicate Dialable(f: Fields, hooks: Hooks) {
    hooks.ready && (f.wds4 || f.wds6) && (f.config.ipv4 ==> f.wds4 && hooks.grants4)
  }

  // The calls of a dial, the refused ones included.
  function CallsMade(f: Fields, hooks: Hooks): seq<Call> {
    if !hooks.ready || (!f.wds4 && !f.wds6) then []
    else
      (if f.config.ipv4 then [Call(IPv4, f.config.apn)] else [])
      + (if f.config.ipv6 && f.wds6 && (f.config.ipv4 ==> f.wds4 && hooks.grants4)
         then [Call(IPv6, f.config.apn)] else [])
  }

  function Dialled(f: Fields, hooks: Hooks): Fields {
    if Dialable(f, hooks)
    then f.(state := Connected, v4 := f.v4 || f.config.ipv4, v6 := f.v6 || (f.config.ipv6 && f.wds6 && hooks.grants6))
    else f.(state := Disconnected)
  }

  function HungUp(f: Fields): Fields {
    ResetState(HangUp(f))
  }

  // How the fields stand at the end, the error returned, and the calls made on the way.
  datatype Outcome = Outcome(f: Fields, error: Option<Error>, calls: seq<Call>)

  // The dial and its rollback, on fields that were hung up and hold the request.
  function Redialled(f: Fields, previous: Config, hooks: Hooks): Outcome {
    var g := f.(desired := true);
    if !hooks.ctx(2) then Outcome(Restore(f, previous, true), Some(Canceled), [])
    else if !Dialable(g, hooks) then
      Outcome(Restore(HungUp(Dialled(g, hooks)), previous, true), Some(DialFailed), CallsMade(g, hooks))
    else if !hooks.ctx(3) then
      Outcome(Restore(HungUp(Dialled(g, hooks)), previous, true), Some(Canceled), CallsMade(g, hooks))
    else Outcome(Dialled(g, hooks), None, CallsMade(g, hooks))
  }

  // The deferred section.
  function Ended(r: Outcome): Outcome {
    r.(f := r.f.(reconfiguring := false))
  }

  // The part after the disconnect, with the deferred section. Undisturbed, its own test for a stop
  // does not fire.
  function Updated(f: Fields, request: Config, wanted: bool, redial: bool, hooks: Hooks): Outcome {
    if !hooks.ctx(1) then Ended(Outcome(f.(desired := wanted), Some(Canceled), []))
    else if redial then Ended(Redialled(f.(config := request), f.config, hooks))
    else if !hooks.ctx(2) then Ended(Outcome(f.(desired := wanted), Some(Canceled), []))
    else Ended(Outcome(f.(config := request), None, []))
  }

  // The transaction.
  function Reconfigured(f: Fields, request: Config, hooks: Hooks): Outcome {
    if !Valid(request) then Outcome(f, Some(InvalidConfig), [])
    else if f.state == Stopping then Outcome(f, Some(ManagerStopping), [])
    else if f.config == request then Outcome(f, None, [])
    else if !Active(f) then Updated(f.(reconfiguring := true), request, f.desired, false, hooks)
    else if !hooks.ctx(0) then Outcome(f, Some(Canceled), [])
    else Updated(HungUp(f.(desired := false, reconfiguring := true)), request, f.desired, f.desired, hooks)
  }

  // ------------------------------------------------------------------ the parts

  // The redial succeeds or fails as its answers say, and all fields but the handles are as they should.
  lemma RedialResult(f: Fields, previous: Config, hooks: Hooks)
    ensures var r := Redialled(f, previous, hooks);
            && (r.error.None? <==> hooks.ctx(2) && Dialable(f, hooks) && hooks.ctx(3))
            && (r.error == Some(DialFailed) <==> hooks.ctx(2) && !Dialable(f, hooks))
            && (r.error.Some? ==> r.error == Some(DialFailed) || r.error == Some(Canceled))
            && (if r.error.None? then r.calls == CallsMade(f, hooks) else r.calls in {[], CallsMade(f, hooks)})
  {
    hide CallsMade, HangUp;
    assert CallsMade(f.(desired := true), hooks) == CallsMade(f, hooks) by {
      SameCalls(f, hooks);
    }
  }

  lemma SameCalls(f: Fields, hooks: Hooks)
    ensures CallsMade(f.(desired := true), hooks) == CallsMade(f, hooks)
  {
  }

  lemma RedialConfig(f: Fields, previous: Config, hooks: Hooks)
    ensures var r := Redialled(f, previous, hooks);
            && r.f.config == (if r.error.None? then f.config else previous) && r.f.desired
            && r.f.reconfiguring == f.reconfiguring && r.f.wds4 == f.wds4 && r.f.wds6 == f.wds6
  {
    hide CallsMade, Dialable;
  }

  lemma RedialHandles(f: Fields, previous: Config, hooks: Hooks)
    requires f.state == Disconnected && (f.v4 ==> !f.wds4) && (f.v6 ==> !f.wds6)
    ensures var r := Redialled(f, previous, hooks);
            if r.error.None? then
              && r.f.state == Connected
              && (r.f.v4 <==> f.v4 || f.config.ipv4)
              && (r.f.v6 <==> f.v6 || (f.config.ipv6 && f.wds6 && hooks.grants6))
            else
              r.f.state == Disconnected && r.f.v4 == f.v4 && r.f.v6 == f.v6
  {
    hide CallsMade;
  }

  lemma CallsOfADial(f: Fields, hooks: Hooks)
    ensures forall c <- CallsMade(f, hooks) :: UsesOnly(c, f.config)
    ensures Dialable(f, hooks) ==>
              && (f.config.ipv4 <==> Call(IPv4, f.config.apn) in CallsMade(f, hooks))
              && (f.config.ipv6 && f.wds6 <==> Call(IPv6, f.config.apn) in CallsMade(f, hooks))
  {
  }

  // What a transaction leaves of the fields besides state and handles.
  predicate Leaves(t: Fields, f: Fields, config: Config, wanted: bool) {
    t.config == config && t.desired == wanted && t.wds4 == f.wds4 && t.wds6 == f.wds6
  }

  lemma UpdateConfig(f: Fields, request: Config, wanted: bool, redial: bool, hooks: Hooks)
    requires if redial then wanted else f.desired == wanted
    ensures var r := Updated(f, request, wanted, redial, hooks);
            Leaves(r.f, f, if r.error.None? then request else f.config, wanted) && !r.f.reconfiguring
  {
    hide Redialled, Ended, Leaves;
    if !hooks.ctx(1) {
      EndedLeaves(Outcome(f.(desired := wanted), Some(Canceled), []), f, f.config, wanted);
    } else if redial {
      var r := Redialled(f.(config := request), f.config, hooks);
      RedialConfig(f.(config := request), f.config, hooks);
      EndedLeaves(r, f, if r.error.None? then request else f.config, wanted);
    } else if !hooks.ctx(2) {
      EndedLeaves(Outcome(f.(desired := wanted), Some(Canceled), []), f, f.config, wanted);
    } else {
      EndedLeaves(Outcome(f.(config := request), None, []), f, request, wanted);
    }
  }

  lemma EndedLeaves(r: Outcome, f: Fields, config: Config, wanted: bool)
    requires r.f.config == config && r.f.desired == wanted && r.f.wds4 == f.wds4 && r.f.wds6 == f.wds6
    ensures Leaves(Ended(r).f, f, config, wanted) && !Ended(r).f.reconfiguring
    ensures Ended(r).error == r.error && Ended(r).calls == r.calls
  {
  }

  // ------------------------------------------------------------------ the transaction, undisturbed

  // A transaction gets through when nothing changes or the context lasts and, for a connection that was
  // up and wanted, the data plane is ready, a service is there and an IPv4 call asked for is granted.
  predicate GetsThrough(f: Fields, request: Config, hooks: Hooks) {
    && (request.ipv4 || request.ipv6) && f.state != Stopping
    && (request != f.config ==>
          && hooks.ctx(1) && hooks.ctx(2)
          && (f.state == Connected || f.state == Connecting || f.v4 || f.v6 ==>
                && hooks.ctx(0)
                && (f.desired ==>
                      && hooks.ready && (f.wds4 || f.wds6) && (request.ipv4 ==> f.wds4 && hooks.grants4)
                      && hooks.ctx(3))))
  }

  // It fails as the dial when one is reached and does not get through.
  predicate DialFails(f: Fields, request: Config, hooks: Hooks) {
    && (request.ipv4 || request.ipv6) && f.state != Stopping && request != f.config && f.desired
    && (f.state == Connected || f.state == Connecting || f.v4 || f.v6)
    && hooks.ctx(0) && hooks.ctx(1) && hooks.ctx(2)
    && !(hooks.ready && (f.wds4 || f.wds6) && (request.ipv4 ==> f.wds4 && hooks.grants4))
  }

  lemma SucceedsExactlyWhen(f: Fields, request: Config, hooks: Hooks)
    ensures Reconfigured(f, request, hooks).error.None? <==> GetsThrough(f, request, hooks)
  {
    hide Redialled;
    RedialResult(HungUp(f.(desired := false, reconfiguring := true)).(config := request), f.config, hooks);
  }

  // An invalid request and a stop have their own errors; whatever is not the dial's is the context's.
  lemma FailsAs(f: Fields, request: Config, hooks: Hooks)
    ensures var e := Reconfigured(f, request, hooks).error;
            && (e == Some(InvalidConfig) <==> !request.ipv4 && !request.ipv6)
            && (e == Some(ManagerStopping) <==> (request.ipv4 || request.ipv6) && f.state == Stopping)
            && (e == Some(DialFailed) <==> DialFails(f, request, hooks))
  {
    hide Redialled, Restore;
    RedialResult(HungUp(f.(desired := false, reconfiguring := true)).(config := request), f.config, hooks);
  }

  // All or nothing, from fields f to fields t: success exactly when the transaction gets through, the
  // request in force exactly then, the error as it should be, the connection desired as before in any
  // case, the services kept, and the flag down again.
  predicate AllOrNothing(f: Fields, request: Config, hooks: Hooks, t: Fields, error: Option<Error>) {
    && (error.None? <==> GetsThrough(f, request, hooks))
    && (error == Some(DialFailed) <==> DialFails(f, request, hooks))
    && (error == Some(InvalidConfig) <==> !request.ipv4 && !request.ipv6)
    && (error == Some(ManagerStopping) <==> (request.ipv4 || request.ipv6) && f.state == Stopping)
    && Leaves(t, f, if error.None? then request else f.config, f.desired) && !t.reconfiguring
  }

  lemma ReconfiguresAllOrNothing(f: Fields, request: Config, hooks: Hooks)
    requires !f.reconfiguring
    ensures var r := Reconfigured(f, request, hooks); AllOrNothing(f, request, hooks, r.f, r.error)
  {
    hide Reconfigured, Leaves, GetsThrough, DialFails;
    SucceedsExactlyWhen(f, request, hooks);
    FailsAs(f, request, hooks);
    LeavesTheRest(f, request, hooks);
  }

  lemma LeavesTheRest(f: Fields, request: Config, hooks: Hooks)
    requires !f.reconfiguring
    ensures var r := Reconfigured(f, request, hooks);
            Leaves(r.f, f, if r.error.None? then request else f.config, f.desired) && !r.f.reconfiguring
  {
    hide Updated;
    UpdateConfig(f.(reconfiguring := true), request, f.desired, false, hooks);
    UpdateConfig(HungUp(f.(desired := false, reconfiguring := true)), request, f.desired, f.desired, hooks);
  }

  // A connection that was up and wanted is up again under the request; one that was not wanted, or
  // whose redial failed, is down, except for handles whose service is missing.
  lemma ConnectionAfterwards(f: Fields, request: Config, hooks: Hooks)
    requires Active(f) && f.config != request
    ensures var r := Reconfigured(f, request, hooks);
            && (r.error.None? && f.desired ==>
                  && r.f.state == Connected
                  && (r.f.v4 <==> request.ipv4 || (f.v4 && !f.wds4))
                  && (r.f.v6 <==> (request.ipv6 && f.wds6 && hooks.grants6) || (f.v6 && !f.wds6)))
            && ((r.error.None? && !f.desired) || r.error == Some(DialFailed)
                || (r.error == Some(Canceled) && hooks.ctx(0)) ==>
                  && r.f.state == Disconnected
                  && (r.f.v4 <==> f.v4 && !f.wds4) && (r.f.v6 <==> f.v6 && !f.wds6))
  {
    hide Redialled;
    var g := HungUp(f.(desired := false, reconfiguring := true)).(config := request);
    RedialHandles(g, f.config, hooks);
  }

  // Calls are made for a connection that was up and wanted only, use the APN and the families of the
  // request, and on success are all it asks for.
  lemma CallsUseTheRequest(f: Fields, request: Config, hooks: Hooks)
    ensures var r := Reconfigured(f, request, hooks);
            && (forall c <- r.calls :: UsesOnly(c, request))
            && (r.calls != [] ==> Active(f) && f.desired && f.config != request)
            && (r.error.None? && Active(f) && f.desired && f.config != request ==>
                  && (request.ipv4 <==> Call(IPv4, request.apn) in r.calls)
                  && (request.ipv6 && f.wds6 <==> Call(IPv6, request.apn) in r.calls))
  {
    hide Redialled, CallsMade, UsesOnly, Active;
    var g := HungUp(f.(desired := false, reconfiguring := true)).(config := request);
    RedialResult(g, f.config, hooks);
    CallsOfADial(g, hooks);
  }

  class DataManager {
    var config: Config
    var desired: bool
    var state: State
    var v4: bool
    var v6: bool
    var wds4: bool
    var wds6: bool
    var reconfiguring: bool
    ghost var calls: seq<Call>

    ghost function View(): Fields
      reads this
    {
      Fields(config, desired, state, v4, v6, wds4, wds6, reconfiguring)
    }

    method DoDisconnect()
      modifies this`v4, this`v6, this`state
      ensures View() == ResetState(HangUp(old(View())))
    {
      if v4 && wds4 {
        v4 := false;
      }
      if v6 && wds6 {
        v6 := false;
      }
      state := Disconnected;
    }

    method DoConnect(hooks: Hooks) returns (ok: bool)
      modifies this`v4, this`v6, this`state, this`calls
      ensures StartDial(old(View())).NothingToDo? ==> ok && View() == old(View()) && calls == old(calls)
      ensures StartDial(old(View())).InProgress? ==> !ok && View() == old(View()) && calls == old(calls)
      ensures StartDial(old(View())).Dials? ==>
                && ok == Dialable(old(View()), hooks)
                && View() == Dialled(old(View()), hooks) && calls == old(calls) + CallsMade(old(View()), hooks)
    {
      if !desired || state == Connected || state == Stopping {
        return true;
      }
      if state == Connecting && v4 {
        return false;
      }
      state := Connecting;
      if !hooks.ready || (!wds4 && !wds6) {
        state := Disconnected;
        return false;
      }
      if config.ipv4 {
        calls := calls + [Call(IPv4, config.apn)];
        if !wds4 || !hooks.grants4 {
          state := Disconnected;
          return false;
        }
        v4 := true;
      }
      if config.ipv6 && wds6 {
        calls := calls + [Call(IPv6, config.apn)];
        if hooks.grants6 {
          v6 := true;
        }
      }
      state := Connected;
      ok := true;
    }

    // The dial and its rollback.
    method Redial(previous: Config, hooks: Hooks) returns (error: Option<Error>)
      requires !desired && state == Disconnected
      modifies this`config, this`desired, this`v4, this`v6, this`state, this`calls
      ensures var r := Redialled(old(View()), previous, hooks);
              View() == r.f && error == r.error && calls == old(calls) + r.calls
    {
      if !hooks.ctx(2) {
        config, desired := previous, true;
        return Some(Canceled);
      }
      desired := true;
      var ok := DoConnect(hooks);
      if !ok {
        DoDisconnect();
        config, desired := previous, true;
        return Some(DialFailed);
      }
      if !hooks.ctx(3) {
        DoDisconnect();
        config, desired := previous, true;
        return Some(Canceled);
      }
      error := None;
    }

    method Update(request: Config, wanted: bool, redial: bool, hooks: Hooks) returns (error: Option<Error>)
      requires redial ==> !desired && state == Disconnected
      modifies this`config, this`desired, this`v4, this`v6, this`state, this`calls, this`reconfiguring
      ensures var r := Updated(old(View()), request, wanted, redial, hooks);
              View() == r.f && error == r.error && calls == old(calls) + r.calls
    {
      hide Redialled;
      var previous := config;
      if !hooks.ctx(1) {
        desired := wanted;
        reconfiguring := false;
        return Some(Canceled);
      }
      config := request;
      if redial {
        error := Redial(previous, hooks);
      } else if !hooks.ctx(2) {
        config, desired := previous, wanted;
        error := Some(Canceled);
      } else {
        error := None;
      }
      reconfiguring := false;
    }

    method Reconfigure(request: Config, hooks: Hooks) returns (error: Option<Error>)
      requires !reconfiguring
      modifies this
      ensures var r := Reconfigured(old(View()), request, hooks);
              View() == r.f && error == r.error && calls == old(calls) + r.calls
      ensures AllOrNothing(old(View()), request, hooks, View(), error)
    {
      hide Updated, AllOrNothing;
      ReconfiguresAllOrNothing(View(), request, hooks);
      if !request.ipv4 && !request.ipv6 {
        return Some(InvalidConfig);
      }
      if state == Stopping {
        return Some(ManagerStopping);
      }
      var changed, wanted := config != request, desired;
      var active := state == Connected || state == Connecting || v4 || v6;
      if !changed {
        return None;
      }
      if active {
        if !hooks.ctx(0) {
          return Some(Canceled);
        }
        reconfiguring := true;
        desired := false;
        DoDisconnect();
      } else {
        reconfiguring := true;
      }
      error := Update(request, wanted, active && wanted, hooks);
    }
  }
}
