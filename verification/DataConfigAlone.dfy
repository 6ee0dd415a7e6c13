// A reconfiguration that nobody disturbs: running the sections of DataConfigProtocol.dfy one after the
// other, each with the answer it meets, is the transaction of DataConfig.dfy.

module DataConfigAlone {
  import opened Wrappers
  import opened DataConfig
  import opened DataConfigProtocol

  // The answer the section at `pc` meets.
  predicate Answer(pc: Pc, h: Hooks) {
    match pc
    case EntryCheck => h.ctx(0)
    case Checking => h.ctx(1)
    case RedialCheck => h.ctx(2)
    case LastCheck => h.ctx(2)
    case Preparing => h.ready
    case Dialling4 => h.grants4
    case Dialling6 => h.grants6
    case DialCheck => h.ctx(3)
    case _ => true
  }

  // The next n sections; there are none after the last.
  function Alone(s: Sys, h: Hooks, n: nat): Sys
    decreases n
  {
    if n == 0 || s.pc.Done? then s else Alone(NextSection(s, Answer(s.pc, h)), h, n - 1)
  }

  function Seen(s: Sys): Outcome {
    Outcome(s.f, s.result, s.calls)
  }

  // Whether the sections from s on end within n, with r to be seen.
  predicate EndsWith(s: Sys, h: Hooks, n: nat, r: Outcome) {
    var t := Alone(s, h, n);
    t.pc.Done? && Seen(t) == r
  }

  lemma OneSection(s: Sys, h: Hooks, n: nat, r: Outcome)
    requires n > 0 && !s.pc.Done? && EndsWith(NextSection(s, Answer(s.pc, h)), h, n - 1, r)
    ensures EndsWith(s, h, n, r)
  {
  }

  lemma FromClearing(s: Sys, h: Hooks, n: nat)
    requires s.pc.Clearing? && n >= 1
    ensures EndsWith(s, h, n, Ended(Seen(s)))
  {
    var t := NextSection(s, true);
    assert t.pc.Done? && Seen(t) == Ended(Seen(s));
    assert Alone(t, h, n - 1) == t;
  }

  lemma FromRestoring(s: Sys, h: Hooks, n: nat)
    requires s.pc.Restoring? && n >= 2
    ensures EndsWith(s, h, n, Ended(Outcome(Restore(s.f, s.previous, s.saved), s.result, s.calls)))
  {
    hide EndsWith, Ended, Restore;
    FromClearing(NextSection(s, true), h, n - 1);
    OneSection(s, h, n, Ended(Outcome(Restore(s.f, s.previous, s.saved), s.result, s.calls)));
  }

  // Restoring after a dial that left f, and after its last look at the context.
  function RolledBack(s: Sys, f: Fields, error: Error, calls: seq<Call>): Outcome {
    Ended(Outcome(Restore(HungUp(f), s.previous, s.saved), Some(error), calls))
  }

  function AfterDial(s: Sys, f: Fields, calls: seq<Call>, h: Hooks): Outcome {
    if h.ctx(3) then Ended(Outcome(f, None, calls)) else RolledBack(s, f, Canceled, calls)
  }

  // A dial from fields f.
  function AfterStart(s: Sys, f: Fields, calls: seq<Call>, h: Hooks): Outcome {
    if Dialable(f, h) then AfterDial(s, Dialled(f, h), calls + CallsMade(f, h), h)
    else RolledBack(s, Dialled(f, h), DialFailed, calls + CallsMade(f, h))
  }

  // Whether t was asked the same and found the same.
  predicate SameTask(s: Sys, t: Sys) {
    s.previous == t.previous && s.saved == t.saved && s.request == t.request && s.active == t.active
  }

  lemma FromHangingUpAgain(s: Sys, h: Hooks, n: nat)
    requires s.pc.HangingUpAgain? && s.result.Some? && n >= 4
    ensures EndsWith(s, h, n, RolledBack(s, s.f, s.result.value, s.calls))
  {
    hide EndsWith, Ended, Restore, HangUp, ResetState;
    var r := RolledBack(s, s.f, s.result.value, s.calls);
    var t := NextSection(s, true);
    FromRestoring(NextSection(t, true), h, n - 2);
    OneSection(t, h, n - 1, r);
    OneSection(s, h, n, r);
  }

  lemma FromDialCheck(s: Sys, h: Hooks, n: nat)
    requires s.pc.DialCheck? && n >= 5
    ensures EndsWith(s, h, n, AfterDial(s, s.f, s.calls, h))
  {
    hide EndsWith, Ended, Restore, HangUp, ResetState;
    var t := NextSection(s, h.ctx(3));
    if h.ctx(3) {
      FromClearing(t, h, n - 1);
    } else {
      FromHangingUpAgain(t, h, n - 1);
    }
    OneSection(s, h, n, AfterDial(s, s.f, s.calls, h));
  }

  // Outcomes depend on the task only.
  lemma SameOutcome(s: Sys, t: Sys, f: Fields, calls: seq<Call>, h: Hooks)
    requires SameTask(s, t)
    ensures AfterDial(s, f, calls, h) == AfterDial(t, f, calls, h)
    ensures AfterStart(s, f, calls, h) == AfterStart(t, f, calls, h)
    ensures RolledBack(s, f, DialFailed, calls) == RolledBack(t, f, DialFailed, calls)
  {
  }

  function WithIPv6(f: Fields, h: Hooks): Fields {
    f.(state := Connected, v6 := f.v6 || (f.config.ipv6 && f.wds6 && h.grants6))
  }

  function CallsIPv6(f: Fields): seq<Call> {
    if f.config.ipv6 && f.wds6 then [Call(IPv6, f.config.apn)] else []
  }

  lemma FromDialling6(s: Sys, h: Hooks, n: nat)
    requires s.pc.Dialling6? && n >= 6
    ensures EndsWith(s, h, n, AfterDial(s, WithIPv6(s.f, h), s.calls + CallsIPv6(s.f), h))
  {
    hide EndsWith, AfterDial, AfterStart, RolledBack;
    var t := NextSection(s, h.grants6);
    FromDialCheck(t, h, n - 1);
    SameOutcome(s, t, t.f, t.calls, h);
    assert s.calls + [] == s.calls;
    OneSection(s, h, n, AfterDial(s, t.f, t.calls, h));
  }

  // The IPv4 part of a dial, and what it leaves for the IPv6 part.
  lemma Dial4Granted(s: Sys, h: Hooks)
    requires h.ready && (s.f.wds4 || s.f.wds6) && Dialable(s.f, h)
    ensures var t := Dial4(s, h.grants4);
            && SameTask(s, t) && t.pc.Dialling6?
            && WithIPv6(t.f, h) == Dialled(s.f, h)
            && t.calls + CallsIPv6(t.f) == s.calls + CallsMade(s.f, h)
  {
    var t := Dial4(s, h.grants4);
    var c := Call(IPv4, s.f.config.apn);
    assert s.calls + [c] + CallsIPv6(t.f) == s.calls + ([c] + CallsIPv6(t.f));
    assert s.calls + CallsIPv6(s.f) == s.calls + ([] + CallsIPv6(s.f));
  }

  lemma Dial4Refused(s: Sys, h: Hooks)
    requires h.ready && (s.f.wds4 || s.f.wds6) && !Dialable(s.f, h)
    ensures var t := Dial4(s, h.grants4);
            && SameTask(s, t) && t.pc.HangingUpAgain? && t.result == Some(DialFailed)
            && t.f == Dialled(s.f, h) && t.calls == s.calls + CallsMade(s.f, h)
  {
    assert CallsMade(s.f, h) == [Call(IPv4, s.f.config.apn)];
  }

  lemma FromDialling4(s: Sys, h: Hooks, n: nat)
    requires s.pc.Dialling4? && n >= 7 && h.ready && (s.f.wds4 || s.f.wds6)
    ensures EndsWith(s, h, n, AfterStart(s, s.f, s.calls, h))
  {
    hide EndsWith, AfterDial, RolledBack, WithIPv6, CallsIPv6, Dialled, CallsMade, Dialable, Dial4;
    var t := NextSection(s, h.grants4);
    assert t == Dial4(s, h.grants4);
    if Dialable(s.f, h) {
      Dial4Granted(s, h);
      FromDialling6(t, h, n - 1);
    } else {
      Dial4Refused(s, h);
      FromHangingUpAgain(t, h, n - 1);
    }
    SameOutcome(s, t, Dialled(s.f, h), s.calls + CallsMade(s.f, h), h);
    OneSection(s, h, n, AfterStart(s, s.f, s.calls, h));
  }

  lemma FromPreparing(s: Sys, h: Hooks, n: nat)
    requires s.pc.Preparing? && n >= 8
    ensures EndsWith(s, h, n, AfterStart(s, s.f, s.calls, h))
  {
    hide EndsWith, AfterDial, RolledBack;
    var t := NextSection(s, h.ready);
    if h.ready && (s.f.wds4 || s.f.wds6) {
      FromDialling4(t, h, n - 1);
      SameOutcome(s, t, t.f, t.calls, h);
    } else {
      FromHangingUpAgain(t, h, n - 1);
      assert s.calls + CallsMade(s.f, h) == s.calls;
      SameOutcome(s, t, t.f, t.calls, h);
    }
    OneSection(s, h, n, AfterStart(s, s.f, s.calls, h));
  }

  lemma FromStarting(s: Sys, h: Hooks, n: nat)
    requires s.pc.Starting? && s.f.desired && s.f.state == Disconnected && n >= 9
    ensures EndsWith(s, h, n, AfterStart(s, s.f, s.calls, h))
  {
    hide EndsWith, AfterStart;
    var t := NextSection(s, true);
    FromPreparing(t, h, n - 1);
    StartingDoesNotMatter(s, t, h);
    OneSection(s, h, n, AfterStart(s, s.f, s.calls, h));
  }

  lemma StartingDoesNotMatter(s: Sys, t: Sys, h: Hooks)
    requires t == s.(f := s.f.(state := Connecting), pc := t.pc)
    ensures AfterStart(s, s.f, s.calls, h) == AfterStart(t, t.f, t.calls, h)
  {
    hide RolledBack, Ended, CallsMade;
    assert CallsMade(s.f, h) == CallsMade(t.f, h) by {
      CallsIgnoreState(s.f, h);
    }
    assert Dialled(s.f, h) == Dialled(t.f, h);
    SameOutcome(s, t, Dialled(s.f, h), s.calls + CallsMade(s.f, h), h);
  }

  lemma CallsIgnoreState(f: Fields, h: Hooks)
    ensures CallsMade(f, h) == CallsMade(f.(state := Connecting), h)
  {
  }

  lemma FromRedialCheck(s: Sys, h: Hooks, n: nat)
    requires s.pc.RedialCheck? && s.saved && !s.f.desired && s.f.state == Disconnected && s.calls == [] && n >= 11
    ensures EndsWith(s, h, n, Ended(Redialled(s.f, s.previous, h)))
  {
    hide EndsWith, AfterStart, Redialled;
    RedialIsStart(s, h);
    var t := NextSection(s, h.ctx(2));
    if h.ctx(2) {
      var u := NextSection(t, true);
      FromStarting(u, h, n - 2);
      SameOutcome(s, u, u.f, u.calls, h);
      OneSection(t, h, n - 1, AfterStart(s, u.f, [], h));
      OneSection(s, h, n, AfterStart(s, u.f, [], h));
    } else {
      FromRestoring(t, h, n - 1);
      OneSection(s, h, n, Ended(Outcome(Restore(s.f, s.previous, true), Some(Canceled), [])));
    }
  }

  lemma RedialIsStart(s: Sys, h: Hooks)
    requires s.saved
    ensures if h.ctx(2) then Ended(Redialled(s.f, s.previous, h)) == AfterStart(s, s.f.(desired := true), [], h)
            else Redialled(s.f, s.previous, h) == Outcome(Restore(s.f, s.previous, true), Some(Canceled), [])
  {
    hide CallsMade, Dialled, HungUp, Restore, Dialable;
    var g := s.f.(desired := true);
    assert [] + CallsMade(g, h) == CallsMade(g, h);
  }

  lemma FromLastCheck(s: Sys, h: Hooks, n: nat)
    requires s.pc.LastCheck? && s.calls == [] && n >= 3
    ensures EndsWith(s, h, n, Ended(if h.ctx(2) then Outcome(s.f, None, [])
                                    else Outcome(Restore(s.f, s.previous, s.saved), Some(Canceled), [])))
  {
    hide EndsWith, Ended, Restore;
    var t := NextSection(s, h.ctx(2));
    if h.ctx(2) {
      FromClearing(t, h, n - 1);
    } else {
      FromRestoring(t, h, n - 1);
    }
    OneSection(s, h, n, Ended(if h.ctx(2) then Outcome(s.f, None, [])
                              else Outcome(Restore(s.f, s.previous, s.saved), Some(Canceled), [])));
  }

  // What a reconfiguration has found when it reaches the update.
  predicate AtUpdate(s: Sys) {
    && s.previous == s.f.config && s.calls == [] && s.f.state != Stopping
    && s.f.desired == (s.saved && !s.active) && (s.active ==> s.f.state == Disconnected)
  }

  lemma FromApplying(s: Sys, h: Hooks, n: nat)
    requires s.pc.Applying? && AtUpdate(s) && h.ctx(1) && n >= 12
    ensures EndsWith(s, h, n, Updated(s.f, s.request, s.saved, s.active && s.saved, h))
  {
    hide EndsWith, Ended, Redialled;
    var t := NextSection(s, true);
    if s.active && s.saved {
      FromRedialCheck(t, h, n - 1);
    } else {
      FromLastCheck(t, h, n - 1);
      assert Restore(t.f, s.previous, s.saved) == s.f.(desired := s.saved);
    }
    OneSection(s, h, n, Updated(s.f, s.request, s.saved, s.active && s.saved, h));
  }

  lemma FromChecking(s: Sys, h: Hooks, n: nat)
    requires s.pc.Checking? && AtUpdate(s) && n >= 13
    ensures EndsWith(s, h, n, Updated(s.f, s.request, s.saved, s.active && s.saved, h))
  {
    hide EndsWith, Redialled;
    var t := NextSection(s, h.ctx(1));
    var r := Updated(s.f, s.request, s.saved, s.active && s.saved, h);
    if h.ctx(1) {
      hide Updated;
      FromApplying(t, h, n - 1);
    } else {
      var u := NextSection(t, true);
      FromClearing(u, h, n - 2);
      assert Ended(Seen(u)) == r;
      OneSection(t, h, n - 1, r);
    }
    OneSection(s, h, n, r);
  }

  lemma FromMarking(s: Sys, h: Hooks, n: nat)
    requires s.pc.Marking? && AtUpdate(s) && !s.active && n >= 14
    ensures EndsWith(s, h, n, Updated(s.f.(reconfiguring := true), s.request, s.saved, false, h))
  {
    hide EndsWith, Updated;
    FromChecking(NextSection(s, true), h, n - 1);
    OneSection(s, h, n, Updated(s.f.(reconfiguring := true), s.request, s.saved, false, h));
  }

  lemma FromSuspending(s: Sys, h: Hooks, n: nat)
    requires s.pc.Suspending? && s.active && s.previous == s.f.config && s.calls == [] && n >= 16
    ensures var f := HungUp(s.f.(desired := false, reconfiguring := true));
            EndsWith(s, h, n, Updated(f, s.request, s.saved, s.saved, h))
  {
    hide EndsWith, Updated;
    var t := NextSection(s, true);
    var u := NextSection(t, true);
    var v := NextSection(u, true);
    FromChecking(v, h, n - 3);
    var r := Updated(v.f, s.request, s.saved, s.saved, h);
    OneSection(u, h, n - 2, r);
    OneSection(t, h, n - 1, r);
    OneSection(s, h, n, r);
  }

  // Undisturbed, at most 17 sections after the first the reconfiguration is over, and its fields, its
  // result and its calls are those of the transaction.
  lemma AloneIsTheTransaction(s: Sys, request: Config, h: Hooks)
    requires s.pc.Idle? || s.pc.Done?
    requires !s.f.reconfiguring
    ensures var t := Alone(BeginSection(s, request), h, 17);
            t.pc.Done? && Outcome(t.f, t.result, t.calls) == Reconfigured(s.f, request, h)
  {
    hide Updated;
    var t := BeginSection(s, request);
    if t.pc.Marking? {
      FromMarking(t, h, 17);
    } else if t.pc.EntryCheck? {
      var u := NextSection(t, h.ctx(0));
      if h.ctx(0) {
        FromSuspending(u, h, 16);
      }
      assert Alone(t, h, 17) == Alone(u, h, 16);
    }
  }

  // So it succeeds exactly when the transaction gets through, with the request in force.
  lemma AloneSucceedsExactlyWhen(s: Sys, request: Config, h: Hooks)
    requires s.pc.Idle? || s.pc.Done?
    requires !s.f.reconfiguring
    ensures var t := Alone(BeginSection(s, request), h, 17);
            t.pc.Done? && AllOrNothing(s.f, request, h, t.f, t.result)
  {
    hide Alone, BeginSection, Reconfigured, AllOrNothing;
    AloneIsTheTransaction(s, request, h);
    ReconfiguresAllOrNothing(s.f, request, h);
  }
}
