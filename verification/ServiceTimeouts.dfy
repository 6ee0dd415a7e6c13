// Service timeouts that lead to recovery: the storm detector of
// pkg/manager/service_recovery_storm.go and the per-operation windows of recordServiceTimeoutFailure
// in pkg/manager/service_recovery.go. Times are in milliseconds and never decrease.

module ServiceTimeouts {
  import opened Wrappers

  const STORM_WINDOW: nat := 5_000
  const STORM_COOLDOWN: nat := 30_000

  // ------------------------------------------------------------------ storms

  datatype Storm = Storm(seen: map<string, nat>, stormAt: Option<nat>)

  const CALM := Storm(map[], None)

  function Pruned(seen: map<string, nat>, now: nat): map<string, nat> {
    map service | service in seen && now - seen[service] <= STORM_WINDOW :: seen[service]
  }

  predicate CooledDown(stormAt: Option<nat>, now: nat) {
    stormAt.None? || now - stormAt.value > STORM_COOLDOWN
  }

  // The detector after a timeout, and whether it asks for a recovery.
  function Detect(s: Storm, service: string, now: nat): (Storm, bool) {
    var seen := Pruned(s.seen, now)[service := now];
    if |seen| >= 2 && CooledDown(s.stormAt, now) then (Storm(map[], Some(now)), true)
    else (s.(seen := seen), false)
  }

  class StormDetector {
    var seen: map<string, nat>
    var stormAt: Option<nat>

    ghost function View(): Storm
      reads this
    {
      Storm(seen, stormAt)
    }

    constructor ()
      ensures View() == CALM
    {
      seen, stormAt := map[], None;
    }

    // detectTimeoutStorm; Go prunes the map while ranging over it, in any order.
    method TimedOut(service: string, now: nat) returns (storm: bool)
      modifies this
      ensures (View(), storm) == Detect(old(View()), service, now)
    {
      var pending := seen.Keys;
      while pending != {}
        invariant pending <= seen.Keys
        invariant forall k :: k in seen <==> k in old(seen) && (k in pending || now - old(seen)[k] <= STORM_WINDOW)
        invariant forall k <- seen :: seen[k] == old(seen)[k]
        invariant stormAt == old(stormAt)
        decreases |pending|
      {
        var k :| k in pending;
        pending := pending - {k};
        if now - seen[k] > STORM_WINDOW {
          seen := seen - {k};
        }
      }
      assert seen == Pruned(old(seen), now);
      seen := seen[service := now];
      storm := false;
      if |seen| >= 2 {
        if stormAt.None? || now - stormAt.value > STORM_COOLDOWN {
          stormAt := Some(now);
          seen := map[];
          storm := true;
        }
      }
    }
  }

  // A timeout of a service.
  datatype Timeout = Timeout(service: string, time: nat)

  function StormAfter(h: seq<Timeout>): Storm {
    if h == [] then CALM
    else Detect(StormAfter(h[..|h| - 1]), h[|h| - 1].service, h[|h| - 1].time).0
  }

  // Whether the last timeout of a history raised the alarm.
  predicate Alarms(h: seq<Timeout>)
    requires h != []
  {
    Detect(StormAfter(h[..|h| - 1]), h[|h| - 1].service, h[|h| - 1].time).1
  }

  // The number of timeouts up to and including the last alarm.
  function LastAlarm(h: seq<Timeout>): (n: nat)
    ensures n <= |h|
  {
    if h == [] then 0 else if Alarms(h) then |h| else LastAlarm(h[..|h| - 1])
  }

  ghost predicate Ordered(h: seq<Timeout>) {
    forall i, j | 0 <= i <= j < |h| :: h[i].time <= h[j].time
  }

  // The remembered time of a service is that of one of its timeouts since the last alarm, ...
  ghost predicate SeenAt(s: Storm, h: seq<Timeout>, since: nat, k: string) {
    k in s.seen ==> exists i :: since <= i < |h| && h[i] == Timeout(k, s.seen[k])
  }

  // ... and no recent timeout since then is newer than what is remembered.
  ghost predicate KeptAt(s: Storm, h: seq<Timeout>, since: nat, i: nat) {
    since <= i < |h| && h[|h| - 1].time - h[i].time <= STORM_WINDOW ==>
      h[i].service in s.seen && h[i].time <= s.seen[h[i].service]
  }

  ghost predicate Remembers(s: Storm, h: seq<Timeout>, since: nat) {
    && (forall k :: SeenAt(s, h, since, k))
    && (forall i: nat :: KeptAt(s, h, since, i))
    && (since == 0 ==> s.stormAt.None?)
    && (0 < since <= |h| ==> s.stormAt == Some(h[since - 1].time))
  }

  lemma SeenStep(s: Storm, h: seq<Timeout>, e: Timeout, since: nat, k: string)
    requires SeenAt(s, h, since, k) && since <= |h|
    ensures var (t, alarm) := Detect(s, e.service, e.time);
            SeenAt(t, h + [e], if alarm then |h| + 1 else since, k)
  {
    var g := h + [e];
    var (t, alarm) := Detect(s, e.service, e.time);
    if !alarm && k == e.service {
      assert g[|h|] == Timeout(k, t.seen[k]);
    } else if !alarm && k in t.seen {
      var i :| since <= i < |h| && h[i] == Timeout(k, s.seen[k]);
      assert g[i] == Timeout(k, t.seen[k]);
    }
  }

  lemma KeptStep(s: Storm, h: seq<Timeout>, e: Timeout, since: nat, i: nat)
    requires KeptAt(s, h, since, i) && since <= |h|
    requires h != [] ==> h[|h| - 1].time <= e.time
    requires i < |h| ==> h[i].time <= e.time
    ensures var (t, alarm) := Detect(s, e.service, e.time);
            KeptAt(t, h + [e], if alarm then |h| + 1 else since, i)
  {
    var g := h + [e];
    assert i < |h| ==> g[i] == h[i];
  }

  lemma RememberStep(s: Storm, h: seq<Timeout>, e: Timeout, since: nat)
    requires Remembers(s, h, since) && since <= |h| && Ordered(h + [e])
    ensures var (t, alarm) := Detect(s, e.service, e.time);
            Remembers(t, h + [e], if alarm then |h| + 1 else since)
  {
    hide SeenAt, KeptAt, Pruned;
    var g := h + [e];
    var (t, alarm) := Detect(s, e.service, e.time);
    var next := if alarm then |h| + 1 else since;
    assert h != [] ==> h[|h| - 1].time <= e.time by {
      assert h != [] ==> g[|h| - 1].time <= g[|h|].time;
    }
    forall k
      ensures SeenAt(t, g, next, k)
    {
      SeenStep(s, h, e, since, k);
    }
    forall i: nat
      ensures KeptAt(t, g, next, i)
    {
      assert i < |h| ==> g[i].time <= g[|h|].time;
      KeptStep(s, h, e, since, i);
    }
  }

  lemma {:induction false} DetectorRemembers(h: seq<Timeout>)
    requires Ordered(h)
    ensures Remembers(StormAfter(h), h, LastAlarm(h))
  {
    hide Remembers, Detect, Ordered;
    if h == [] {
      RemembersNothing();
    } else {
      var front, e := h[..|h| - 1], h[|h| - 1];
      OrderedFront(h);
      DetectorRemembers(front);
      assert h == front + [e];
      RememberStep(StormAfter(front), front, e, LastAlarm(front));
    }
  }

  lemma RemembersNothing()
    ensures Remembers(CALM, [], 0)
  {
  }

  lemma OrderedFront(h: seq<Timeout>)
    requires Ordered(h) && h != []
    ensures Ordered(h[..|h| - 1])
  {
  }

  lemma TwoServices(seen: map<string, nat>, service: string)
    requires service in seen
    ensures |seen| >= 2 <==> exists k :: k in seen && k != service
  {
    var others := seen.Keys - {service};
    assert seen.Keys == others + {service};
    if others != {} {
      var k :| k in others;
      assert k in seen && k != service;
    }
  }

  // The alarm goes off exactly when some other service timed out at most five seconds ago and after
  // the last alarm, and the last alarm is more than thirty seconds old.
  lemma AlarmsExactlyWhen(h: seq<Timeout>)
    requires h != [] && Ordered(h)
    ensures var front, e := h[..|h| - 1], h[|h| - 1]; var since := LastAlarm(front);
            Alarms(h) <==>
              && (exists i :: since <= i < |front| &&
                    front[i].service != e.service && e.time - front[i].time <= STORM_WINDOW)
              && (since == 0 || e.time - front[since - 1].time > STORM_COOLDOWN)
  {
    hide StormAfter, LastAlarm, Ordered, Remembers, Pruned;
    var front, e := h[..|h| - 1], h[|h| - 1];
    OrderedFront(h);
    DetectorRemembers(front);
    LastStep(h);
    OthersRemembered(StormAfter(front), front, e, LastAlarm(front));
    AlarmTimes(StormAfter(front), front, LastAlarm(front));
  }

  lemma LastStep(h: seq<Timeout>)
    requires h != [] && Ordered(h)
    ensures |h| > 1 ==> h[|h| - 2].time <= h[|h| - 1].time
  {
  }

  lemma AlarmTimes(s: Storm, h: seq<Timeout>, since: nat)
    requires Remembers(s, h, since) && since <= |h|
    ensures s.stormAt == if since == 0 then None else Some(h[since - 1].time)
  {
  }

  // The map shows a second service exactly when another one timed out recently.
  lemma OthersRemembered(s: Storm, h: seq<Timeout>, e: Timeout, since: nat)
    requires Remembers(s, h, since) && since <= |h|
    requires h != [] ==> h[|h| - 1].time <= e.time
    ensures |Pruned(s.seen, e.time)[e.service := e.time]| >= 2 <==>
              exists i :: since <= i < |h| && h[i].service != e.service && e.time - h[i].time <= STORM_WINDOW
  {
    hide SeenAt, KeptAt;
    var seen := Pruned(s.seen, e.time)[e.service := e.time];
    TwoServices(seen, e.service);
    if |seen| >= 2 {
      var k :| k in seen && k != e.service;
      SeenWitness(s, h, since, k, e);
    }
    if i :| since <= i < |h| && h[i].service != e.service && e.time - h[i].time <= STORM_WINDOW {
      KeptWitness(s, h, since, i, e);
      assert h[i].service in seen;
    }
  }

  lemma SeenWitness(s: Storm, h: seq<Timeout>, since: nat, k: string, e: Timeout)
    requires SeenAt(s, h, since, k) && k in s.seen && k != e.service && e.time - s.seen[k] <= STORM_WINDOW
    ensures exists i :: since <= i < |h| && h[i].service != e.service && e.time - h[i].time <= STORM_WINDOW
  {
    var i :| since <= i < |h| && h[i] == Timeout(k, s.seen[k]);
    assert h[i].service != e.service;
  }

  lemma KeptWitness(s: Storm, h: seq<Timeout>, since: nat, i: nat, e: Timeout)
    requires since <= i < |h| && KeptAt(s, h, since, i) && h[|h| - 1].time <= e.time
    requires e.time - h[i].time <= STORM_WINDOW
    ensures h[i].service in s.seen && h[i].service in Pruned(s.seen, e.time)
  {
  }

  // Two alarms are always more than the cooldown apart.
  lemma AlarmsAreRare(h: seq<Timeout>, i: nat, j: nat)
    requires Ordered(h) && 0 < i < j <= |h| && Alarms(h[..i]) && Alarms(h[..j])
    ensures h[j - 1].time - h[i - 1].time > STORM_COOLDOWN
  {
    hide Alarms, Detect;
    var g := h[..j];
    assert Ordered(g);
    AlarmsExactlyWhen(g);
    var front := g[..j - 1];
    assert front[..i] == h[..i];
    AlarmRemembered(front, i);
    var since := LastAlarm(front);
    assert front[since - 1].time == h[since - 1].time >= h[i - 1].time;
  }

  lemma {:induction false} AlarmRemembered(h: seq<Timeout>, i: nat)
    requires 0 < i <= |h| && Alarms(h[..i])
    ensures LastAlarm(h) >= i
  {
    hide Alarms;
    assert h[..|h|] == h;
    if i < |h| {
      var front := h[..|h| - 1];
      assert front[..i] == h[..i];
      AlarmRemembered(front, i);
    }
  }

  // ------------------------------------------------------------------ windows of one operation

  datatype WindowState = WindowState(first: nat, count: nat)

  // A timeout at `now` in a window that is restarted when it is over.
  function Count(s: Option<WindowState>, now: nat, window: nat): WindowState {
    if s.None? || now - s.value.first > window then WindowState(now, 1)
    else s.value.(count := s.value.count + 1)
  }

  class OperationTimeouts {
    const threshold: nat
    const window: nat
    var state: Option<WindowState>

    constructor (threshold: int, window: int)
      ensures this.threshold == (if threshold <= 0 then 5 else threshold)
      ensures this.window == (if window <= 0 then 600_000 else window)
      ensures state.None?
    {
      this.threshold := if threshold <= 0 then 5 else threshold;
      this.window := if window <= 0 then 600_000 else window;
      state := None;
    }

    method TimedOut(now: nat) returns (reached: bool)
      modifies this
      ensures state == Some(Count(old(state), now, window))
      ensures reached <==> state.value.count >= threshold
    {
      var s := if state.Some? then state.value else WindowState(now, 0);
      if now - s.first > window {
        s := WindowState(now, 0);
      }
      s := s.(count := s.count + 1);
      state := Some(s);
      reached := s.count >= threshold;
    }

    method Succeeded()
      modifies this
      ensures state.None?
    {
      state := None;
    }
  }

  // The state after timeouts at the given times, with no success between them.
  function CountAfter(times: seq<nat>, window: nat): Option<WindowState> {
    if times == [] then None
    else Some(Count(CountAfter(times[..|times| - 1], window), times[|times| - 1], window))
  }

  predicate Increasing(times: seq<nat>) {
    forall i, j | 0 <= i <= j < |times| :: times[i] <= times[j]
  }

  // The count is that of the newest timeouts, all within one window of each other.
  lemma {:induction false} CountIsRecent(times: seq<nat>, window: nat)
    requires Increasing(times) && times != []
    ensures CountAfter(times, window).Some?
    ensures var s := CountAfter(times, window).value;
            && 1 <= s.count <= |times|
            && s.first == times[|times| - s.count]
            && times[|times| - 1] - s.first <= window
  {
    var front := times[..|times| - 1];
    if front != [] {
      CountIsRecent(front, window);
    }
  }

  // While the window lasts the count goes on.
  lemma {:induction false} StillCounting(times: seq<nat>, window: nat, m: nat, last: nat, c: nat)
    requires Increasing(times) && 0 < m <= last <= |times|
    requires CountAfter(times[..m], window).value.count == c && c <= m
    requires times[last - 1] - CountAfter(times[..m], window).value.first <= window
    ensures CountAfter(times[..last], window).Some?
    ensures CountAfter(times[..last], window).value ==
            WindowState(CountAfter(times[..m], window).value.first, c + (last - m))
  {
    if m < last {
      StillCounting(times, window, m, last - 1, c);
      assert times[..last][..last - 1] == times[..last - 1];
    }
  }

  // ------------------------------------------------------------------ how large a burst is noticed

  // The n timeouts from index `start` on lie within one window.
  predicate IsBurst(times: seq<nat>, start: nat, n: nat, window: nat) {
    Increasing(times) && 0 < n && start + n <= |times| && times[start + n - 1] - times[start] <= window
  }

  // One of them takes the count to k.
  ghost predicate Noticed(times: seq<nat>, start: nat, n: nat, window: nat, k: nat)
    requires start + n <= |times|
  {
    exists m :: start < m <= start + n && CountReaches(times, window, m, k)
  }

  predicate CountReaches(times: seq<nat>, window: nat, m: nat, k: nat)
    requires m <= |times|
  {
    var s := CountAfter(times[..m], window);
    s.Some? && s.value.count >= k
  }

  // Every burst of n timeouts, in whatever history, is noticed.
  ghost predicate Suffices(n: nat, window: nat, k: nat) {
    forall times: seq<nat>, start: nat | IsBurst(times, start, n, window) :: Noticed(times, start, n, window, k)
  }

  function NeededBurst(k: nat): nat {
    if k <= 1 then 1 else 2 * k - 2
  }

  lemma LargeBurstsAreNoticed(times: seq<nat>, start: nat, n: nat, window: nat, k: nat)
    requires k > 0 && n >= NeededBurst(k) && IsBurst(times, start, n, window)
    ensures Noticed(times, start, n, window, k)
  {
    hide CountAfter, Increasing;
    var m := if k == 1 then start + 1 else start + k - 1;
    PrefixIncreases(times, m);
    CountIsRecent(times[..m], window);
    var s := CountAfter(times[..m], window).value;
    if s.count >= k {
      assert CountReaches(times, window, m, k);
    } else {
      // The window in force began inside the burst, so it is not over before the end of it.
      var last := start + n;
      FirstInBurst(times, start, m, last, s.count);
      StillCounting(times, window, m, last, s.count);
      assert CountReaches(times, window, last, k);
    }
  }

  lemma PrefixIncreases(times: seq<nat>, m: nat)
    requires Increasing(times) && m <= |times|
    ensures Increasing(times[..m])
  {
  }

  lemma FirstInBurst(times: seq<nat>, start: nat, m: nat, last: nat, count: nat)
    requires Increasing(times) && 0 < count <= m - start && m <= last <= |times|
    ensures times[last - 1] - times[..m][m - count] <= times[last - 1] - times[start]
  {
  }

  // One timeout, then k - 2 more within its window, and k - 1 just after it.
  function Straddling(k: nat, window: nat): (times: seq<nat>)
    requires k >= 2 && window > 0
    ensures |times| == 2 * k - 2
  {
    seq(2 * k - 2, i requires 0 <= i < 2 * k - 2 => if i == 0 then 0 else if i < k - 1 then 1 else window + 1)
  }

  lemma {:induction false} StraddlingStaysBelow(k: nat, window: nat, m: nat)
    requires k >= 2 && window > 0 && 0 < m <= 2 * k - 2
    ensures CountAfter(Straddling(k, window)[..m], window)
         == Some(if m < k then WindowState(0, m) else WindowState(window + 1, m - (k - 1)))
  {
    var times := Straddling(k, window);
    assert times[..m][..m - 1] == times[..m - 1];
    if m == 1 {
      assert times[..0] == [];
    } else {
      StraddlingStaysBelow(k, window, m - 1);
    }
  }

  lemma SmallBurstsCanBeMissed(n: nat, window: nat, k: nat)
    requires k > 0 && window > 0 && 0 < n < NeededBurst(k)
    ensures !Suffices(n, window, k)
  {
    var times := Straddling(k, window);
    var start: nat := |times| - n;
    assert IsBurst(times, start, n, window);
    forall m | start < m <= start + n
      ensures !CountReaches(times, window, m, k)
    {
      StraddlingStaysBelow(k, window, m);
    }
  }

  // A burst of n timeouts within a window is certain to take the count to the threshold k exactly when
  // n is at least 2k - 2, or 1 for k = 1. So k of them suffice for thresholds up to 2 only: the window
  // does not slide.
  lemma BurstsAreNoticedIff(n: nat, window: nat, k: nat)
    requires k > 0 && window > 0 && n > 0
    ensures Suffices(n, window, k) <==> n >= NeededBurst(k)
    ensures Suffices(k, window, k) <==> k <= 2
  {
    hide IsBurst, Noticed, Suffices;
    DecideBurst(n, window, k);
    DecideBurst(k, window, k);
  }

  lemma DecideBurst(n: nat, window: nat, k: nat)
    requires k > 0 && window > 0 && n > 0
    ensures Suffices(n, window, k) <==> n >= NeededBurst(k)
  {
    hide Noticed;
    if n >= NeededBurst(k) {
      forall times: seq<nat>, start: nat | IsBurst(times, start, n, window)
        ensures Noticed(times, start, n, window, k)
      {
        LargeBurstsAreNoticed(times, start, n, window, k);
      }
    } else {
      SmallBurstsCanBeMissed(n, window, k);
    }
  }
}
