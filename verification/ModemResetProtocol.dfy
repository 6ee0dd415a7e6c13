// Enqueuing goroutines, retry timers and event loops running side by side. The manager starts one
// event loop; what does not depend on that is proved for any number.

module ModemResetProtocol {
  import opened ModemReset
  import opened Wrappers

  // One reset on its way: an enqueue call and the timers it leads to.
  datatype Task =
    | Entered(now: nat)      // counted in resetEvents, clock read
    | Sending                // about to send
    | Full                   // the queue was full
    | Scheduling             // about to schedule the first timer
    | Timer                  // the first timer is running
    | Fired                  // it fired
    | SendingAgain
    | StillFull
    | SchedulingRetry        // about to schedule the second timer
    | RetryTimer
    | RetryFired
    | Retrying               // about to call enqueue once more
    | Sent                   // its event was put on the queue
    | Merged                 // it was counted as coalesced
    | Discarded(first: bool) // its timer was stopped, or ignored after the manager's context ended

  datatype Loop =
    | Waiting
    | Taken                  // received a reset event
    | Recovering
    | Reissuing              // about to enqueue again

  datatype QueueItem = ResetItem | OtherItem

  // `arrived` is whether a reset was absorbed since the current recovery started; `owing` and
  // `reissued` count the recoveries that ended with a reset pending and the calls made for them.
  datatype Sys = Sys(
    flags: Flags,
    now: nat,
    window: nat,
    capacity: nat,
    queue: seq<QueueItem>,
    tasks: map<nat, Task>,
    loops: map<nat, Loop>,
    active: Option<nat>,
    resetEvents: nat,
    puts: nat,
    skips: nat,
    arrived: bool,
    owing: nat,
    reissued: nat,
    deferrer: nat)

  datatype Action =
    | Tick
    | PutOther
    | Call(t: nat)
    | Section(t: nat)
    | Send(t: nat)
    | Defer(t: nat)
    | Schedule(t: nat)
    | Fire(t: nat)
    | FireLock(t: nat)
    | SendAgain(t: nat)
    | StillFullLock(t: nat)
    | ScheduleRetry(t: nat)
    | FireRetry(t: nat)
    | RetryLock(t: nat)
    | CallAgain(t: nat)
    | Discard(t: nat)
    | TakeOther(l: nat)
    | TakeReset(l: nat)
    | Start(l: nat)
    | End(l: nat)
    | Reissue(l: nat, t: nat)

  predicate TaskAt(s: Sys, t: nat, pc: Task) {
    t in s.tasks && s.tasks[t] == pc
  }

  predicate LoopAt(s: Sys, l: nat, pc: Loop) {
    l in s.loops && s.loops[l] == pc
  }

  predicate Enabled(s: Sys, a: Action) {
    match a
    case Tick => true
    case PutOther => |s.queue| < s.capacity
    case Call(t) => t !in s.tasks
    case Section(t) => t in s.tasks && s.tasks[t].Entered?
    case Send(t) => TaskAt(s, t, Sending)
    case Defer(t) => TaskAt(s, t, Full)
    case Schedule(t) => TaskAt(s, t, Scheduling)
    case Fire(t) => TaskAt(s, t, Timer)
    case FireLock(t) => TaskAt(s, t, Fired)
    case SendAgain(t) => TaskAt(s, t, SendingAgain)
    case StillFullLock(t) => TaskAt(s, t, StillFull)
    case ScheduleRetry(t) => TaskAt(s, t, SchedulingRetry)
    case FireRetry(t) => TaskAt(s, t, RetryTimer)
    case RetryLock(t) => TaskAt(s, t, RetryFired)
    case CallAgain(t) => TaskAt(s, t, Retrying)
    case Discard(t) => TaskAt(s, t, Timer) || TaskAt(s, t, RetryTimer)
    case TakeOther(l) => LoopAt(s, l, Waiting) && s.queue != [] && s.queue[0].OtherItem?
    case TakeReset(l) => LoopAt(s, l, Waiting) && s.queue != [] && s.queue[0].ResetItem?
    case Start(l) => LoopAt(s, l, Taken)
    case End(l) => LoopAt(s, l, Recovering)
    case Reissue(l, t) => LoopAt(s, l, Reissuing) && t !in s.tasks
  }

  function MoveTask(s: Sys, t: nat, pc: Task): Sys {
    s.(tasks := s.tasks[t := pc])
  }

  function MoveLoop(s: Sys, l: nat, pc: Loop): Sys {
    s.(loops := s.loops[l := pc])
  }

  function EnterCall(s: Sys, t: nat): Sys {
    MoveTask(s.(resetEvents := s.resetEvents + 1), t, Entered(s.now))
  }

  // A non-blocking send of a reset event.
  function TrySend(s: Sys, t: nat, full: Task): Sys {
    if |s.queue| < s.capacity then MoveTask(s.(queue := s.queue + [ResetItem], puts := s.puts + 1), t, Sent)
    else MoveTask(s, t, full)
  }

  function Apply(s: Sys, a: Action): Sys
    requires Enabled(s, a)
  {
    match a
    case Tick => s.(now := s.now + 1)
    case PutOther => s.(queue := s.queue + [OtherItem])
    case Call(t) => EnterCall(s, t)
    case Section(t) =>
      var (f, send) := EnqueueSection(s.flags, s.tasks[t].now, s.window);
      MoveTask(s.(flags := f, arrived := s.arrived || s.flags.recovering), t, if send then Sending else Merged)
    case Send(t) => TrySend(s, t, Full)
    case Defer(t) =>
      var (f, schedule) := DeferSection(s.flags);
      MoveTask(s.(flags := f, deferrer := if schedule then t else s.deferrer), t,
               if schedule then Scheduling else Merged)
    case Schedule(t) => MoveTask(s, t, Timer)
    case Fire(t) => MoveTask(s, t, Fired)
    case FireLock(t) =>
      var (f, send) := FireSection(s.flags, s.now);
      MoveTask(s.(flags := f, arrived := s.arrived || s.flags.recovering), t, if send then SendingAgain else Merged)
    case SendAgain(t) => TrySend(s, t, StillFull)
    case StillFullLock(t) => MoveTask(s.(flags := StillFullSection(s.flags), deferrer := t), t, SchedulingRetry)
    case ScheduleRetry(t) => MoveTask(s, t, RetryTimer)
    case FireRetry(t) => MoveTask(s, t, RetryFired)
    case RetryLock(t) => MoveTask(s.(flags := RetrySection(s.flags)), t, Retrying)
    case CallAgain(t) => EnterCall(s, t)
    case Discard(t) => MoveTask(s, t, Discarded(s.tasks[t].Timer?))
    case TakeOther(l) => s.(queue := s.queue[1..])
    case TakeReset(l) => MoveLoop(s.(queue := s.queue[1..]), l, Taken)
    case Start(l) =>
      var (f, recover) := StartSection(s.flags);
      if recover then MoveLoop(s.(flags := f, active := Some(l), arrived := false), l, Recovering)
      else MoveLoop(s.(flags := f, skips := s.skips + 1, arrived := true), l, Waiting)
    case End(l) =>
      var (f, again) := EndSection(s.flags);
      MoveLoop(s.(flags := f, active := None, arrived := false, owing := if again then s.owing + 1 else s.owing), l,
               if again then Reissuing else Waiting)
    case Reissue(l, t) => EnterCall(MoveLoop(s.(reissued := s.reissued + 1), l, Waiting), t)
  }

  ghost predicate Initial(s: Sys) {
    && s.flags == CLEAR && s.queue == [] && s.tasks == map[] && s.active.None?
    && (forall l <- s.loops :: s.loops[l].Waiting?)
    && s.resetEvents == 0 && s.puts == 0 && s.skips == 0 && !s.arrived && s.owing == 0 && s.reissued == 0
  }

  ghost predicate IsRun(states: seq<Sys>, actions: seq<Action>) {
    && |states| == |actions| + 1
    && Initial(states[0])
    && forall i | 0 <= i < |actions| :: Enabled(states[i], actions[i]) && states[i + 1] == Apply(states[i], actions[i])
  }

  // ------------------------------------------------------------------ the invariant

  // Counted in resetEvents and neither put nor coalesced yet: in flight, waiting for its first
  // timer, or lost with it.
  predicate Unsettled(t: Task) {
    t.Entered? || t.Sending? || t.Full? || t.Scheduling? || t.Timer? || t.Fired? || t.SendingAgain? || t.StillFull?
    || (t.Discarded? && t.first)
  }

  function UnsettledTasks(tasks: map<nat, Task>): set<nat> {
    set t | t in tasks && Unsettled(tasks[t])
  }

  // Every reset was put, coalesced, or is unsettled; the handler's own skips are coalesced as well.
  ghost predicate Accounted(s: Sys) {
    s.resetEvents + s.skips == s.flags.coalesced + s.puts + |UnsettledTasks(s.tasks)|
  }

  // The flag is up exactly while one loop recovers.
  ghost predicate OneRecovery(s: Sys) {
    && (s.flags.recovering <==> s.active.Some?)
    && (forall l <- s.loops :: s.loops[l].Recovering? <==> s.active == Some(l))
    && (s.active.Some? ==> s.active.value in s.loops)
  }

  // A reset absorbed by a recovery stays pending until the recovery ends.
  ghost predicate PendingKept(s: Sys) {
    s.flags.recovering && s.arrived ==> s.flags.pending
  }

  function ReissuingLoops(loops: map<nat, Loop>): set<nat> {
    set l | l in loops && loops[l].Reissuing?
  }

  // One enqueue call per recovery that ended with a reset pending.
  ghost predicate ReissuedOnce(s: Sys) {
    s.owing == s.reissued + |ReissuingLoops(s.loops)|
  }

  // The deferred flag belongs to a task with a timer, unless that timer was discarded.
  predicate Defers(t: Task) {
    t.Scheduling? || t.Timer? || t.Fired? || t.SchedulingRetry? || t.RetryTimer? || t.RetryFired? || t.Discarded?
  }

  ghost predicate DeferredJustified(s: Sys) {
    s.flags.deferred ==> s.deferrer in s.tasks && Defers(s.tasks[s.deferrer])
  }

  ghost predicate Inv(s: Sys) {
    Accounted(s) && OneRecovery(s) && PendingKept(s) && ReissuedOnce(s) && DeferredJustified(s)
  }

  // ------------------------------------------------------------------ preservation, part by part

  function One(b: bool): nat {
    if b then 1 else 0
  }

  predicate UnsettledAt(tasks: map<nat, Task>, t: nat) {
    t in tasks && Unsettled(tasks[t])
  }

  lemma UnsettledSetAfterMove(tasks: map<nat, Task>, t: nat, pc: Task)
    ensures t in UnsettledTasks(tasks) <==> UnsettledAt(tasks, t)
    ensures UnsettledTasks(tasks[t := pc])
         == if Unsettled(pc) then UnsettledTasks(tasks) + {t} else UnsettledTasks(tasks) - {t}
  {
    hide Unsettled;
  }

  lemma UnsettledAfterMove(tasks: map<nat, Task>, t: nat, pc: Task)
    ensures |UnsettledTasks(tasks[t := pc])|
         == |UnsettledTasks(tasks)| - One(UnsettledAt(tasks, t)) + One(Unsettled(pc))
  {
    hide Unsettled, UnsettledTasks, UnsettledAt;
    UnsettledSetAfterMove(tasks, t, pc);
  }

  lemma ReissuingAfterMove(loops: map<nat, Loop>, l: nat, pc: Loop)
    requires l in loops
    ensures var before, after := ReissuingLoops(loops), ReissuingLoops(loops[l := pc]);
            |after| == |before| - (if loops[l].Reissuing? then 1 else 0) + (if pc.Reissuing? then 1 else 0)
  {
    var before, after := ReissuingLoops(loops), ReissuingLoops(loops[l := pc]);
    assert after == before - {l} + (if pc.Reissuing? then {l} else {});
  }

  predicate TaskAction(a: Action) {
    !a.Tick? && !a.PutOther? && !a.TakeOther? && !a.TakeReset? && !a.Start? && !a.End?
  }

  // A step of an enqueue settles its task exactly when it puts or coalesces the event.
  lemma TaskStepBalances(s: Sys, a: Action)
    requires Enabled(s, a) && TaskAction(a)
    ensures a.t in Apply(s, a).tasks && Apply(s, a).tasks == s.tasks[a.t := Apply(s, a).tasks[a.t]]
    ensures Apply(s, a).skips == s.skips
    ensures var n := Apply(s, a);
            n.resetEvents - n.flags.coalesced - n.puts - One(Unsettled(n.tasks[a.t]))
              == s.resetEvents - s.flags.coalesced - s.puts - One(UnsettledAt(s.tasks, a.t))
  {
  }

  lemma KeepsAccount(s: Sys, a: Action)
    requires Accounted(s) && Enabled(s, a)
    ensures Accounted(Apply(s, a))
  {
    hide UnsettledTasks, Unsettled, UnsettledAt;
    if TaskAction(a) {
      hide Apply, Enabled, One;
      TaskStepBalances(s, a);
      UnsettledAfterMove(s.tasks, a.t, Apply(s, a).tasks[a.t]);
    }
  }

  // The steps of an enqueue do not start or end a recovery.
  lemma TasksLeaveLoopsAlone(s: Sys, a: Action)
    requires Enabled(s, a) && TaskAction(a) && !a.Reissue?
    ensures var n := Apply(s, a);
            n.loops == s.loops && n.active == s.active && n.flags.recovering == s.flags.recovering
  {
  }

  lemma KeepsOneRecovery(s: Sys, a: Action)
    requires OneRecovery(s) && Enabled(s, a)
    ensures OneRecovery(Apply(s, a))
  {
    if TaskAction(a) && !a.Reissue? {
      hide Apply, Enabled;
      TasksLeaveLoopsAlone(s, a);
    }
  }

  lemma KeepsPending(s: Sys, a: Action)
    requires PendingKept(s) && Enabled(s, a)
    ensures PendingKept(Apply(s, a))
  {
  }

  lemma KeepsReissued(s: Sys, a: Action)
    requires ReissuedOnce(s) && Enabled(s, a)
    ensures ReissuedOnce(Apply(s, a))
  {
    hide ReissuingLoops;
    var n := Apply(s, a);
    if a.TakeReset? || a.Start? || a.End? || a.Reissue? {
      ReissuingAfterMove(s.loops, a.l, n.loops[a.l]);
      assert n.loops == s.loops[a.l := n.loops[a.l]];
    }
  }

  lemma KeepsDeferred(s: Sys, a: Action)
    requires DeferredJustified(s) && Enabled(s, a)
    ensures DeferredJustified(Apply(s, a))
  {
  }

  lemma StepPreserves(s: Sys, a: Action)
    requires Inv(s) && Enabled(s, a)
    ensures Inv(Apply(s, a))
  {
    hide Accounted, OneRecovery, PendingKept, ReissuedOnce, DeferredJustified, Apply, Enabled;
    KeepsAccount(s, a);
    KeepsOneRecovery(s, a);
    KeepsPending(s, a);
    KeepsReissued(s, a);
    KeepsDeferred(s, a);
  }

  lemma {:induction false} RunsAreSafe(states: seq<Sys>, actions: seq<Action>, i: nat)
    requires IsRun(states, actions) && i < |states|
    ensures Inv(states[i])
  {
    if i > 0 {
      RunsAreSafe(states, actions, i - 1);
      StepPreserves(states[i - 1], actions[i - 1]);
    }
  }

  // ------------------------------------------------------------------ what holds of every run

  // However many event loops take reset events, at most one recovers.
  lemma OneRecoveryAtATime(states: seq<Sys>, actions: seq<Action>, i: nat, l: nat, m: nat)
    requires IsRun(states, actions) && i < |states|
    requires LoopAt(states[i], l, Recovering) && LoopAt(states[i], m, Recovering)
    ensures l == m
  {
    RunsAreSafe(states, actions, i);
  }

  // With the one loop the manager starts, the handler never meets a recovery under way.
  lemma {:induction false} TheOnlyLoopNeverSkips(states: seq<Sys>, actions: seq<Action>, i: nat, l: nat)
    requires IsRun(states, actions) && i < |states| && states[0].loops.Keys == {l}
    ensures states[i].skips == 0 && states[i].loops.Keys == {l}
  {
    if i > 0 {
      TheOnlyLoopNeverSkips(states, actions, i - 1, l);
      RunsAreSafe(states, actions, i - 1);
      OnlyLoopStep(states[i - 1], actions[i - 1], l);
    }
  }

  lemma OnlyLoopStep(s: Sys, a: Action, l: nat)
    requires OneRecovery(s) && Enabled(s, a) && s.loops.Keys == {l} && s.skips == 0
    ensures Apply(s, a).skips == 0 && Apply(s, a).loops.Keys == {l}
  {
    if TaskAction(a) && !a.Reissue? {
      TaskStepBalances(s, a);
      TasksLeaveLoopsAlone(s, a);
    } else if a.Start? {
      assert !s.loops[a.l].Recovering?;
    }
  }

  // Every reset was put on the queue, coalesced, or is on its way, counting as on its way what waits
  // for a first timer and what was lost with a discarded one.
  lemma ResetsAreAccounted(states: seq<Sys>, actions: seq<Action>, i: nat, l: nat)
    requires IsRun(states, actions) && i < |states| && states[0].loops.Keys == {l}
    ensures var s := states[i]; s.resetEvents == s.flags.coalesced + s.puts + |UnsettledTasks(s.tasks)|
  {
    RunsAreSafe(states, actions, i);
    TheOnlyLoopNeverSkips(states, actions, i, l);
  }

  // A reset absorbed during a recovery is still pending when that recovery ends, ...
  lemma {:induction false} ArrivalsStayPending(states: seq<Sys>, actions: seq<Action>, i: nat, j: nat)
    requires IsRun(states, actions) && i <= j < |states|
    requires states[i].flags.recovering && states[i].arrived
    requires forall k | i <= k < j :: !actions[k].End?
    ensures states[j].flags.recovering && states[j].arrived && states[j].flags.pending
  {
    if i < j {
      ArrivalsStayPending(states, actions, i, j - 1);
      assert !actions[j - 1].End?;
      ArrivalStep(states[j - 1], actions[j - 1]);
    }
    RunsAreSafe(states, actions, j);
  }

  lemma ArrivalStep(s: Sys, a: Action)
    requires Enabled(s, a) && !a.End? && s.flags.recovering && s.arrived
    ensures Apply(s, a).flags.recovering && Apply(s, a).arrived
  {
  }

  // ... and its handler then owes exactly one enqueue call, which it still owes or has made.
  lemma RecoveriesReissueOnce(states: seq<Sys>, actions: seq<Action>, i: nat)
    requires IsRun(states, actions) && i < |actions| && actions[i].End?
    ensures states[i].arrived ==>
              states[i + 1].loops[actions[i].l] == Reissuing && states[i + 1].owing == states[i].owing + 1
    ensures states[i + 1].owing == states[i + 1].reissued + |ReissuingLoops(states[i + 1].loops)|
  {
    RunsAreSafe(states, actions, i);
    RunsAreSafe(states, actions, i + 1);
  }

  // ------------------------------------------------------------------ the deferred flag

  // A raised flag stands for the retry of the task that raised it last.
  predicate MeansRetry(s: Sys) {
    s.flags.deferred ==>
      s.deferrer in s.tasks && Defers(s.tasks[s.deferrer]) && !s.tasks[s.deferrer].Discarded?
  }

  // The one step that breaks this is the discarding of that very task's timer under the raised flag.
  lemma OnlyTheDeferrersTimerMatters(s: Sys, a: Action)
    requires DeferredJustified(s) && MeansRetry(s) && Enabled(s, a)
    ensures MeansRetry(Apply(s, a)) <==> !(a.Discard? && s.flags.deferred && a.t == s.deferrer)
  {
  }

  // So over a run: whatever other timers are discarded, the flag means a retry under way.
  lemma {:induction false} DeferredMeansRetry(states: seq<Sys>, actions: seq<Action>, i: nat)
    requires IsRun(states, actions) && i < |states|
    requires forall k | 0 <= k < i && actions[k].Discard? ::
               !(states[k].flags.deferred && actions[k].t == states[k].deferrer)
    ensures MeansRetry(states[i])
  {
    hide MeansRetry, Apply, Enabled;
    if i > 0 {
      DeferredMeansRetry(states, actions, i - 1);
      RunsAreSafe(states, actions, i - 1);
      OnlyTheDeferrersTimerMatters(states[i - 1], actions[i - 1]);
    } else {
      InitiallyMeant(states[0]);
    }
  }

  lemma InitiallyMeant(s: Sys)
    requires Initial(s)
    ensures MeansRetry(s)
  {
  }

  // A task that may still lower the flag: it has a timer, is about to have one, or is sending on
  // behalf of one.
  predicate MayLower(t: Task) {
    t.Scheduling? || t.Timer? || t.Fired? || t.SendingAgain? || t.StillFull? || t.SchedulingRetry? || t.RetryTimer?
    || t.RetryFired?
  }

  ghost predicate Stuck(s: Sys) {
    s.flags.deferred && forall t <- s.tasks :: !MayLower(s.tasks[t])
  }

  lemma StuckStep(s: Sys, a: Action)
    requires Stuck(s) && Enabled(s, a)
    ensures Stuck(Apply(s, a))
    ensures a.Defer? ==> Apply(s, a).tasks[a.t] == Merged && Apply(s, a).queue == s.queue
    ensures !a.Schedule? && !a.ScheduleRetry?
  {
  }

  // Without such a task the flag stays raised for ever, no timer is ever scheduled again, and every
  // reset that meets a full queue is merged into nothing.
  lemma {:induction false} StuckForGood(states: seq<Sys>, actions: seq<Action>, i: nat, j: nat)
    requires IsRun(states, actions) && i <= j < |states| && Stuck(states[i])
    ensures Stuck(states[j])
    ensures j < |actions| && actions[j].Defer? ==>
              states[j + 1].tasks[actions[j].t] == Merged && states[j + 1].queue == states[j].queue
    ensures j < |actions| ==> !actions[j].Schedule? && !actions[j].ScheduleRetry?
  {
    hide Stuck, Apply, Enabled;
    if i < j {
      StuckForGood(states, actions, i, j - 1);
      StuckStep(states[j - 1], actions[j - 1]);
    }
    if j < |actions| {
      StuckStep(states[j], actions[j]);
    }
  }

  // Discarding a timer leaves the system stuck exactly when the flag is raised and no other task may
  // still lower it.
  lemma DiscardSticksIff(s: Sys, t: nat)
    requires Enabled(s, Discard(t))
    ensures Stuck(Apply(s, Discard(t))) <==>
              s.flags.deferred && forall u <- s.tasks | u != t :: !MayLower(s.tasks[u])
  {
    var n := Apply(s, Discard(t));
    assert n.tasks.Keys == s.tasks.Keys;
    assert forall u <- n.tasks :: MayLower(n.tasks[u]) <==> u != t && MayLower(s.tasks[u]);
  }

  ghost predicate Reachable(s: Sys) {
    exists states, actions :: IsRun(states, actions) && states[|states| - 1] == s
  }

  lemma ReachStart(s: Sys)
    requires Initial(s)
    ensures Reachable(s)
  {
    assert IsRun([s], []);
  }

  lemma ReachStep(s: Sys, a: Action)
    requires Reachable(s) && Enabled(s, a)
    ensures Reachable(Apply(s, a))
  {
    var states, actions :| IsRun(states, actions) && states[|states| - 1] == s;
    assert IsRun(states + [Apply(s, a)], actions + [a]);
  }

  // A reset that is neither absorbed nor debounced meets a full queue.
  lemma MeetsFullQueue(s: Sys, t: nat) returns (n: Sys)
    requires Reachable(s) && |s.queue| == s.capacity && t !in s.tasks
    requires !s.flags.recovering && !InWindow(s.flags, s.now, s.window)
    ensures Reachable(n)
    ensures n == s.(resetEvents := s.resetEvents + 1, flags := s.flags.(enqueuedAt := Some(s.now)), tasks := n.tasks)
    ensures n.tasks == s.tasks[t := Full]
  {
    hide Reachable;
    ReachStep(s, Call(t));
    n := Apply(s, Call(t));
    ReachStep(n, Section(t));
    n := Apply(n, Section(t));
    ReachStep(n, Send(t));
    n := Apply(n, Send(t));
  }

  // The event queue of the manager holds sixteen items.
  const CAPACITY := 16

  const WINDOW := 1_000

  lemma {:induction false} FillQueue(n: nat) returns (s: Sys)
    requires n <= CAPACITY
    ensures Reachable(s) && s.flags == CLEAR && s.now == 0 && s.window == WINDOW && s.capacity == CAPACITY
    ensures s.tasks == map[] && |s.queue| == n && ResetItem !in s.queue
  {
    hide Reachable;
    if n == 0 {
      s := Sys(CLEAR, 0, WINDOW, CAPACITY, [], map[], map[0 := Waiting], None, 0, 0, 0, false, 0, 0, 0);
      ReachStart(s);
    } else {
      s := FillQueue(n - 1);
      ReachStep(s, PutOther);
      s := Apply(s, PutOther);
    }
  }

  // The timer of the reset that raised the flag is discarded, as a cleanup does, and the system is
  // stuck from then on.
  lemma DiscardedTimerSticks() returns (s: Sys)
    ensures Reachable(s) && Stuck(s) && s.capacity == CAPACITY && s.tasks == map[0 := Discarded(true)]
    ensures !s.flags.recovering && ResetItem !in s.queue
  {
    hide Reachable;
    s := FillQueue(CAPACITY);
    s := MeetsFullQueue(s, 0);
    ReachStep(s, Defer(0));
    s := Apply(s, Defer(0));
    ReachStep(s, Schedule(0));
    s := Apply(s, Schedule(0));
    ReachStep(s, Discard(0));
    s := Apply(s, Discard(0));
  }

  // ------------------------------------------------------------------ what gets through

  // A reset that meets no recovery, no window and a free queue makes the event loop recover.
  lemma FreshResetRecovers(s: Sys, t: nat, l: nat) returns (u: Sys)
    requires t !in s.tasks && LoopAt(s, l, Waiting) && s.queue == [] && s.capacity > 0
    requires !s.flags.recovering
    requires s.flags.enqueuedAt.None? || s.now >= s.flags.enqueuedAt.value + s.window
    ensures LoopAt(u, l, Recovering) && u.flags.recovering && u.active == Some(l) && TaskAt(u, t, Sent)
    ensures u == Apply(AfterTake(s, t, l), Start(l))
  {
    u := Apply(AfterTake(s, t, l), Start(l));
  }

  // Called, through the first section, sent and taken.
  function AfterTake(s: Sys, t: nat, l: nat): (u: Sys)
    requires t !in s.tasks && LoopAt(s, l, Waiting) && s.queue == [] && s.capacity > 0
    requires !s.flags.recovering
    requires s.flags.enqueuedAt.None? || s.now >= s.flags.enqueuedAt.value + s.window
    ensures LoopAt(u, l, Taken) && TaskAt(u, t, Sent) && !u.flags.recovering && u.queue == []
  {
    var a := Apply(s, Call(t));
    var b := Apply(a, Section(t));
    var c := Apply(b, Send(t));
    Apply(c, TakeReset(l))
  }

  // One that meets a full queue gets onto it by its timer once there is room, unless a deferral was
  // under way already.
  lemma DeferredResetIsSent(s: Sys, t: nat, queue: seq<QueueItem>) returns (u: Sys)
    requires TaskAt(s, t, Full) && !s.flags.deferred && !s.flags.recovering && |queue| < s.capacity
    ensures TaskAt(u, t, Sent) && u.queue == queue + [ResetItem] && !u.flags.deferred && u.puts == s.puts + 1
    ensures Enabled(s, Defer(t))
    ensures u == Apply(WithRoom(Apply(s, Defer(t)), t, queue), SendAgain(t))
  {
    u := Apply(WithRoom(Apply(s, Defer(t)), t, queue), SendAgain(t));
  }

  // The timer has been scheduled and fired, and the queue has changed meanwhile.
  function WithRoom(s: Sys, t: nat, queue: seq<QueueItem>): (u: Sys)
    requires TaskAt(s, t, Scheduling)
    ensures !s.flags.recovering ==>
              TaskAt(u, t, SendingAgain) && u.queue == queue && u.capacity == s.capacity && u.puts == s.puts
              && !u.flags.deferred
  {
    var a := Apply(s, Schedule(t));
    var b := Apply(a, Fire(t));
    Apply(b.(queue := queue), FireLock(t))
  }

  predicate SameRest(s: Sys, u: Sys) {
    u.capacity == s.capacity && u.resetEvents == s.resetEvents && u.flags.recovering == s.flags.recovering
    && u.now == s.now
  }

  // The second timer is scheduled.
  function RetryScheduled(s: Sys, t: nat): (u: Sys)
    requires TaskAt(s, t, StillFull)
    ensures TaskAt(u, t, RetryTimer) && SameRest(s, u)
  {
    Apply(Apply(s, StillFullLock(t)), ScheduleRetry(t))
  }

  // It fires.
  function RetryRun(s: Sys, t: nat): (u: Sys)
    requires TaskAt(s, t, RetryTimer)
    ensures TaskAt(u, t, Retrying) && SameRest(s, u) && u.flags.enqueuedAt.None? && !u.flags.deferred
  {
    Apply(Apply(s, FireRetry(t)), RetryLock(t))
  }

  // Its call enters and passes the first section.
  function CalledAgain(s: Sys, t: nat): (u: Sys)
    requires TaskAt(s, t, Retrying)
    ensures s.flags.enqueuedAt.None? && !s.flags.recovering ==>
              && TaskAt(u, t, Sending) && u.capacity == s.capacity && u.resetEvents == s.resetEvents + 1
              && u.flags.deferred == s.flags.deferred
  {
    Apply(Apply(s, CallAgain(t)), Section(t))
  }

  function Retried(s: Sys, t: nat): (u: Sys)
    requires TaskAt(s, t, StillFull)
    ensures !s.flags.recovering ==>
              && TaskAt(u, t, Sending) && u.capacity == s.capacity && u.resetEvents == s.resetEvents + 1
              && !u.flags.deferred
  {
    CalledAgain(RetryRun(RetryScheduled(s, t), t), t)
  }

  // One that still meets a full queue then comes back as a new call, which no window swallows, and gets
  // onto the queue if there is room by now.
  lemma RetriedResetIsSent(s: Sys, t: nat, queue: seq<QueueItem>)
    requires TaskAt(s, t, StillFull) && !s.flags.recovering && |queue| < s.capacity
    ensures var u := Retried(s, t).(queue := queue);
            && Enabled(u, Send(t))
            && TaskAt(Apply(u, Send(t)), t, Sent) && Apply(u, Send(t)).queue == queue + [ResetItem]
  {
    hide Retried;
  }

  // A reset absorbed by a recovery makes the handler enqueue again when the recovery ends.
  lemma PendingResetIsReissued(s: Sys, l: nat, t: nat)
    requires LoopAt(s, l, Recovering) && s.flags.pending && t !in s.tasks
    ensures LoopAt(Apply(s, End(l)), l, Reissuing)
    ensures Enabled(Apply(s, End(l)), Reissue(l, t))
    ensures var u := Apply(Apply(s, End(l)), Reissue(l, t)); LoopAt(u, l, Waiting) && TaskAt(u, t, Entered(s.now))
  {
  }
}
