// Coalescing of modem resets: the mutex sections of enqueueModemResetEvent
// (pkg/manager/uim_recovery.go) and handleModemResetEvent (pkg/manager/manager.go).

module ModemReset {
  import opened Wrappers

  // `enqueuedAt` is None for the zero time. `coalesced` is the resetCoalesced counter.
  datatype Flags = Flags(
    recovering: bool,
    pending: bool,
    deferred: bool,
    enqueuedAt: Option<nat>,
    coalesced: nat)

  const CLEAR := Flags(false, false, false, None, 0)

  // The debounce test on a clock reading taken before the lock, so that it may lie in the past of
  // the recorded time.
  predicate InWindow(f: Flags, now: nat, window: nat) {
    f.enqueuedAt.Some? && now - f.enqueuedAt.value < window
  }

  // A reset merged into a recovery or a retry under way.
  function Absorb(f: Flags): Flags {
    f.(pending := true, coalesced := f.coalesced + 1)
  }

  // The first section of an enqueue; true when the event is to be sent.
  function EnqueueSection(f: Flags, now: nat, window: nat): (Flags, bool) {
    if f.recovering then (Absorb(f), false)
    else if InWindow(f, now, window) then (f.(coalesced := f.coalesced + 1), false)
    else (f.(enqueuedAt := Some(now)), true)
  }

  // The section after the queue was found full; true when a timer is to be scheduled.
  function DeferSection(f: Flags): (Flags, bool) {
    if f.deferred then (Absorb(f), false) else (f.(deferred := true), true)
  }

  // The first timer fires; true when the event is to be sent.
  function FireSection(f: Flags, now: nat): (Flags, bool) {
    var g := f.(deferred := false);
    if g.recovering then (Absorb(g), false) else (g.(enqueuedAt := Some(now)), true)
  }

  // The queue was still full: a second timer follows.
  function StillFullSection(f: Flags): Flags {
    Absorb(f.(deferred := true))
  }

  // The second timer fires.
  function RetrySection(f: Flags): Flags {
    f.(deferred := false, enqueuedAt := None)
  }

  // The event loop takes a reset event; true when a recovery is to run.
  function StartSection(f: Flags): (Flags, bool) {
    if f.recovering then (Absorb(f), false) else (f.(recovering := true, pending := false), true)
  }

  // The recovery is over; true when the handler is to enqueue again.
  function EndSection(f: Flags): (Flags, bool) {
    (f.(recovering := false, pending := false), f.pending)
  }

  // ------------------------------------------------------------------ laws across sections

  // Of the sections an enqueue runs, each either lets its event go on or counts it, never both.
  lemma LetsGoOrCounts(f: Flags, now: nat, window: nat)
    ensures EnqueueSection(f, now, window).0.coalesced ==
            f.coalesced + (if EnqueueSection(f, now, window).1 then 0 else 1)
    ensures DeferSection(f).0.coalesced == f.coalesced + (if DeferSection(f).1 then 0 else 1)
    ensures FireSection(f, now).0.coalesced == f.coalesced + (if FireSection(f, now).1 then 0 else 1)
  {
  }

  // Outside a recovery, of two enqueues within a window the second is counted, and one after it goes on.
  lemma DebounceWindow(f: Flags, first: nat, second: nat, window: nat)
    requires !f.recovering && EnqueueSection(f, first, window).1
    ensures EnqueueSection(EnqueueSection(f, first, window).0, second, window).1 <==> second - first >= window
  {
  }

  // A first timer that sends its event opens a window as well: an enqueue within it is counted, one after
  // it goes on.
  lemma FiringOpensTheWindow(f: Flags, fired: nat, later: nat, window: nat)
    requires FireSection(f, fired).1
    ensures EnqueueSection(FireSection(f, fired).0, later, window).1 <==> later - fired >= window
  {
  }

  // A reset is sent at once exactly outside a recovery and outside the window of the last one sent, and a
  // timer sends its event exactly outside a recovery; during a recovery both leave it pending.
  lemma SentExactlyWhen(f: Flags, now: nat, window: nat)
    ensures EnqueueSection(f, now, window).1 <==>
            !f.recovering && (f.enqueuedAt.None? || now >= f.enqueuedAt.value + window)
    ensures FireSection(f, now).1 <==> !f.recovering
    ensures f.recovering ==> EnqueueSection(f, now, window).0.pending && FireSection(f, now).0.pending
    ensures !FireSection(f, now).0.deferred && !RetrySection(f).deferred
  {
  }

  // The retry of a deferred reset is never swallowed by the debounce window.
  lemma RetryIsNotDebounced(f: Flags, now: nat, window: nat)
    requires !f.recovering
    ensures EnqueueSection(RetrySection(f), now, window).1
  {
  }

  // One deferral at a time: until a timer fires, further deferrals are counted.
  lemma OneDeferralAtATime(f: Flags, now: nat)
    ensures !DeferSection(DeferSection(f).0).1 && !DeferSection(StillFullSection(f)).1
    ensures DeferSection(FireSection(f, now).0).1 && DeferSection(RetrySection(f)).1
  {
  }

  datatype Section =
    | Enqueuing(now: nat) | Deferring | Firing(now: nat) | FindingFull | RetryingSection | Starting

  function Run(f: Flags, x: Section, window: nat): Flags {
    match x
    case Enqueuing(now) => EnqueueSection(f, now, window).0
    case Deferring => DeferSection(f).0
    case Firing(now) => FireSection(f, now).0
    case FindingFull => StillFullSection(f)
    case RetryingSection => RetrySection(f)
    case Starting => StartSection(f).0
  }

  // Whether a section absorbs a reset: one that arrives during a recovery, or one that finds a retry
  // under way.
  predicate Absorbs(f: Flags, x: Section) {
    || ((x.Enqueuing? || x.Firing? || x.Starting?) && f.recovering)
    || (x.Deferring? && f.deferred)
    || x.FindingFull?
  }

  function RunAll(f: Flags, xs: seq<Section>, window: nat): Flags {
    if xs == [] then f else Run(RunAll(f, xs[..|xs| - 1], window), xs[|xs| - 1], window)
  }

  // Whether one of the sections absorbs, each run where the ones before it leave off.
  predicate SomeAbsorbs(f: Flags, xs: seq<Section>, window: nat) {
    xs != [] &&
    (var front := xs[..|xs| - 1];
     SomeAbsorbs(f, front, window) || Absorbs(RunAll(f, front, window), xs[|xs| - 1]))
  }

  // At the end of a recovery the handler enqueues again exactly when, among the sections that ran since
  // its start, in any order and number, one absorbed a reset.
  lemma {:induction false} ReissuesIffAbsorbed(f: Flags, xs: seq<Section>, window: nat)
    requires !f.recovering
    ensures var g := RunAll(StartSection(f).0, xs, window);
            && g.recovering
            && (EndSection(g).1 <==> SomeAbsorbs(StartSection(f).0, xs, window))
            && EndSection(g).0.coalesced >= f.coalesced
  {
    hide Run, Absorbs;
    var g := StartSection(f).0;
    if xs != [] {
      var front, x := xs[..|xs| - 1], xs[|xs| - 1];
      ReissuesIffAbsorbed(f, front, window);
      AbsorbingSets(RunAll(g, front, window), x, window);
    }
  }

  lemma AbsorbingSets(f: Flags, x: Section, window: nat)
    requires f.recovering
    ensures Run(f, x, window).recovering && Run(f, x, window).coalesced >= f.coalesced
    ensures Run(f, x, window).pending <==> f.pending || Absorbs(f, x)
  {
  }

  class ResetState {
    var recovering: bool
    var pending: bool
    var deferred: bool
    var enqueuedAt: Option<nat>
    var coalesced: nat

    ghost function View(): Flags
      reads this
    {
      Flags(recovering, pending, deferred, enqueuedAt, coalesced)
    }

    constructor ()
      ensures View() == CLEAR
    {
      recovering, pending, deferred, enqueuedAt, coalesced := false, false, false, None, 0;
    }

    method Enqueue(now: nat, window: nat) returns (send: bool)
      modifies this
      ensures (View(), send) == EnqueueSection(old(View()), now, window)
    {
      if recovering {
        pending := true;
        coalesced := coalesced + 1;
        return false;
      }
      if enqueuedAt.Some? && now - enqueuedAt.value < window {
        coalesced := coalesced + 1;
        return false;
      }
      enqueuedAt := Some(now);
      send := true;
    }

    method Defer() returns (schedule: bool)
      modifies this
      ensures (View(), schedule) == DeferSection(old(View()))
    {
      if deferred {
        pending := true;
        coalesced := coalesced + 1;
        return false;
      }
      deferred := true;
      schedule := true;
    }

    method Fire(now: nat) returns (send: bool)
      modifies this
      ensures (View(), send) == FireSection(old(View()), now)
    {
      deferred := false;
      if recovering {
        pending := true;
        coalesced := coalesced + 1;
        return false;
      }
      enqueuedAt := Some(now);
      send := true;
    }

    method StillFull()
      modifies this
      ensures View() == StillFullSection(old(View()))
    {
      if !deferred {
        deferred := true;
      }
      pending := true;
      coalesced := coalesced + 1;
    }

    method Retry()
      modifies this
      ensures View() == RetrySection(old(View()))
    {
      deferred := false;
      enqueuedAt := None;
    }

    method Start() returns (recover: bool)
      modifies this
      ensures (View(), recover) == StartSection(old(View()))
    {
      if recovering {
        pending := true;
        coalesced := coalesced + 1;
        return false;
      }
      recovering := true;
      pending := false;
      recover := true;
    }

    method End() returns (again: bool)
      modifies this
      ensures (View(), again) == EndSection(old(View()))
    {
      recovering := false;
      again := pending;
      pending := false;
    }
  }
}
