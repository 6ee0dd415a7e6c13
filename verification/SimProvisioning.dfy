// The SIM provisioning loop (ensureSIMProvisioned of pkg/manager/uim_provisioning.go). The modem's
// answers are arbitrary; everything the loop does is recorded in a trace.

module SimProvisioning {
  import opened Wrappers

  // Times are in milliseconds.
  datatype Options = Options(
    defaultSlot: nat,
    pollInterval: int,
    maxAttempts: int,
    backstop: int,
    maxActivations: int,
    settle: int)

  function OrDefault(n: int, fallback: int): int {
    if n <= 0 then fallback else n
  }

  function Normalize(o: Options): (n: Options)
    ensures n.defaultSlot > 0 && n.pollInterval > 0 && n.maxAttempts > 0 && n.backstop > 0
    ensures n.maxActivations > 0 && n.settle > 0
  {
    Options(if o.defaultSlot == 0 then 1 else o.defaultSlot, OrDefault(o.pollInterval, 500),
            OrDefault(o.maxAttempts, 10),
            OrDefault(o.backstop, 3), OrDefault(o.maxActivations, 2), OrDefault(o.settle, 2000))
  }

  // Options the caller has set are kept, the others take the documented values, and normalising again
  // changes nothing.
  lemma NormalizeIsStable(o: Options)
    ensures Normalize(Options(0, 0, 0, 0, 0, 0)) == Options(1, 500, 10, 3, 2, 2000)
    ensures Normalize(Normalize(o)) == Normalize(o)
    ensures Normalize(o) == o <==> o.defaultSlot > 0 && o.pollInterval > 0 && o.maxAttempts > 0 && o.backstop > 0
                                   && o.maxActivations > 0 && o.settle > 0
  {
  }

  datatype Reason = CardAbsent | SimBlocked | TransportFatal | ControlUnavailable | OtherReason

  // `slot` is the active slot, if it is known.
  datatype Readiness = Readiness(
    ready: bool,
    reason: Reason,
    needsProvisioning: bool,
    appUnknown: bool,
    slot: Option<nat>)

  predicate Terminal(r: Readiness) {
    r.ready || !r.reason.OtherReason?
  }

  datatype RebindAnswer = Rebound | NotSupported | RebindFailed

  // What the loop does: polls (None is an error), reads of the AID (an error counts as an empty one),
  // rebinds of a slot with an AID, and sleeps (whether they ran to their end).
  datatype Event =
    | Poll(reading: Option<Readiness>)
    | ReadAid(aid: seq<nat>)
    | Rebind(slot: nat, aid: seq<nat>, answer: RebindAnswer)
    | Sleep(time: int, slept: bool)

  // The answers of one attempt; each hook is called at most once in it.
  datatype Answers = Answers(reading: Option<Readiness>, aid: seq<nat>, rebind: RebindAnswer, slept: bool)

  type Environment = nat -> Answers

  // ------------------------------------------------------------------ readings of a trace

  function Polls(trace: seq<Event>): nat {
    if trace == [] then 0 else Polls(trace[..|trace| - 1]) + if trace[|trace| - 1].Poll? then 1 else 0
  }

  function Rebinds(trace: seq<Event>): nat {
    if trace == [] then 0 else Rebinds(trace[..|trace| - 1]) + if trace[|trace| - 1].Rebind? then 1 else 0
  }

  function Sleeps(trace: seq<Event>): nat {
    if trace == [] then 0 else Sleeps(trace[..|trace| - 1]) + if trace[|trace| - 1].Sleep? then 1 else 0
  }

  // A rebind that went through.
  predicate Recovers(e: Event) {
    e.Rebind? && e.answer.Rebound?
  }

  // How an event changes the number of unknown readings since the last reset: a provisioning demand
  // and a successful rebind reset it.
  function StreakAfter(streak: nat, e: Event): nat {
    if e.Poll? && e.reading.Some? then
      if e.reading.value.needsProvisioning then 0
      else if e.reading.value.appUnknown then streak + 1
      else streak
    else if Recovers(e) then 0
    else streak
  }

  function Streak(trace: seq<Event>): nat {
    if trace == [] then 0 else StreakAfter(Streak(trace[..|trace| - 1]), trace[|trace| - 1])
  }

  // After such an event nothing may follow.
  predicate Ends(e: Event) {
    || (e.Poll? && (e.reading.None? || Terminal(e.reading.value)))
    || (e.Rebind? && e.answer.NotSupported?)
    || (e.Sleep? && !e.slept)
  }

  ghost predicate NothingAfterAnEnd(trace: seq<Event>) {
    forall i | 0 <= i < |trace| - 1 :: !Ends(trace[i])
  }

  // A rebind follows a usable AID and a reading that demands provisioning, or that is at least the
  // backstop-th unknown one since the streak was reset.
  predicate JustifiedAt(trace: seq<Event>, i: nat, backstop: int)
    requires i < |trace|
  {
    && i >= 2 && trace[i - 1].ReadAid? && trace[i - 1].aid != []
    && trace[i - 2].Poll? && trace[i - 2].reading.Some?
    && (|| trace[i - 2].reading.value.needsProvisioning
        || (trace[i - 2].reading.value.appUnknown && Streak(trace[..i]) >= backstop))
  }

  ghost predicate Justified(trace: seq<Event>, backstop: int) {
    forall i | 0 <= i < |trace| && trace[i].Rebind? :: JustifiedAt(trace, i, backstop)
  }

  lemma Snoc(trace: seq<Event>, e: Event)
    ensures var t := trace + [e];
            && Polls(t) == Polls(trace) + (if e.Poll? then 1 else 0)
            && Rebinds(t) == Rebinds(trace) + (if e.Rebind? then 1 else 0)
            && Sleeps(t) == Sleeps(trace) + (if e.Sleep? then 1 else 0)
            && Streak(t) == StreakAfter(Streak(trace), e)
  {
    assert (trace + [e])[..|trace|] == trace;
  }

  lemma JustifiedSnoc(trace: seq<Event>, e: Event, backstop: int)
    requires Justified(trace, backstop)
    requires e.Rebind? ==> JustifiedAt(trace + [e], |trace|, backstop)
    ensures Justified(trace + [e], backstop)
  {
    hide Streak;
    var t := trace + [e];
    forall i | 0 <= i < |t| && t[i].Rebind?
      ensures JustifiedAt(t, i, backstop)
    {
      if i < |trace| {
        assert t[..i] == trace[..i];
        assert JustifiedAt(trace, i, backstop);
      }
    }
  }

  // What a trace keeps to.
  ghost predicate Disciplined(trace: seq<Event>, o: Options) {
    && Polls(trace) <= o.maxAttempts && Rebinds(trace) <= o.maxActivations && Sleeps(trace) <= o.maxAttempts - 1
    && NothingAfterAnEnd(trace) && Justified(trace, o.backstop)
  }

  // ------------------------------------------------------------------ what is due

  datatype Due =
    | DuePoll
    | DueAid
    | DueRebind(slot: nat, aid: seq<nat>)
    | DueSleep(time: int)
    | DueReturn

  // A reading demands an activation when it says so or is at least the backstop-th unknown one, while
  // there is budget.
  predicate Demands(trace: seq<Event>, r: Readiness, o: Options) {
    && (r.needsProvisioning || (r.appUnknown && Streak(trace) >= o.backstop))
    && Rebinds(trace) < o.maxActivations
  }

  // At the end of an attempt: another one after a sleep, which is the longer one after a successful
  // rebind, or the return when the attempts are used up.
  function DueAfterAttempt(trace: seq<Event>, o: Options): Due
    requires trace != []
  {
    if Polls(trace) >= o.maxAttempts then DueReturn
    else DueSleep(if Recovers(trace[|trace| - 1]) then o.settle else o.pollInterval)
  }

  // The slot to rebind: the active one if it is known, and not zero.
  function SlotOf(r: Readiness, o: Options): nat {
    if r.slot.Some? && r.slot.value != 0 then r.slot.value else o.defaultSlot
  }

  // What follows a trace.
  function DueAfter(trace: seq<Event>, o: Options): Due {
    if trace == [] then DuePoll
    else
      var e := trace[|trace| - 1];
      if Ends(e) then DueReturn
      else
        match e
        case Poll(reading) => if Demands(trace, reading.value, o) then DueAid else DueAfterAttempt(trace, o)
        case ReadAid(aid) =>
          if aid != [] && |trace| > 1 && trace[|trace| - 2].Poll? && trace[|trace| - 2].reading.Some?
          then DueRebind(SlotOf(trace[|trace| - 2].reading.value, o), aid)
          else DueAfterAttempt(trace, o)
        case Rebind(_, _, _) => DueAfterAttempt(trace, o)
        case Sleep(_, _) => DuePoll
  }

  // Whether e is what is due, with the answer of the attempt.
  predicate Meets(e: Event, due: Due, answers: Answers) {
    match due
    case DuePoll => e == Poll(answers.reading)
    case DueAid => e == ReadAid(answers.aid)
    case DueRebind(slot, aid) => e == Rebind(slot, aid, answers.rebind)
    case DueSleep(time) => e == Sleep(time, answers.slept)
    case DueReturn => false
  }

  // Every event was due after the ones before it, and met the answers of its attempt.
  ghost predicate Dutiful(trace: seq<Event>, o: Options, env: Environment) {
    forall i | 0 <= i < |trace| :: Meets(trace[i], DueAfter(trace[..i], o), env(Polls(trace[..i + 1])))
  }

  lemma DutifulSnoc(trace: seq<Event>, e: Event, o: Options, env: Environment)
    requires Dutiful(trace, o, env) && Meets(e, DueAfter(trace, o), env(Polls(trace + [e])))
    ensures Dutiful(trace + [e], o, env)
  {
    hide DueAfter, Meets, Polls;
    var t := trace + [e];
    forall i | 0 <= i < |t|
      ensures Meets(t[i], DueAfter(t[..i], o), env(Polls(t[..i + 1])))
    {
      if i < |trace| {
        assert t[..i] == trace[..i] && t[..i + 1] == trace[..i + 1];
        assert Meets(trace[i], DueAfter(trace[..i], o), env(Polls(trace[..i + 1])));
      } else {
        assert t[..i] == trace && t[..i + 1] == t;
      }
    }
  }

  // The reading of the last poll.
  function LastReading(trace: seq<Event>): Option<Readiness> {
    if trace == [] then None
    else if trace[|trace| - 1].Poll? then trace[|trace| - 1].reading
    else LastReading(trace[..|trace| - 1])
  }

  // ------------------------------------------------------------------ the loop

  // The rebind part of an attempt: a usable AID is rebound and uses up the budget whatever comes of
  // it.
  method Activate(answers: Answers, o: Options, ghost env: Environment, before: seq<Event>, reading: Readiness)
    returns (trace: seq<Event>, rebound: Option<RebindAnswer>)
    requires Dutiful(before, o, env)
    requires before != [] && before[|before| - 1] == Poll(Some(reading)) && answers == env(Polls(before))
    requires DueAfter(before, o) == DueAid && LastReading(before) == Some(reading)
    ensures rebound == if answers.aid != [] then Some(answers.rebind) else None
    ensures trace == before + [ReadAid(answers.aid)] +
                     (if answers.aid != [] then [Rebind(SlotOf(reading, o), answers.aid, answers.rebind)] else [])
    ensures trace != [] && (trace[|trace| - 1].ReadAid? || trace[|trace| - 1].Rebind?)
    ensures Ends(trace[|trace| - 1]) <==> rebound == Some(NotSupported)
    ensures Dutiful(trace, o, env)
    ensures DueAfter(trace, o) ==
              if rebound == Some(NotSupported) || Polls(trace) >= o.maxAttempts then DueReturn
              else DueSleep(if rebound == Some(Rebound) then o.settle else o.pollInterval)
    ensures Polls(trace) == Polls(before)
    ensures Rebinds(trace) == Rebinds(before) + (if answers.aid != [] then 1 else 0)
    ensures Streak(trace) == if rebound == Some(Rebound) then 0 else Streak(before)
    ensures LastReading(trace) == Some(reading)
  {
    hide Polls, Rebinds, Sleeps, Streak, Dutiful;
    var e := ReadAid(answers.aid);
    Snoc(before, e);
    DutifulSnoc(before, e, o, env);
    assert (before + [e])[..|before|] == before;
    trace, rebound := before + [e], None;
    if answers.aid != [] {
      var r := Rebind(SlotOf(reading, o), answers.aid, answers.rebind);
      assert (trace + [r])[..|trace|] == trace;
      Snoc(trace, r);
      DutifulSnoc(trace, r, o, env);
      trace, rebound := trace + [r], Some(answers.rebind);
    }
  }

  // Puts the poll or sleep that is due on record.
  method Record(before: seq<Event>, e: Event, o: Options, ghost env: Environment) returns (trace: seq<Event>)
    requires Dutiful(before, o, env)
    requires e.Poll? || e.Sleep?
    requires Meets(e, DueAfter(before, o), env(Polls(before) + if e.Poll? then 1 else 0))
    ensures trace != [] && trace == before + [e] && trace[|trace| - 1] == e
    ensures Dutiful(trace, o, env)
    ensures DueAfter(trace, o) ==
              if Ends(e) then DueReturn
              else if e.Sleep? then DuePoll
              else if Demands(trace, e.reading.value, o) then DueAid
              else if Polls(trace) >= o.maxAttempts then DueReturn
              else DueSleep(o.pollInterval)
    ensures Polls(trace) == Polls(before) + (if e.Poll? then 1 else 0)
    ensures Rebinds(trace) == Rebinds(before) && Streak(trace) == StreakAfter(Streak(before), e)
    ensures LastReading(trace) == if e.Poll? then e.reading else LastReading(before)
  {
    hide Polls, Rebinds, Sleeps, Streak, Dutiful, Meets, Demands;
    Snoc(before, e);
    DutifulSnoc(before, e, o, env);
    assert (before + [e])[..|before|] == before;
    trace := before + [e];
  }

  // The loop, on normalised options.
  method Run(o: Options, env: Environment) returns (last: Option<Readiness>, ok: bool, trace: seq<Event>)
    requires o.maxAttempts > 0 && o.maxActivations > 0
    ensures Dutiful(trace, o, env) && DueAfter(trace, o) == DueReturn
    ensures last == LastReading(trace)
    ensures !ok <==> trace != [] &&
                     (trace[|trace| - 1] == Poll(None) || (trace[|trace| - 1].Sleep? && !trace[|trace| - 1].slept))
  {
    hide Polls, Rebinds, Sleeps, Streak, Dutiful, DueAfter, LastReading, SlotOf;
    last, trace := None, [];
    var unknownStreak: nat, activations: nat := 0, 0;
    var attempt: nat := 1;
    EmptyTrace(o, env);
    while attempt <= o.maxAttempts
      invariant 1 <= attempt <= o.maxAttempts + 1
      invariant Dutiful(trace, o, env)
      invariant DueAfter(trace, o) == if attempt <= o.maxAttempts then DuePoll else DueReturn
      invariant last == LastReading(trace)
      invariant Polls(trace) == attempt - 1
      invariant Rebinds(trace) == activations <= o.maxActivations
      invariant unknownStreak == Streak(trace)
      invariant trace != [] ==> !Ends(trace[|trace| - 1])
      decreases o.maxAttempts + 1 - attempt
    {
      var answers := env(attempt);
      trace := Record(trace, Poll(answers.reading), o, env);
      if answers.reading.None? {
        return None, false, trace;
      }
      var r := answers.reading.value;
      last := Some(r);
      if r.ready {
        return last, true, trace;
      }
      if
        || r.reason == CardAbsent || r.reason == SimBlocked
        || r.reason == TransportFatal || r.reason == ControlUnavailable
      {
        return last, true, trace;
      }
      var wantActivate := false;
      if r.needsProvisioning {
        wantActivate := true;
        unknownStreak := 0;
      } else if r.appUnknown {
        unknownStreak := unknownStreak + 1;
        if unknownStreak >= o.backstop {
          wantActivate := true;
        }
      }
      var rebound := None;
      if wantActivate && activations < o.maxActivations {
        trace, rebound := Activate(answers, o, env, trace, r);
        if rebound.Some? {
          activations := activations + 1;
        }
        if rebound == Some(NotSupported) {
          return last, true, trace;
        }
        if rebound == Some(Rebound) {
          unknownStreak := 0;
        }
      }
      if attempt < o.maxAttempts {
        trace := Record(trace, Sleep(if rebound == Some(Rebound) then o.settle else o.pollInterval, answers.slept),
                        o, env);
        if !answers.slept {
          return last, false, trace;
        }
      }
      attempt := attempt + 1;
    }
    ok := true;
  }

  lemma EmptyTrace(o: Options, env: Environment)
    ensures Polls([]) == 0 && Rebinds([]) == 0 && Streak([]) == 0 && LastReading([]) == None
    ensures Dutiful([], o, env) && DueAfter([], o) == DuePoll
  {
  }

  // ------------------------------------------------------------------ what that means

  lemma DutifulFront(trace: seq<Event>, o: Options, env: Environment)
    requires Dutiful(trace, o, env) && trace != []
    ensures var front := trace[..|trace| - 1];
            Dutiful(front, o, env) && Meets(trace[|front|], DueAfter(front, o), env(Polls(trace)))
  {
    hide DueAfter, Meets, Polls;
    var front := trace[..|trace| - 1];
    assert Meets(trace[|front|], DueAfter(trace[..|front|], o), env(Polls(trace[..|front| + 1])));
    assert trace[..|trace|] == trace;
    forall i | 0 <= i < |front|
      ensures Meets(front[i], DueAfter(front[..i], o), env(Polls(front[..i + 1])))
    {
      assert front[..i] == trace[..i] && front[..i + 1] == trace[..i + 1];
      assert Meets(trace[i], DueAfter(trace[..i], o), env(Polls(trace[..i + 1])));
    }
  }

  // A rebind that is due is justified, and there is budget for it.
  lemma DueRebindsAreJustified(trace: seq<Event>, e: Event, o: Options, env: Environment)
    requires Dutiful(trace, o, env) && DueAfter(trace, o).DueRebind?
    ensures Rebinds(trace) < o.maxActivations
    ensures JustifiedAt(trace + [e], |trace|, o.backstop)
  {
    hide Rebinds, Streak, Polls, Dutiful;
    DutifulFront(trace, o, env);
    var front := trace[..|trace| - 1];
    var t := trace + [e];
    assert trace == front + [trace[|front|]];
    Snoc(front, trace[|front|]);
    assert trace[|front|].ReadAid? && trace[|front|].aid != [];
    assert DueAfter(front, o) == DueAid;
    assert front[|front| - 1].Poll? && Demands(front, front[|front| - 1].reading.value, o);
    assert t[..|trace|] == trace;
    assert t[|trace| - 1] == trace[|front|] && t[|trace| - 2] == front[|front| - 1];
  }

  // What is due keeps to every bound, and without an ending event the loop uses all its attempts and
  // sleeps between any two of them.
  lemma {:induction false} DutifulIsDisciplined(trace: seq<Event>, o: Options, env: Environment)
    requires Dutiful(trace, o, env) && o.maxAttempts > 0 && o.maxActivations > 0
    ensures Disciplined(trace, o)
    ensures Polls(trace) == Sleeps(trace) + if trace == [] || trace[|trace| - 1].Sleep? then 0 else 1
    ensures DueAfter(trace, o) == DueReturn && !(trace != [] && Ends(trace[|trace| - 1])) ==>
              Polls(trace) == o.maxAttempts && Sleeps(trace) == o.maxAttempts - 1
  {
    hide Polls, Rebinds, Sleeps, Streak, Dutiful;
    if trace == [] {
      EmptyCounts();
    } else {
      var front, e := trace[..|trace| - 1], trace[|trace| - 1];
      assert trace == front + [e];
      DutifulFront(trace, o, env);
      DutifulIsDisciplined(front, o, env);
      Snoc(front, e);
      if e.Rebind? {
        DueRebindsAreJustified(front, e, o, env);
      }
      JustifiedSnoc(front, e, o.backstop);
    }
  }

  lemma EmptyCounts()
    ensures Polls([]) == 0 && Rebinds([]) == 0 && Sleeps([]) == 0
  {
  }

  // A detected card is activated: a poll that does not end the loop and demands it is followed by a
  // read of the AID, and a usable AID by a rebind with it.
  lemma DemandsAreMet(trace: seq<Event>, o: Options, env: Environment, i: nat)
    requires Dutiful(trace, o, env) && DueAfter(trace, o) == DueReturn
    requires i < |trace| && trace[i].Poll? && !Ends(trace[i])
    ensures i + 1 < |trace| && trace[i + 1].ReadAid? <==> Demands(trace[..i + 1], trace[i].reading.value, o)
    ensures Demands(trace[..i + 1], trace[i].reading.value, o) && trace[i + 1].aid != [] ==>
              && i + 2 < |trace| && trace[i + 2].Rebind? && trace[i + 2].aid == trace[i + 1].aid
              && trace[i + 2].slot == SlotOf(trace[i].reading.value, o)
  {
    hide Demands, Polls;
    assert trace[..|trace|] == trace;
    if i + 1 < |trace| {
      assert Meets(trace[i + 1], DueAfter(trace[..i + 1], o), env(Polls(trace[..i + 2])));
    }
    if i + 2 < |trace| {
      assert Meets(trace[i + 2], DueAfter(trace[..i + 2], o), env(Polls(trace[..i + 3])));
    }
  }

  // A card that is ready, or beyond help, is left alone.
  lemma ReadyIsLeftAlone(trace: seq<Event>, o: Options, env: Environment)
    requires Dutiful(trace, o, env) && DueAfter(trace, o) == DueReturn
    requires env(1).reading.Some? && Terminal(env(1).reading.value)
    ensures trace == [Poll(env(1).reading)] && LastReading(trace) == env(1).reading
  {
    hide Demands;
    assert trace != [];
    assert Polls(trace[..1]) == if trace[0].Poll? then 1 else 0 by {
      assert trace[..1][..0] == [];
    }
    assert Meets(trace[0], DueAfter(trace[..0], o), env(Polls(trace[..1])));
    assert |trace| > 1 ==> Meets(trace[1], DueAfter(trace[..1], o), env(Polls(trace[..2])));
  }

  // A sleep lasts the settle time exactly after a successful rebind.
  lemma SleepsLast(trace: seq<Event>, o: Options, env: Environment, i: nat)
    requires Dutiful(trace, o, env) && i < |trace| && trace[i].Sleep?
    ensures i > 0 && trace[i].time == if Recovers(trace[i - 1]) then o.settle else o.pollInterval
  {
    hide Polls;
    assert Meets(trace[i], DueAfter(trace[..i], o), env(Polls(trace[..i + 1])));
  }

  // Everything that happens is due and answered by its attempt, and everything due happens; hence the
  // bounds, and what is left alone.
  method Provision(opts: Options, env: Environment) returns (last: Option<Readiness>, ok: bool, trace: seq<Event>)
    ensures Dutiful(trace, Normalize(opts), env) && DueAfter(trace, Normalize(opts)) == DueReturn
    ensures last == LastReading(trace)
    ensures Disciplined(trace, Normalize(opts))
    // The error is that of the poll or the sleep the trace ends with.
    ensures !ok <==> trace != [] &&
                     (trace[|trace| - 1] == Poll(None) || (trace[|trace| - 1].Sleep? && !trace[|trace| - 1].slept))
    // Without an ending event the loop uses all its attempts and sleeps between any two of them.
    ensures ok && !(trace != [] && Ends(trace[|trace| - 1])) ==>
              Polls(trace) == Normalize(opts).maxAttempts && Sleeps(trace) == Normalize(opts).maxAttempts - 1
    // A card that is ready, or beyond help, is left alone.
    ensures env(1).reading.Some? && Terminal(env(1).reading.value) ==>
              ok && last == env(1).reading && trace == [Poll(last)]
  {
    hide Polls, Sleeps, Dutiful, DueAfter, LastReading, Disciplined;
    var o := Normalize(opts);
    last, ok, trace := Run(o, env);
    DutifulIsDisciplined(trace, o, env);
    if env(1).reading.Some? && Terminal(env(1).reading.value) {
      ReadyIsLeftAlone(trace, o, env);
    }
  }
}
