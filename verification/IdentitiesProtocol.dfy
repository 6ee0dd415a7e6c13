// Pre-warms (PreWarmIdentities of pkg/manager/device_query.go) and resets in any interleaving.
// Every fetched value carries the pre-warm that fetched it and how many resets had happened by then.

module IdentitiesProtocol {
  import opened Identities
  import opened Wrappers

  datatype Fetched = Fetched(text: string, warm: nat, at: nat)

  // `launchedAt` counts the resets before the launch; `hardware` is whether the static fields are
  // to be fetched, once that is decided.
  datatype PreWarm = PreWarm(
    generation: nat,
    forceAll: bool,
    launchedAt: nat,
    hardware: Option<bool>,
    ids: Ids<Fetched>,
    ended: bool)

  // `resets` counts all resets and `cleared` is its value after the last one that cleared everything.
  datatype Sys = Sys(
    ids: Ids<Fetched>,
    generation: nat,
    warms: map<nat, PreWarm>,
    resets: nat,
    cleared: nat)

  datatype Action =
    | Launch(w: nat, forceAll: bool)
    | Look(w: nat)
    | Fetch(w: nat, field: Field, text: string)
    | Commit(w: nat)
    | ResetCard
    | ResetAll

  predicate Running(s: Sys, w: nat) {
    w in s.warms && !s.warms[w].ended
  }

  predicate Enabled(s: Sys, a: Action) {
    match a
    case Launch(w, _) => w !in s.warms
    case Look(w) => Running(s, w) && s.warms[w].hardware.None?
    case Fetch(w, f, _) =>
      Running(s, w) && s.warms[w].hardware.Some? && (OfTheCard(f) || s.warms[w].hardware.value)
    case Commit(w) => Running(s, w) && s.warms[w].hardware.Some?
    case ResetCard => true
    case ResetAll => true
  }

  // The static fields are fetched when forced, not ready or without an IMEI; an IMEI alone makes the
  // static part ready, so the readiness test adds nothing.
  function Apply(s: Sys, a: Action): Sys
    requires Enabled(s, a)
  {
    match a
    case Launch(w, forceAll) =>
      s.(warms := s.warms[w := PreWarm(s.generation, forceAll, s.resets, None, NoIds(), false)])
    case Look(w) =>
      s.(warms := s.warms[w := s.warms[w].(hardware := Some(s.warms[w].forceAll || s.ids.imei.None?))])
    case Fetch(w, f, text) =>
      var pw := s.warms[w];
      s.(warms := s.warms[w := pw.(ids := Set(pw.ids, f, Some(Fetched(text, w, s.resets))))])
    case Commit(w) =>
      var pw := s.warms[w];
      var t := s.(warms := s.warms[w := pw.(ended := true)]);
      if pw.generation == s.generation then t.(ids := Overlay(s.ids, pw.ids)) else t
    case ResetCard => s.(ids := WithoutCard(s.ids), generation := s.generation + 1, resets := s.resets + 1)
    case ResetAll =>
      s.(ids := NoIds(), generation := s.generation + 1, resets := s.resets + 1, cleared := s.resets + 1)
  }

  lemma ReadinessTestAddsNothing(ids: Ids<Fetched>)
    ensures !StaticReady(ids) || ids.imei.None? <==> ids.imei.None?
  {
    hide StaticReady;
    ReadinessTests(ids);
  }

  ghost predicate Initial(s: Sys) {
    s.ids == NoIds() && s.generation == 0 && s.warms == map[] && s.resets == 0 && s.cleared == 0
  }

  ghost predicate IsRun(states: seq<Sys>, actions: seq<Action>) {
    && |states| == |actions| + 1
    && Initial(states[0])
    && forall i | 0 <= i < |actions| :: Enabled(states[i], actions[i]) && states[i + 1] == Apply(states[i], actions[i])
  }

  // ------------------------------------------------------------------ the invariant

  // A value was fetched by a pre-warm after that was launched.
  predicate ProperlyFetched(s: Sys, v: Fetched) {
    v.warm in s.warms && s.warms[v.warm].launchedAt <= v.at <= s.resets
  }

  predicate WarmOk(s: Sys, w: nat, f: Field)
    requires w in s.warms
  {
    var pw := s.warms[w];
    && pw.generation == pw.launchedAt <= s.resets
    && (Get(pw.ids, f).Some? ==> Get(pw.ids, f).value.warm == w && ProperlyFetched(s, Get(pw.ids, f).value))
  }

  // A visible value was fetched by a pre-warm launched after the last reset that concerns its field.
  predicate FieldOk(s: Sys, f: Field) {
    var v := Get(s.ids, f);
    v.Some? ==>
      && ProperlyFetched(s, v.value)
      && s.warms[v.value.warm].launchedAt >= (if OfTheCard(f) then s.resets else s.cleared)
  }

  ghost predicate Inv(s: Sys) {
    && s.generation == s.resets && s.cleared <= s.resets
    && (forall w, f | w in s.warms :: WarmOk(s, w, f))
    && (forall f :: FieldOk(s, f))
  }

  // ------------------------------------------------------------------ preservation

  predicate Counters(s: Sys) {
    s.generation == s.resets && s.cleared <= s.resets
  }

  lemma KeepsCounters(s: Sys, a: Action)
    requires Enabled(s, a) && Counters(s)
    ensures Counters(Apply(s, a))
  {
  }

  lemma SetIsPerField<T>(ids: Ids<T>, g: Field, v: Option<T>, f: Field)
    ensures Get(Set(ids, g, v), f) == if f == g then v else Get(ids, f)
  {
  }

  lemma KeepsWarm(s: Sys, a: Action, w: nat, f: Field)
    requires Enabled(s, a) && Counters(s) && w in Apply(s, a).warms
    requires w in s.warms ==> WarmOk(s, w, f)
    ensures WarmOk(Apply(s, a), w, f)
  {
    hide Set, Overlay, WithoutCard;
    if a.Fetch? && a.w == w {
      SetIsPerField(s.warms[w].ids, a.field, Some(Fetched(a.text, w, s.resets)), f);
    }
  }

  lemma KeepsField(s: Sys, a: Action, f: Field)
    requires Enabled(s, a) && Counters(s) && FieldOk(s, f)
    requires a.Commit? ==> WarmOk(s, a.w, f)
    ensures FieldOk(Apply(s, a), f)
  {
    hide Set, Overlay;
    if a.Commit? {
      OverlayIsPerField(s.ids, s.warms[a.w].ids, f);
    }
  }

  lemma StepPreserves(s: Sys, a: Action)
    requires Inv(s) && Enabled(s, a)
    ensures Inv(Apply(s, a))
  {
    hide Apply, Enabled, WarmOk, FieldOk;
    KeepsCounters(s, a);
    forall w, f | w in Apply(s, a).warms
      ensures WarmOk(Apply(s, a), w, f)
    {
      KeepsWarm(s, a, w, f);
    }
    CommitterRuns(s, a);
    forall f
      ensures FieldOk(Apply(s, a), f)
    {
      KeepsField(s, a, f);
    }
  }

  lemma CommitterRuns(s: Sys, a: Action)
    requires Enabled(s, a)
    ensures a.Commit? ==> a.w in s.warms
  {
  }

  lemma {:induction false} RunsAreSafe(states: seq<Sys>, actions: seq<Action>, i: nat)
    requires IsRun(states, actions) && i < |states|
    ensures Inv(states[i])
  {
    hide Apply, Enabled, WarmOk, Inv;
    if i > 0 {
      RunsAreSafe(states, actions, i - 1);
      StepPreserves(states[i - 1], actions[i - 1]);
    } else {
      InitiallySafe(states[0]);
    }
  }

  lemma InitiallySafe(s: Sys)
    requires Initial(s)
    ensures Inv(s)
  {
  }

  // A visible ICCID, IMSI or card state was fetched, by a pre-warm, with no reset since its launch:
  // neither before the fetch nor after it.
  lemma NoStaleCardIdentity(states: seq<Sys>, actions: seq<Action>, i: nat, f: Field)
    requires IsRun(states, actions) && i < |states|
    requires OfTheCard(f) && Get(states[i].ids, f).Some?
    ensures var s := states[i]; var v := Get(s.ids, f).value;
            v.warm in s.warms && s.warms[v.warm].launchedAt == s.resets && v.at == s.resets
  {
    RunsAreSafe(states, actions, i);
    assert FieldOk(states[i], f);
    assert WarmOk(states[i], Get(states[i].ids, f).value.warm, f);
  }

  // A visible static value was fetched by a pre-warm launched after the last reset of everything.
  lemma NoStaleStaticIdentity(states: seq<Sys>, actions: seq<Action>, i: nat, f: Field)
    requires IsRun(states, actions) && i < |states| && Get(states[i].ids, f).Some?
    ensures var s := states[i]; var v := Get(s.ids, f).value;
            v.warm in s.warms && s.cleared <= s.warms[v.warm].launchedAt <= v.at
  {
    RunsAreSafe(states, actions, i);
    assert FieldOk(states[i], f);
  }

  // A reset in between makes a pre-warm's commit a no-op.
  lemma ResetDefeatsPreWarm(states: seq<Sys>, actions: seq<Action>, i: nat)
    requires IsRun(states, actions) && i < |actions| && actions[i].Commit?
    ensures actions[i].w in states[i].warms
    ensures states[i].warms[actions[i].w].launchedAt < states[i].resets ==> states[i + 1].ids == states[i].ids
  {
    RunsAreSafe(states, actions, i);
    assert Enabled(states[i], actions[i]);
    assert WarmOk(states[i], actions[i].w, Imei);
  }

  // ------------------------------------------------------------------ what gets through

  // A commit shows every value its pre-warm has fetched exactly when no reset came after the launch, and
  // leaves the other fields alone.
  lemma CommitShows(states: seq<Sys>, actions: seq<Action>, i: nat, f: Field)
    requires IsRun(states, actions) && i < |actions| && actions[i].Commit?
    ensures actions[i].w in states[i].warms
    ensures var pw := states[i].warms[actions[i].w];
            Get(states[i + 1].ids, f) ==
            if pw.launchedAt == states[i].resets && Get(pw.ids, f).Some? then Get(pw.ids, f)
            else Get(states[i].ids, f)
  {
    hide Overlay;
    RunsAreSafe(states, actions, i);
    assert Enabled(states[i], actions[i]);
    assert WarmOk(states[i], actions[i].w, f);
    OverlayIsPerField(states[i].ids, states[i].warms[actions[i].w].ids, f);
  }

  // A fetch puts its value on record for the commit, in its own field.
  lemma FetchRecords(s: Sys, w: nat, f: Field, text: string, g: Field)
    requires Enabled(s, Fetch(w, f, text))
    ensures Get(Apply(s, Fetch(w, f, text)).warms[w].ids, g) ==
            if g == f then Some(Fetched(text, w, s.resets)) else Get(s.warms[w].ids, g)
  {
    hide Set;
    SetIsPerField(s.warms[w].ids, f, Some(Fetched(text, w, s.resets)), g);
  }

  // A pre-warm fetches the card fields in any case and the others exactly when forced or when no IMEI
  // was visible as it looked.
  lemma LookDecides(s: Sys, w: nat, f: Field, text: string)
    requires Enabled(s, Look(w))
    ensures Enabled(Apply(s, Look(w)), Fetch(w, f, text)) <==>
            OfTheCard(f) || s.warms[w].forceAll || Get(s.ids, Imei).None?
  {
  }

  // A reset leaves no card field visible, and a reset of everything none at all.
  lemma ResetsClear(s: Sys, f: Field)
    ensures Get(Apply(s, ResetCard).ids, f) == if OfTheCard(f) then None else Get(s.ids, f)
    ensures Get(Apply(s, ResetAll).ids, f) == None
  {
  }

  // A pre-warm that nobody disturbs, up to its commit, fetching one field.
  function FetchedAlone(s: Sys, w: nat, forceAll: bool, f: Field, text: string): Sys
    requires w !in s.warms && (OfTheCard(f) || forceAll || Get(s.ids, Imei).None?)
  {
    var a := Apply(s, Launch(w, forceAll));
    var b := Apply(a, Look(w));
    Apply(b, Fetch(w, f, text))
  }

  // It makes what it fetched visible.
  lemma UndisturbedPreWarmShows(s: Sys, w: nat, forceAll: bool, f: Field, text: string)
    requires w !in s.warms && (OfTheCard(f) || forceAll || Get(s.ids, Imei).None?)
    ensures var t := FetchedAlone(s, w, forceAll, f, text);
            && Enabled(t, Commit(w)) && Get(Apply(t, Commit(w)).ids, f) == Some(Fetched(text, w, s.resets))
  {
    hide Set, Overlay;
    var b := Apply(Apply(s, Launch(w, forceAll)), Look(w));
    FetchRecords(b, w, f, text, f);
    var c := Apply(b, Fetch(w, f, text));
    OverlayIsPerField(c.ids, c.warms[w].ids, f);
  }
}
