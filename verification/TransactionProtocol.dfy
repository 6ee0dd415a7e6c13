// Requests, the read loop and the teardown of the client, interleaved: each step is one atomic
// increment, one mutex section or one channel operation.

module TransactionProtocol {
  import opened Bytes
  import opened Transactions
  import opened Wrappers

  // A frame the read loop decoded; `serial` tells two frames with equal contents apart.
  datatype Response = Response(serial: nat, service: Byte, txID: U16, indication: bool)

  datatype Outcome = Answered(response: Response) | Failed

  datatype Phase =
    | Fresh
    | DrewZero                    // the first increment produced ID 0; a second one follows
    | Drawn                       // owns an ID, not yet in the table
    | Waiting                     // registered
    | Settled(outcome: Outcome)   // about to run completeTransaction
    | Done(outcome: Outcome)

  // `start` and `draw` are the positions of the first and the last increment of the request in
  // the history of its counter.
  datatype Request = Request(service: Byte, phase: Phase, txID: U16, start: nat, draw: nat)

  datatype Channel = Channel(closed: bool, buffer: Option<Response>)

  datatype Reader = Reading | Holding(request: nat, response: Response) | Stopped

  // `ctlDraws` and `otherDraws` count all increments ever made; the 32-bit counters of the client
  // are these numbers modulo 2^32. `route` remembers to which request a response was matched.
  datatype Sys = Sys(
    ctlDraws: nat,
    otherDraws: nat,
    requests: map<nat, Request>,
    table: map<nat, nat>,
    channels: map<nat, Channel>,
    reader: Reader,
    nextSerial: nat,
    route: map<nat, nat>)

  datatype Action =
    | Draw(r: nat)
    | DrawAgain(r: nat)
    | Register(r: nat)
    | Receive(r: nat)
    | GiveUp(r: nat)                               // context done, write error or client closing
    | Complete(r: nat)
    | ReadFrame(service: Byte, txID: U16, indication: bool)
    | Send
    | ReadError                                    // the read loop fails what is pending and ends
    | StopReading                                  // the read loop sees the client closing
    | CloseFails                                   // Close, after the read loop has ended

  function Draws(s: Sys, service: Byte): nat {
    if service == SERVICE_CONTROL then s.ctlDraws else s.otherDraws
  }

  function AddDraw(s: Sys, service: Byte): Sys {
    if service == SERVICE_CONTROL then s.(ctlDraws := s.ctlDraws + 1) else s.(otherDraws := s.otherDraws + 1)
  }

  function KeyOf(q: Request): nat {
    Key(q.service, q.txID)
  }

  predicate Enabled(s: Sys, a: Action) {
    match a
    case Draw(r) => r in s.requests && s.requests[r].phase.Fresh?
    case DrawAgain(r) => r in s.requests && s.requests[r].phase.DrewZero?
    case Register(r) => r in s.requests && s.requests[r].phase.Drawn?
    case Receive(r) =>
      && r in s.requests && s.requests[r].phase.Waiting?
      && r in s.channels && (s.channels[r].buffer.Some? || s.channels[r].closed)
    case GiveUp(r) => r in s.requests && s.requests[r].phase.Waiting?
    case Complete(r) => r in s.requests && s.requests[r].phase.Settled?
    case ReadFrame(_, _, _) => s.reader.Reading?
    case Send => s.reader.Holding?
    case ReadError => s.reader.Reading?
    case StopReading => s.reader.Reading?
    case CloseFails => s.reader.Stopped?
  }

  function SetRequest(s: Sys, r: nat, q: Request): Sys {
    s.(requests := s.requests[r := q])
  }

  // The request channels that the table refers to.
  function Pending(s: Sys): set<nat> {
    s.table.Values
  }

  function FailAll(s: Sys): Sys {
    s.(table := map[],
       channels := map r | r in s.channels ::
                     if r in Pending(s) then s.channels[r].(closed := true) else s.channels[r])
  }

  function Apply(s: Sys, a: Action): Sys
    requires Enabled(s, a)
  {
    match a
    case Draw(r) =>
      var q := s.requests[r];
      var n := Draws(s, q.service) + 1;
      var id := IdOf(q.service, n);
      SetRequest(AddDraw(s, q.service), r,
                 q.(phase := if id == 0 then DrewZero else Drawn, txID := id, start := n, draw := n))
    case DrawAgain(r) =>
      var q := s.requests[r];
      var n := Draws(s, q.service) + 1;
      SetRequest(AddDraw(s, q.service), r, q.(phase := Drawn, txID := IdOf(q.service, n), draw := n))
    case Register(r) =>
      var q := s.requests[r];
      SetRequest(s.(table := s.table[KeyOf(q) := r], channels := s.channels[r := Channel(false, None)]),
                 r, q.(phase := Waiting))
    case Receive(r) =>
      var ch := s.channels[r];
      var outcome := match ch.buffer case Some(response) => Answered(response) case None => Failed;
      SetRequest(s.(channels := s.channels[r := ch.(buffer := None)]), r, s.requests[r].(phase := Settled(outcome)))
    case GiveUp(r) => SetRequest(s, r, s.requests[r].(phase := Settled(Failed)))
    case Complete(r) =>
      var q := s.requests[r];
      SetRequest(s.(table := s.table - {KeyOf(q)}), r, q.(phase := Done(q.phase.outcome)))
    case ReadFrame(service, txID, indication) =>
      var key := Key(service, txID);
      if key in s.table && !indication then
        s.(reader := Holding(s.table[key], Response(s.nextSerial, service, txID, indication)),
           route := s.route[s.nextSerial := s.table[key]],
           nextSerial := s.nextSerial + 1)
      else
        s.(nextSerial := s.nextSerial + 1)
    case Send =>
      var r := s.reader.request;
      var t := s.(reader := Reading);
      if r in s.channels && s.channels[r].buffer.None? then
        t.(channels := s.channels[r := s.channels[r].(buffer := Some(s.reader.response))])
      else
        t
    case ReadError => FailAll(s).(reader := Stopped)
    case StopReading => s.(reader := Stopped)
    case CloseFails => FailAll(s)
  }

  ghost predicate Initial(s: Sys) {
    && s.ctlDraws == 0 && s.otherDraws == 0
    && (forall r <- s.requests :: s.requests[r].phase.Fresh?)
    && s.table == map[] && s.channels == map[] && s.reader == Reading && s.nextSerial == 0 && s.route == map[]
  }

  // ------------------------------------------------------------------ the assumption

  predicate Live(q: Request) {
    q.phase.DrewZero? || q.phase.Drawn? || q.phase.Waiting? || q.phase.Settled?
  }

  predicate HasId(q: Request) {
    q.phase.Drawn? || q.phase.Waiting? || q.phase.Settled?
  }

  predicate Registered(q: Request) {
    q.phase.Waiting? || q.phase.Settled?
  }

  // Of the counter of a live request: fewer than a period of increments from its first to its last
  // draw, and fewer than a period after the last. `slack` widens both.
  ghost predicate DrawsWithin(s: Sys, slack: nat) {
    forall r <- s.requests | Live(s.requests[r]) ::
      var q := s.requests[r];
      && q.draw - q.start < Period(q.service) + slack
      && Draws(s, q.service) - q.draw < Period(q.service) + slack
  }

  ghost predicate FewDraws(s: Sys) {
    DrawsWithin(s, 0)
  }

  ghost predicate IsRunWithin(states: seq<Sys>, actions: seq<Action>, slack: nat) {
    && |states| == |actions| + 1
    && Initial(states[0])
    && (forall i | 0 <= i < |actions| ::
          Enabled(states[i], actions[i]) && states[i + 1] == Apply(states[i], actions[i]))
    && (forall i | 0 <= i < |states| :: DrawsWithin(states[i], slack))
  }

  ghost predicate IsRun(states: seq<Sys>, actions: seq<Action>) {
    IsRunWithin(states, actions, 0)
  }

  // ------------------------------------------------------------------ the invariant

  // IDs come from the counter history and are nonzero.
  ghost predicate IdsFromDraws(s: Sys) {
    && (forall r <- s.requests | Live(s.requests[r]) ::
          var q := s.requests[r];
          0 < q.start <= q.draw <= Draws(s, q.service) && q.txID == IdOf(q.service, q.draw))
    && (forall r <- s.requests | s.requests[r].phase.DrewZero? ::
          s.requests[r].txID == 0 && s.requests[r].start == s.requests[r].draw)
    && (forall r <- s.requests | HasId(s.requests[r]) :: s.requests[r].txID != 0)
  }

  // No two live requests of one counter made the same increment.
  ghost predicate DrawsDistinct(s: Sys) {
    && (forall q, r | q in s.requests && r in s.requests && q != r && Live(s.requests[q]) && Live(s.requests[r])
          && (s.requests[q].service == SERVICE_CONTROL <==> s.requests[r].service == SERVICE_CONTROL) ::
          s.requests[q].draw != s.requests[r].draw)
  }

  // The table holds registered requests under their own keys; a registered request is in the
  // table or its channel was closed.
  ghost predicate TableExact(s: Sys) {
    && (forall k <- s.table ::
          var r := s.table[k];
          && r in s.requests && Registered(s.requests[r]) && KeyOf(s.requests[r]) == k
          && r in s.channels && !s.channels[r].closed)
    && (forall r <- s.requests | Registered(s.requests[r]) ::
          && r in s.channels
          && (s.channels[r].closed || (KeyOf(s.requests[r]) in s.table && s.table[KeyOf(s.requests[r])] == r)))
    && (forall r <- s.channels :: r in s.requests && (Registered(s.requests[r]) || s.requests[r].phase.Done?))
  }

  predicate IsAnswered(q: Request) {
    (q.phase.Settled? || q.phase.Done?) && q.phase.outcome.Answered?
  }

  ghost predicate MatchedTo(s: Sys, response: Response, r: nat) {
    && !response.indication
    && r in s.requests && Key(response.service, response.txID) == KeyOf(s.requests[r])
    && response.serial in s.route && s.route[response.serial] == r
  }

  // Every response on its way or delivered is with the request it was matched to, and the read
  // loop never holds one for a closed channel.
  ghost predicate Routed(s: Sys) {
    && (forall n <- s.route :: n < s.nextSerial)
    && (s.reader.Holding? ==>
          && MatchedTo(s, s.reader.response, s.reader.request)
          && s.reader.request in s.channels && !s.channels[s.reader.request].closed)
    && (forall r <- s.channels | s.channels[r].buffer.Some? :: MatchedTo(s, s.channels[r].buffer.value, r))
    && (forall r <- s.requests | IsAnswered(s.requests[r]) :: MatchedTo(s, s.requests[r].phase.outcome.response, r))
  }

  ghost predicate Inv(s: Sys) {
    IdsFromDraws(s) && DrawsDistinct(s) && TableExact(s) && Routed(s)
  }

  lemma LessThanAPeriod(service: Byte, d: nat)
    requires 0 < d < Period(service)
    ensures d % Period(service) != 0
  {
  }

  // Two live requests of one counter have different IDs.
  lemma IdsAreDistinct(s: Sys, q: nat, r: nat)
    requires IdsFromDraws(s) && DrawsDistinct(s) && FewDraws(s)
    requires q in s.requests && r in s.requests && q != r
    requires Live(s.requests[q]) && Live(s.requests[r])
    ensures s.requests[q].service == s.requests[r].service ==> s.requests[q].txID != s.requests[r].txID
  {
    hide IdOf;
    var a, b := s.requests[q], s.requests[r];
    if a.service == b.service {
      if a.draw < b.draw {
        IdsCollideIff(a.service, a.draw, b.draw - a.draw);
        LessThanAPeriod(a.service, b.draw - a.draw);
      } else {
        IdsCollideIff(a.service, b.draw, a.draw - b.draw);
        LessThanAPeriod(a.service, a.draw - b.draw);
      }
    }
  }

  lemma KeysAreDistinct(s: Sys, q: nat, r: nat)
    requires IdsFromDraws(s) && DrawsDistinct(s) && FewDraws(s)
    requires q in s.requests && r in s.requests && q != r
    requires Live(s.requests[q]) && Live(s.requests[r])
    ensures KeyOf(s.requests[q]) != KeyOf(s.requests[r])
  {
    IdsAreDistinct(s, q, r);
    var a, b := s.requests[q], s.requests[r];
    KeysAreInjective(a.service, a.txID, b.service, b.txID);
  }

  // ------------------------------------------------------------------ preservation

  lemma DrawKeepsIds(s: Sys, r: nat)
    requires Enabled(s, Draw(r)) && IdsFromDraws(s)
    ensures IdsFromDraws(Apply(s, Draw(r)))
  {
    hide IdOf;
  }

  lemma DrawAgainKeepsIds(s: Sys, r: nat)
    requires Enabled(s, DrawAgain(r)) && IdsFromDraws(s) && FewDraws(Apply(s, DrawAgain(r)))
    ensures IdsFromDraws(Apply(s, DrawAgain(r)))
  {
    hide IdOf;
    var q := Apply(s, DrawAgain(r)).requests[r];
    IdsCollideIff(q.service, q.start, q.draw - q.start);
    LessThanAPeriod(q.service, q.draw - q.start);
  }

  lemma IdsKept(s: Sys, a: Action)
    requires Enabled(s, a) && IdsFromDraws(s) && FewDraws(Apply(s, a))
    ensures IdsFromDraws(Apply(s, a))
  {
    if a.Draw? {
      DrawKeepsIds(s, a.r);
    } else if a.DrawAgain? {
      DrawAgainKeepsIds(s, a.r);
    } else {
      NoNewDraws(s, a);
      hide Apply, IdOf;
    }
  }

  // The other steps draw nothing and give nobody an ID.
  ghost predicate SameDraws(s: Sys, t: Sys) {
    && t.ctlDraws == s.ctlDraws && t.otherDraws == s.otherDraws
    && t.requests.Keys == s.requests.Keys
    && (forall r <- s.requests ::
          && t.requests[r].(phase := Fresh) == s.requests[r].(phase := Fresh)
          && (Live(t.requests[r]) ==> Live(s.requests[r]))
          && (HasId(t.requests[r]) ==> HasId(s.requests[r]))
          && (t.requests[r].phase.DrewZero? ==> s.requests[r].phase.DrewZero?))
  }

  lemma NoNewDraws(s: Sys, a: Action)
    requires Enabled(s, a) && !a.Draw? && !a.DrawAgain?
    ensures SameDraws(s, Apply(s, a))
  {
    hide FailAll, Key;
    FailAllKeepsRequests(s);
  }

  lemma DrawsKept(s: Sys, a: Action)
    requires Enabled(s, a) && IdsFromDraws(s) && DrawsDistinct(s)
    ensures DrawsDistinct(Apply(s, a))
  {
    if a.Draw? || a.DrawAgain? {
      NewDrawIsDistinct(s, a);
    } else {
      NoNewDraws(s, a);
      hide Apply, IdsFromDraws;
    }
  }

  lemma NewDrawIsDistinct(s: Sys, a: Action)
    requires Enabled(s, a) && IdsFromDraws(s) && DrawsDistinct(s)
    requires a.Draw? || a.DrawAgain?
    ensures DrawsDistinct(Apply(s, a))
  {
    hide IdOf;
  }

  lemma FailAllKeepsRequests(s: Sys)
    ensures FailAll(s).requests == s.requests
    ensures FailAll(s).ctlDraws == s.ctlDraws && FailAll(s).otherDraws == s.otherDraws
  {
  }

  // The key of a registered request is its own as long as IDs are distinct.
  ghost predicate KeysDistinct(s: Sys) {
    forall q, r | q in s.requests && r in s.requests && q != r && Live(s.requests[q]) && Live(s.requests[r]) ::
      KeyOf(s.requests[q]) != KeyOf(s.requests[r])
  }

  lemma AllKeysAreDistinct(s: Sys)
    requires IdsFromDraws(s) && DrawsDistinct(s) && FewDraws(s)
    ensures KeysDistinct(s)
  {
    hide IdsFromDraws, DrawsDistinct, FewDraws, KeyOf;
    forall q, r | q in s.requests && r in s.requests && q != r && Live(s.requests[q]) && Live(s.requests[r])
      ensures KeyOf(s.requests[q]) != KeyOf(s.requests[r])
    {
      KeysAreDistinct(s, q, r);
    }
  }

  // Steps that neither register nor complete a request leave the table exact.
  lemma TableFramed(s: Sys, t: Sys)
    requires TableExact(s) && t.table == s.table
    requires t.requests.Keys == s.requests.Keys && t.channels.Keys == s.channels.Keys
    requires forall r <- s.channels :: t.channels[r].closed == s.channels[r].closed
    requires forall r <- s.requests ::
               && Registered(t.requests[r]) == Registered(s.requests[r])
               && t.requests[r].phase.Done? == s.requests[r].phase.Done?
               && (Registered(s.requests[r]) ==> KeyOf(t.requests[r]) == KeyOf(s.requests[r]))
    ensures TableExact(t)
  {
    hide Key;
  }

  lemma RegisterKeepsTable(s: Sys, r: nat)
    requires Enabled(s, Register(r)) && TableExact(s) && KeysDistinct(s)
    ensures TableExact(Apply(s, Register(r)))
  {
    hide Key;
  }

  lemma CompleteKeepsTable(s: Sys, r: nat)
    requires Enabled(s, Complete(r)) && TableExact(s) && KeysDistinct(s)
    ensures TableExact(Apply(s, Complete(r)))
  {
    hide Key;
  }

  lemma TableByReader(s: Sys, a: Action)
    requires Enabled(s, a) && TableExact(s)
    requires a.ReadFrame? || a.Send? || a.StopReading?
    ensures TableExact(Apply(s, a))
  {
    hide TableExact, Key;
    TableFramed(s, Apply(s, a));
  }

  lemma TableByRequest(s: Sys, a: Action)
    requires Enabled(s, a) && TableExact(s)
    requires a.Draw? || a.DrawAgain? || a.Receive? || a.GiveUp?
    ensures TableExact(Apply(s, a))
  {
    hide TableExact, IdOf, Key;
    TableFramed(s, Apply(s, a));
  }

  lemma TableKept(s: Sys, a: Action)
    requires Enabled(s, a) && TableExact(s) && KeysDistinct(s)
    requires !a.ReadError? && !a.CloseFails?
    ensures TableExact(Apply(s, a))
  {
    hide TableExact, KeysDistinct, Apply;
    match a
    case Register(r) => RegisterKeepsTable(s, r);
    case Complete(r) => CompleteKeepsTable(s, r);
    case ReadFrame(_, _, _) => TableByReader(s, a);
    case Send => TableByReader(s, a);
    case StopReading => TableByReader(s, a);
    case Draw(_) => TableByRequest(s, a);
    case DrawAgain(_) => TableByRequest(s, a);
    case Receive(_) => TableByRequest(s, a);
    case GiveUp(_) => TableByRequest(s, a);
  }

  lemma TableFails(s: Sys)
    requires TableExact(s)
    ensures TableExact(FailAll(s))
  {
    hide Key;
    var t := FailAll(s);
    forall r <- t.requests | Registered(t.requests[r])
      ensures r in t.channels && t.channels[r].closed
    {
      if !s.channels[r].closed {
        assert s.table[KeyOf(s.requests[r])] == r;
        assert r in s.table.Values;
      }
    }
  }

  // Steps of a request itself do not disturb what was matched.
  lemma RoutedByDraw(s: Sys, a: Action)
    requires Enabled(s, a) && TableExact(s) && Routed(s)
    requires a.Draw? || a.DrawAgain?
    ensures Routed(Apply(s, a))
  {
    hide IdOf, Key;
  }

  lemma RoutedByEnd(s: Sys, a: Action)
    requires Enabled(s, a) && TableExact(s) && Routed(s)
    requires a.GiveUp? || a.Complete?
    ensures Routed(Apply(s, a))
  {
    hide Key;
  }

  lemma RoutedByRegister(s: Sys, r: nat)
    requires Enabled(s, Register(r)) && TableExact(s) && Routed(s)
    ensures Routed(Apply(s, Register(r)))
  {
    hide Key;
  }

  lemma RoutedByReceive(s: Sys, r: nat)
    requires Enabled(s, Receive(r)) && TableExact(s) && Routed(s)
    ensures Routed(Apply(s, Receive(r)))
  {
    hide Key;
  }

  lemma RoutedByReader(s: Sys, a: Action)
    requires Enabled(s, a) && TableExact(s) && Routed(s)
    requires a.ReadFrame? || a.Send? || a.StopReading?
    ensures Routed(Apply(s, a))
  {
    hide Key;
  }

  lemma RoutedKept(s: Sys, a: Action)
    requires Enabled(s, a) && TableExact(s) && Routed(s)
    requires !a.ReadError? && !a.CloseFails?
    ensures Routed(Apply(s, a))
  {
    hide TableExact, Routed, Apply;
    match a
    case Register(r) => RoutedByRegister(s, r);
    case Receive(r) => RoutedByReceive(s, r);
    case ReadFrame(_, _, _) => RoutedByReader(s, a);
    case Send => RoutedByReader(s, a);
    case StopReading => RoutedByReader(s, a);
    case Draw(_) => RoutedByDraw(s, a);
    case DrawAgain(_) => RoutedByDraw(s, a);
    case GiveUp(_) => RoutedByEnd(s, a);
    case Complete(_) => RoutedByEnd(s, a);
  }

  lemma RoutedFails(s: Sys)
    requires Routed(s) && !s.reader.Holding?
    ensures Routed(FailAll(s))
  {
    hide Key;
  }

  lemma StepPreserves(s: Sys, a: Action)
    requires Inv(s) && Enabled(s, a) && FewDraws(s) && FewDraws(Apply(s, a))
    ensures Inv(Apply(s, a))
  {
    hide IdsFromDraws, DrawsDistinct, TableExact, Routed, FewDraws, KeysDistinct;
    IdsKept(s, a);
    DrawsKept(s, a);
    AllKeysAreDistinct(s);
    if a.ReadError? || a.CloseFails? {
      TableFails(s);
      RoutedFails(s);
      StoppingKeepsTheRest(FailAll(s));
    } else {
      TableKept(s, a);
      RoutedKept(s, a);
    }
  }

  lemma StoppingKeepsTheRest(s: Sys)
    requires TableExact(s) && Routed(s)
    ensures TableExact(s.(reader := Stopped)) && Routed(s.(reader := Stopped))
  {
  }

  lemma {:induction false} RunsAreSafe(states: seq<Sys>, actions: seq<Action>, k: nat)
    requires IsRun(states, actions) && k < |states|
    ensures Inv(states[k])
  {
    if k > 0 {
      RunsAreSafe(states, actions, k - 1);
      StepPreserves(states[k - 1], actions[k - 1]);
    }
  }

  // ------------------------------------------------------------------ what users rely on

  // Pending requests have nonzero IDs and distinct keys, and the table finds each of them under
  // its own key unless its channel was closed.
  lemma PendingRequestsAreDistinct(states: seq<Sys>, actions: seq<Action>, k: nat, q: nat, r: nat)
    requires IsRun(states, actions) && k < |states|
    requires var s := states[k];
             && q in s.requests && r in s.requests && q != r
             && Registered(s.requests[q]) && Registered(s.requests[r])
    ensures var s := states[k];
            && s.requests[q].txID != 0
            && KeyOf(s.requests[q]) != KeyOf(s.requests[r])
            && q in s.channels
            && (!s.channels[q].closed ==> KeyOf(s.requests[q]) in s.table && s.table[KeyOf(s.requests[q])] == q)
  {
    RunsAreSafe(states, actions, k);
    KeysAreDistinct(states[k], q, r);
  }

  // A response reaches only a request with its service and ID, no two requests receive the same
  // response, and none is answered by an indication.
  lemma ResponsesReachTheirRequest(states: seq<Sys>, actions: seq<Action>, k: nat, q: nat, r: nat)
    requires IsRun(states, actions) && k < |states|
    requires var s := states[k];
             q in s.requests && r in s.requests && IsAnswered(s.requests[q]) && IsAnswered(s.requests[r])
    ensures var s := states[k];
            var a, b := s.requests[q].phase.outcome.response, s.requests[r].phase.outcome.response;
            && a.service == s.requests[q].service && a.txID == s.requests[q].txID
            && (a.serial == b.serial ==> q == r)
            && !a.indication
  {
    RunsAreSafe(states, actions, k);
    var s := states[k];
    var a := s.requests[q].phase.outcome.response;
    assert MatchedTo(s, a, q);
    KeysAreInjective(a.service, a.txID, s.requests[q].service, s.requests[q].txID);
  }

  // A frame is taken for a request exactly when it is no indication and some registered request with
  // an open channel has its service and ID; the read loop then holds it for that request.
  lemma FramesAreTakenIff(states: seq<Sys>, actions: seq<Action>, k: nat)
    requires IsRun(states, actions) && k < |actions| && actions[k].ReadFrame?
    ensures var s, f, reader := states[k], actions[k], states[k + 1].reader;
            && (reader.Holding? <==> !f.indication && exists r :: Addressee(s, r, f.service, f.txID))
            && (reader.Holding? ==> Addressee(s, reader.request, f.service, f.txID))
            && (forall r | Addressee(s, r, f.service, f.txID) && !f.indication ::
                  reader == Holding(r, Response(s.nextSerial, f.service, f.txID, false)))
  {
    RunsAreSafe(states, actions, k);
    var s, f := states[k], actions[k];
    forall r | Addressee(s, r, f.service, f.txID) && !f.indication
      ensures states[k + 1].reader == Holding(r, Response(s.nextSerial, f.service, f.txID, false))
    {
      assert KeyOf(s.requests[r]) == Key(f.service, f.txID);
    }
    if states[k + 1].reader.Holding? {
      TakenFramesHaveAnAddressee(s, f.service, f.txID);
      assert Addressee(s, states[k + 1].reader.request, f.service, f.txID);
    }
  }

  predicate Addressee(s: Sys, r: nat, service: Byte, txID: U16) {
    && r in s.requests && Registered(s.requests[r])
    && s.requests[r].service == service && s.requests[r].txID == txID
    && r in s.channels && !s.channels[r].closed
  }

  lemma TakenFramesHaveAnAddressee(s: Sys, service: Byte, txID: U16)
    requires TableExact(s) && Key(service, txID) in s.table
    ensures Addressee(s, s.table[Key(service, txID)], service, txID)
  {
    var q := s.requests[s.table[Key(service, txID)]];
    KeysAreInjective(service, txID, q.service, q.txID);
  }

  // A response held for a request goes into its channel unless an earlier one is still there, and
  // nothing but the read loop itself comes in between.
  lemma HeldResponsesAreSent(states: seq<Sys>, actions: seq<Action>, k: nat)
    requires IsRun(states, actions) && k < |actions| && states[k].reader.Holding?
    ensures var s, t, r := states[k], states[k + 1], states[k].reader.request;
            && r in s.channels && r in t.channels
            && (actions[k].Send? ==>
                  && t.reader == Reading
                  && t.channels[r].buffer ==
                     if s.channels[r].buffer.None? then Some(s.reader.response) else s.channels[r].buffer)
            && (!actions[k].Send? ==> t.reader == s.reader && !t.channels[r].closed)
  {
    hide Inv, FewDraws;
    RunsAreSafe(states, actions, k);
    HeldIsOpen(states[k]);
    if actions[k].Send? {
      hide IsRun;
    } else {
      HeldStays(states[k], actions[k]);
      hide Apply;
    }
  }

  lemma HeldIsOpen(s: Sys)
    requires Inv(s) && s.reader.Holding?
    ensures s.reader.request in s.channels && !s.channels[s.reader.request].closed
  {
    hide TableExact, IdsFromDraws, DrawsDistinct, MatchedTo;
  }

  lemma HeldStays(s: Sys, a: Action)
    requires Enabled(s, a) && s.reader.Holding? && !a.Send?
    requires s.reader.request in s.channels && !s.channels[s.reader.request].closed
    ensures var t := Apply(s, a);
            && t.reader == s.reader && s.reader.request in t.channels && !t.channels[s.reader.request].closed
  {
    hide Key, IdOf, FailAll;
  }

  // A response in the channel of a waiting request stays there until the request takes it, as its
  // answer, or gives up.
  lemma SentResponsesAnswer(s: Sys, a: Action, r: nat)
    requires Inv(s) && Enabled(s, a) && FewDraws(s)
    requires r in s.requests && s.requests[r].phase.Waiting? && r in s.channels && s.channels[r].buffer.Some?
    ensures var t := Apply(s, a);
            r in t.requests
            && (a == Receive(r) ==> t.requests[r].phase == Settled(Answered(s.channels[r].buffer.value)))
            && (a == GiveUp(r) ==> t.requests[r].phase == Settled(Failed))
            && (a != Receive(r) && a != GiveUp(r) ==>
                  && t.requests[r] == s.requests[r]
                  && r in t.channels && t.channels[r].buffer == s.channels[r].buffer)
    ensures Enabled(s, Receive(r))
  {
    hide TableExact, IdsFromDraws, DrawsDistinct, Routed, Key, IdOf;
  }

  // An outcome, once decided, stays.
  lemma OutcomesAreFinal(s: Sys, a: Action, r: nat)
    requires Enabled(s, a) && r in s.requests
    requires s.requests[r].phase.Settled? || s.requests[r].phase.Done?
    ensures var p := Apply(s, a).requests[r].phase;
            (p.Settled? || p.Done?) && p.outcome == s.requests[r].phase.outcome
  {
    hide FailAll, IdOf, Key;
    FailAllKeepsRequests(s);
  }

  // The teardown closes only channels that are open, and the read loop sends only on open ones:
  // no channel is closed twice or used after it was closed.
  lemma ChannelsAreClosedOnce(states: seq<Sys>, actions: seq<Action>, k: nat)
    requires IsRun(states, actions) && k < |states|
    ensures var s := states[k];
            && (forall r <- Pending(s) :: r in s.channels && !s.channels[r].closed)
            && (s.reader.Holding? ==> s.reader.request in s.channels && !s.channels[s.reader.request].closed)
            && (forall j, i | j in s.table && i in s.table && s.table[i] == s.table[j] :: i == j)
  {
    RunsAreSafe(states, actions, k);
  }

  // ------------------------------------------------------------------ one increment more

  ghost predicate ReachableWithin(s: Sys, slack: nat) {
    exists states, actions :: IsRunWithin(states, actions, slack) && states[|states| - 1] == s
  }

  lemma ReachStart(s: Sys, slack: nat)
    requires Initial(s)
    ensures ReachableWithin(s, slack)
  {
    assert IsRunWithin([s], [], slack);
  }

  lemma ReachStep(s: Sys, a: Action, slack: nat)
    requires ReachableWithin(s, slack) && Enabled(s, a) && DrawsWithin(Apply(s, a), slack)
    ensures ReachableWithin(Apply(s, a), slack)
  {
    var states, actions :| IsRunWithin(states, actions, slack) && states[|states| - 1] == s;
    assert IsRunWithin(states + [Apply(s, a)], actions + [a], slack);
  }

  function Below(n: nat): (numbers: set<nat>)
    ensures forall i: nat :: i in numbers <==> i < n
  {
    if n == 0 then {} else Below(n - 1) + {n - 1}
  }

  function RequestAfter(k: nat, i: nat): Request {
    if i == 0 then Request(SERVICE_CONTROL, Waiting, 1, 1, 1)
    else if i <= k && i < 255 then Request(SERVICE_CONTROL, Drawn, i + 1, i + 1, i + 1)
    else Request(SERVICE_CONTROL, Fresh, 0, 0, 0)
  }

  // Requests 0 to k of 256 control requests have drawn; request 0 is waiting for its response.
  function AfterDraws(k: nat): Sys {
    Sys(k + 1, 0, map i | i in Below(256) :: RequestAfter(k, i),
        map[Key(SERVICE_CONTROL, 1) := 0], map[0 := Channel(false, None)], Reading, 0, map[])
  }

  function Untouched(): Sys {
    Sys(0, 0, map i | i in Below(256) :: Request(SERVICE_CONTROL, Fresh, 0, 0, 0), map[], map[], Reading, 0, map[])
  }

  lemma FirstDraws()
    ensures Enabled(Untouched(), Draw(0))
    ensures ReachableWithin(Apply(Untouched(), Draw(0)), 1)
  {
    hide ReachableWithin, Below;
    var s := Untouched();
    ReachStart(s, 1);
    ReachStep(s, Draw(0), 1);
  }

  lemma FirstRegisters()
    ensures var s := Apply(Untouched(), Draw(0)); Enabled(s, Register(0)) && Apply(s, Register(0)) == AfterDraws(0)
    ensures DrawsWithin(AfterDraws(0), 1)
  {
    hide Below;
    var s := Apply(Untouched(), Draw(0));
    var t := Apply(s, Register(0));
    assert t.requests == AfterDraws(0).requests;
  }

  lemma FirstRequestWaits()
    ensures ReachableWithin(AfterDraws(0), 1)
  {
    hide ReachableWithin, AfterDraws, DrawsWithin, Untouched, Apply, Enabled;
    FirstDraws();
    FirstRegisters();
    ReachStep(Apply(Untouched(), Draw(0)), Register(0), 1);
  }

  lemma {:induction false} ManyDraw(k: nat)
    requires k < 255
    ensures ReachableWithin(AfterDraws(k), 1)
  {
    hide ReachableWithin, Below;
    if k == 0 {
      FirstRequestWaits();
    } else {
      ManyDraw(k - 1);
      var s := AfterDraws(k - 1);
      var t := Apply(s, Draw(k));
      assert t.requests == AfterDraws(k).requests;
      ReachStep(s, Draw(k), 1);
    }
  }

  lemma LastDrawsZero() returns (s: Sys)
    ensures ReachableWithin(s, 1)
    ensures s == AfterDraws(254).(ctlDraws := 256, requests := s.requests)
    ensures s.requests == AfterDraws(254).requests[255 := Request(SERVICE_CONTROL, DrewZero, 0, 256, 256)]
  {
    hide ReachableWithin, Below;
    ManyDraw(254);
    s := AfterDraws(254);
    ReachStep(s, Draw(255), 1);
    s := Apply(s, Draw(255));
  }

  lemma LastDrawsAgain() returns (s: Sys)
    ensures ReachableWithin(s, 1)
    ensures s == AfterDraws(254).(ctlDraws := 257, requests := s.requests)
    ensures s.requests == AfterDraws(254).requests[255 := Request(SERVICE_CONTROL, Drawn, 1, 256, 257)]
  {
    hide ReachableWithin, Below;
    s := LastDrawsZero();
    ReachStep(s, DrawAgain(255), 1);
    s := Apply(s, DrawAgain(255));
  }

  // The bound is sharp: after exactly one period of further increments, the next request to register
  // takes the table entry of one that is still waiting, and with it the response meant for that one.
  lemma OnePeriodLaterOverwrites() returns (s: Sys)
    ensures ReachableWithin(s, 1)
    ensures 0 in s.requests && s.requests[0].phase.Waiting? && 0 in s.channels && !s.channels[0].closed
    ensures s.ctlDraws - s.requests[0].draw == Period(SERVICE_CONTROL)
    ensures KeyOf(s.requests[0]) in s.table && s.table[KeyOf(s.requests[0])] == 255
  {
    hide ReachableWithin, Below;
    s := LastDrawsAgain();
    ReachStep(s, Register(255), 1);
    s := Apply(s, Register(255));
  }

  // So is the bound between the two draws of a request: the second is zero again exactly when a
  // multiple of the period lies between them.
  lemma SecondDrawIsZeroIff(s: Sys, r: nat)
    requires IdsFromDraws(s) && Enabled(s, DrawAgain(r))
    ensures var q := Apply(s, DrawAgain(r)).requests[r];
            q.txID == 0 <==> (q.draw - q.start) % Period(q.service) == 0
  {
    hide IdOf;
    var q := Apply(s, DrawAgain(r)).requests[r];
    IdsCollideIff(q.service, q.start, q.draw - q.start);
  }
}
