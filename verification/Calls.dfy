/**
 Two endpoints of one session, each the peer of the other: what a caller is told is what the
 handler on the other side did, and a cancellation reaches the call it names.

 Each side's reader takes exactly the frames the other side wrote, in order.
 */
module Calls {
  import opened Status
  import opened Session
  import opened Engine
  import opened IdSpace
  import opened Waiters
  import opened CallServing
  import opened CallSettling
  import opened Cancellation
  import opened CallOrder

  datatype Pair = Pair(client: Engine, server: Engine)

  /** One side takes a step; a frame its reader takes is the next one the other side wrote. */
  ghost predicate SideStep(l: Label, e: Engine, e': Engine, peer: Engine) {
    && Step(l, e, e')
    && (l.Consume? ==> |e.net.consumed| < |peer.net.emitted| && l.frame == peer.net.emitted[|e.net.consumed|])
  }

  ghost predicate PairStep(l: Label, p: Pair, p': Pair) {
    || (SideStep(l, p.client, p'.client, p.server) && p'.server == p.server)
    || (SideStep(l, p.server, p'.server, p.client) && p'.client == p.client)
  }

  ghost predicate PairInit(p: Pair) {
    Init(p.client) && Init(p.server) && p.client.role == Client && p.server.role == Server
  }

  ghost predicate IsPairRun(run: seq<Pair>, labels: seq<Label>) {
    && |run| == |labels| + 1 && PairInit(run[0])
    && forall i :: 0 <= i < |labels| ==> PairStep(labels[i], run[i], run[i + 1])
  }

  /** Neither side has exhausted its identifiers. */
  predicate WithinPeriod(p: Pair) {
    p.client.callers.issued <= ID_PERIOD && p.server.callers.issued <= ID_PERIOD
  }

  ghost predicate PairReachable(p: Pair) {
    WithinPeriod(p) && exists run, labels :: IsPairRun(run, labels) && run[|run| - 1] == p
  }

  // ------------------------------------------------------------ composition

  ghost predicate LocalInv(e: Engine) {
    IdInv(e) && WaiterInv(e) && ServingInv(e) && SettlingInv(e) && CancelInv(e) && OrderInv(e)
  }

  lemma NewEngineIsLocal(e: Engine)
    requires Init(e)
    ensures LocalInv(e)
  {
    NewEngineHasIds(e);
    NewEngineHasNoWaiters(e);
    hide IdInv, WaiterInv;
  }

  lemma StepKeepsLocal(l: Label, e: Engine, e': Engine)
    requires LocalInv(e) && Step(l, e, e') && e'.callers.issued <= ID_PERIOD
    ensures LocalInv(e')
  {
    hide IdInv, WaiterInv, ServingInv, SettlingInv, CancelInv, OrderInv, Step;
    StepKeepsIds(l, e, e');
    StepKeepsWaiters(l, e, e');
    StepKeepsServing(l, e, e');
    StepKeepsSettling(l, e, e');
    StepKeepsCancel(l, e, e');
    StepKeepsOrder(l, e, e');
  }

  /** `e` and its peer agree on what crossed the wire, and `e` keeps its own invariants. */
  ghost predicate SideInv(e: Engine, peer: Engine, role: Role) {
    LocalInv(e) && e.role == role && e.net.consumed <= peer.net.emitted
  }

  ghost predicate PairInv(p: Pair) {
    SideInv(p.client, p.server, Client) && SideInv(p.server, p.client, Server)
  }

  lemma SideStepKeepsInv(l: Label, e: Engine, e': Engine, peer: Engine, role: Role, peerRole: Role)
    requires SideInv(e, peer, role) && SideInv(peer, e, peerRole)
    requires SideStep(l, e, e', peer) && e'.callers.issued <= ID_PERIOD
    ensures SideInv(e', peer, role) && SideInv(peer, e', peerRole)
  {
    hide LocalInv, Step;
    StepIssues(l, e, e');
    StepKeepsLocal(l, e, e');
  }

  lemma PairStepKeepsInv(l: Label, p: Pair, p': Pair)
    requires PairInv(p) && PairStep(l, p, p') && WithinPeriod(p')
    ensures PairInv(p') && WithinPeriod(p)
  {
    hide SideInv, Step;
    if SideStep(l, p.client, p'.client, p.server) && p'.server == p.server {
      StepIssues(l, p.client, p'.client);
      SideStepKeepsInv(l, p.client, p'.client, p.server, Client, Server);
    } else {
      StepIssues(l, p.server, p'.server);
      SideStepKeepsInv(l, p.server, p'.server, p.client, Server, Client);
    }
  }

  lemma PairStepIssues(l: Label, p: Pair, p': Pair)
    requires PairStep(l, p, p') && WithinPeriod(p')
    ensures WithinPeriod(p)
  {
    hide Step;
    if SideStep(l, p.client, p'.client, p.server) && p'.server == p.server {
      StepIssues(l, p.client, p'.client);
    } else {
      StepIssues(l, p.server, p'.server);
    }
  }

  lemma {:induction false} PairRunKeepsInv(run: seq<Pair>, labels: seq<Label>, n: nat)
    requires IsPairRun(run, labels) && n < |run| && WithinPeriod(run[n])
    ensures PairInv(run[n])
    decreases n
  {
    hide PairStep, Init;
    if n == 0 {
      NewEngineIsLocal(run[0].client);
      NewEngineIsLocal(run[0].server);
      hide LocalInv;
      InitTookNothing(run[0].client);
      InitTookNothing(run[0].server);
    } else {
      hide PairInv, WithinPeriod;
      assert PairStep(labels[n - 1], run[n - 1], run[n - 1 + 1]);
      PairStepIssues(labels[n - 1], run[n - 1], run[n]);
      PairRunKeepsInv(run, labels, n - 1);
      PairStepKeepsInv(labels[n - 1], run[n - 1], run[n]);
    }
  }

  lemma InitTookNothing(e: Engine)
    requires Init(e)
    ensures e.net.consumed == []
  {
  }

  lemma ReachableKeepsPairInv(p: Pair)
    requires PairReachable(p)
    ensures PairInv(p)
  {
    hide PairInv, PairStep;
    var run, labels :| IsPairRun(run, labels) && run[|run| - 1] == p;
    PairRunKeepsInv(run, labels, |run| - 1);
  }

  // ------------------------------------------------------------ correlation

  /** The peer's open frame for an identifier carries the content of the caller's request. */
  lemma OpenIsTheRequest(e: Engine, peer: Engine, t: Ticket, id: Id)
    requires LocalInv(e) && peer.net.consumed <= e.net.emitted
    requires t < |peer.net.consumed| && IsOpen(peer.net.consumed[t]) && peer.net.consumed[t].id == id
    ensures id in e.callers.requests && peer.net.consumed[t] == OpenFrameOf(id, e.callers.requests[id].kind)
    ensures forall u ::
              0 <= u < |peer.net.consumed| && IsOpen(peer.net.consumed[u]) && peer.net.consumed[u].id == id ==> u == t
  {
    hide KnownIds, Filed, Inbound, ReaderScope, Ticketed, WaiterInv, ServingInv, SettlingInv, CancelInv, OrderInv,
         OpenFrameOf;
    assert peer.net.consumed[t] == e.net.emitted[t];
    assert forall u :: 0 <= u < |peer.net.consumed| ==> peer.net.consumed[u] == e.net.emitted[u];
  }

  /** Where a value on an outcome channel came from. */
  lemma SettlementComesFrom(e: Engine, peer: Engine, id: Id, value: Settlement)
    requires LocalInv(e) && e.net.consumed <= peer.net.emitted
    requires value in SentOn(e.callers.sent, id)
    ensures id in e.callers.requests
    ensures value.source.FromEnd? ==> value.outcome.Failed?
    ensures value.source.FromFrame? ==>
              var n := value.source.index;
              && n < |peer.net.emitted| && !peer.net.emitted[n].CloseSession? && peer.net.emitted[n].id == id
              && !IsOpen(peer.net.emitted[n])
              && value.outcome == Meaning(e.callers.requests[id].kind, peer.net.emitted[n])
  {
    hide IdInv, ServingInv, CancelInv, OrderInv, KnownIds, AllCovered, ClosedMeansCollected, Meaning, HandTraceable,
         ResultsReceived;
    var i :| 0 <= i < |SentOn(e.callers.sent, id)| && SentOn(e.callers.sent, id)[i] == value;
    assert Started(e.callers.requests, id);
    assert e.callers.sent[id][i] == value;
    if value.source.FromFrame? {
      assert TraceableTo(e.callers.requests, e.net.consumed, id, value.source.index, value.outcome);
      assert e.net.consumed[value.source.index] == peer.net.emitted[value.source.index];
    }
  }

  /** The ticket under which the peer serves a request. */
  ghost predicate ServedAt(peer: Engine, id: Id, call: Call, t: Ticket) {
    && t < |peer.net.consumed| && peer.net.consumed[t] == OpenCall(id, Some(call))
    && forall u ::
         0 <= u < |peer.net.consumed| && IsOpen(peer.net.consumed[u]) && peer.net.consumed[u].id == id ==> u == t
  }

  /** Exactly one handler execution under the ticket, with the request's content and the session's identity. */
  ghost predicate RanOnce(peer: Engine, call: Call, t: Ticket, outcome: HandlerOutcome) {
    exists k ::
      && 0 <= k < |peer.serving.runs| && peer.serving.runs[k] == Run(t, call, peer.remote, outcome)
      && forall j :: 0 <= j < |peer.serving.runs| && j != k ==> peer.serving.runs[j].ticket != t
  }

  /** The request's call. */
  predicate IsCallOf(e: Engine, id: Id, call: Call) {
    id in e.callers.requests && e.callers.requests[id].kind == CallKind(call)
  }

  lemma TicketIsItsOpen(peer: Engine, t: Ticket)
    requires LocalInv(peer) && t in peer.serving.tickets
    ensures t < |peer.net.consumed|
    ensures peer.net.consumed[t] == OpenCall(peer.serving.tickets[t].id, Some(peer.serving.tickets[t].call))
  {
    hide KnownIds, Filed, Inbound, ReaderScope, OpensOnce, WaiterInv, ServingInv, SettlingInv, CancelInv, OrderInv;
  }

  lemma RunsAreOnce(peer: Engine)
    requires LocalInv(peer)
    ensures RunsOnce(peer.remote, peer.serving)
  {
    hide IdInv, WaiterInv, SettlingInv, CancelInv, OrderInv, AllExplained, Asked, ReaderExplained, RunsOnce;
  }

  lemma RunIsTheOnlyOne(e: Engine, peer: Engine, id: Id, call: Call, t: Ticket, outcome: HandlerOutcome)
    requires LocalInv(e) && LocalInv(peer) && peer.net.consumed <= e.net.emitted && IsCallOf(e, id, call)
    requires t in peer.serving.tickets && peer.serving.tickets[t].id == id && HasRun(peer.serving.runs, t, outcome)
    ensures ServedAt(peer, id, call, t) && RanOnce(peer, call, t, outcome)
  {
    hide LocalInv;
    TicketIsItsOpen(peer, t);
    OpenIsTheRequest(e, peer, t, id);
    RunsAreOnce(peer);
    var k :| 0 <= k < |peer.serving.runs| && peer.serving.runs[k].ticket == t &&
        peer.serving.runs[k].outcome == outcome;
    hide HasRun;
    assert peer.serving.runs[k] == Run(t, call, peer.remote, outcome);
  }

  lemma ForeignToThePeer(e: Engine, peer: Engine, id: Id)
    requires LocalInv(e) && e.role != peer.role && id in e.callers.requests
    ensures !Owns(peer.role, id)
  {
    hide WaiterInv, ServingInv, SettlingInv, CancelInv, OrderInv;
    hide IdInv;
    RequestsAreOwned(e, id);
  }

  /** A call identifier is never one the peer admitted a stream for. */
  lemma CallIsNotServedAsStream(e: Engine, peer: Engine, id: Id, call: Call)
    requires LocalInv(e) && LocalInv(peer) && peer.net.consumed <= e.net.emitted && IsCallOf(e, id, call)
    ensures id !in peer.serving.served
  {
    if id in peer.serving.served {
      var t :| 0 <= t < |peer.net.consumed| && peer.net.consumed[t].OpenStream? && peer.net.consumed[t].id == id by {
        hide IdInv, WaiterInv, SettlingInv, CancelInv, OrderInv, AllExplained, RunsOnce, ReaderExplained;
      }
      hide LocalInv;
      OpenIsTheRequest(e, peer, t, id);
      assert false;
    }
  }

  /** The peer's answer to a call is a result that its handler returned, or a failure it reports. */
  lemma AnswerFrames(e: Engine, peer: Engine, id: Id, call: Call, n: nat)
    requires LocalInv(e) && LocalInv(peer) && e.role != peer.role && peer.net.consumed <= e.net.emitted
    requires IsCallOf(e, id, call)
    requires n < |peer.net.emitted| && !peer.net.emitted[n].CloseSession? && !IsOpen(peer.net.emitted[n])
    requires peer.net.emitted[n].id == id
    ensures var f := peer.net.emitted[n];
            || (f.CallResult? && f.result.Some? && Returns(peer.serving, id, f.result.value))
            || (f.StreamEnd? && Fails(peer.serving, peer.net.consumed, id, f.body))
  {
    ForeignToThePeer(e, peer, id);
    CallIsNotServedAsStream(e, peer, id, call);
    assert Explained(peer.role, peer.serving, peer.net.consumed, peer.net.emitted[..n], peer.net.emitted[n]) by {
      hide IdInv, WaiterInv, SettlingInv, CancelInv, OrderInv, RunsOnce, Asked, ReaderExplained, Explained;
    }
    hide LocalInv, Owns, Returns, Fails;
  }

  /** The caller is told what the peer's error conveys. */
  ghost predicate Reports(outcome: Outcome, err: Error) {
    outcome.Failed? && Conveys(err, outcome.err)
  }

  lemma EndReports(id: Id, err: Error)
    ensures Reports(SettleCall(StreamEnd(id, EndBody(StatusOf(Some(err))))).0, err)
    ensures Reports(SettleOpen(StreamEnd(id, EndBody(StatusOf(Some(err))))).0, err)
  {
    StatusSurvivesTheWire(Some(err));
    hide StatusOf, EndBody, DecodeFailure, Conveys;
  }

  lemma FailureHasItsError(e: Engine, peer: Engine, id: Id, call: Call, body: FailureBody)
    requires LocalInv(e) && LocalInv(peer) && peer.net.consumed <= e.net.emitted && IsCallOf(e, id, call)
    requires Fails(peer.serving, peer.net.consumed, id, body)
    ensures exists t: Ticket, err :: ServedAt(peer, id, call, t) && FailedWith(peer.serving, t, err) &&
                                     Reports(SettleCall(StreamEnd(id, body)).0, err)
  {
    hide LocalInv, FailedWith, Reports, SettleCall, StatusOf, EndBody;
    var t: Ticket, err :| t < |peer.net.consumed| && IsOpen(peer.net.consumed[t]) && peer.net.consumed[t].id == id &&
                          FailedWith(peer.serving, t, err) && body == EndBody(StatusOf(Some(err)));
    OpenIsTheRequest(e, peer, t, id);
    EndReports(id, err);
    assert ServedAt(peer, id, call, t);
  }

  /** A result that a caller was given comes from the one execution of its handler. */
  ghost predicate AnswerIsTheHandlers(e: Engine, peer: Engine, id: Id, call: Call, payload: Bytes) {
    exists t :: ServedAt(peer, id, call, t) && RanOnce(peer, call, t, Returned(payload))
  }

  /** An error that the peer reported comes from its refusal or from its handler's failure. */
  ghost predicate ErrorIsThePeers(e: Engine, peer: Engine, id: Id, call: Call, outcome: Outcome) {
    exists t: Ticket, err :: ServedAt(peer, id, call, t) && FailedWith(peer.serving, t, err) && Reports(outcome, err)
  }

  lemma SideCorrelates(e: Engine, peer: Engine, id: Id, call: Call, value: Settlement)
    requires LocalInv(e) && LocalInv(peer) && e.role != peer.role
    requires peer.net.consumed <= e.net.emitted && e.net.consumed <= peer.net.emitted
    requires IsCallOf(e, id, call) && value in SentOn(e.callers.sent, id)
    ensures value.outcome.Answer? ==> AnswerIsTheHandlers(e, peer, id, call, value.outcome.payload)
    ensures !value.outcome.Accepted?
    ensures value.outcome.Failed? && value.source.FromFrame? ==> ErrorIsThePeers(e, peer, id, call, value.outcome)
  {
    hide LocalInv, SentOn, ServedAt, RanOnce, FailedWith, Reports, Returns, Fails;
    SettlementComesFrom(e, peer, id, value);
    if value.source.FromFrame? {
      var n := value.source.index;
      var f := peer.net.emitted[n];
      AnswerFrames(e, peer, id, call, n);
      if f.CallResult? {
        AnswerHasItsRun(e, peer, id, call, f.result.value);
      } else {
        FailureHasItsError(e, peer, id, call, f.body);
        assert f == StreamEnd(id, f.body);
        ReportsFails(SettleCall(f).0);
        hide SettleCall;
      }
    }
  }

  lemma ReportsFails(outcome: Outcome)
    ensures forall err :: Reports(outcome, err) ==> outcome.Failed?
  {
  }

  lemma AnswerHasItsRun(e: Engine, peer: Engine, id: Id, call: Call, payload: Bytes)
    requires LocalInv(e) && LocalInv(peer) && peer.net.consumed <= e.net.emitted && IsCallOf(e, id, call)
    requires Returns(peer.serving, id, payload)
    ensures AnswerIsTheHandlers(e, peer, id, call, payload)
  {
    hide LocalInv, ServedAt, RanOnce, HasRun;
    var t :| t in peer.serving.tickets && peer.serving.tickets[t].id == id &&
        HasRun(peer.serving.runs, t, Returned(payload));
    RunIsTheOnlyOne(e, peer, id, call, t, Returned(payload));
  }

  // ------------------------------------------------------------ theorems

  /** The endpoint that calls and the one that serves. */
  predicate Sides(p: Pair, e: Engine, peer: Engine) {
    (e == p.client && peer == p.server) || (e == p.server && peer == p.client)
  }

  lemma SidesAgree(p: Pair, e: Engine, peer: Engine)
    requires PairReachable(p) && Sides(p, e, peer)
    ensures LocalInv(e) && LocalInv(peer) && e.role != peer.role
    ensures peer.net.consumed <= e.net.emitted && e.net.consumed <= peer.net.emitted
  {
    hide PairReachable, LocalInv;
    ReachableKeepsPairInv(p);
  }

  /**
   Call returns payload p only if the peer took this identifier's request with this method and
   payload, exactly once, and ran its handler exactly once under the session's identity, and the
   handler returned p.
   */
  lemma CallReturnsTheHandlersResult(p: Pair, e: Engine, peer: Engine, id: Id, call: Call, payload: Bytes)
    requires PairReachable(p) && Sides(p, e, peer) && IsCallOf(e, id, call)
    requires e.callers.requests[id].result == Some(Answer(payload))
    ensures AnswerIsTheHandlers(e, peer, id, call, payload)
  {
    SidesAgree(p, e, peer);
    hide PairReachable, Sides, AnswerIsTheHandlers;
    ResultWasSent(e, id);
    hide LocalInv, SentOn;
    SideCorrelates(e, peer, id, call, SentOn(e.callers.sent, id)[0]);
  }

  lemma ResultWasSent(e: Engine, id: Id)
    requires LocalInv(e) && id in e.callers.requests && e.callers.requests[id].result.Some?
    ensures SentOn(e.callers.sent, id) != []
    ensures e.callers.requests[id].result.value == SentOn(e.callers.sent, id)[0].outcome
  {
    hide IdInv, WaiterInv, ServingInv, CancelInv, OrderInv, AllTraceable, HandTraceable, SentOn;
  }

  /**
   A call fails with the cause of the session's end, or with what the peer's refusal or its
   handler's failure conveys.
   */
  lemma CallFailsWithThePeersError(p: Pair, e: Engine, peer: Engine, id: Id, call: Call, err: Error)
    requires PairReachable(p) && Sides(p, e, peer) && IsCallOf(e, id, call)
    requires e.callers.requests[id].result == Some(Failed(err))
    ensures e.reg.terminal == Some(err) || ErrorIsThePeers(e, peer, id, call, Failed(err))
  {
    SidesAgree(p, e, peer);
    hide PairReachable, Sides, ErrorIsThePeers;
    ResultWasSent(e, id);
    var value := SentOn(e.callers.sent, id)[0];
    if value.source.FromEnd? {
      EndSettlementIsTerminal(e, id, value);
    } else {
      hide LocalInv, SentOn;
      SideCorrelates(e, peer, id, call, value);
    }
    hide LocalInv;
  }

  lemma EndSettlementIsTerminal(e: Engine, id: Id, value: Settlement)
    requires LocalInv(e) && value in SentOn(e.callers.sent, id) && value.source.FromEnd?
    ensures e.reg.terminal.Some? && value.outcome == Failed(e.reg.terminal.value)
  {
    hide IdInv, ServingInv, SettlingInv, CancelInv, OrderInv, KnownIds, Owned, AllCovered, ClosedMeansCollected;
  }

  /** A handler runs at most once for each request, and only for one the peer made. */
  lemma HandlersRunForTheirCaller(p: Pair, e: Engine, peer: Engine, k: nat)
    requires PairReachable(p) && Sides(p, e, peer) && k < |peer.serving.runs|
    ensures var r := peer.serving.runs[k];
            exists id :: IsCallOf(e, id, r.call) && ServedAt(peer, id, r.call, r.ticket) &&
                         RanOnce(peer, r.call, r.ticket, r.outcome)
  {
    hide PairReachable, LocalInv, ServedAt, RanOnce;
    SidesAgree(p, e, peer);
    hide Sides;
    var r := peer.serving.runs[k];
    RunsAreOnce(peer);
    assert HasRun(peer.serving.runs, r.ticket, r.outcome);
    hide HasRun;
    var id := peer.serving.tickets[r.ticket].id;
    TicketIsItsOpen(peer, r.ticket);
    OpenIsTheRequest(e, peer, r.ticket, id);
    RunIsTheOnlyOne(e, peer, id, r.call, r.ticket, r.outcome);
  }

  /** What the reader has taken from a conforming peer opens each identifier at most once. */
  lemma PeerOpensDistinct(e: Engine, peer: Engine)
    requires LocalInv(e) && peer.net.consumed <= e.net.emitted
    ensures OpensDistinct(peer.net.consumed)
  {
    hide KnownIds, Filed, Inbound, ReaderScope, Ticketed, WaiterInv, ServingInv, SettlingInv, CancelInv, OrderInv,
         OpenFrameOf;
    assert forall u :: 0 <= u < |peer.net.consumed| ==> peer.net.consumed[u] == e.net.emitted[u];
  }

  /** The request a terminal frame cancels was taken before it. */
  lemma EndFollowsItsOpen(e: Engine, peer: Engine, t: Ticket, n: nat)
    requires LocalInv(e) && LocalInv(peer) && e.role != peer.role && peer.net.consumed <= e.net.emitted
    requires t in peer.serving.tickets && n < |peer.net.consumed|
    requires peer.net.consumed[n].StreamEnd? && peer.net.consumed[n].id == peer.serving.tickets[t].id
    ensures t < n
  {
    var id := peer.serving.tickets[t].id;
    assert EndsFollow(e.role, e.callers.requests, e.net.emitted) by {
      hide IdInv, WaiterInv, ServingInv, SettlingInv, CancelInv, WaitersOpened, EndsFollow;
    }
    assert Owns(e.role, id) by {
      OwnerOf(e, peer, t);
    }
    hide LocalInv, Owns;
    TicketIsItsOpen(peer, t);
    OpenIsTheRequest(e, peer, t, id);
    assert e.net.emitted[n] == peer.net.consumed[n];
    var j :| 0 <= j < n && IsOpen(e.net.emitted[..n][j]) && e.net.emitted[..n][j].id == id;
    assert peer.net.consumed[j] == e.net.emitted[..n][j];
  }

  lemma OwnerOf(e: Engine, peer: Engine, t: Ticket)
    requires LocalInv(e) && LocalInv(peer) && peer.net.consumed <= e.net.emitted && t in peer.serving.tickets
    ensures Owns(e.role, peer.serving.tickets[t].id)
  {
    var id := peer.serving.tickets[t].id;
    assert IdInv(e) by { hide IdInv, WaiterInv, ServingInv, SettlingInv, CancelInv, OrderInv; }
    hide LocalInv, IdInv, Owns;
    TicketIsItsOpen(peer, t);
    OpenIsTheRequest(e, peer, t, id);
    RequestsAreOwned(e, id);
  }

  lemma RequestsAreOwned(e: Engine, id: Id)
    requires IdInv(e) && id in e.callers.requests
    ensures Owns(e.role, id)
  {
    KnownIdsAreOwned(e.role, e.callers.issued, e.callers.requests, id);
  }

  /**
   Once the reader has taken StreamEnd for an admitted call, that call's context is cancelled:
   its own, or the session's from which it derives.
   */
  lemma CancellationReachesItsCall(p: Pair, e: Engine, peer: Engine, t: Ticket, n: nat)
    requires PairReachable(p) && Sides(p, e, peer)
    requires t in peer.serving.tickets && n < |peer.net.consumed|
    requires peer.net.consumed[n].StreamEnd? && peer.net.consumed[n].id == peer.serving.tickets[t].id
    ensures peer.serving.tickets[t].cancelled || peer.net.cancelled
  {
    SidesAgree(p, e, peer);
    hide PairReachable, Sides;
    PeerOpensDistinct(e, peer);
    EndFollowsItsOpen(e, peer, t, n);
    hide IdInv, WaiterInv, ServingInv, SettlingInv, OpensDistinct, Tracked;
  }

  /** And the frame says why: the caller's context was cancelled, or its deadline passed. */
  lemma CancellationTellsWhy(p: Pair, e: Engine, peer: Engine, t: Ticket, n: nat)
    requires PairReachable(p) && Sides(p, e, peer)
    requires t in peer.serving.tickets && n < |peer.net.consumed|
    requires peer.net.consumed[n].StreamEnd? && peer.net.consumed[n].id == peer.serving.tickets[t].id
    ensures peer.net.consumed[n].body == Code(10) || peer.net.consumed[n].body == Code(9)
  {
    SidesAgree(p, e, peer);
    hide PairReachable, Sides;
    var id := peer.serving.tickets[t].id;
    OwnerOf(e, peer, t);
    assert EndsFollow(e.role, e.callers.requests, e.net.emitted) by {
      hide IdInv, WaiterInv, ServingInv, SettlingInv, CancelInv, WaitersOpened, EndsFollow;
    }
    hide LocalInv, Owns, OpenedIn;
    TicketIsItsOpen(peer, t);
    OpenIsTheRequest(e, peer, t, id);
    assert e.net.emitted[n] == peer.net.consumed[n];
  }

  /** The terminal frame cancels that call's context and no other's, and never the session's. */
  lemma CancellationReachesOnlyItsCall(p: Pair, e: Engine, peer: Engine, peer': Engine, f: Frame, t: Ticket, u: Ticket)
    requires PairReachable(p) && Sides(p, e, peer) && ReaderStep(Consume(f), peer, peer')
    requires t in peer.serving.tickets && !peer.serving.tickets[t].cancelled
    requires u in peer.serving.tickets && f.StreamEnd? && peer.serving.tickets[u].id == f.id && u != t
    ensures t in peer'.serving.tickets && !peer'.serving.tickets[t].cancelled &&
            peer'.net.cancelled == peer.net.cancelled
  {
    SidesAgree(p, e, peer);
    PeerOpensDistinct(e, peer);
    hide PairReachable, Sides, IdInv, WaiterInv, ServingInv, SettlingInv, CancelInv, OrderInv, OpensDistinct;
    DispatchCancelsOnlyItsTarget(peer, peer', f, t);
    hide ReaderStep;
    if peer.serving.tickets[t].id == f.id {
      TicketsAreDistinct(peer, t, u);
    }
  }

  lemma EndRefuses(id: Id, err: Error)
    ensures SettleOpen(StreamEnd(id, EndBody(StatusOf(Some(err))))).0.Failed?
  {
    StatusSurvivesTheWire(Some(err));
    hide StatusOf, EndBody, DecodeFailure;
  }

  lemma AcceptingFrameMeansServed(e: Engine, peer: Engine, id: Id, n: nat)
    requires LocalInv(e) && LocalInv(peer) && e.role != peer.role && id in e.callers.requests
    requires n < |peer.net.emitted| && !peer.net.emitted[n].CloseSession? && !IsOpen(peer.net.emitted[n])
    requires peer.net.emitted[n].id == id && SettleOpen(peer.net.emitted[n]).0 == Accepted
    ensures id in peer.serving.served
  {
    ForeignToThePeer(e, peer, id);
    var f := peer.net.emitted[n];
    assert Explained(peer.role, peer.serving, peer.net.consumed, peer.net.emitted[..n], f) by {
      hide IdInv, WaiterInv, SettlingInv, CancelInv, OrderInv, RunsOnce, Asked, ReaderExplained, Explained;
    }
    hide LocalInv, Owns, StatusOf, Returns, FailedWith;
    if f.StreamEnd? && Fails(peer.serving, peer.net.consumed, id, f.body) {
      var t: Ticket, err :| t < |peer.net.consumed| && IsOpen(peer.net.consumed[t]) && peer.net.consumed[t].id == id &&
                            FailedWith(peer.serving, t, err) && f.body == EndBody(StatusOf(Some(err)));
      EndRefuses(id, err);
      hide EndBody, SettleOpen;
      assert false;
    }
  }

  /** OpenStream succeeds only if the peer admitted a stream of that name under that identifier. */
  lemma OpenedStreamIsAdmitted(p: Pair, e: Engine, peer: Engine, id: Id, name: Bytes)
    requires PairReachable(p) && Sides(p, e, peer)
    requires id in e.callers.requests && e.callers.requests[id].kind == StreamKind(name)
    requires e.callers.requests[id].result == Some(Accepted)
    ensures id in peer.serving.served
    ensures name != [] && exists t :: 0 <= t < |peer.net.consumed| && peer.net.consumed[t] == OpenStream(id, Some(name))
  {
    SidesAgree(p, e, peer);
    hide PairReachable, Sides;
    ResultWasSent(e, id);
    var value := SentOn(e.callers.sent, id)[0];
    SettlementComesFrom(e, peer, id, value);
    hide SettleOpen, SettleCall, IdInv, WaiterInv, SettlingInv, CancelInv, OrderInv, AllExplained, RunsOnce,
         ReaderExplained;
    AcceptingFrameMeansServed(e, peer, id, value.source.index);
    var t :| 0 <= t < |peer.net.consumed| && peer.net.consumed[t].OpenStream? && peer.net.consumed[t].id == id &&
             Named(peer.net.consumed[t]);
    OpenIsTheRequest(e, peer, t, id);
  }

  // ------------------------------------------------------------ a call that succeeds

  lemma ReachableByStep(p: Pair, p': Pair, l: Label)
    requires PairReachable(p) && PairStep(l, p, p') && WithinPeriod(p')
    ensures PairReachable(p')
  {
    hide PairStep, PairInit;
    var run, labels :| IsPairRun(run, labels) && run[|run| - 1] == p;
    var run', labels' := run + [p'], labels + [l];
    assert IsPairRun(run', labels');
  }

  lemma NewPairIsReachable(p: Pair)
    requires PairInit(p)
    ensures PairReachable(p)
  {
    var run, labels: seq<Label> := [p], [];
    assert IsPairRun(run, labels) && run[|run| - 1] == p;
  }

  /** A request on its way. */
  lemma CallIsWritten(call: Call, remote: Bytes) returns (p: Pair)
    ensures PairReachable(p) && p.server == NewEngine(Server, remote)
    ensures p.client == NewEngine(Client, remote).(
                          callers := Callers(1, map[1 := Request(CallKind(call), Waiting, None)], map[]),
                          reg := NewRegistry().(calls := {1}),
                          net := Net(false, false, [OpenCall(1, Some(call))], []))
  {
    hide PairReachable;
    var c0, v := NewEngine(Client, remote), NewEngine(Server, remote);
    var p0 := Pair(c0, v);
    NewPairIsReachable(p0);
    var kind := CallKind(call);
    var c1 := c0.(callers := Callers(1, map[1 := Request(kind, Allocated, None)], map[]));
    assert AllocatedId(Client, 0) == 1;
    assert CallerStep(Start(kind), c0, c1);
    ReachableByStep(p0, Pair(c1, v), Start(kind));
    var c2 := c1.(callers := Callers(1, map[1 := Request(kind, Registered, None)], map[]),
                  reg := NewRegistry().(calls := {1}));
    assert CallerStep(Register(1), c1, c2);
    ReachableByStep(Pair(c1, v), Pair(c2, v), Register(1));
    var c3 := c2.(callers := Callers(1, map[1 := Request(kind, Waiting, None)], map[]),
                  net := Net(false, false, [OpenCall(1, Some(call))], []));
    assert CallerStep(WriteOpen(1, true), c2, c3);
    p := Pair(c3, v);
    ReachableByStep(Pair(c2, v), p, WriteOpen(1, true));
  }

  /** Its answer on the way back. */
  lemma CallIsServed(call: Call, payload: Bytes, remote: Bytes) returns (p: Pair)
    requires call.name != []
    ensures PairReachable(p) && p.server.net.emitted == [CallResult(1, Some(payload))]
    ensures p.client == NewEngine(Client, remote).(
                          callers := Callers(1, map[1 := Request(CallKind(call), Waiting, None)], map[]),
                          reg := NewRegistry().(calls := {1}),
                          net := Net(false, false, [OpenCall(1, Some(call))], []))
    ensures p.server.callers.issued == 0
  {
    hide PairReachable;
    var p0 := CallIsWritten(call, remote);
    var c, v0, f := p0.client, p0.server, OpenCall(1, Some(call));
    var v1 := v0.(reader := Deciding, net := Net(false, false, [], [f]));
    assert ReaderStep(Consume(f), v0, v1);
    ReachableByStep(p0, Pair(c, v1), Consume(f));
    var v2 := v1.(reader := Idle, reg := v1.reg.(inflight := map[1 := 0]),
                  serving := v1.serving.(tickets := map[0 := Serve(1, call, Running, false)]));
    assert ReaderStep(AdmitCall, v1, v2);
    ReachableByStep(Pair(c, v1), Pair(c, v2), AdmitCall);
    var v3 := v2.(serving := SetServe(v2.serving, 0, Ran(Returned(payload))).(
                               runs := [Run(0, call, remote, Returned(payload))]));
    assert ServingStep(RunHandler(0, Returned(payload)), v2, v3);
    ReachableByStep(Pair(c, v2), Pair(c, v3), RunHandler(0, Returned(payload)));
    var v4 := v3.(serving := SetServe(v3.serving, 0, Replied),
                  net := Net(false, false, [CallResult(1, Some(payload))], [f]));
    assert ServingStep(Reply(0, true), v3, v4);
    p := Pair(c, v4);
    ReachableByStep(Pair(c, v3), p, Reply(0, true));
  }

  /** Every call can return every result: the correlation theorem speaks of real runs. */
  lemma CallCanSucceed(call: Call, payload: Bytes, remote: Bytes) returns (p: Pair)
    requires call.name != []
    ensures PairReachable(p) && IsCallOf(p.client, 1, call)
    ensures p.client.callers.requests[1].result == Some(Answer(payload))
  {
    hide PairReachable;
    var p0 := CallIsServed(call, payload, remote);
    var c0, v, f := p0.client, p0.server, CallResult(1, Some(payload));
    var c1 := c0.(reg := NewRegistry(), reader := Settling(1, Answer(payload), false), net := c0.net.(consumed := [f]));
    assert ReaderStep(Consume(f), c0, c1);
    ReachableByStep(p0, Pair(c1, v), Consume(f));
    var value := Settlement(Answer(payload), FromFrame(0));
    var c2 := c1.(reader := Idle, callers := c1.callers.(sent := map[1 := [value]]));
    assert c1.callers.sent == map[] && [] + [value] == [value] && Send(map[], 1, value) == map[1 := [value]];
    assert ReaderStep(SettleSend, c1, c2);
    ReachableByStep(Pair(c1, v), Pair(c2, v), SettleSend);
    var left := Request(CallKind(call), Leaving, Some(Answer(payload)));
    var c3 := c2.(callers := c2.callers.(requests := map[1 := left]));
    assert CallerStep(Receive(1), c2, c3);
    p := Pair(c3, v);
    ReachableByStep(Pair(c2, v), p, Receive(1));
  }
}
