/**
 Opening streams between two endpoints: a request is settled by the first frame the peer wrote for
 it, an open that was acknowledged succeeds, and one that fails conveys the peer's refusal or the
 cause of the session's end.
 */
module Opens {
  import opened Status
  import opened Session
  import opened Engine
  import opened IdSpace
  import opened Waiters
  import opened CallServing
  import opened CallSettling
  import opened Cancellation
  import opened CallOrder
  import opened Calls

  // ------------------------------------------------------------ the first frame decides

  /** The frame answers, continues or ends what was opened under the identifier. */
  predicate Names(f: Frame, id: Id) {
    f != CloseSession && !IsOpen(f) && f.id == id
  }

  ghost predicate Unanswered(frames: seq<Frame>, id: Id) {
    forall k :: 0 <= k < |frames| ==> !Names(frames[k], id)
  }

  /** No frame names a pending request, and one that is settled was settled by the first that does. */
  ghost predicate SettledInOrder(pending: set<Id>, reader: Reader, sent: map<Id, seq<Settlement>>,
                                 consumed: seq<Frame>) {
    && (forall id :: id in pending && id != 0 ==> Unanswered(consumed, id))
    && (reader.Settling? && reader.id != 0 ==>
          consumed != [] && Unanswered(consumed[..|consumed| - 1], reader.id))
    && (forall id, i :: id in sent && id != 0 && 0 <= i < |sent[id]| && sent[id][i].source.FromFrame? ==>
          sent[id][i].source.index <= |consumed| && Unanswered(consumed[..sent[id][i].source.index], id))
  }

  ghost predicate InOrder(e: Engine) {
    SettledInOrder(e.reg.calls + e.reg.opens, e.reader, e.callers.sent, e.net.consumed)
  }

  /** The peer writes nothing for a request that was not written. */
  lemma UnwrittenIsUnanswered(e: Engine, peer: Engine, id: Id)
    requires LocalInv(e) && LocalInv(peer) && e.role != peer.role && peer.net.consumed <= e.net.emitted
    requires id in e.callers.requests
    requires e.callers.requests[id].phase.Allocated? || e.callers.requests[id].phase.Registered?
    ensures Unanswered(peer.net.emitted, id)
  {
    ForeignToThePeer(e, peer, id);
    forall k | 0 <= k < |peer.net.emitted| ensures !Names(peer.net.emitted[k], id) {
      if Names(peer.net.emitted[k], id) {
        var t := AnswerHasItsOpen(peer, id, k);
        OpenIsWritten(e, peer, t, id);
        assert false;
      }
    }
  }

  lemma OpenIsWritten(e: Engine, peer: Engine, t: nat, id: Id)
    requires LocalInv(e) && peer.net.consumed <= e.net.emitted
    requires t < |peer.net.consumed| && IsOpen(peer.net.consumed[t]) && peer.net.consumed[t].id == id
    ensures id in e.callers.requests
    ensures !e.callers.requests[id].phase.Allocated? && !e.callers.requests[id].phase.Registered?
  {
    hide KnownIds, Filed, Inbound, ReaderScope, Ticketed, WaiterInv, ServingInv, SettlingInv, CancelInv, OrderInv,
         OpenFrameOf;
    assert peer.net.consumed[t] == e.net.emitted[t];
  }

  /** What the peer writes under a foreign identifier follows the request it took. */
  lemma AnswerHasItsOpen(peer: Engine, id: Id, k: nat) returns (t: nat)
    requires LocalInv(peer) && !Owns(peer.role, id) && k < |peer.net.emitted| && Names(peer.net.emitted[k], id)
    ensures t < |peer.net.consumed| && IsOpen(peer.net.consumed[t]) && peer.net.consumed[t].id == id
  {
    var f, v, c := peer.net.emitted[k], peer.serving, peer.net.consumed;
    assert Explained(peer.role, v, c, peer.net.emitted[..k], f) by {
      hide IdInv, WaiterInv, SettlingInv, CancelInv, OrderInv, RunsOnce, Asked, ReaderExplained, Explained;
    }
    if id in v.served {
      t :| 0 <= t < |c| && c[t].OpenStream? && c[t].id == id by {
        hide IdInv, WaiterInv, SettlingInv, CancelInv, OrderInv, AllExplained, RunsOnce, ReaderExplained;
      }
    } else if f.CallResult? {
      hide HasRun, LocalInv;
      var u :| u in v.tickets && v.tickets[u].id == id && HasRun(v.runs, u, Returned(f.result.value));
      TicketIsItsOpen(peer, u);
      t := u;
    } else {
      hide LocalInv, FailedWith, EndBody, StatusOf;
      var u: Ticket, err :| u < |c| && IsOpen(c[u]) && c[u].id == id && FailedWith(v, u, err) &&
                            f.body == EndBody(StatusOf(Some(err)));
      t := u;
    }
  }

  // ------------------------------------------------------------ steps

  lemma ConsumeKeepsOrder(e: Engine, e': Engine, f: Frame)
    requires InOrder(e) && IdInv(e) && ReaderStep(Consume(f), e, e')
    ensures InOrder(e')
  {
    var d := Dispatch(e, f);
    var c, c' := e.net.consumed, e'.net.consumed;
    DispatchTakesNamed(e, f);
    hide Dispatch, IdInv;
    assert forall id :: !Names(f, id) && Unanswered(c, id) ==> Unanswered(c', id);
    assert c'[..|c'| - 1] == c;
    forall id, i | id in e.callers.sent && id != 0 && 0 <= i < |e.callers.sent[id]| &&
                   e.callers.sent[id][i].source.FromFrame?
      ensures e.callers.sent[id][i].source.index <= |c'|
      ensures Unanswered(c'[..e.callers.sent[id][i].source.index], id)
    {
      var n := e.callers.sent[id][i].source.index;
      assert c'[..n] == c[..n];
    }
    hide Unanswered;
  }

  /** A frame that names a pending request takes it out; the reader then has it in hand. */
  lemma DispatchTakesNamed(e: Engine, f: Frame)
    requires IdInv(e) && e.reader == Idle
    ensures var d := Dispatch(e, f);
            && d.callers == e.callers && d.reg.calls <= e.reg.calls && d.reg.opens <= e.reg.opens
            && (forall id :: id != 0 && id in d.reg.calls + d.reg.opens ==> !Names(f, id))
            && (d.reader.Settling? ==> d.reader.id in e.reg.calls + e.reg.opens && Names(f, d.reader.id))
  {
    hide KnownIds, OpensOnce, Inbound, ReaderScope, Ticketed, CancelTicket, Owns, SettleCall, SettleOpen;
  }

  lemma SendKeepsOrder(pending: set<Id>, reader: Reader, sent: map<Id, seq<Settlement>>, consumed: seq<Frame>,
                       id: Id, value: Settlement)
    requires SettledInOrder(pending, reader, sent, consumed)
    requires value.source.FromFrame? && id != 0 ==>
               value.source.index <= |consumed| && Unanswered(consumed[..value.source.index], id)
    ensures SettledInOrder(pending, Idle, Send(sent, id, value), consumed)
    ensures SettledInOrder(pending, reader, Send(sent, id, value), consumed)
  {
    hide Unanswered;
  }

  lemma StepKeepsSettledOrder(l: Label, e: Engine, e': Engine)
    requires InOrder(e) && IdInv(e) && Step(l, e, e')
    requires l.Register? ==> Unanswered(e.net.consumed, l.id)
    ensures InOrder(e')
  {
    hide CallerStep, EnderStep, ReaderStep, ServingStep, IdInv;
    if CallerStep(l, e, e') { CallerKeepsOrder(l, e, e'); }
    else if EnderStep(l, e, e') { EnderKeepsOrder(l, e, e'); }
    else if ReaderStep(l, e, e') { ReaderKeepsOrder(l, e, e'); }
    else { ServingKeepsOrder(l, e, e'); }
  }

  lemma CallerKeepsOrder(l: Label, e: Engine, e': Engine)
    requires InOrder(e) && CallerStep(l, e, e') && (l.Register? ==> Unanswered(e.net.consumed, l.id))
    ensures InOrder(e')
  {
    hide AllocatedId, OpenFrameOf, Unanswered;
  }

  lemma EnderKeepsOrder(l: Label, e: Engine, e': Engine)
    requires InOrder(e) && EnderStep(l, e, e')
    ensures InOrder(e')
  {
    if l.EndSettle? {
      SendKeepsOrder(e.reg.calls + e.reg.opens, e.reader, e.callers.sent, e.net.consumed, l.id,
                     Settlement(Failed(e.enders[l.tid].failure), FromEnd));
      hide SettledInOrder;
    }
    hide Unanswered, CancelTicket, TerminalOf, Send;
  }

  lemma ReaderKeepsOrder(l: Label, e: Engine, e': Engine)
    requires InOrder(e) && IdInv(e) && ReaderStep(l, e, e')
    ensures InOrder(e')
  {
    hide IdInv, Unanswered, Dispatch, RefusalFits;
    if l.Consume? {
      ConsumeKeepsOrder(e, e', l.frame);
    } else if l.SettleSend? {
      SendKeepsOrder(e.reg.calls + e.reg.opens, e.reader, e.callers.sent, e.net.consumed, e.reader.id,
                     Settlement(e.reader.outcome, FromFrame(|e.net.consumed| - 1)));
      hide Send;
    }
  }

  lemma ServingKeepsOrder(l: Label, e: Engine, e': Engine)
    requires InOrder(e) && ServingStep(l, e, e')
    ensures InOrder(e')
  {
    hide Unanswered, ReplyFrame;
  }

  // ------------------------------------------------------------ runs of a pair

  lemma SideStepKeepsOrder(l: Label, e: Engine, e': Engine, peer: Engine)
    requires LocalInv(e) && LocalInv(peer) && e.role != peer.role && InOrder(e)
    requires peer.net.consumed <= e.net.emitted && e.net.consumed <= peer.net.emitted && SideStep(l, e, e', peer)
    ensures InOrder(e')
  {
    hide InOrder;
    if l.Register? {
      RegisteredIsAllocated(l, e, e');
      hide LocalInv, Step;
      UnwrittenIsUnanswered(e, peer, l.id);
      assert forall k :: 0 <= k < |e.net.consumed| ==> e.net.consumed[k] == peer.net.emitted[k];
    }
    assert IdInv(e) by { hide IdInv, WaiterInv, ServingInv, SettlingInv, CancelInv, OrderInv, Step; }
    hide LocalInv, IdInv, Step;
    StepKeepsSettledOrder(l, e, e');
  }

  lemma RegisteredIsAllocated(l: Label, e: Engine, e': Engine)
    requires Step(l, e, e') && l.Register?
    ensures l.id in e.callers.requests && e.callers.requests[l.id].phase.Allocated?
  {
  }

  lemma PairSides(p: Pair)
    requires PairInv(p)
    ensures LocalInv(p.client) && LocalInv(p.server) && p.client.role != p.server.role
    ensures p.server.net.consumed <= p.client.net.emitted && p.client.net.consumed <= p.server.net.emitted
  {
    hide LocalInv;
  }

  lemma PairStepKeepsOrder(l: Label, p: Pair, p': Pair)
    requires PairInv(p) && PairStep(l, p, p') && InOrder(p.client) && InOrder(p.server)
    ensures InOrder(p'.client) && InOrder(p'.server)
  {
    hide PairInv, InOrder, Step, LocalInv;
    PairSides(p);
    if SideStep(l, p.client, p'.client, p.server) && p'.server == p.server {
      SideStepKeepsOrder(l, p.client, p'.client, p.server);
    } else {
      SideStepKeepsOrder(l, p.server, p'.server, p.client);
    }
  }

  lemma NewEngineIsInOrder(e: Engine)
    requires Init(e)
    ensures InOrder(e)
  {
  }

  lemma {:induction false} PairRunKeepsOrder(run: seq<Pair>, labels: seq<Label>, n: nat)
    requires IsPairRun(run, labels) && n < |run| && WithinPeriod(run[n])
    ensures InOrder(run[n].client) && InOrder(run[n].server)
    decreases n
  {
    hide PairStep, Init, InOrder, PairInv, WithinPeriod;
    if n == 0 {
      NewEngineIsInOrder(run[0].client);
      NewEngineIsInOrder(run[0].server);
    } else {
      assert PairStep(labels[n - 1], run[n - 1], run[n - 1 + 1]);
      PairStepIssues(labels[n - 1], run[n - 1], run[n]);
      PairRunKeepsInv(run, labels, n - 1);
      PairRunKeepsOrder(run, labels, n - 1);
      PairStepKeepsOrder(labels[n - 1], run[n - 1], run[n]);
    }
  }

  lemma SidesInOrder(p: Pair, e: Engine, peer: Engine)
    requires PairReachable(p) && Sides(p, e, peer)
    ensures InOrder(e)
  {
    hide PairStep, InOrder;
    var run, labels :| IsPairRun(run, labels) && run[|run| - 1] == p;
    PairRunKeepsOrder(run, labels, |run| - 1);
  }

  // ------------------------------------------------------------ theorems

  /** What the reader settled a request with: the first frame the peer wrote under its identifier, as told. */
  lemma SettledByTheFirstFrame(p: Pair, e: Engine, peer: Engine, id: Id, value: Settlement)
    requires PairReachable(p) && Sides(p, e, peer) && id != 0
    requires value in SentOn(e.callers.sent, id) && value.source.FromFrame?
    ensures id in e.callers.requests && value.source.index < |peer.net.emitted|
    ensures Names(peer.net.emitted[value.source.index], id)
    ensures Unanswered(peer.net.emitted[..value.source.index], id)
    ensures Told(e.callers.requests[id].kind, peer.net.emitted[value.source.index], value.outcome)
  {
    SidesAgree(p, e, peer);
    SidesInOrder(p, e, peer);
    hide PairReachable, Sides, LocalInv, Told, Unanswered;
    SettlementComesFrom(e, peer, id, value);
    var n := value.source.index;
    MeaningIsTold(e.callers.requests[id].kind, peer.net.emitted[n]);
    var i :| 0 <= i < |SentOn(e.callers.sent, id)| && SentOn(e.callers.sent, id)[i] == value;
    assert e.callers.sent[id][i] == value;
    assert e.net.consumed[..n] == peer.net.emitted[..n];
    hide Meaning;
  }

  /** The request opens a stream of this name. */
  predicate IsOpenOf(e: Engine, id: Id, name: Bytes) {
    id != 0 && id in e.callers.requests && e.callers.requests[id].kind == StreamKind(name)
  }

  lemma UnansweredHasNoAck(frames: seq<Frame>, id: Id)
    requires Unanswered(frames, id)
    ensures StreamAck(id) !in frames
  {
    assert forall k :: 0 <= k < |frames| && frames[k] == StreamAck(id) ==> Names(frames[k], id);
  }

  /** The first frame the peer writes for a stream it admitted is the acknowledgement. */
  lemma AcknowledgementIsFirst(e: Engine, peer: Engine, id: Id, name: Bytes, n: nat)
    requires LocalInv(e) && LocalInv(peer) && e.role != peer.role && IsOpenOf(e, id, name)
    requires peer.net.consumed <= e.net.emitted && n < |peer.net.emitted| && Names(peer.net.emitted[n], id)
    requires Unanswered(peer.net.emitted[..n], id)
    ensures || peer.net.emitted[n] == StreamAck(id)
            || (peer.net.emitted[n].StreamEnd? && Fails(peer.serving, peer.net.consumed, id, peer.net.emitted[n].body))
  {
    ForeignToThePeer(e, peer, id);
    var f, before := peer.net.emitted[n], peer.net.emitted[..n];
    assert Explained(peer.role, peer.serving, peer.net.consumed, before, f) by {
      hide IdInv, WaiterInv, SettlingInv, CancelInv, OrderInv, RunsOnce, Asked, ReaderExplained, Explained;
    }
    hide LocalInv, Owns, Fails, Returns;
    UnansweredHasNoAck(before, id);
    if f.CallResult? { NoResultForAStream(e, peer, id, name, f.result.value); }
  }

  lemma NoResultForAStream(e: Engine, peer: Engine, id: Id, name: Bytes, payload: Bytes)
    requires LocalInv(e) && LocalInv(peer) && peer.net.consumed <= e.net.emitted && IsOpenOf(e, id, name)
    ensures !Returns(peer.serving, id, payload)
  {
    hide LocalInv, HasRun;
    if Returns(peer.serving, id, payload) {
      var t :| t in peer.serving.tickets && peer.serving.tickets[t].id == id &&
               HasRun(peer.serving.runs, t, Returned(payload));
      TicketIsItsOpen(peer, t);
      OpenIsTheRequest(e, peer, t, id);
      assert false;
    }
  }

  /** The peer refused the stream with an error that the caller's conveys. */
  ghost predicate RefusedByThePeer(peer: Engine, id: Id, name: Bytes, told: Error) {
    exists t: Ticket ::
      && t < |peer.net.consumed| && peer.net.consumed[t] == OpenStream(id, Some(name))
      && t in peer.serving.refusals && Conveys(peer.serving.refusals[t], told)
  }

  lemma FailureIsTheRefusal(e: Engine, peer: Engine, id: Id, name: Bytes, body: FailureBody)
    requires LocalInv(e) && LocalInv(peer) && peer.net.consumed <= e.net.emitted && IsOpenOf(e, id, name)
    requires Fails(peer.serving, peer.net.consumed, id, body)
    ensures var outcome := SettleOpen(StreamEnd(id, body)).0;
            outcome.Failed? && RefusedByThePeer(peer, id, name, outcome.err)
  {
    hide LocalInv, SettleOpen, StatusOf, EndBody, Conveys, HasRun;
    var t: Ticket, err :| t < |peer.net.consumed| && IsOpen(peer.net.consumed[t]) && peer.net.consumed[t].id == id &&
                          FailedWith(peer.serving, t, err) && body == EndBody(StatusOf(Some(err)));
    OpenIsTheRequest(e, peer, t, id);
    EndReports(id, err);
    if t in peer.serving.tickets {
      TicketIsItsOpen(peer, t);
      assert false;
    }
  }

  /**
   What OpenStream returns when the peer conforms: success if the first frame the peer wrote for it
   was the acknowledgement, else the peer's refusal, or the cause of the session's end.
   */
  lemma OpenReturnsThePeersDecision(p: Pair, e: Engine, peer: Engine, id: Id, name: Bytes, value: Settlement)
    requires PairReachable(p) && Sides(p, e, peer) && IsOpenOf(e, id, name)
    requires value in SentOn(e.callers.sent, id)
    ensures value.source.FromEnd? ==> e.reg.terminal.Some? && value.outcome == Failed(e.reg.terminal.value)
    ensures value.source.FromFrame? ==>
              && value.source.index < |peer.net.emitted|
              && (value.outcome == Accepted <==> peer.net.emitted[value.source.index] == StreamAck(id))
              && (value.outcome != Accepted ==>
                    value.outcome.Failed? && RefusedByThePeer(peer, id, name, value.outcome.err))
  {
    SidesAgree(p, e, peer);
    if value.source.FromEnd? {
      EndSettlementIsTerminal(e, id, value);
    } else {
      SettledByTheFirstFrame(p, e, peer, id, value);
      hide PairReachable, Sides, LocalInv, Unanswered, Fails, RefusedByThePeer, Conveys, StatusOf, OnlyIs;
      var n := value.source.index;
      AcknowledgementIsFirst(e, peer, id, name, n);
      var f := peer.net.emitted[n];
      if f != StreamAck(id) {
        FailureIsTheRefusal(e, peer, id, name, f.body);
        SettlementComesFrom(e, peer, id, value);
        assert f == StreamEnd(id, f.body);
        hide SettleOpen, SettleCall;
      }
    }
  }

  /** A failed OpenStream was refused by the peer, or its session ended; a successful one was acknowledged. */
  lemma OpenFailsWithThePeersRefusal(p: Pair, e: Engine, peer: Engine, id: Id, name: Bytes)
    requires PairReachable(p) && Sides(p, e, peer) && IsOpenOf(e, id, name)
    requires e.callers.requests[id].result.Some?
    ensures var r := e.callers.requests[id].result.value;
            || (r == Accepted && StreamAck(id) in peer.net.emitted)
            || (r.Failed? && (e.reg.terminal == Some(r.err) || RefusedByThePeer(peer, id, name, r.err)))
  {
    SidesAgree(p, e, peer);
    hide PairReachable, Sides, RefusedByThePeer;
    ResultWasSent(e, id);
    hide LocalInv, SentOn;
    OpenReturnsThePeersDecision(p, e, peer, id, name, SentOn(e.callers.sent, id)[0]);
  }

  // ------------------------------------------------------------ an open that succeeds

  /** A stream request on its way. */
  lemma OpenIsSent(name: Bytes, remote: Bytes) returns (p: Pair)
    ensures PairReachable(p) && p.server == NewEngine(Server, remote)
    ensures p.client == NewEngine(Client, remote).(
                          callers := Callers(1, map[1 := Request(StreamKind(name), Waiting, None)], map[]),
                          reg := NewRegistry().(opens := {1}, streams := {1}),
                          net := Net(false, false, [OpenStream(1, Some(name))], []))
  {
    hide PairReachable;
    var c0, v := NewEngine(Client, remote), NewEngine(Server, remote);
    var p0 := Pair(c0, v);
    NewPairIsReachable(p0);
    var kind := StreamKind(name);
    var c1 := c0.(callers := Callers(1, map[1 := Request(kind, Allocated, None)], map[]));
    assert AllocatedId(Client, 0) == 1;
    assert CallerStep(Start(kind), c0, c1);
    ReachableByStep(p0, Pair(c1, v), Start(kind));
    var c2 := c1.(reg := NewRegistry().(streams := {1}));
    assert CallerStep(RegisterStream(1), c1, c2);
    ReachableByStep(Pair(c1, v), Pair(c2, v), RegisterStream(1));
    var c3 := c2.(callers := Callers(1, map[1 := Request(kind, Registered, None)], map[]),
                  reg := c2.reg.(opens := {1}));
    assert CallerStep(Register(1), c2, c3);
    ReachableByStep(Pair(c2, v), Pair(c3, v), Register(1));
    var c4 := c3.(callers := Callers(1, map[1 := Request(kind, Waiting, None)], map[]),
                  net := Net(false, false, [OpenStream(1, Some(name))], []));
    assert CallerStep(WriteOpen(1, true), c3, c4);
    p := Pair(c4, v);
    ReachableByStep(Pair(c3, v), p, WriteOpen(1, true));
  }

  /** Its acknowledgement on the way back. */
  lemma OpenIsAdmitted(name: Bytes, remote: Bytes) returns (p: Pair)
    requires name != []
    ensures PairReachable(p) && p.server.net.emitted == [StreamAck(1)] && p.server.callers.issued == 0
    ensures p.client == NewEngine(Client, remote).(
                          callers := Callers(1, map[1 := Request(StreamKind(name), Waiting, None)], map[]),
                          reg := NewRegistry().(opens := {1}, streams := {1}),
                          net := Net(false, false, [OpenStream(1, Some(name))], []))
  {
    hide PairReachable;
    var p0 := OpenIsSent(name, remote);
    var c, v0, f := p0.client, p0.server, OpenStream(1, Some(name));
    var v1 := v0.(reader := Deciding, net := Net(false, false, [], [f]));
    assert ReaderStep(Consume(f), v0, v1);
    ReachableByStep(p0, Pair(c, v1), Consume(f));
    var v2 := v1.(reader := Acking(1), reg := v1.reg.(streams := {1}), serving := v1.serving.(served := {1}));
    assert ReaderStep(AdmitStream, v1, v2);
    ReachableByStep(Pair(c, v1), Pair(c, v2), AdmitStream);
    var v3 := v2.(reader := Idle, net := Net(false, false, [StreamAck(1)], [f]));
    assert ReaderStep(AckWrite(true), v2, v3);
    p := Pair(c, v3);
    ReachableByStep(Pair(c, v2), p, AckWrite(true));
  }

  /** Every stream with a name can be opened: OpenStream succeeds on a real run. */
  lemma OpenCanSucceed(name: Bytes, remote: Bytes) returns (p: Pair)
    requires name != []
    ensures PairReachable(p) && IsOpenOf(p.client, 1, name)
    ensures p.client.callers.requests[1].result == Some(Accepted) && 1 in p.client.reg.streams
  {
    hide PairReachable;
    var p0 := OpenIsAdmitted(name, remote);
    var c0, v, f := p0.client, p0.server, StreamAck(1);
    var c1 := c0.(reg := c0.reg.(opens := {}), reader := Settling(1, Accepted, false), net := c0.net.(consumed := [f]));
    assert ReaderStep(Consume(f), c0, c1);
    ReachableByStep(p0, Pair(c1, v), Consume(f));
    var value := Settlement(Accepted, FromFrame(0));
    var c2 := c1.(reader := Idle, callers := c1.callers.(sent := map[1 := [value]]));
    assert c1.callers.sent == map[] && [] + [value] == [value] && Send(map[], 1, value) == map[1 := [value]];
    assert ReaderStep(SettleSend, c1, c2);
    ReachableByStep(Pair(c1, v), Pair(c2, v), SettleSend);
    var left := Request(StreamKind(name), Leaving, Some(Accepted));
    var c3 := c2.(callers := c2.callers.(requests := map[1 := left]));
    assert CallerStep(Receive(1), c2, c3);
    p := Pair(c3, v);
    ReachableByStep(Pair(c2, v), p, Receive(1));
  }
}
