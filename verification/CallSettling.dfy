/**
 The calling side, under any inbound frames: what a caller is told is what the code computes
 from one frame that the reader took for that identifier, or the cause of the session's end.
 */
module CallSettling {
  import opened Status
  import opened Session
  import opened Engine
  import opened IdSpace

  /** The outcome a frame means for a request of the given kind. */
  function Meaning(kind: Kind, f: Frame): Outcome {
    if kind.CallKind? then SettleCall(f).0 else SettleOpen(f).0
  }

  ghost predicate TraceableTo(requests: map<Id, Request>, consumed: seq<Frame>, id: Id, n: nat, outcome: Outcome) {
    && id in requests && n < |consumed|
    && !consumed[n].CloseSession? && consumed[n].id == id && !IsOpen(consumed[n])
    && outcome == Meaning(requests[id].kind, consumed[n])
  }

  ghost predicate AllTraceable(requests: map<Id, Request>, consumed: seq<Frame>, sent: map<Id, seq<Settlement>>) {
    forall id, i :: id in sent && 0 <= i < |sent[id]| && sent[id][i].source.FromFrame? ==>
      TraceableTo(requests, consumed, id, sent[id][i].source.index, sent[id][i].outcome)
  }

  ghost predicate HandTraceable(reader: Reader, requests: map<Id, Request>, consumed: seq<Frame>) {
    reader.Settling? ==> consumed != [] && TraceableTo(requests, consumed, reader.id, |consumed| - 1, reader.outcome)
  }

  /** A caller returns the value its channel received. */
  ghost predicate ResultsReceived(requests: map<Id, Request>, sent: map<Id, seq<Settlement>>) {
    forall id :: id in requests && requests[id].result.Some? ==>
      SentOn(sent, id) != [] && requests[id].result.value == SentOn(sent, id)[0].outcome
  }

  ghost predicate SettlingInv(e: Engine) {
    && AllTraceable(e.callers.requests, e.net.consumed, e.callers.sent)
    && HandTraceable(e.reader, e.callers.requests, e.net.consumed)
    && ResultsReceived(e.callers.requests, e.callers.sent)
  }

  // ------------------------------------------------------------ growth

  /** Requests keep their kind and frames taken stay taken. */
  ghost predicate Keeps(requests: map<Id, Request>, c: seq<Frame>, requests': map<Id, Request>, c': seq<Frame>) {
    && (forall id :: id in requests ==> id in requests' && requests'[id].kind == requests[id].kind)
    && c <= c'
  }

  lemma KeepingIsTraceable(requests: map<Id, Request>, c: seq<Frame>, requests': map<Id, Request>, c': seq<Frame>,
                           sent: map<Id, seq<Settlement>>)
    requires AllTraceable(requests, c, sent) && Keeps(requests, c, requests', c')
    ensures AllTraceable(requests', c', sent)
  {
    assert forall id, n: nat, o :: TraceableTo(requests, c, id, n, o) ==> TraceableTo(requests', c', id, n, o) by {
      hide Meaning;
    }
    hide TraceableTo;
  }

  lemma SendIsTraceable(requests: map<Id, Request>, c: seq<Frame>, sent: map<Id, seq<Settlement>>, id: Id,
                        value: Settlement)
    requires AllTraceable(requests, c, sent)
    requires value.source.FromFrame? ==> TraceableTo(requests, c, id, value.source.index, value.outcome)
    ensures AllTraceable(requests, c, Send(sent, id, value))
  {
    hide TraceableTo;
    var sent': map<Id, seq<Settlement>> := Send(sent, id, value);
    forall x: Id, i: int | x in sent' && 0 <= i < |sent'[x]| && sent'[x][i].source.FromFrame?
      ensures TraceableTo(requests, c, x, sent'[x][i].source.index, sent'[x][i].outcome)
    {
      if x == id && i == |SentOn(sent, id)| {
        assert sent'[x][i] == value;
      } else {
        assert x in sent && sent'[x][i] == sent[x][i];
      }
    }
  }

  lemma SendKeepsResults(requests: map<Id, Request>, sent: map<Id, seq<Settlement>>, id: Id, value: Settlement)
    requires ResultsReceived(requests, sent)
    ensures ResultsReceived(requests, Send(sent, id, value))
  {
    assert forall x :: SentOn(sent, x) != [] ==>
      SentOn(Send(sent, id, value), x) != [] && SentOn(Send(sent, id, value), x)[0] == SentOn(sent, x)[0];
    hide Send, SentOn;
  }

  // ------------------------------------------------------------ steps

  lemma UpdateKeepsSettling(reader: Reader, requests: map<Id, Request>, c: seq<Frame>, sent: map<Id, seq<Settlement>>,
                            id: Id, r: Request)
    requires AllTraceable(requests, c, sent) && HandTraceable(reader, requests, c) && ResultsReceived(requests, sent)
    requires id in requests ==> r.kind == requests[id].kind
    requires r.result.Some? ==> SentOn(sent, id) != [] && r.result.value == SentOn(sent, id)[0].outcome
    ensures AllTraceable(requests[id := r], c, sent) && HandTraceable(reader, requests[id := r], c)
    ensures ResultsReceived(requests[id := r], sent)
  {
    KeepingIsTraceable(requests, c, requests[id := r], c, sent);
    hide AllTraceable, Meaning;
  }

  lemma CallerKeepsSettling(l: Label, e: Engine, e': Engine)
    requires SettlingInv(e) && IdInv(e) && CallerStep(l, e, e') && e'.callers.issued <= ID_PERIOD
    ensures SettlingInv(e')
  {
    var c := e.callers;
    if l.Start? { NextIdIsFresh(e.role, c.issued, c.requests); }
    hide IdInv, AllocatedId, OpenFrameOf;
    var id := if l.Start? then AllocatedId(e.role, c.issued) else l.id;
    UpdateKeepsSettling(e.reader, c.requests, e.net.consumed, c.sent, id, e'.callers.requests[id]);
    hide AllTraceable, HandTraceable, ResultsReceived;
  }

  lemma SendKeepsSettling(e: Engine, e': Engine, id: Id, value: Settlement)
    requires SettlingInv(e) && e'.callers == e.callers.(sent := Send(e.callers.sent, id, value))
    requires e'.net.consumed == e.net.consumed && (e'.reader == e.reader || !e'.reader.Settling?)
    requires value.source.FromFrame? ==>
               TraceableTo(e.callers.requests, e.net.consumed, id, value.source.index, value.outcome)
    ensures SettlingInv(e')
  {
    SendIsTraceable(e.callers.requests, e.net.consumed, e.callers.sent, id, value);
    SendKeepsResults(e.callers.requests, e.callers.sent, id, value);
    hide AllTraceable, ResultsReceived, TraceableTo;
  }

  lemma ConsumeTraces(e: Engine, f: Frame)
    requires IdInv(e) && e.reader == Idle
    ensures HandTraceable(Dispatch(e, f).reader, e.callers.requests, e.net.consumed + [f])
  {
    hide KnownIds, OpensOnce, Inbound, ReaderScope, Ticketed, CancelTicket, Owns, SettleCall, SettleOpen;
  }

  lemma ConsumeKeepsSettling(f: Frame, e: Engine, e': Engine)
    requires SettlingInv(e) && IdInv(e) && ReaderStep(Consume(f), e, e')
    ensures SettlingInv(e')
  {
    DispatchShrinks(e, f);
    ConsumeTraces(e, f);
    hide Dispatch, IdInv;
    KeepingIsTraceable(e.callers.requests, e.net.consumed, e'.callers.requests, e'.net.consumed, e.callers.sent);
    hide AllTraceable, ResultsReceived, HandTraceable;
  }

  lemma StepKeepsSettling(l: Label, e: Engine, e': Engine)
    requires SettlingInv(e) && IdInv(e) && Step(l, e, e') && e'.callers.issued <= ID_PERIOD
    ensures SettlingInv(e')
  {
    hide IdInv, AllTraceable, ResultsReceived, TraceableTo;
    if CallerStep(l, e, e') {
      CallerKeepsSettling(l, e, e');
    } else if l.Consume? {
      ConsumeKeepsSettling(l.frame, e, e');
    } else if l.EndSettle? {
      SendKeepsSettling(e, e', l.id, Settlement(Failed(e.enders[l.tid].failure), FromEnd));
    } else if l.SettleSend? {
      SendKeepsSettling(e, e', e.reader.id, Settlement(e.reader.outcome, FromFrame(|e.net.consumed| - 1)));
    }
    hide Dispatch;
  }

  // ------------------------------------------------------------ what a caller is told

  /** The frame is one that completes a request of this kind. */
  predicate Completes(kind: Kind, f: Frame) {
    || (kind.CallKind? && f.CallResult? && f.result.Some?)
    || (kind.StreamKind? && f.StreamAck?)
    || (f.StreamEnd? && f.body.Code? && f.body.code <= 255)
  }

  /**
   What a request is told for a frame: a result is an answer and an acknowledgement an acceptance;
   status 0 is an empty answer, or an accepted stream; any other known status is the one error of
   that status that survives a hop; everything else is a violation.
   */
  ghost predicate Told(kind: Kind, f: Frame, outcome: Outcome) {
    && (kind.CallKind? && f.CallResult? && f.result.Some? ==> outcome == Answer(f.result.value))
    && (kind.StreamKind? && f.StreamAck? ==> outcome == Accepted)
    && (f.StreamEnd? && f.body == Code(0) ==> outcome == if kind.CallKind? then Answer([]) else Accepted)
    && (f.StreamEnd? && f.body.Code? && 1 <= f.body.code <= CONNECTION_CLOSED ==>
          && outcome.Failed? && Conveys(outcome.err, outcome.err)
          && StatusOf(Some(outcome.err)) == f.body.code)
    && (f.StreamEnd? && f.body.Code? && CONNECTION_CLOSED < f.body.code <= 255 ==>
          outcome == Failed(Of(ProtocolViolation)))
    && (!Completes(kind, f) ==> outcome.Failed? && OnlyIs(outcome.err, ProtocolViolation))
  }

  lemma CodeConveysItself(code: StatusCode)
    requires 1 <= code <= CONNECTION_CLOSED
    ensures Err(code).Some? && Conveys(Err(code).value, Err(code).value) && StatusOf(Err(code)) == code
  {
    CodesAreStable(code);
    StatusIsOkIffNil(Err(code));
    StatusConveys(Err(code).value);
    hide StatusOf, Conveys;
  }

  lemma MeaningIsTold(kind: Kind, f: Frame)
    ensures Told(kind, f, Meaning(kind, f))
  {
    assert Is(Of(ProtocolViolation), ProtocolViolation);
    if f.StreamEnd? {
      OnlyOkDecodesToSuccess(f.body);
      if f.body.Code? && 1 <= f.body.code <= CONNECTION_CLOSED {
        CodeConveysItself(f.body.code);
      }
      hide Conveys, StatusOf, Err;
    } else {
      hide Conveys, StatusOf;
    }
  }

  lemma NewEngineSettlesNothing(e: Engine)
    requires Init(e)
    ensures SettlingInv(e)
  {
  }

  lemma {:induction false} RunKeepsSettling(run: seq<Engine>, labels: seq<Label>, n: nat)
    requires IsRun(run, labels) && n < |run| && run[n].callers.issued <= ID_PERIOD
    ensures SettlingInv(run[n])
    decreases n
  {
    hide IdInv, SettlingInv, Step, Init;
    if n == 0 {
      NewEngineSettlesNothing(run[0]);
    } else {
      assert Step(labels[n - 1], run[n - 1], run[n - 1 + 1]);
      StepIssues(labels[n - 1], run[n - 1], run[n]);
      RunKeepsIds(run, labels, n - 1);
      RunKeepsSettling(run, labels, n - 1);
      StepKeepsSettling(labels[n - 1], run[n - 1], run[n]);
    }
  }

  /** Under any inbound frames: what the reader settles a request with is what its frame tells. */
  lemma FrameTellsTheCaller(e: Engine, id: Id, i: nat)
    requires Reachable(e) && e.callers.issued <= ID_PERIOD
    requires i < |SentOn(e.callers.sent, id)| && SentOn(e.callers.sent, id)[i].source.FromFrame?
    ensures var value := SentOn(e.callers.sent, id)[i];
            && id in e.callers.requests && value.source.index < |e.net.consumed|
            && !e.net.consumed[value.source.index].CloseSession? && e.net.consumed[value.source.index].id == id
            && Told(e.callers.requests[id].kind, e.net.consumed[value.source.index], value.outcome)
  {
    hide Step, Told;
    var run, labels :| IsRun(run, labels) && run[|run| - 1] == e;
    RunKeepsSettling(run, labels, |run| - 1);
    hide Meaning, HandTraceable, ResultsReceived;
    var value := e.callers.sent[id][i];
    assert TraceableTo(e.callers.requests, e.net.consumed, id, value.source.index, value.outcome);
    MeaningIsTold(e.callers.requests[id].kind, e.net.consumed[value.source.index]);
  }
}
