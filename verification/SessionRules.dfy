/**
 What the reader of one endpoint keeps to, under any inbound frames: a frame that breaks the protocol
 is the last one it takes, and ends the session with an error that says so; a stream of the peer's is
 live only once it is acknowledged, or while that is being written.
 */
module SessionRules {
  import opened Status
  import opened Session
  import opened Engine
  import opened IdSpace
  import opened CallServing
  import opened CallSettling
  import opened Cancellation

  // ------------------------------------------------------------ violations

  /** An orderly close, a frame without an identifier, or the peer opening under one of this endpoint's identifiers. */
  predicate Illegal(role: Role, f: Frame) {
    f == CloseSession || f.id == 0 || (IsOpen(f) && Owns(role, f.id))
  }

  /** The frame settled a request of a kind that it does not complete. */
  ghost predicate Misplaced(e: Engine, n: nat) {
    && n < |e.net.consumed|
    && exists id, i ::
         && id in e.callers.sent && 0 <= i < |e.callers.sent[id]| && e.callers.sent[id][i].source == FromFrame(n)
         && id in e.callers.requests && !Completes(e.callers.requests[id].kind, e.net.consumed[n])
  }

  /** The reader has stopped because of the frame, or is about to with an error that names the reason. */
  ghost predicate StopsFor(reader: Reader, f: Frame) {
    || reader == Halted
    || (reader.Failing? && (if f == CloseSession then reader.cause == Of(EndOfFile)
                            else OnlyIs(reader.cause, ProtocolViolation)))
  }

  ghost predicate StopsAt(e: Engine, n: nat) {
    n == |e.net.consumed| - 1 && StopsFor(e.reader, e.net.consumed[n])
  }

  /** What the reader has in hand says whether its frame completes the request. */
  ghost predicate HandHonest(reader: Reader, requests: map<Id, Request>, consumed: seq<Frame>) {
    reader.Settling? ==>
      && consumed != [] && reader.id in requests && consumed[|consumed| - 1] != CloseSession
      && (reader.fails <==> !Completes(requests[reader.id].kind, consumed[|consumed| - 1]))
      && (reader.fails ==> reader.outcome.Failed? && OnlyIs(reader.outcome.err, ProtocolViolation))
  }

  ghost predicate ViolationsAreLast(e: Engine) {
    && HandHonest(e.reader, e.callers.requests, e.net.consumed)
    && (forall n: nat :: n < |e.net.consumed| && Illegal(e.role, e.net.consumed[n]) ==> StopsAt(e, n))
    && (forall n: nat :: Misplaced(e, n) ==> StopsAt(e, n))
  }

  // ------------------------------------------------------------ steps

  /** Requests keep their kinds, and no settlement from a frame is added. */
  predicate SameSettlements(e: Engine, e': Engine) {
    && e'.role == e.role && e'.reader == e.reader && e'.net.consumed == e.net.consumed
    && (forall id :: id in e.callers.requests ==>
          id in e'.callers.requests && e'.callers.requests[id].kind == e.callers.requests[id].kind)
    && (forall id, i :: id in e'.callers.sent && 0 <= i < |e'.callers.sent[id]| &&
                        e'.callers.sent[id][i].source.FromFrame? ==>
          id in e.callers.sent && i < |e.callers.sent[id]| && e.callers.sent[id][i] == e'.callers.sent[id][i])
  }

  lemma SameSettlementsKeep(e: Engine, e': Engine)
    requires ViolationsAreLast(e) && SettlingInv(e) && SameSettlements(e, e')
    ensures ViolationsAreLast(e')
  {
    forall n: nat | Misplaced(e', n) ensures Misplaced(e, n) {
      var id, i :| id in e'.callers.sent && 0 <= i < |e'.callers.sent[id]| &&
                   e'.callers.sent[id][i].source == FromFrame(n) && id in e'.callers.requests &&
                   !Completes(e'.callers.requests[id].kind, e'.net.consumed[n]);
      assert TraceableTo(e.callers.requests, e.net.consumed, id, n, e.callers.sent[id][i].outcome);
    }
    hide Misplaced, Completes, Illegal, StopsFor, SettlingInv, OnlyIs;
  }

  lemma CallersKeepSettlements(l: Label, e: Engine, e': Engine)
    requires CallerStep(l, e, e') && IdInv(e) && e'.callers.issued <= ID_PERIOD
    ensures SameSettlements(e, e')
  {
    if l.Start? { NextIdIsFresh(e.role, e.callers.issued, e.callers.requests); }
    hide IdInv, AllocatedId, OpenFrameOf;
  }

  lemma EndersKeepSettlements(l: Label, e: Engine, e': Engine)
    requires EnderStep(l, e, e')
    ensures SameSettlements(e, e')
  {
    hide CancelTicket, Swap;
  }

  lemma ServersKeepSettlements(l: Label, e: Engine, e': Engine)
    requires ServingStep(l, e, e')
    ensures SameSettlements(e, e')
  {
    hide ReplyFrame;
  }

  /** A request is judged by its kind: what it is settled with fails exactly when the frame does not complete it. */
  lemma JudgedByItsKind(kind: Kind, f: Frame)
    ensures var (outcome, fails) := if kind.CallKind? then SettleCall(f) else SettleOpen(f);
            && (fails <==> !Completes(kind, f))
            && (fails ==> outcome.Failed? && OnlyIs(outcome.err, ProtocolViolation))
  {
    MeaningIsTold(kind, f);
    if f.StreamEnd? { OnlyOkDecodesToSuccess(f.body); }
    hide Conveys, StatusOf, Err, OnlyIs;
  }

  /** Routing a frame: an illegal one stops the reader, and one that settles a request is judged by its kind. */
  lemma DispatchIsHonest(e: Engine, f: Frame)
    requires IdInv(e) && e.reader == Idle
    ensures var d := Dispatch(e, f);
            && d.callers == e.callers && d.role == e.role && (Illegal(e.role, f) ==> StopsFor(d.reader, f))
            && HandHonest(d.reader, e.callers.requests, e.net.consumed + [f])
  {
    assert OnlyIs(Of(ProtocolViolation), ProtocolViolation);
    if f != CloseSession && f.id in e.callers.requests {
      JudgedByItsKind(e.callers.requests[f.id].kind, f);
    }
    hide KnownIds, OpensOnce, Inbound, ReaderScope, Ticketed, CancelTicket, Owns, OnlyIs, SettleCall, SettleOpen,
         Completes;
  }

  lemma ConsumeKeepsLast(f: Frame, e: Engine, e': Engine)
    requires ViolationsAreLast(e) && SettlingInv(e) && IdInv(e) && ReaderStep(Consume(f), e, e')
    ensures ViolationsAreLast(e')
  {
    DispatchIsHonest(e, f);
    hide Dispatch, IdInv, HandHonest;
    forall n: nat | Misplaced(e', n) ensures Misplaced(e, n) {
      var id, i :| id in e'.callers.sent && 0 <= i < |e'.callers.sent[id]| &&
                   e'.callers.sent[id][i].source == FromFrame(n) && id in e'.callers.requests &&
                   !Completes(e'.callers.requests[id].kind, e'.net.consumed[n]);
      assert TraceableTo(e.callers.requests, e.net.consumed, id, n, e.callers.sent[id][i].outcome);
      assert e'.net.consumed[n] == e.net.consumed[n];
    }
    hide Misplaced, SettlingInv, OnlyIs;
    assert forall n: nat :: n < |e.net.consumed| ==> e'.net.consumed[n] == e.net.consumed[n];
  }

  /** What is misplaced after a settlement was so before, or is the frame just settled. */
  lemma SettleMisplaces(e: Engine, e': Engine, n: nat)
    requires HandHonest(e.reader, e.callers.requests, e.net.consumed)
    requires ReaderStep(SettleSend, e, e') && Misplaced(e', n)
    ensures Misplaced(e, n) || (n == |e.net.consumed| - 1 && e.reader.fails)
  {
    var x, i :| x in e'.callers.sent && 0 <= i < |e'.callers.sent[x]| &&
                e'.callers.sent[x][i].source == FromFrame(n) && x in e'.callers.requests &&
                !Completes(e'.callers.requests[x].kind, e'.net.consumed[n]);
    if x != e.reader.id || i < |SentOn(e.callers.sent, e.reader.id)| {
      assert x in e.callers.sent && e.callers.sent[x][i] == e'.callers.sent[x][i];
    }
    hide Completes;
  }

  lemma SettleKeepsLast(e: Engine, e': Engine)
    requires ViolationsAreLast(e) && ReaderStep(SettleSend, e, e')
    ensures ViolationsAreLast(e')
  {
    forall n: nat | Misplaced(e', n) ensures Misplaced(e, n) || (n == |e.net.consumed| - 1 && e.reader.fails) {
      SettleMisplaces(e, e', n);
    }
    hide Misplaced, OnlyIs, Send, Illegal;
  }

  lemma ReaderKeepsLast(l: Label, e: Engine, e': Engine)
    requires ViolationsAreLast(e) && SettlingInv(e) && IdInv(e) && ReaderStep(l, e, e')
    ensures ViolationsAreLast(e')
  {
    hide ViolationsAreLast, SettlingInv, IdInv;
    if l.Consume? { ConsumeKeepsLast(l.frame, e, e'); }
    else if l.SettleSend? { SettleKeepsLast(e, e'); }
    else { OtherReadsKeepLast(l, e, e'); }
  }

  lemma OtherReadsKeepLast(l: Label, e: Engine, e': Engine)
    requires ViolationsAreLast(e) && SettlingInv(e) && ReaderStep(l, e, e') && !l.Consume? && !l.SettleSend?
    ensures ViolationsAreLast(e')
  {
    assert SameSettlements(e, e'.(reader := e.reader)) by { hide ViolationsAreLast, SettlingInv, Dispatch; }
    SameSettlementsKeep(e, e'.(reader := e.reader));
    assert forall n: nat :: Misplaced(e', n) ==> Misplaced(e'.(reader := e.reader), n);
    hide Misplaced, SettlingInv, OnlyIs, Illegal, Dispatch, SameSettlements, RefusalFits;
  }

  lemma StepKeepsLast(l: Label, e: Engine, e': Engine)
    requires ViolationsAreLast(e) && SettlingInv(e) && IdInv(e) && Step(l, e, e') && e'.callers.issued <= ID_PERIOD
    ensures ViolationsAreLast(e')
  {
    hide ViolationsAreLast, SettlingInv, IdInv, CallerStep, EnderStep, ReaderStep, ServingStep, SameSettlements;
    if ReaderStep(l, e, e') {
      ReaderKeepsLast(l, e, e');
    } else {
      if CallerStep(l, e, e') { CallersKeepSettlements(l, e, e'); }
      else if EnderStep(l, e, e') { EndersKeepSettlements(l, e, e'); }
      else { ServersKeepSettlements(l, e, e'); }
      SameSettlementsKeep(e, e');
    }
  }

  // ------------------------------------------------------------ streams of the peer

  /** A live stream under a foreign identifier was acknowledged, or is being acknowledged. */
  ghost predicate Acknowledging(e: Engine) {
    forall id :: id in e.reg.streams && !Owns(e.role, id) ==> StreamAck(id) in e.net.emitted || e.reader == Acking(id)
  }

  lemma StepKeepsAcknowledging(l: Label, e: Engine, e': Engine)
    requires Acknowledging(e) && IdInv(e) && Step(l, e, e')
    ensures Acknowledging(e')
  {
    hide CallerStep, EnderStep, ReaderStep, ServingStep;
    if CallerStep(l, e, e') { CallerKeepsAcknowledging(l, e, e'); }
    else if EnderStep(l, e, e') { EnderKeepsAcknowledging(l, e, e'); }
    else if ReaderStep(l, e, e') { ReaderKeepsAcknowledging(l, e, e'); }
    else { ServingKeepsAcknowledging(l, e, e'); }
  }

  lemma CallerKeepsAcknowledging(l: Label, e: Engine, e': Engine)
    requires Acknowledging(e) && IdInv(e) && CallerStep(l, e, e')
    ensures Acknowledging(e')
  {
    if l.RegisterStream? { KnownIdsAreOwned(e.role, e.callers.issued, e.callers.requests, l.id); }
    hide IdInv, AllocatedId, OpenFrameOf, Owns;
  }

  lemma EnderKeepsAcknowledging(l: Label, e: Engine, e': Engine)
    requires Acknowledging(e) && EnderStep(l, e, e')
    ensures Acknowledging(e')
  {
    hide CancelTicket, TerminalOf, Send, Owns;
  }

  lemma ReaderKeepsAcknowledging(l: Label, e: Engine, e': Engine)
    requires Acknowledging(e) && ReaderStep(l, e, e')
    ensures Acknowledging(e')
  {
    if l.Consume? { DispatchAddsNoStream(e, l.frame); }
    hide Dispatch, RefusalFits, Owns, Send;
  }

  lemma DispatchAddsNoStream(e: Engine, f: Frame)
    ensures Dispatch(e, f).reg.streams <= e.reg.streams && Dispatch(e, f).role == e.role
  {
    hide CancelTicket, SettleCall, SettleOpen, Owns;
  }

  lemma ServingKeepsAcknowledging(l: Label, e: Engine, e': Engine)
    requires Acknowledging(e) && ServingStep(l, e, e')
    ensures Acknowledging(e')
  {
    hide ReplyFrame, Owns;
  }

  // ------------------------------------------------------------ the end of the session

  /** end cancels the context, then closes the transport, and only then takes the lock. */
  ghost predicate ClosesFirst(e: Engine) {
    && (e.enders != map[] || e.reg.ended ==> e.net.cancelled)
    && (forall k :: k in e.enders && !e.enders[k].EndCancelled? ==> e.net.closed)
    && (e.reg.ended ==> e.net.closed)
  }

  lemma StepKeepsClosesFirst(l: Label, e: Engine, e': Engine)
    requires ClosesFirst(e) && Step(l, e, e')
    ensures ClosesFirst(e')
  {
    hide CallerStep, EnderStep, ReaderStep, ServingStep;
    if EnderStep(l, e, e') { EnderClosesFirst(l, e, e'); }
    else { OthersCloseNothing(l, e, e'); }
  }

  lemma EnderClosesFirst(l: Label, e: Engine, e': Engine)
    requires ClosesFirst(e) && EnderStep(l, e, e')
    ensures ClosesFirst(e')
  {
    hide CancelTicket, TerminalOf, Send;
  }

  lemma OthersCloseNothing(l: Label, e: Engine, e': Engine)
    requires ClosesFirst(e) && (CallerStep(l, e, e') || ReaderStep(l, e, e') || ServingStep(l, e, e'))
    ensures ClosesFirst(e')
  {
    if ReaderStep(l, e, e') && l.Consume? { DispatchEndsNothing(e, l.frame); }
    hide Dispatch, RefusalFits, AllocatedId, ReplyFrame, OpenFrameOf;
  }

  lemma DispatchEndsNothing(e: Engine, f: Frame)
    ensures var d := Dispatch(e, f); d.enders == e.enders && d.net == e.net && d.reg.ended == e.reg.ended
  {
    hide CancelTicket, SettleCall, SettleOpen, Owns;
  }

  // ------------------------------------------------------------ inbound calls

  /** An invocation of end is to cancel the call. */
  ghost predicate Collected(enders: map<nat, Ender>, t: Ticket) {
    exists k :: k in enders && enders[k].EndSettling? && t in enders[k].tickets
  }

  /** What is registered is not released; a call nobody has cancelled is registered, or end is about to cancel it. */
  ghost predicate Findable(tickets: map<Ticket, Serve>, inflight: map<Id, Ticket>, enders: map<nat, Ender>) {
    && (forall id :: id in inflight ==>
          inflight[id] in tickets && tickets[inflight[id]].id == id && !tickets[inflight[id]].phase.Released?)
    && (forall t :: t in tickets && (tickets[t].phase.Cancelled? || tickets[t].phase.Released?) ==>
          tickets[t].cancelled)
    && (forall t :: t in tickets && !tickets[t].cancelled ==>
          (tickets[t].id in inflight && inflight[tickets[t].id] == t) || Collected(enders, t))
  }

  ghost predicate CallsFindable(e: Engine) {
    OpensDistinct(e.net.consumed) ==> Findable(e.serving.tickets, e.reg.inflight, e.enders)
  }

  lemma EnderKeepsFindable(l: Label, e: Engine, e': Engine)
    requires CallsFindable(e) && EnderStep(l, e, e')
    ensures CallsFindable(e')
  {
    hide OpensDistinct, TerminalOf, Send;
    if OpensDistinct(e.net.consumed) {
      forall t | t in e'.serving.tickets && !e'.serving.tickets[t].cancelled && Collected(e.enders, t)
        ensures Collected(e'.enders, t)
      {
        var k :| k in e.enders && e.enders[k].EndSettling? && t in e.enders[k].tickets;
        assert k in e'.enders && e'.enders[k].EndSettling? && t in e'.enders[k].tickets;
      }
      if l.EndSwap? {
        assert e'.enders[l.tid].EndSettling? && e'.enders[l.tid].tickets == e.reg.inflight.Values;
        forall t | t in e.serving.tickets && e.serving.tickets[t].id in e.reg.inflight &&
                   e.reg.inflight[e.serving.tickets[t].id] == t
          ensures Collected(e'.enders, t)
        {
          assert t in e.reg.inflight.Values;
        }
      }
      hide Collected;
    }
  }

  /** A call that moves on, or is cancelled and perhaps no longer registered. */
  lemma MoveKeepsFindable(tickets: map<Ticket, Serve>, inflight: map<Id, Ticket>, enders: map<nat, Ender>,
                          t: Ticket, x: Serve)
    requires Findable(tickets, inflight, enders) && t in tickets && x.id == tickets[t].id
    requires tickets[t].cancelled || x.phase == tickets[t].phase || !(x.phase.Cancelled? || x.phase.Released?)
             || x.cancelled
    requires (tickets[t].cancelled ==> x.cancelled)
    ensures !x.phase.Released? ==> Findable(tickets[t := x], inflight, enders)
    ensures x.cancelled && (forall u :: u in tickets && tickets[u].id == x.id ==> u == t) ==>
              Findable(tickets[t := x], Remove(inflight, x.id), enders)
  {
    hide Collected;
  }

  lemma ServingKeepsFindable(l: Label, e: Engine, e': Engine)
    requires CallsFindable(e) && IdInv(e) && ServingStep(l, e, e')
    ensures CallsFindable(e')
  {
    hide IdInv, OpensDistinct, Findable;
    if OpensDistinct(e.net.consumed) && (l.RunHandler? || l.Reply? || l.CancelContext? || l.ReleaseInflight?) {
      var v := e.serving;
      forall u | u in v.tickets && v.tickets[u].id == v.tickets[l.ticket].id ensures u == l.ticket {
        TicketsAreDistinct(e, l.ticket, u);
      }
      CancelledCallsAre(v.tickets, e.reg.inflight, e.enders);
      hide ReplyFrame;
      var x := e'.serving.tickets[l.ticket];
      assert e'.serving.tickets == v.tickets[l.ticket := x];
      assert e'.reg.inflight == if l.ReleaseInflight? then Remove(e.reg.inflight, x.id) else e.reg.inflight;
      MoveKeepsFindable(v.tickets, e.reg.inflight, e.enders, l.ticket, x);
    } else {
      hide ReplyFrame;
    }
  }

  lemma CancelledCallsAre(tickets: map<Ticket, Serve>, inflight: map<Id, Ticket>, enders: map<nat, Ender>)
    requires Findable(tickets, inflight, enders)
    ensures forall t :: t in tickets && (tickets[t].phase.Cancelled? || tickets[t].phase.Released?) ==>
              tickets[t].cancelled
  {
  }

  lemma ConsumeKeepsFindable(f: Frame, e: Engine, e': Engine)
    requires CallsFindable(e) && IdInv(e) && ServingInv(e) && ReaderStep(Consume(f), e, e')
    ensures CallsFindable(e')
  {
    if OpensDistinct(e'.net.consumed) {
      ShorterIsDistinct(e.net.consumed, f);
      var v := e.serving;
      if f.StreamEnd? && f.id in e.reg.inflight && e'.serving != e.serving {
        var t := e.reg.inflight[f.id];
        assert t in v.tickets && v.tickets[t].id == f.id by {
          hide Dispatch, ServingInv, KnownIds, Filed, OpensOnce, ReaderScope, Ticketed, OpensDistinct, Findable;
        }
        forall u | u in v.tickets && v.tickets[u].id == f.id ensures u == t { TicketsAreDistinct(e, t, u); }
        MoveKeepsFindable(v.tickets, e.reg.inflight, e.enders, t, v.tickets[t].(cancelled := true));
      }
      DispatchOfCalls(e, f);
      hide Dispatch, IdInv, ServingInv, Findable, OpensDistinct;
    }
  }

  lemma ShorterIsDistinct(frames: seq<Frame>, f: Frame)
    requires OpensDistinct(frames + [f])
    ensures OpensDistinct(frames)
  {
    assert forall i :: 0 <= i < |frames| ==> (frames + [f])[i] == frames[i];
  }

  /** What a frame does to the inbound calls. */
  lemma DispatchOfCalls(e: Engine, f: Frame)
    requires IdInv(e)
    ensures var d := Dispatch(e, f);
            && d.enders == e.enders
            && (|| (d.serving == e.serving && d.reg.inflight == e.reg.inflight)
                || (f.StreamEnd? && f.id in e.reg.inflight && e.reg.inflight[f.id] in e.serving.tickets &&
                    d.reg.inflight == Remove(e.reg.inflight, f.id) &&
                    d.serving.tickets == e.serving.tickets[e.reg.inflight[f.id] :=
                      e.serving.tickets[e.reg.inflight[f.id]].(cancelled := true)]))
  {
    hide KnownIds, Filed, OpensOnce, ReaderScope, Ticketed, SettleCall, SettleOpen, Owns;
  }

  lemma AdmitKeepsFindable(e: Engine, e': Engine)
    requires CallsFindable(e) && IdInv(e) && ReaderStep(AdmitCall, e, e')
    ensures CallsFindable(e')
  {
    var v, c, t: Ticket := e.serving, e.net.consumed, |e.net.consumed| - 1;
    AdmitKeepsTicketed(v.tickets, v.refusals, t, c, e'.serving.tickets[t]);
    if OpensDistinct(c) {
      forall u | u in v.tickets ensures v.tickets[u].id != e'.serving.tickets[t].id && u != t {
        assert c[u] == OpenCall(v.tickets[u].id, Some(v.tickets[u].call)) && u < t;
        if v.tickets[u].id == e'.serving.tickets[t].id { OpenedOnce(c, u, t); }
      }
      hide IdInv, OpensDistinct;
      AddKeepsFindable(v.tickets, e.reg.inflight, e.enders, t, e'.serving.tickets[t]);
      hide Findable;
    }
    hide IdInv, OpensDistinct;
  }

  lemma AddKeepsFindable(tickets: map<Ticket, Serve>, inflight: map<Id, Ticket>, enders: map<nat, Ender>,
                         t: Ticket, x: Serve)
    requires Findable(tickets, inflight, enders) && x.phase == Running
    requires forall u :: u in tickets ==> tickets[u].id != x.id && u != t
    ensures Findable(tickets[t := x], inflight[x.id := t], enders)
  {
    hide Collected;
  }

  lemma StepKeepsFindable(l: Label, e: Engine, e': Engine)
    requires CallsFindable(e) && IdInv(e) && ServingInv(e) && Step(l, e, e')
    ensures CallsFindable(e')
  {
    hide CallerStep, EnderStep, ReaderStep, ServingStep, CallsFindable, IdInv, ServingInv;
    if EnderStep(l, e, e') { EnderKeepsFindable(l, e, e'); }
    else if ServingStep(l, e, e') { ServingKeepsFindable(l, e, e'); }
    else if ReaderStep(l, e, e') && l.Consume? { ConsumeKeepsFindable(l.frame, e, e'); }
    else if ReaderStep(l, e, e') && l.AdmitCall? { AdmitKeepsFindable(e, e'); }
    else { OthersKeepFindable(l, e, e'); }
  }

  lemma OthersKeepFindable(l: Label, e: Engine, e': Engine)
    requires CallsFindable(e) && (CallerStep(l, e, e') || (ReaderStep(l, e, e') && !l.Consume? && !l.AdmitCall?))
    ensures CallsFindable(e')
  {
    if l.ReadFail? && OpensDistinct(e.net.consumed) {
      assert forall t :: Collected(e.enders, t) ==> Collected(e'.enders, t) by {
        forall t | Collected(e.enders, t) ensures Collected(e'.enders, t) {
          var k :| k in e.enders && e.enders[k].EndSettling? && t in e.enders[k].tickets;
          assert k in e'.enders && e'.enders[k] == e.enders[k];
        }
      }
      hide Collected;
    } else {
      hide Findable;
    }
    hide OpensDistinct, AllocatedId, RefusalFits, Dispatch;
  }

  // ------------------------------------------------------------ theorems

  lemma NewEngineKeepsRules(e: Engine)
    requires Init(e)
    ensures ViolationsAreLast(e) && Acknowledging(e) && ClosesFirst(e) && CallsFindable(e) && ServingInv(e)
  {
  }

  lemma {:induction false} RunKeepsRules(run: seq<Engine>, labels: seq<Label>, n: nat)
    requires IsRun(run, labels) && n < |run| && run[n].callers.issued <= ID_PERIOD
    ensures ViolationsAreLast(run[n]) && Acknowledging(run[n])
    ensures ClosesFirst(run[n]) && CallsFindable(run[n]) && ServingInv(run[n])
    decreases n
  {
    hide IdInv, SettlingInv, Step, Init, ViolationsAreLast, Acknowledging, ClosesFirst, CallsFindable, ServingInv;
    if n == 0 {
      NewEngineKeepsRules(run[0]);
    } else {
      assert Step(labels[n - 1], run[n - 1], run[n - 1 + 1]);
      StepIssues(labels[n - 1], run[n - 1], run[n]);
      RunKeepsIds(run, labels, n - 1);
      RunKeepsSettling(run, labels, n - 1);
      RunKeepsRules(run, labels, n - 1);
      StepKeepsLast(labels[n - 1], run[n - 1], run[n]);
      StepKeepsAcknowledging(labels[n - 1], run[n - 1], run[n]);
      StepKeepsClosesFirst(labels[n - 1], run[n - 1], run[n]);
      StepKeepsFindable(labels[n - 1], run[n - 1], run[n]);
      StepKeepsServing(labels[n - 1], run[n - 1], run[n]);
    }
  }

  /**
   After a frame that breaks the protocol nothing more is taken: the reader has stopped, or is about
   to end the session with a protocol violation; after an orderly close, with the end of the input.
   */
  lemma NothingAfterAViolation(e: Engine, n: nat)
    requires Reachable(e) && e.callers.issued <= ID_PERIOD && n < |e.net.consumed|
    requires Illegal(e.role, e.net.consumed[n]) || Misplaced(e, n)
    ensures n == |e.net.consumed| - 1 && StopsFor(e.reader, e.net.consumed[n])
  {
    hide Step, Misplaced, Illegal, StopsFor;
    var run, labels :| IsRun(run, labels) && run[|run| - 1] == e;
    RunKeepsRules(run, labels, |run| - 1);
  }

  /** Whoever finds a stream of the peer's finds one that the peer has been told of, or is just being told of. */
  lemma StreamsAreAcknowledged(e: Engine, id: Id)
    requires Reachable(e) && e.callers.issued <= ID_PERIOD && id in e.reg.streams && !Owns(e.role, id)
    ensures StreamAck(id) in e.net.emitted || e.reader == Acking(id)
  {
    hide Step, ViolationsAreLast;
    var run, labels :| IsRun(run, labels) && run[|run| - 1] == e;
    RunKeepsRules(run, labels, |run| - 1);
  }

  /** Once the end is recorded the context is cancelled and the transport closed. */
  lemma EndedMeansClosed(e: Engine)
    requires Reachable(e) && e.callers.issued <= ID_PERIOD && e.reg.ended
    ensures e.net.cancelled && e.net.closed
  {
    hide Step, ViolationsAreLast, CallsFindable, ServingInv;
    var run, labels :| IsRun(run, labels) && run[|run| - 1] == e;
    RunKeepsRules(run, labels, |run| - 1);
  }

  /**
   For a peer that never reuses an identifier: when no end is under way, every inbound call is cancelled,
   or it is registered under its identifier and still to be released. So end missed none, and nothing
   that was released stays registered.
   */
  lemma NoCallIsMissed(e: Engine, t: Ticket)
    requires Reachable(e) && e.callers.issued <= ID_PERIOD && OpensDistinct(e.net.consumed)
    requires t in e.serving.tickets && e.enders == map[]
    ensures || e.serving.tickets[t].cancelled
            || (e.serving.tickets[t].id in e.reg.inflight && e.reg.inflight[e.serving.tickets[t].id] == t)
    ensures e.serving.tickets[t].phase.Released? ==> forall id :: id in e.reg.inflight ==> e.reg.inflight[id] != t
  {
    hide Step, ViolationsAreLast, ServingInv, OpensDistinct, ClosesFirst;
    var run, labels :| IsRun(run, labels) && run[|run| - 1] == e;
    RunKeepsRules(run, labels, |run| - 1);
  }
}
