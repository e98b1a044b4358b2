/**
 What the goroutine that serves a stream reports, over all runs of two endpoints, disturbed or not:
 every terminal frame it writes tells how its handler ended, or what kept it from finishing in good
 order; and a handler whose stream was released before it returned says nothing.
 */
module StreamServing {
  import opened Status
  import opened Stream
  import opened StreamPair
  import opened StreamConservation
  import opened StreamTermination
  import opened StreamEnds
  import Session

  // ------------------------------------------------------------ what is reported

  /** A return in good order: no error, or the sentinel for a stream that has ended. */
  predicate InGoodOrder(err: Option<Error>) {
    err.None? || Is(err.value, StreamClosed)
  }

  /**
   What is left to report for a return: in good order, what CloseSend reported; else the failure, once
   the messages in front of it are out, or the end of the context that cut the waiting short.
   */
  predicate Remains(c: Control, tx: Tx, cancelled: bool, returned: Option<Error>, err: Option<Error>) {
    if InGoodOrder(returned) then
      tx.closer.Closed? && err == if tx.closer.err.Some? then tx.closer.err else returned
    else
      || (err == returned && tx.barrierDone)
      || (cancelled && (err == Some(Of(Canceled)) || (c.callerDone && c.deadline && err == Some(Of(DeadlineExceeded)))))
  }

  /** The code of what is left to report: 0 exactly for an end in good order. */
  ghost predicate Reports(c: Control, tx: Tx, cancelled: bool, code: StatusCode) {
    && c.returned.Some?
    && exists err :: Remains(c, tx, cancelled, c.returned.value, err) &&
                     code == if InGoodOrder(err) then 0 else StatusOf(err)
  }

  /** The terminal frames of a serving endpoint: a refusal as its first frame, or the handler's report. */
  ghost predicate EndsTold(c: Control, tx: Tx, cancelled: bool, tooBig: bool, written: seq<Frame>) {
    forall k :: 0 < k < |written| && written[k].EndFrame? ==> tooBig || Reports(c, tx, cancelled, written[k].code)
  }

  /** How far the handler has got with what it returned. */
  ghost predicate Honest(c: Control, tx: Tx, cancelled: bool) {
    var h, r := c.handler, c.returned;
    && (h.Absent? || h.Running? ==> r.None?)
    && (!h.Absent? && !h.Running? ==> r.Some?)
    && (h.Returned? || h.ClosingSend? || h.Flushing? || h.FlushWait? ==> r == Some(h.err))
    && (h.ClosingSend? ==> InGoodOrder(h.err))
    && (h.Flushing? || h.FlushWait? ==> !InGoodOrder(h.err))
    && (h.Discarding? || h.Reporting? ==> Remains(c, tx, cancelled, r.value, h.err))
  }

  /** Before there is a handler nothing is queued or written, but a refusal. */
  ghost predicate Early(e: Endpoint) {
    && (e.ctl.handler.Absent? ==> e.s.outbound == [] && !e.tx.pump.Writing? && e.tx.closer == NotCalled)
    && (e.rx.reader.Refusing? || e.rx.reader.Acking? ==> e.ctl.handler.Absent? && e.tx.written == [])
  }

  ghost predicate Serves(e: Endpoint) {
    && !e.ctl.client && Early(e) && Honest(e.ctl, e.tx, e.s.cancelled)
    && EndsTold(e.ctl, e.tx, e.s.cancelled, TooBig(e.rx.processed, e.s.maxBytes), e.tx.written)
    && (e.rx.reader.Oversized? ==> TooBig(e.rx.processed, e.s.maxBytes))
  }

  // ------------------------------------------------------------ reports stay

  /** Nothing that explains a report is ever withdrawn. */
  predicate Onward(c: Control, tx: Tx, cancelled: bool, c': Control, tx': Tx, cancelled': bool) {
    && (c.returned.Some? ==> c'.returned == c.returned) && (c.callerDone ==> c'.callerDone && c'.deadline == c.deadline)
    && (tx.closer.Closed? ==> tx'.closer == tx.closer) && (tx.barrierDone ==> tx'.barrierDone)
    && (cancelled ==> cancelled')
  }

  lemma ReportsStay(c: Control, tx: Tx, cancelled: bool, c': Control, tx': Tx, cancelled': bool, code: StatusCode)
    requires Reports(c, tx, cancelled, code) && Onward(c, tx, cancelled, c', tx', cancelled')
    ensures Reports(c', tx', cancelled', code)
  {
    hide StatusOf, InGoodOrder;
    var err :| Remains(c, tx, cancelled, c.returned.value, err) &&
               code == if InGoodOrder(err) then 0 else StatusOf(err);
    assert Remains(c', tx', cancelled', c'.returned.value, err);
  }

  lemma EndsStayTold(e: Endpoint, e': Endpoint)
    requires Serves(e) && Onward(e.ctl, e.tx, e.s.cancelled, e'.ctl, e'.tx, e'.s.cancelled)
    requires TooBig(e.rx.processed, e.s.maxBytes) ==> TooBig(e'.rx.processed, e'.s.maxBytes)
    ensures EndsTold(e'.ctl, e'.tx, e'.s.cancelled, TooBig(e'.rx.processed, e'.s.maxBytes), e.tx.written)
  {
    hide Reports, TooBig, Honest, Early, Onward;
    forall k | 0 < k < |e.tx.written| && e.tx.written[k].EndFrame? && !TooBig(e.rx.processed, e.s.maxBytes)
      ensures Reports(e'.ctl, e'.tx, e'.s.cancelled, e.tx.written[k].code)
    {
      ReportsStay(e.ctl, e.tx, e.s.cancelled, e'.ctl, e'.tx, e'.s.cancelled, e.tx.written[k].code);
    }
  }

  /** A step that writes nothing, or one frame that is no terminal frame. */
  lemma QuietStepServes(e: Endpoint, e': Endpoint)
    requires Serves(e) && !e'.ctl.client && Early(e') && Honest(e'.ctl, e'.tx, e'.s.cancelled)
    requires Onward(e.ctl, e.tx, e.s.cancelled, e'.ctl, e'.tx, e'.s.cancelled)
    requires TooBig(e.rx.processed, e.s.maxBytes) ==> TooBig(e'.rx.processed, e'.s.maxBytes)
    requires e'.rx.reader.Oversized? ==> TooBig(e'.rx.processed, e'.s.maxBytes)
    requires || e'.tx.written == e.tx.written
             || (|e'.tx.written| == |e.tx.written| + 1 && e'.tx.written[..|e.tx.written|] == e.tx.written &&
                 (e'.tx.written[|e.tx.written|].EndFrame? ==>
                    || |e.tx.written| == 0 || TooBig(e'.rx.processed, e'.s.maxBytes)
                    || Reports(e'.ctl, e'.tx, e'.s.cancelled, e'.tx.written[|e.tx.written|].code)))
    ensures Serves(e')
  {
    EndsStayTold(e, e');
    hide Reports, TooBig, Honest, Early, Onward;
    forall k | 0 < k < |e'.tx.written| && e'.tx.written[k].EndFrame?
      ensures TooBig(e'.rx.processed, e'.s.maxBytes) || Reports(e'.ctl, e'.tx, e'.s.cancelled, e'.tx.written[k].code)
    {
      if k < |e.tx.written| { assert e'.tx.written[k] == e.tx.written[k]; }
    }
  }

  // ------------------------------------------------------------ steps

  lemma HandlerServes(l: Label, e: Endpoint, e': Endpoint)
    requires Serves(e) && HandlerStep(l, e, e')
    ensures Serves(e')
  {
    hide TooBig;
    if l.HandlerReport? {
      ReportIsTold(l, e, e');
    } else {
      assert Early(e') && Honest(e'.ctl, e'.tx, e'.s.cancelled) by { hide EndsTold; }
      hide Honest, Early, EndsTold;
      QuietStepServes(e, e');
    }
  }

  lemma ReportIsTold(l: Label, e: Endpoint, e': Endpoint)
    requires Serves(e) && HandlerStep(l, e, e') && l.HandlerReport?
    ensures Serves(e')
  {
    var err := e.ctl.handler.err;
    assert Reports(e'.ctl, e'.tx, e'.s.cancelled, EndCode(err)) by {
      hide EndsTold, TooBig, StatusOf, Early, EndSession, Writable;
      EndKeepsCancelled(e);
      assert Remains(e'.ctl, e'.tx, e'.s.cancelled, e'.ctl.returned.value, err);
    }
    assert Early(e') && Honest(e'.ctl, e'.tx, e'.s.cancelled) by { hide EndsTold, TooBig, StatusOf; }
    hide Honest, Early, EndsTold, TooBig, EndCode, Reports;
    QuietStepServes(e, e');
  }

  lemma EndKeepsCancelled(e: Endpoint)
    ensures forall c :: var e' := EndSession(e, c);
              && e'.tx == e.tx && (e.s.cancelled ==> e'.s.cancelled) && e'.ctl.returned == e.ctl.returned
              && e'.ctl.callerDone == e.ctl.callerDone && e'.ctl.deadline == e.ctl.deadline
  {
  }

  lemma SenderServes(l: Label, e: Endpoint, e': Endpoint)
    requires Serves(e) && SenderStep(l, e, e')
    ensures Serves(e')
  {
    hide TooBig;
    assert Early(e') && Honest(e'.ctl, e'.tx, e'.s.cancelled) by { hide EndsTold, InGoodOrder, AfterTerminal; }
    hide Honest, Early, EndsTold, AfterTerminal;
    QuietStepServes(e, e');
  }

  lemma EndSessionServes(e: Endpoint, cause: Option<Error>)
    requires Serves(e)
    ensures Serves(EndSession(e, cause))
  {
    var e' := EndSession(e, cause);
    hide TooBig, Session.TerminalOf, StreamCause;
    assert Early(e') && Honest(e'.ctl, e'.tx, e'.s.cancelled) by { hide EndsTold, InGoodOrder; }
    hide Honest, Early, EndsTold;
    QuietStepServes(e, e');
  }

  /** A frame of the stream that is no terminal frame is written, or ends the session. */
  lemma WriteServes(e: Endpoint, f: Frame, ok: bool)
    requires Serves(e) && !f.EndFrame? && (!e.ctl.handler.Absent? || !ok)
    ensures Serves(Write(e, f, ok))
  {
    if ok {
      hide TooBig, InGoodOrder, Reports;
      QuietStepServes(e, Write(e, f, ok));
    } else {
      hide Serves, EndSession;
      EndSessionServes(e, Some(WriteError(e, f)));
    }
  }

  lemma PumpServes(l: Label, e: Endpoint, e': Endpoint)
    requires Serves(e) && PumpStep(l, e, e')
    ensures Serves(e')
  {
    if l.PumpWrite? {
      var f := FrameOf(e.tx.pump.item);
      assert !e.ctl.handler.Absent? by { hide EndsTold, Honest, TooBig; }
      WriteServes(e, f, l.ok);
      hide Writable;
      PumpMovesServe(Write(e, f, l.ok), e');
    } else {
      PumpMovesServe(e, e');
    }
  }

  /** The pump moves, takes an item or reports the close; nothing else changes. */
  lemma PumpMovesServe(e: Endpoint, e': Endpoint)
    requires Serves(e) && e'.ctl == e.ctl && e'.rx == e.rx
    requires e' == e.(s := e.s.(outbound := e'.s.outbound),
                      tx := e.tx.(pump := e'.tx.pump, closeReport := e'.tx.closeReport,
                                  barrierDone := e'.tx.barrierDone))
    requires (e.tx.barrierDone ==> e'.tx.barrierDone)
    requires e.ctl.handler.Absent? ==> e'.s.outbound == [] && !e'.tx.pump.Writing?
    ensures Serves(e')
  {
    hide TooBig, InGoodOrder, Reports;
    QuietStepServes(e, e');
  }

  // ------------------------------------------------------------ the reader

  lemma ReadServes(refusal: StatusCode, e: Endpoint, p: Endpoint, e': Endpoint)
    requires Serves(e) && Opening(e) && OpensOnce(e, p) && IntakeStep(Read(refusal), e, p, e')
    ensures Serves(e')
  {
    var f := p.tx.written[|e.rx.processed|];
    assert f == OpenFrame ==> e.tx.written == [] && e.ctl.handler.Absent? && e.rx.processed == [] by {
      hide Serves;
    }
    hide Opening, OpensOnce;
    FrameKeepsTold(e.rx.processed, f, e.s.maxBytes);
    if f != OpenFrame && !f.AckFrame? && !f.EndFrame? && e.ctl.openPending {
      var longer := e.(rx := e.rx.(processed := e.rx.processed + [f]));
      ReaderMovesServe(e, longer);
      EndSessionServes(longer, Some(Of(ProtocolViolation)));
      hide Serves;
      ReaderMovesServe(EndSession(longer, Some(Of(ProtocolViolation))), e');
    } else {
      hide EndSession;
      ReaderMovesServe(e, e');
    }
  }

  /** The reader moves, and with it the registries and the pump's start; nothing is written. */
  lemma ReaderMovesServe(e: Endpoint, e': Endpoint)
    requires Serves(e) && e'.ctl == e.ctl.(registered := e'.ctl.registered, openPending := e'.ctl.openPending,
                                           verdict := e'.ctl.verdict)
    requires e'.tx == e.tx.(pump := e'.tx.pump) && (e'.tx.pump == e.tx.pump || e'.tx.pump == Waiting)
    requires e'.s.maxBytes == e.s.maxBytes && e'.s.outbound == e.s.outbound && (e.s.cancelled ==> e'.s.cancelled)
    requires TooBig(e.rx.processed, e.s.maxBytes) ==> TooBig(e'.rx.processed, e.s.maxBytes)
    requires e'.rx.reader.Oversized? ==> TooBig(e'.rx.processed, e.s.maxBytes)
    requires e'.rx.reader.Refusing? || e'.rx.reader.Acking? ==> e.ctl.handler.Absent? && e.tx.written == []
    ensures Serves(e')
  {
    hide TooBig, InGoodOrder, Reports;
    QuietStepServes(e, e');
  }

  lemma ServeServes(takeCancel: bool, e: Endpoint, p: Endpoint, e': Endpoint)
    requires Serves(e) && ReceivingIn(e) && IntakeStep(Serve(takeCancel), e, p, e')
    ensures Serves(e')
  {
    assert e.rx.processed != [] && e.rx.processed[|e.rx.processed| - 1] == e.rx.reader.frame by { hide Serves; }
    hide ReceivingIn, Serves, TooBig;
    if e.rx.reader.frame.DataFrame? {
      ServeDataServes(e.rx.reader.frame.message, takeCancel, e, e');
    } else {
      hide EndSession;
      ReaderMovesServe(e, e');
    }
  }

  lemma ServeDataServes(m: Message, takeCancel: bool, e: Endpoint, e': Endpoint)
    requires Serves(e) && e.rx.reader == Serving(DataFrame(m)) && ServeStep(e, e', takeCancel)
    requires e.rx.processed != [] && e.rx.processed[|e.rx.processed| - 1] == DataFrame(m)
    ensures Serves(e')
  {
    var r := DeliverTo(e.s, m, takeCancel, CtxErr(e.ctl)).1;
    hide Serves;
    if r.Failed? && |m| <= e.s.maxBytes {
      EndSessionServes(e, Some(r.err));
      hide EndSession, TooBig;
      ReaderMovesServe(EndSession(e, Some(r.err)), e');
    } else {
      if r.Failed? { assert TooBig(e.rx.processed, e.s.maxBytes); }
      hide EndSession, TooBig;
      ReaderMovesServe(e, e');
    }
  }

  lemma ReaderServes(l: Label, e: Endpoint, e': Endpoint)
    requires Serves(e) && ReaderStep(l, e, e')
    ensures Serves(e')
  {
    hide TooBig;
    if l.AckWrite? {
      AckServes(l, e, e');
    } else if l.ReadFail? {
      EndSessionServes(e, None);
      hide Serves, EndSession;
      ReaderMovesServe(EndSession(e, None), e');
    } else if l.ServeDone? {
      hide Serves;
      ReaderMovesServe(e, e');
    } else {
      EndWriteServes(l, e, e');
    }
  }

  lemma AckServes(l: Label, e: Endpoint, e': Endpoint)
    requires Serves(e) && ReaderStep(l, e, e') && l.AckWrite?
    ensures Serves(e')
  {
    hide TooBig, InGoodOrder, Reports, Writable;
    if l.ok {
      QuietStepServes(e, e');
    } else {
      EndSessionServes(e, Some(WriteError(e, AckFrame)));
      hide Serves, EndSession;
      ReaderMovesServe(EndSession(e, Some(WriteError(e, AckFrame))), e');
    }
  }

  lemma EndWriteServes(l: Label, e: Endpoint, e': Endpoint)
    requires Serves(e) && ReaderStep(l, e, e') && (l.RefuseWrite? || l.OversizedWrite?)
    ensures Serves(e')
  {
    hide TooBig, InGoodOrder, Reports, Writable;
    var f := EndFrame(if l.RefuseWrite? then e.rx.reader.code else MESSAGE_TOO_LARGE);
    if l.ok {
      QuietStepServes(e, e');
    } else {
      EndSessionServes(e, Some(WriteError(e, f)));
      hide Serves, EndSession;
      ReaderMovesServe(EndSession(e, Some(WriteError(e, f))), e');
    }
  }

  lemma ConsumerServes(l: Label, e: Endpoint, e': Endpoint)
    requires Serves(e) && ConsumerStep(l, e, e')
    ensures Serves(e')
  {
    hide TooBig, InGoodOrder, Reports;
    if l.Shutdown? {
      hide Serves;
      EndSessionServes(e, l.cause);
    } else {
      QuietStepServes(e, e');
    }
  }

  lemma StepServes(l: Label, e: Endpoint, p: Endpoint, e': Endpoint)
    requires Serves(e) && EndpointInv(e) && OpensOnce(e, p) && Step(l, e, p, e')
    ensures Serves(e')
  {
    assert Opening(e) && ReceivingIn(e) && !OpenerStep(l, e, e') by {
      hide SendingIn, ReceivingIn, Coherent, OpensFirst, Early, Honest, EndsTold;
      hide HandlerStep, SenderStep, PumpStep, IntakeStep, ReaderStep, ConsumerStep, OpensOnce;
    }
    hide Serves, EndpointInv, Opening, ReceivingIn, OpensOnce;
    hide OpenerStep, HandlerStep, SenderStep, PumpStep, ReaderStep, ConsumerStep, ServeStep, Dispatch;
    if HandlerStep(l, e, e') { HandlerServes(l, e, e'); }
    else if SenderStep(l, e, e') { SenderServes(l, e, e'); }
    else if PumpStep(l, e, e') { PumpServes(l, e, e'); }
    else if ReaderStep(l, e, e') { ReaderServes(l, e, e'); }
    else if ConsumerStep(l, e, e') { ConsumerServes(l, e, e'); }
    else if l.Read? { ReadServes(l.refusal, e, p, e'); }
    else { ServeServes(l.takeCancel, e, p, e'); }
  }

  // ------------------------------------------------------------ runs

  lemma NextServes(y: System, y': System, side: Side, l: Label)
    requires Inv(y) && Serves(y.server) && Next(y, y', side, l)
    ensures Serves(y'.server)
  {
    hide Serves, Step;
    if side == ServerSide {
      assert OpensOnce(y.server, y.client) && EndpointInv(y.server) by { hide SendingIn, ReceivingIn, Coherent; }
      hide Inv, EndpointInv, OpensOnce;
      StepServes(l, y.server, y.client, y'.server);
    }
  }

  lemma {:induction false} RunServes(run: seq<System>, moves: seq<Move>)
    requires IsRun(run, moves) && Inv(run[0]) && Serves(run[0].server)
    ensures Inv(run[|run| - 1]) && Serves(run[|run| - 1].server)
    decreases |moves|
  {
    hide Inv, Serves, Next;
    if moves != [] {
      var n := |moves| - 1;
      RunServes(run[..n + 1], moves[..n]);
      NextKeepsInv(run[n], run[n + 1], moves[n].side, moves[n].step);
      NextServes(run[n], run[n + 1], moves[n].side, moves[n].step);
    }
  }

  lemma FreshServes(y: System)
    requires Init(y)
    ensures Serves(y.server)
  {
  }

  lemma OpenerSendsNothingTooBig(y: System)
    requires Inv(y) && CalmInv(y)
    ensures !TooBig(y.server.rx.processed, y.server.s.maxBytes)
  {
    hide EndpointInv, ServerCalm, ClientCalm, NoEnd;
    assert forall k :: 0 <= k < |y.server.rx.processed| ==> y.server.rx.processed[k] == y.client.tx.written[k];
  }

  lemma ReachableServes(y: System)
    requires Reachable(y)
    ensures Serves(y.server) && !TooBig(y.server.rx.processed, y.server.s.maxBytes)
  {
    hide Inv, CalmInv, Init, Serves;
    ReachableKeepsCalmInv(y);
    var y0 :| Init(y0) && Reaches(y0, y);
    var run, moves :| IsRun(run, moves) && run[0] == y0 && run[|run| - 1] == y;
    InitIsCalm(y0);
    FreshServes(y0);
    RunServes(run, moves);
    OpenerSendsNothingTooBig(y);
  }

  // ------------------------------------------------------------ theorems

  /**
   Whatever happens: every terminal frame of the serving side after its first frame reports the
   handler's return, or the context that kept it from being finished in good order.
   */
  lemma TerminalTellsTheReturn(y: System, k: nat)
    requires Reachable(y) && 0 < k < |y.server.tx.written| && y.server.tx.written[k].EndFrame?
    ensures Reports(y.server.ctl, y.server.tx, y.server.s.cancelled, y.server.tx.written[k].code)
  {
    hide Reachable, TooBig, Early, Honest, Reports;
    ReachableServes(y);
  }

  // ------------------------------------------------------------ a stream that was released first

  /** The handler has returned, and its stream was released before it looked. */
  ghost predicate Released(e: Endpoint) {
    && !e.ctl.client && e.rx.processed != [] && !e.ctl.registered && (e.ctl.handler.Returned? || e.ctl.handler.Over?)
    && !e.rx.reader.Refusing? && !e.rx.reader.Acking?
    && (e.rx.reader.Oversized? ==> TooBig(e.rx.processed, e.s.maxBytes))
  }

  /** One step writes at most one frame, and no terminal frame. */
  ghost predicate SaysNothing(e: Endpoint, e': Endpoint) {
    && |e.tx.written| <= |e'.tx.written| && e'.tx.written[..|e.tx.written|] == e.tx.written
    && forall k :: |e.tx.written| <= k < |e'.tx.written| ==> !e'.tx.written[k].EndFrame?
  }

  lemma ReleasedHandlers(l: Label, e: Endpoint, e': Endpoint)
    requires Released(e)
    requires HandlerStep(l, e, e') || SenderStep(l, e, e')
    ensures Released(e') && SaysNothing(e, e')
  {
    hide TooBig, Writable, AfterTerminal, EndSession, Is, StatusOf;
  }

  lemma ReleasedPump(l: Label, e: Endpoint, e': Endpoint)
    requires Released(e) && PumpStep(l, e, e')
    ensures Released(e') && SaysNothing(e, e')
  {
    hide TooBig, Writable, Session.TerminalOf, StreamCause, Is;
  }

  lemma ReleasedConsumers(l: Label, e: Endpoint, e': Endpoint)
    requires Released(e) && ConsumerStep(l, e, e')
    ensures Released(e') && SaysNothing(e, e')
  {
    hide TooBig, Session.TerminalOf, StreamCause, Is;
  }

  lemma ReleasedReaders(l: Label, e: Endpoint, p: Endpoint, e': Endpoint)
    requires Released(e) && !TooBig(e.rx.processed, e.s.maxBytes) && ReaderStep(l, e, e')
    ensures Released(e') && SaysNothing(e, e')
  {
    hide TooBig, Writable, Session.TerminalOf, StreamCause;
  }

  lemma ReleasedIntake(l: Label, e: Endpoint, p: Endpoint, e': Endpoint)
    requires Released(e) && ReceivingIn(e) && OpensOnce(e, p) && IntakeStep(l, e, p, e')
    ensures Released(e') && SaysNothing(e, e')
  {
    if l.Read? {
      var f := p.tx.written[|e.rx.processed|];
      assert f != OpenFrame;
      FrameKeepsTold(e.rx.processed, f, e.s.maxBytes);
    } else if e.rx.reader.frame.DataFrame? && |e.rx.reader.frame.message| > e.s.maxBytes {
      assert e.rx.processed[|e.rx.processed| - 1] == e.rx.reader.frame;
      assert TooBig(e.rx.processed, e.s.maxBytes);
    }
    hide TooBig, ReceivingIn, OpensOnce, Session.TerminalOf, StreamCause, FinishBegin;
  }

  lemma StepStaysReleased(l: Label, e: Endpoint, p: Endpoint, e': Endpoint)
    requires Released(e) && EndpointInv(e) && OpensOnce(e, p) && Step(l, e, p, e')
    requires !TooBig(e.rx.processed, e.s.maxBytes)
    ensures Released(e') && SaysNothing(e, e')
  {
    assert ReceivingIn(e) && !OpenerStep(l, e, e') by {
      hide SendingIn, ReceivingIn, Coherent, OpensFirst, TooBig;
      hide HandlerStep, SenderStep, PumpStep, IntakeStep, ReaderStep, ConsumerStep, OpensOnce;
    }
    hide Released, SaysNothing, EndpointInv, ReceivingIn, OpensOnce, TooBig;
    hide OpenerStep, HandlerStep, SenderStep, PumpStep, ReaderStep, ConsumerStep, IntakeStep;
    if IntakeStep(l, e, p, e') { ReleasedIntake(l, e, p, e'); }
    else if ReaderStep(l, e, e') { ReleasedReaders(l, e, p, e'); }
    else if PumpStep(l, e, e') { ReleasedPump(l, e, e'); }
    else if ConsumerStep(l, e, e') { ReleasedConsumers(l, e, e'); }
    else { ReleasedHandlers(l, e, e'); }
  }

  lemma NextStaysReleased(y: System, y': System, side: Side, l: Label)
    requires Inv(y) && CalmInv(y) && Released(y.server) && Next(y, y', side, l)
    ensures Released(y'.server) && SaysNothing(y.server, y'.server)
  {
    hide Released, Step, CalmInv;
    if side == ServerSide {
      OpenerSendsNothingTooBig(y);
      assert OpensOnce(y.server, y.client) && EndpointInv(y.server) by {
        hide SendingIn, ReceivingIn, Coherent, TooBig;
      }
      hide Inv, EndpointInv, OpensOnce, TooBig, SaysNothing;
      StepStaysReleased(l, y.server, y.client, y'.server);
    }
  }

  lemma {:induction false} RunStaysReleased(run: seq<System>, moves: seq<Move>, n: nat)
    requires IsRun(run, moves) && Inv(run[0]) && CalmInv(run[0]) && Released(run[0].server) && n < |run|
    ensures Inv(run[n]) && CalmInv(run[n]) && Released(run[n].server) && SaysNothing(run[0].server, run[n].server)
    decreases n
  {
    hide Inv, CalmInv, Released, Next;
    if n > 0 {
      hide SaysNothing;
      assert Next(run[n - 1], run[n - 1 + 1], moves[n - 1].side, moves[n - 1].step);
      RunStaysReleased(run, moves, n - 1);
      NextKeepsInv(run[n - 1], run[n], moves[n - 1].side, moves[n - 1].step);
      NextKeepsCalmInv(run[n - 1], run[n], moves[n - 1].side, moves[n - 1].step);
      NextStaysReleased(run[n - 1], run[n], moves[n - 1].side, moves[n - 1].step);
      SilenceAdds(run[0].server, run[n - 1].server, run[n].server);
    }
  }

  lemma SilenceAdds(a: Endpoint, b: Endpoint, c: Endpoint)
    requires SaysNothing(a, b) && SaysNothing(b, c)
    ensures SaysNothing(a, c)
  {
    var w := c.tx.written;
    assert w[..|a.tx.written|] == w[..|b.tx.written|][..|a.tx.written|];
    forall k | |a.tx.written| <= k < |w| ensures !w[k].EndFrame? {
      if k < |b.tx.written| { assert w[k] == b.tx.written[k]; }
    }
  }

  /**
   A handler that returns after its stream was released, by the peer's terminal frame or by the end of
   the session, writes no terminal frame on any run.
   */
  lemma ReleasedIsSilent(y: System, z: System)
    requires Reachable(y) && y.server.ctl.handler.Returned? && !y.server.ctl.registered && Reaches(y, z)
    ensures forall k :: |y.server.tx.written| <= k < |z.server.tx.written| ==> !z.server.tx.written[k].EndFrame?
  {
    ReachableKeepsCalmInv(y);
    ReachableServes(y);
    assert Released(y.server) by {
      hide Reachable, CalmInv, SendingIn, ReceivingIn, Coherent, OpensFirst, TooBig, EndsTold, Honest;
    }
    hide Reachable, Inv, CalmInv, Released, Serves, Next, TooBig;
    var run, moves :| IsRun(run, moves) && run[0] == y && run[|run| - 1] == z;
    RunStaysReleased(run, moves, |run| - 1);
  }

  /** A CloseSend that the end of the context cuts short: an error only on a stream that ended with one. */
  lemma CloseCutShort(e: Endpoint, e': Endpoint)
    requires SenderStep(CloseAbort, e, e')
    ensures e'.s == e.s && e'.tx.closer.Closed?
    ensures e.s.finishErr.None? || Is(e.s.finishErr.value, StreamClosed) ==> e'.tx.closer.err == None
    ensures e.s.finishErr.Some? && !Is(e.s.finishErr.value, StreamClosed) ==>
              e'.tx.closer.err == Some(Of(if e.ctl.callerDone && e.ctl.deadline then DeadlineExceeded else Canceled))
  {
    assert Is(Of(StreamClosed), StreamClosed);
  }

  // ------------------------------------------------------------ what CloseSend reports, on either side

  /** Success stands for the close frame, or for a context that is done. */
  ghost predicate CloseHonest(e: Endpoint) {
    && (e.tx.closeReport == Some(None) ==> CloseSendFrame in e.tx.written)
    && (e.tx.closer == Closed(None) ==> CloseSendFrame in e.tx.written || e.s.cancelled)
  }

  lemma PumpIsHonest(l: Label, e: Endpoint, e': Endpoint)
    requires CloseHonest(e) && PumpStep(l, e, e')
    ensures CloseHonest(e')
  {
    if l.PumpWrite? && l.ok && !e.tx.pump.item.DataItem? {
      assert e'.tx.written[|e.tx.written|] == CloseSendFrame;
    }
    hide Writable, Session.TerminalOf, StreamCause;
  }

  lemma SenderIsHonest(l: Label, e: Endpoint, e': Endpoint)
    requires CloseHonest(e) && SenderStep(l, e, e')
    ensures CloseHonest(e')
  {
    hide AfterTerminal;
  }

  /** Steps that leave the pump's report and CloseSend alone. */
  lemma OthersAreHonest(e: Endpoint, e': Endpoint)
    requires CloseHonest(e) && e.tx.written <= e'.tx.written && (e.s.cancelled ==> e'.s.cancelled)
    requires e'.tx.closeReport == e.tx.closeReport && e'.tx.closer == e.tx.closer
    ensures CloseHonest(e')
  {
  }

  lemma LeavesCloseAlone(l: Label, e: Endpoint, p: Endpoint, e': Endpoint)
    requires OpenerStep(l, e, e') || HandlerStep(l, e, e')
    ensures e'.tx.closeReport == e.tx.closeReport && e'.tx.closer == e.tx.closer && (e.s.cancelled ==> e'.s.cancelled)
  {
    EndLeavesCloseAlone();
    hide Writable, EndSession, FinishBegin, StatusOf, Is;
  }

  lemma ReaderLeavesCloseAlone(l: Label, e: Endpoint, e': Endpoint)
    requires ReaderStep(l, e, e') || ConsumerStep(l, e, e')
    ensures e'.tx.closeReport == e.tx.closeReport && e'.tx.closer == e.tx.closer && (e.s.cancelled ==> e'.s.cancelled)
  {
    EndLeavesCloseAlone();
    hide Writable, EndSession, FinishBegin, StatusOf, Is;
  }

  lemma EndLeavesCloseAlone()
    ensures forall e: Endpoint, c {:trigger EndSession(e, c)} ::
              EndSession(e, c).tx == e.tx && (e.s.cancelled ==> EndSession(e, c).s.cancelled)
    ensures forall s: StreamState, x {:trigger FinishBegin(s, x)} :: s.cancelled ==> FinishBegin(s, x).cancelled
  {
  }

  lemma IntakeLeavesCloseAlone(l: Label, e: Endpoint, p: Endpoint, e': Endpoint)
    requires IntakeStep(l, e, p, e')
    ensures e'.tx.closeReport == e.tx.closeReport && e'.tx.closer == e.tx.closer && (e.s.cancelled ==> e'.s.cancelled)
  {
    hide Session.TerminalOf, StreamCause, StatusOf, Is, Err;
  }

  lemma StepIsHonest(l: Label, e: Endpoint, p: Endpoint, e': Endpoint)
    requires CloseHonest(e) && EndpointInv(e) && OpensOnce(e, p) && Step(l, e, p, e')
    ensures CloseHonest(e')
  {
    hide EndpointInv, OpensOnce, CloseHonest, Stays;
    hide OpenerStep, HandlerStep, SenderStep, PumpStep, ReaderStep, ConsumerStep, IntakeStep;
    if PumpStep(l, e, e') {
      PumpIsHonest(l, e, e');
    } else if SenderStep(l, e, e') {
      SenderIsHonest(l, e, e');
    } else {
      if IntakeStep(l, e, p, e') { IntakeLeavesCloseAlone(l, e, p, e'); }
      else if ReaderStep(l, e, e') || ConsumerStep(l, e, e') { ReaderLeavesCloseAlone(l, e, e'); }
      else { LeavesCloseAlone(l, e, p, e'); }
      StepKeepsEndpointInv(l, e, p, e');
      OthersAreHonest(e, e');
    }
  }

  lemma NextIsHonest(y: System, y': System, side: Side, l: Label)
    requires Inv(y) && CloseHonest(y.client) && CloseHonest(y.server) && Next(y, y', side, l)
    ensures CloseHonest(y'.client) && CloseHonest(y'.server)
  {
    hide CloseHonest, Step;
    var (e, p, e') := if side == ClientSide then (y.client, y.server, y'.client) else (y.server, y.client, y'.server);
    assert OpensOnce(e, p) && EndpointInv(e) by { hide SendingIn, ReceivingIn, Coherent; }
    hide Inv, EndpointInv, OpensOnce;
    StepIsHonest(l, e, p, e');
  }

  lemma {:induction false} RunIsHonest(run: seq<System>, moves: seq<Move>)
    requires IsRun(run, moves) && Inv(run[0]) && CloseHonest(run[0].client) && CloseHonest(run[0].server)
    ensures Inv(run[|run| - 1]) && CloseHonest(run[|run| - 1].client) && CloseHonest(run[|run| - 1].server)
    decreases |moves|
  {
    hide Inv, CloseHonest, Next;
    if moves != [] {
      var n := |moves| - 1;
      RunIsHonest(run[..n + 1], moves[..n]);
      NextKeepsInv(run[n], run[n + 1], moves[n].side, moves[n].step);
      NextIsHonest(run[n], run[n + 1], moves[n].side, moves[n].step);
    }
  }

  /**
   On any run, a CloseSend that reports success has its close frame written, and so every message that
   was accepted before it; or the stream's context is done.
   */
  lemma CloseSendIsHonest(y: System)
    requires Reachable(y)
    ensures y.client.tx.closer == Closed(None) ==> CloseSendFrame in y.client.tx.written || y.client.s.cancelled
    ensures y.server.tx.closer == Closed(None) ==> CloseSendFrame in y.server.tx.written || y.server.s.cancelled
  {
    hide Inv, Init, Next;
    var y0 :| Init(y0) && Reaches(y0, y);
    var run, moves :| IsRun(run, moves) && run[0] == y0 && run[|run| - 1] == y;
    FreshIsHonest(y0);
    RunIsHonest(run, moves);
  }

  lemma FreshIsHonest(y: System)
    requires Init(y)
    ensures Inv(y) && CloseHonest(y.client) && CloseHonest(y.server)
  {
    InitIsCalm(y);
  }
}
