/**
 How a served stream ends when nothing disturbs the two engines: what the opener's Recv sees
 after the handler returned a failure, or returned cleanly.

 `Calm` says that no caller gave up, nobody shut a session down, no transport failed, and
 neither session has ended. The invariants below hold in every calm reachable state.
 */
module StreamTermination {
  import opened Status
  import opened Stream
  import opened StreamPair
  import opened StreamConservation
  import Session

  ghost predicate Calm(y: System) {
    !y.fault && !y.client.ctl.down && !y.server.ctl.down
  }

  // --------------------------------------------------------------- sizes

  ghost predicate FramesFit(frames: seq<Frame>, maxBytes: nat) {
    forall k :: 0 <= k < |frames| && frames[k].DataFrame? ==> |frames[k].message| <= maxBytes
  }

  predicate ItemFits(item: Item, maxBytes: nat) {
    item.DataItem? ==> |item.message| <= maxBytes
  }

  ghost predicate ItemsFit(items: seq<Item>, maxBytes: nat) {
    forall k :: 0 <= k < |items| ==> ItemFits(items[k], maxBytes)
  }

  /** Nothing larger than the limit is queued, held or written: Send refuses it. */
  ghost predicate Fits(e: Endpoint) {
    && FramesFit(e.tx.written, e.s.maxBytes)
    && ItemsFit(e.s.outbound, e.s.maxBytes)
    && (e.tx.pump.Writing? ==> ItemFits(e.tx.pump.item, e.s.maxBytes))
  }

  // ------------------------------------------------------ the serving side

  predicate Active(h: Handler) {
    h.Running? || h.Returned? || h.ClosingSend? || h.Flushing? || h.FlushWait? || h.Discarding?
  }

  predicate HasErr(h: Handler) {
    h.Returned? || h.ClosingSend? || h.Flushing? || h.FlushWait? || h.Discarding? || h.Reporting?
  }

  ghost predicate NoEnd(frames: seq<Frame>) {
    forall k :: 0 <= k < |frames| ==> !frames[k].EndFrame?
  }

  /** The control state of an undisturbed serving endpoint. */
  ghost predicate ServerPhase(e: Endpoint) {
    var h := e.ctl.handler;
    && !e.ctl.callerDone
    && (e.s.cancelled ==> e.s.stage != Live)
    && (Active(h) ==> e.ctl.registered && e.s.stage == Live)
    && (e.s.stage != Live ==> h.Reporting? || h.Over?)
    && (h.Absent? || h.Running? ==> e.ctl.returned.None?)
    && (HasErr(h) ==> e.ctl.returned == Some(h.err))
    && (h.Over? ==> e.ctl.returned.Some?)
    && (h.ClosingSend? ==> Clean(h.err))
    && (h.Flushing? || h.FlushWait? ==> !Clean(h.err))
    && e.ctl.mark <= |e.tx.accepted|
    && (e.rx.reader.Serving? ==> e.rx.reader.frame.DataFrame? || e.rx.reader.frame.CloseSendFrame?)
    && !e.rx.reader.Oversized? && !e.rx.reader.Settling? && !e.rx.reader.ReaderStopped?
    && (h.Absent? ==>
          e.s.outbound == [] && !e.tx.pump.Writing? && |e.tx.written| <= 1 && e.tx.closer == NotCalled)
    && (e.rx.reader.Acking? || e.rx.reader.Refusing? ==> h.Absent? && e.tx.written == [])
    && (e.rx.reader.Refusing? ==> e.rx.reader.code != OK)
    && (e.rx.reader.Acking? ==> e.ctl.registered)
    && (e.rx.settling > 0 ==> e.s.stage != Live)
  }

  /** The close frame is behind every successful CloseSend. */
  ghost predicate CloserHonest(closer: Closer, report: Option<Option<Error>>, closeWritten: bool, live: bool) {
    && (report.Some? ==> report.value.None? && closeWritten)
    && (live && closer.Closed? ==> closer.err.None? && closeWritten)
  }

  ghost predicate CloserIn(e: Endpoint) {
    CloserHonest(e.tx.closer, e.tx.closeReport, CloseSendFrame in e.tx.written, e.s.stage == Live)
  }

  /** Everything accepted before the handler returned is in front of the barrier. */
  ghost predicate BarrierBehind(base: nat, outbound: seq<Item>, mark: nat) {
    forall i :: 0 <= i < |outbound| && outbound[i] == BarrierItem ==>
      base + |QueuedData(outbound[..i])| >= mark
  }

  /** The flush protocol of a handler that returned a failure, and of one that returned cleanly. */
  ghost predicate Flushed(h: Handler, mark: nat, pump: Pump, written: seq<Frame>, barrierDone: bool,
                          outbound: seq<Item>)
  {
    && ((BarrierItem in outbound || barrierDone) ==>
          h.FlushWait? || h.Discarding? || h.Reporting? || h.Over?)
    && BarrierBehind(|DataOf(written)| + |InPump(pump)|, outbound, mark)
    && (barrierDone ==> |DataOf(written)| >= mark)
    && (h.Discarding? || h.Reporting? ==>
          if Clean(h.err) then CloseSendFrame in written else |DataOf(written)| >= mark)
  }

  ghost predicate FlushedIn(e: Endpoint) {
    Flushed(e.ctl.handler, e.ctl.mark, e.tx.pump, e.tx.written, e.tx.barrierDone, e.s.outbound)
  }

  ghost predicate CloseBefore(written: seq<Frame>, k: nat) {
    exists n :: 0 <= n < k && n < |written| && written[n] == CloseSendFrame
  }

  /** Why the serving endpoint wrote the terminal frame at `k`. */
  ghost predicate EndJustified(written: seq<Frame>, returned: Option<Option<Error>>, mark: nat, k: nat)
    requires k < |written| && written[k].EndFrame?
  {
    match returned
    case None => k == 0 && written[k].code != OK
    case Some(err) =>
      && written[k].code == EndCode(err)
      && (if Clean(err) then CloseBefore(written, k) else |DataOf(written[..k])| >= mark)
  }

  ghost predicate EndsJustified(written: seq<Frame>, returned: Option<Option<Error>>, mark: nat) {
    forall k :: 0 <= k < |written| && written[k].EndFrame? ==> EndJustified(written, returned, mark, k)
  }

  ghost predicate ServerEnds(h: Handler, returned: Option<Option<Error>>, mark: nat, written: seq<Frame>) {
    && (Active(h) || h.Reporting? ==> NoEnd(written))
    && EndsJustified(written, returned, mark)
    && (if h.Absent? then written == [] || written[0].EndFrame?
        else written != [] && written[0] == AckFrame)
  }

  ghost predicate EndsIn(e: Endpoint) {
    ServerEnds(e.ctl.handler, e.ctl.returned, e.ctl.mark, e.tx.written)
  }

  ghost predicate ServerCalm(e: Endpoint) {
    ServerPhase(e) && CloserIn(e) && FlushedIn(e) && EndsIn(e)
  }

  // ------------------------------------------------------ the opening side

  /** The terminal frame ended the stream after all the data in front of it was delivered. */
  ghost predicate EndTaken(rx: Rx, finishErr: Option<Error>, inbound: seq<Message>, inboundEOF: bool) {
    && 0 <= rx.endAt < |rx.processed|
    && rx.processed[rx.endAt].EndFrame?
    && finishErr == Some(EndFailure(rx.processed[rx.endAt].code))
    && (!inboundEOF ==> rx.received + inbound == DataOf(rx.processed[..rx.endAt]))
  }

  ghost predicate EndTakenIn(e: Endpoint) {
    EndTaken(e.rx, e.s.finishErr, e.s.inbound, e.s.inboundEOF)
  }

  /** A close frame that was not overtaken by a terminal frame marks the queue as half-closed. */
  ghost predicate CloseSeen(rx: Rx, inboundEOF: bool) {
    forall j :: 0 <= j < |rx.processed| && rx.processed[j] == CloseSendFrame && NoEnd(rx.processed[..j]) ==>
      inboundEOF || (rx.reader == Serving(CloseSendFrame) && j == |rx.processed| - 1)
  }

  ghost predicate ClientPhase(c: Control, rx: Rx, cancelled: bool, stage: FinishStage, endTaken: bool) {
    && !c.callerDone
    && (cancelled ==> stage != Live)
    && c.opener in {NotOpened, Registered, Awaiting, Established, OpenFailed}
    && (c.openPending ==> rx.processed == [])
    && (c.opener == NotOpened || c.opener == Registered ==> rx.processed == [])
    && !rx.reader.ReaderStopped? && !rx.reader.Oversized?
    && (rx.reader.Settling? ==> stage != Live)
    && (!Usable(c) ==> rx.ends == [] && rx.settling == 0)
    && (c.opener == OpenFailed ==> c.verdict.Some? && c.verdict.value.Refuse?)
    && (c.opener == Established ==> c.verdict.Some?)
    && (c.verdict.Some? <==> rx.processed != [])
    && ((c.opener == Registered || c.opener == Awaiting) && rx.processed == [] ==> c.openPending)
    && (c.verdict.Some? && c.verdict.value.Refuse? ==>
          rx.processed != [] && rx.processed[0].EndFrame? && !rx.reader.Serving?
          && c.opener in {Awaiting, OpenFailed})
    && (c.opener != NotOpened && !c.registered ==>
          stage != Live || (rx.reader.Serving? && rx.reader.frame.EndFrame?))
    && (rx.reader.Serving? && rx.reader.frame.EndFrame? ==> !c.registered && stage == Live)
    && (stage != Live && c.opener != OpenFailed ==>
          endTaken && !c.registered && !rx.reader.Serving?)
  }

  ghost predicate ClientPhaseIn(e: Endpoint) {
    ClientPhase(e.ctl, e.rx, e.s.cancelled, e.s.stage, EndTakenIn(e))
  }

  ghost predicate ClientEnds(rx: Rx, stage: FinishStage, finishErr: Option<Error>, inbound: seq<Message>,
                             inboundEOF: bool)
  {
    && (rx.settling > 0 ==> stage != Live && inbound == [] && !inboundEOF)
    && (forall r :: r in rx.ends && r.Terminated? ==>
          stage == Finished && finishErr == Some(r.err) && inbound == [] && !inboundEOF)
  }

  ghost predicate ClientEndsIn(e: Endpoint) {
    ClientEnds(e.rx, e.s.stage, e.s.finishErr, e.s.inbound, e.s.inboundEOF)
  }

  /** The opener's pump runs from the moment it is started until the close frame is out. */
  ghost predicate ClientPump(pump: Pump, started: bool, closeWritten: bool, cancelled: bool, outbound: seq<Item>) {
    && (pump.Stopped? ==> pump.lost == [] && (closeWritten || cancelled))
    && (started ==> pump != NotStarted)
    && BarrierItem !in outbound
  }

  ghost predicate ClientPumpIn(e: Endpoint) {
    ClientPump(e.tx.pump, e.ctl.opener != NotOpened, CloseSendFrame in e.tx.written, e.s.cancelled, e.s.outbound)
  }

  ghost predicate ClientCalm(e: Endpoint) {
    && NoEnd(e.tx.written)
    && ClientPhaseIn(e) && ClientEndsIn(e) && CloseSeen(e.rx, e.s.inboundEOF) && ClientPumpIn(e)
  }

  ghost predicate CalmInv(y: System) {
    && Fits(y.client) && Fits(y.server) && y.client.s.maxBytes == y.server.s.maxBytes
    && (!y.fault && !y.server.ctl.down ==> ServerCalm(y.server) && NoEnd(y.client.tx.written))
    && (Calm(y) ==> ClientCalm(y.client))
  }

  // ------------------------------------------- the serving side, step by step

  /** A step of an endpoint that stays undisturbed, so every write it makes succeeds. */
  ghost predicate Undisturbed(l: Label, e: Endpoint, p: Endpoint, e': Endpoint) {
    !e.ctl.down && !e'.ctl.down && !Disturbs(l, e, p)
  }

  lemma PushKeepsEnds(written: seq<Frame>, returned: Option<Option<Error>>, mark: nat, f: Frame)
    requires EndsJustified(written, returned, mark)
    requires f.EndFrame? ==> EndJustified(written + [f], returned, mark, |written|)
    ensures EndsJustified(written + [f], returned, mark)
  {
    forall k | 0 <= k < |written|
      ensures (written + [f])[..k] == written[..k]
    {
    }
  }

  lemma {:induction false} QueuedDataHead(outbound: seq<Item>, i: nat)
    requires 0 < i <= |outbound|
    ensures |QueuedData(outbound[..i])| == |ItemData(outbound[0])| + |QueuedData(outbound[1..][..i - 1])|
  {
    assert outbound[..i][1..] == outbound[1..][..i - 1];
  }

  lemma BarrierPush(base: nat, outbound: seq<Item>, mark: nat, item: Item)
    requires BarrierBehind(base, outbound, mark)
    requires item == BarrierItem ==> base + |QueuedData(outbound)| >= mark
    ensures BarrierBehind(base, outbound + [item], mark)
  {
    forall i | 0 <= i <= |outbound|
      ensures (outbound + [item])[..i] == outbound[..i]
    {
    }
    assert outbound[..|outbound|] == outbound;
  }

  lemma BarrierPop(base: nat, outbound: seq<Item>, mark: nat)
    requires BarrierBehind(base, outbound, mark) && outbound != []
    ensures outbound[0] == BarrierItem ==> base >= mark
    ensures BarrierBehind(base + |ItemData(outbound[0])|, outbound[1..], mark)
  {
    assert QueuedData(outbound[..0]) == [];
    forall i | 0 <= i < |outbound[1..]| && outbound[1..][i] == BarrierItem
      ensures base + |ItemData(outbound[0])| + |QueuedData(outbound[1..][..i])| >= mark
    {
      assert outbound[i + 1] == BarrierItem;
      QueuedDataHead(outbound, i + 1);
    }
  }

  // the handler

  lemma HandlerKeepsServerPhase(l: Label, e: Endpoint, p: Endpoint, e': Endpoint)
    requires ServerPhase(e) && CloserIn(e)
    requires HandlerStep(l, e, e') && Undisturbed(l, e, p, e')
    ensures ServerPhase(e') && CloserIn(e')
  {
    hide EndCode, StatusOf;
  }

  lemma BarrierQueuedKeepsFlushed(e: Endpoint)
    requires SendingIn(e) && FlushedIn(e) && e.ctl.handler.Flushing? && e.ctl.mark <= |e.tx.accepted|
    ensures FlushedIn(SetHandler(e.(s := EnqueueItem(e.s, BarrierItem)), FlushWait(e.ctl.handler.err)))
  {
    hide DataOf;
    hide CloseIsLast, BarrierBehind;
    BarrierPush(|DataOf(e.tx.written)| + |InPump(e.tx.pump)|, e.s.outbound, e.ctl.mark, BarrierItem);
  }

  lemma HandlerKeepsFlushed(l: Label, e: Endpoint, p: Endpoint, e': Endpoint)
    requires SendingIn(e) && ServerCalm(e) && HandlerStep(l, e, e') && Undisturbed(l, e, p, e')
    ensures FlushedIn(e')
  {
    hide DataOf, QueuedData, InPump;
    hide Sending, ServerEnds, StatusOf, Is;
    match l
    case FlushQueue => BarrierQueuedKeepsFlushed(e);
    case HandlerReport(ok) => DataOfPush(e.tx.written, EndFrame(EndCode(e.ctl.handler.err)));
    case _ =>
  }

  lemma HandlerKeepsEnds(l: Label, e: Endpoint, p: Endpoint, e': Endpoint)
    requires ServerCalm(e) && HandlerStep(l, e, e') && Undisturbed(l, e, p, e')
    ensures EndsIn(e')
  {
    hide StatusOf, BarrierBehind, DataOf, Is;
    if l.HandlerReport? {
      ReportKeepsEnds(l, e, p, e');
    } else {
      hide FlushedIn, CloserIn, EndJustified;
    }
  }

  lemma ReportKeepsEnds(l: Label, e: Endpoint, p: Endpoint, e': Endpoint)
    requires ServerCalm(e) && HandlerStep(l, e, e') && Undisturbed(l, e, p, e') && l.HandlerReport?
    ensures EndsIn(e')
  {
    hide StatusOf, BarrierBehind, DataOf, Is, CloserIn;
    var f := EndFrame(EndCode(e.ctl.handler.err));
    assert (e.tx.written + [f])[..|e.tx.written|] == e.tx.written;
    PushKeepsEnds(e.tx.written, e.ctl.returned, e.ctl.mark, f);
    hide EndsJustified;
  }

  // Send, CloseSend and the pump

  lemma SenderKeepsServer(l: Label, e: Endpoint, p: Endpoint, e': Endpoint)
    requires !e.ctl.client && ServerCalm(e) && SenderStep(l, e, e') && Undisturbed(l, e, p, e')
    ensures ServerCalm(e')
  {
    hide ServerEnds, BarrierBehind, AfterTerminal;
    var base := |DataOf(e.tx.written)| + |InPump(e.tx.pump)|;
    match l
    case Send(m) => BarrierPush(base, e.s.outbound, e.ctl.mark, DataItem(m));
    case CloseQueue => BarrierPush(base, e.s.outbound, e.ctl.mark, CloseItem);
    case _ =>
  }

  lemma PumpTakeKeepsServer(e: Endpoint, p: Endpoint, e': Endpoint)
    requires ServerCalm(e) && PumpStep(PumpTake, e, e') && Undisturbed(PumpTake, e, p, e')
    ensures ServerCalm(e')
  {
    hide ServerEnds, BarrierBehind;
    BarrierPop(|DataOf(e.tx.written)| + |InPump(e.tx.pump)|, e.s.outbound, e.ctl.mark);
  }

  lemma DataWriteKeepsServer(e: Endpoint, m: Message)
    requires ServerCalm(e) && e.tx.pump == Writing(DataItem(m))
    ensures ServerCalm(SetPump(Write(e, DataFrame(m), true), Waiting))
  {
    hide EndsJustified, BarrierBehind;
    DataOfPush(e.tx.written, DataFrame(m));
    PushKeepsEnds(e.tx.written, e.ctl.returned, e.ctl.mark, DataFrame(m));
  }

  lemma CloseWriteKeepsServer(e: Endpoint)
    requires ServerCalm(e) && e.tx.pump == Writing(CloseItem)
    ensures var e1 := Write(e, CloseSendFrame, true);
            ServerCalm(e1.(tx := e1.tx.(pump := Stopped([]), closeReport := Some(None))))
  {
    hide EndsJustified, BarrierBehind, Clean;
    DataOfPush(e.tx.written, CloseSendFrame);
    PushKeepsEnds(e.tx.written, e.ctl.returned, e.ctl.mark, CloseSendFrame);
    var e1 := Write(e, CloseSendFrame, true);
    var e2 := e1.(tx := e1.tx.(pump := Stopped([]), closeReport := Some(None)));
    assert ServerPhase(e2) by { hide FlushedIn, EndsIn, CloserIn; }
    assert FlushedIn(e2) by { hide EndsIn, CloserIn; }
  }

  lemma PumpWriteKeepsServer(e: Endpoint, p: Endpoint, e': Endpoint, ok: bool)
    requires SendingIn(e) && ServerCalm(e) && PumpStep(PumpWrite(ok), e, e') && Undisturbed(PumpWrite(ok), e, p, e')
    ensures ServerCalm(e')
  {
    hide ServerCalm, Sending;
    if e.tx.pump.item.DataItem? {
      DataWriteKeepsServer(e, e.tx.pump.item.message);
    } else {
      CloseWriteKeepsServer(e);
    }
  }

  lemma PumpQuitKeepsServer(e: Endpoint, p: Endpoint, e': Endpoint)
    requires ServerCalm(e) && PumpStep(PumpQuit, e, e') && Undisturbed(PumpQuit, e, p, e')
    ensures ServerCalm(e')
  {
    hide ServerEnds, BarrierBehind;
  }

  // the reader and Recv

  lemma ReadKeepsServer(refusal: StatusCode, e: Endpoint, p: Endpoint, e': Endpoint)
    requires Shape(e) && !e.ctl.client && OpensOnce(e, p) && ServerCalm(e) && NoEnd(p.tx.written)
    requires IntakeStep(Read(refusal), e, p, e') && Undisturbed(Read(refusal), e, p, e')
    ensures ServerCalm(e')
  {
    hide ServerEnds, BarrierBehind, CloserHonest;
  }

  lemma ServeKeepsServer(takeCancel: bool, e: Endpoint, p: Endpoint, e': Endpoint)
    requires Shape(e) && ReceivingIn(e) && !e.ctl.client && ServerCalm(e)
    requires e.rx.processed <= p.tx.written && FramesFit(p.tx.written, e.s.maxBytes)
    requires IntakeStep(Serve(takeCancel), e, p, e') && Undisturbed(Serve(takeCancel), e, p, e')
    ensures ServerCalm(e')
  {
    hide ServerEnds, Flushed, CloserHonest;
    var last := |e.rx.processed| - 1;
    assert p.tx.written[last] == e.rx.reader.frame;
  }

  /** A request that is being answered has touched nothing yet. */
  lemma AnsweringFacts(e: Endpoint)
    requires ServerCalm(e) && (e.rx.reader.Acking? || e.rx.reader.Refusing?)
    ensures e.ctl.handler == Absent && e.ctl.returned == None
    ensures e.tx.written == [] && e.s.outbound == [] && !e.tx.barrierDone
  {
    hide BarrierBehind, ServerEnds, CloserHonest;
  }

  lemma AckKeepsServer(e: Endpoint)
    requires ServerCalm(e) && e.rx.reader == Acking
    ensures ServerCalm(SetHandler(SetReader(Write(e, AckFrame, true), Ready), Running))
  {
    AnsweringFacts(e);
    hide FlushedIn, EndsIn;
    assert e.tx.written + [AckFrame] == [AckFrame];
    var e' := SetHandler(SetReader(Write(e, AckFrame, true), Ready), Running);
    assert ServerPhase(e') && CloserIn(e');
    hide ServerPhase, CloserIn;
    AnsweredIsFlushed(e', AckFrame);
  }

  lemma AnsweredIsFlushed(e: Endpoint, f: Frame)
    requires e.tx.written == [f] && e.s.outbound == [] && !e.tx.barrierDone && e.ctl.returned == None
    requires (e.ctl.handler == Running && f == AckFrame) || (e.ctl.handler == Absent && f.EndFrame? && f.code != OK)
    ensures FlushedIn(e) && EndsIn(e)
  {
    NothingToFlush(e.ctl.handler, e.ctl.mark, e.tx.pump, f);
    if f == AckFrame { AckIsNoEnd(e.ctl.mark); } else { RefusalIsJustified(e.ctl.mark, f.code); }
    hide Flushed, ServerEnds;
  }

  lemma AckIsNoEnd(mark: nat)
    ensures ServerEnds(Running, None, mark, [AckFrame])
  {
    hide DataOf, Clean;
  }

  /** A single frame and an empty queue: nothing to flush. */
  lemma NothingToFlush(h: Handler, mark: nat, pump: Pump, f: Frame)
    requires h.Absent? || h.Running?
    ensures Flushed(h, mark, pump, [f], false, [])
  {
    hide DataOf, InPump;
  }

  lemma RefusalIsJustified(mark: nat, code: StatusCode)
    requires code != OK
    ensures ServerEnds(Absent, None, mark, [EndFrame(code)])
  {
    hide DataOf, Clean;
  }

  lemma RefuseKeepsServer(e: Endpoint, code: StatusCode)
    requires ServerCalm(e) && e.rx.reader == Refusing(code)
    ensures ServerCalm(SetReader(Write(e, EndFrame(code), true), Ready))
  {
    AnsweringFacts(e);
    hide FlushedIn, EndsIn;
    assert e.tx.written + [EndFrame(code)] == [EndFrame(code)];
    var e' := SetReader(Write(e, EndFrame(code), true), Ready);
    assert ServerPhase(e') && CloserIn(e');
    hide ServerPhase, CloserIn;
    AnsweredIsFlushed(e', EndFrame(code));
  }

  lemma ReaderKeepsServer(l: Label, e: Endpoint, p: Endpoint, e': Endpoint)
    requires ServerCalm(e) && ReaderStep(l, e, e') && Undisturbed(l, e, p, e')
    ensures ServerCalm(e')
  {
    hide CloserIn, FlushedIn, EndsIn;
    match l
    case AckWrite(ok) => AckKeepsServer(e);
    case RefuseWrite(ok) => RefuseKeepsServer(e, e.rx.reader.code);
    case _ =>
  }

  /** A step that leaves the sending side alone and does not start to finish the stream. */
  lemma ConsumerKeepsServer(l: Label, e: Endpoint, p: Endpoint, e': Endpoint)
    requires ServerCalm(e) && ConsumerStep(l, e, e') && Undisturbed(l, e, p, e')
    ensures ServerCalm(e')
  {
    assert e'.tx == e.tx && e'.ctl == e.ctl && e'.s.outbound == e.s.outbound
           && (e'.s.stage == Live <==> e.s.stage == Live) by {
      hide CloserIn, FlushedIn, EndsIn;
    }
    hide ServerEnds, Flushed, CloserHonest;
  }

  // ------------------------------------------- the opening side, step by step

  lemma OpenerKeepsClient(l: Label, e: Endpoint, p: Endpoint, e': Endpoint)
    requires Shape(e) && e.ctl.client && ClientCalm(e) && OpenerStep(l, e, e') && Undisturbed(l, e, p, e')
    ensures ClientCalm(e')
  {
    hide CloseSeen;
  }

  lemma SenderKeepsClient(l: Label, e: Endpoint, p: Endpoint, e': Endpoint)
    requires e.ctl.client && ClientCalm(e) && SenderStep(l, e, e') && Undisturbed(l, e, p, e')
    ensures ClientCalm(e')
  {
    hide ClientPhase, ClientEnds, CloseSeen, EndTaken, NoEnd;
  }

  lemma PumpWritesNoEnd(l: Label, e: Endpoint, e': Endpoint)
    requires PumpStep(l, e, e') && NoEnd(e.tx.written)
    ensures NoEnd(e'.tx.written)
  {
  }

  lemma PumpKeepsClientPump(l: Label, e: Endpoint, p: Endpoint, e': Endpoint)
    requires SendingIn(e) && ClientPumpIn(e) && PumpStep(l, e, e') && Undisturbed(l, e, p, e')
    ensures ClientPumpIn(e')
  {
    hide Sending;
  }

  lemma PumpKeepsClient(l: Label, e: Endpoint, p: Endpoint, e': Endpoint)
    requires SendingIn(e) && e.ctl.client && ClientCalm(e) && PumpStep(l, e, e') && Undisturbed(l, e, p, e')
    ensures ClientCalm(e')
  {
    PumpKeepsClientPump(l, e, p, e');
    PumpWritesNoEnd(l, e, e');
    hide ClientPhase, ClientEnds, CloseSeen, EndTaken, SendingIn, ClientPumpIn, NoEnd;
  }

  lemma ReaderKeepsClient(l: Label, e: Endpoint, p: Endpoint, e': Endpoint)
    requires Shape(e) && e.ctl.client && ClientCalm(e) && ReaderStep(l, e, e') && Undisturbed(l, e, p, e')
    ensures ClientCalm(e')
  {
    hide CloseSeen;
    if l.ServeDone? {
      SettledKeepsCloseSeen(e.rx, e'.rx, e.s.inboundEOF);
    }
  }

  lemma SettledKeepsCloseSeen(rx: Rx, rx': Rx, inboundEOF: bool)
    requires CloseSeen(rx, inboundEOF) && rx'.processed == rx.processed && !rx.reader.Serving?
    ensures CloseSeen(rx', inboundEOF)
  {
  }

  lemma ConsumerKeepsClient(l: Label, e: Endpoint, p: Endpoint, e': Endpoint)
    requires Shape(e) && e.ctl.client && ClientCalm(e) && ConsumerStep(l, e, e') && Undisturbed(l, e, p, e')
    ensures ClientCalm(e')
  {
    ConsumerLeavesRest(l, e, p, e');
    assert ClientPhaseIn(e') && ClientEndsIn(e') by {
      hide DataOf, NoEnd, CloseSeen, ClientPumpIn, Opening;
      ConsumerKeepsClientPhase(l, e, p, e');
      ConsumerKeepsClientEnds(l, e, p, e');
    }
    hide ConsumerStep, ClientPhaseIn, ClientEndsIn, NoEnd, Shape;
  }

  lemma ConsumerLeavesRest(l: Label, e: Endpoint, p: Endpoint, e': Endpoint)
    requires ClientPhaseIn(e) && ClientEndsIn(e) && ConsumerStep(l, e, e') && Undisturbed(l, e, p, e')
    ensures e'.tx == e.tx && e'.ctl == e.ctl && e'.s.outbound == e.s.outbound && e'.s.inboundEOF == e.s.inboundEOF
    ensures e'.s.cancelled == e.s.cancelled && (e'.s.stage == Live <==> e.s.stage == Live)
    ensures e'.rx.processed == e.rx.processed && e'.rx.reader == e.rx.reader
  {
    hide DataOf;
  }

  lemma ConsumerKeepsClientPhase(l: Label, e: Endpoint, p: Endpoint, e': Endpoint)
    requires Coherent(e.s) && ClientPhaseIn(e) && ClientEndsIn(e) && ConsumerStep(l, e, e') && Undisturbed(l, e, p, e')
    ensures ClientPhaseIn(e')
  {
    hide DataOf;
    if l.RecvQueue? && e.s.inbound != [] {
      assert e.rx.received + e.s.inbound == e.rx.received + [e.s.inbound[0]] + e.s.inbound[1..];
    }
  }

  lemma ConsumerKeepsClientEnds(l: Label, e: Endpoint, p: Endpoint, e': Endpoint)
    requires Coherent(e.s) && ClientPhaseIn(e) && ClientEndsIn(e) && ConsumerStep(l, e, e') && Undisturbed(l, e, p, e')
    ensures ClientEndsIn(e')
  {
    hide DataOf, EndTaken;
  }

  /** A close frame is taken into the reader's hand unless a terminal frame came before it. */
  lemma TakeKeepsCloseSeen(rx: Rx, rx': Rx, f: Frame, inboundEOF: bool)
    requires CloseSeen(rx, inboundEOF) && rx.reader == Ready && rx'.processed == rx.processed + [f]
    requires f == CloseSendFrame ==> rx'.reader == Serving(f) || !NoEnd(rx.processed)
    ensures CloseSeen(rx', inboundEOF)
  {
    var n := |rx.processed|;
    forall j | 0 <= j <= n
      ensures rx'.processed[..j] == rx.processed[..j]
    {
    }
    assert rx.processed[..n] == rx.processed;
  }

  /** The first frame the opener's reader takes settles the pending open. */
  lemma FirstReadKeepsClient(refusal: StatusCode, e: Endpoint, p: Endpoint, e': Endpoint)
    requires Shape(e) && e.ctl.client && OpensOnce(e, p) && ClientCalm(e) && EndsIn(p)
    requires p.ctl.returned.None? ==> forall k :: 0 <= k < |p.tx.written| && p.tx.written[k].EndFrame? ==>
             p.tx.written[k].code != OK
    requires IntakeStep(Read(refusal), e, p, e') && Undisturbed(Read(refusal), e, p, e')
    requires e.rx.processed == []
    ensures ClientCalm(e')
  {
    hide CloseSeen, EndsJustified;
    TakeKeepsCloseSeen(e.rx, e'.rx, p.tx.written[0], e.s.inboundEOF);
  }

  lemma LaterReadKeepsClient(refusal: StatusCode, e: Endpoint, p: Endpoint, e': Endpoint)
    requires Shape(e) && e.ctl.client && OpensOnce(e, p) && ClientCalm(e) && EndsIn(p)
    requires p.ctl.handler.Absent? ==> |p.tx.written| <= 1
    requires IntakeStep(Read(refusal), e, p, e') && Undisturbed(Read(refusal), e, p, e')
    requires e.rx.processed != []
    ensures ClientCalm(e')
  {
    hide CloseSeen, EndsJustified;
    var f := p.tx.written[|e.rx.processed|];
    assert e.rx.processed[0] == p.tx.written[0];
    assert e.ctl.verdict.Some? ==> e.ctl.verdict.value.Accept?;
    assert e.ctl.opener != OpenFailed;
    if !e.ctl.registered {
      assert EndTakenIn(e);
    }
    TakeKeepsCloseSeen(e.rx, e'.rx, f, e.s.inboundEOF);
    assert EndTakenIn(e) ==> e'.rx.processed[..e.rx.endAt] == e.rx.processed[..e.rx.endAt];
  }

  lemma ServeDataKeepsClient(m: Message, e: Endpoint)
    requires Shape(e) && e.ctl.client && ClientCalm(e) && e.rx.reader == Serving(DataFrame(m))
    requires ReceivingIn(e)
    ensures ClientCalm(SetReader(e.(s := e.s.(inbound := e.s.inbound + [m])), Ready))
  {
    assert e.rx.processed[|e.rx.processed| - 1] != CloseSendFrame;
  }

  lemma ServeCloseKeepsClient(e: Endpoint, eofAt: int)
    requires Shape(e) && e.ctl.client && ClientCalm(e) && e.rx.reader == Serving(CloseSendFrame)
    ensures ClientCalm(e.(s := HalfClose(e.s), rx := e.rx.(reader := Ready, eofAt := eofAt)))
  {
  }

  /** The terminal frame is served after everything in front of it was delivered. */
  lemma ServedEndIsTaken(e: Endpoint, code: StatusCode)
    requires Shape(e) && ReceivingIn(e) && e.rx.reader == Serving(EndFrame(code)) && e.s.stage == Live
    ensures EndTaken(e.rx.(reader := Settling, endAt := |e.rx.processed| - 1), Some(EndFailure(code)),
                     e.s.inbound, e.s.inboundEOF)
  {
    hide EndFailure, Opening;
    var last := |e.rx.processed| - 1;
    assert e.rx.processed == e.rx.processed[..last] + [EndFrame(code)];
    DataOfPush(e.rx.processed[..last], EndFrame(code));
  }

  lemma ServeEndKeepsClient(e: Endpoint, code: StatusCode)
    requires Shape(e) && e.ctl.client && ClientCalm(e) && e.rx.reader == Serving(EndFrame(code))
    requires ReceivingIn(e)
    ensures ClientCalm(BeginFinish(e, Some(EndFailure(code))).(
                         rx := e.rx.(reader := Settling, endAt := |e.rx.processed| - 1)))
  {
    ServedEndIsTaken(e, code);
    assert e.rx.processed[|e.rx.processed| - 1] != CloseSendFrame;
    hide EndFailure, EndTaken, Opening, NoEnd, ReceivingIn;
  }

  lemma ServeKeepsClient(takeCancel: bool, e: Endpoint, p: Endpoint, e': Endpoint)
    requires Shape(e) && ReceivingIn(e) && e.ctl.client && ClientCalm(e)
    requires e.rx.processed <= p.tx.written && FramesFit(p.tx.written, e.s.maxBytes)
    requires IntakeStep(Serve(takeCancel), e, p, e') && Undisturbed(Serve(takeCancel), e, p, e')
    ensures ClientCalm(e')
  {
    hide ClientCalm;
    assert p.tx.written[|e.rx.processed| - 1] == e.rx.reader.frame;
    match e.rx.reader.frame
    case DataFrame(m) => ServeDataKeepsClient(m, e);
    case CloseSendFrame => ServeCloseKeepsClient(e, e'.rx.eofAt);
    case EndFrame(code) => ServeEndKeepsClient(e, code);
    case _ =>
  }

  // ------------------------------------------------------------- whole runs

  lemma WriteKeepsFits(e: Endpoint, f: Frame, ok: bool)
    requires Fits(e) && (f.DataFrame? ==> |f.message| <= e.s.maxBytes)
    ensures Fits(Write(e, f, ok)) && Write(e, f, ok).s.maxBytes == e.s.maxBytes
  {
  }

  /** The goroutines that queue, take and write items. */
  lemma SendingKeepsFits(l: Label, e: Endpoint, e': Endpoint)
    requires Fits(e) && (SenderStep(l, e, e') || PumpStep(l, e, e'))
    ensures Fits(e') && e'.s.maxBytes == e.s.maxBytes
  {
    hide FramesFit;
    if l.PumpWrite? && e.tx.pump.Writing? {
      var f := if e.tx.pump.item.DataItem? then DataFrame(e.tx.pump.item.message) else CloseSendFrame;
      WriteKeepsFits(e, f, l.ok);
    }
  }

  lemma OpenerKeepsFits(l: Label, e: Endpoint, e': Endpoint)
    requires Fits(e) && OpenerStep(l, e, e')
    ensures Fits(e') && e'.s.maxBytes == e.s.maxBytes
  {
    hide FramesFit, ItemsFit;
    if l.OpenWrite? {
      WriteKeepsFits(e, OpenFrame, l.ok);
    } else if l.OpenNotify? || l.FollowNotify? {
      WriteKeepsFits(e, Notice(e.ctl), l.ok);
    }
  }

  lemma HandlerKeepsFits(l: Label, e: Endpoint, e': Endpoint)
    requires Fits(e) && HandlerStep(l, e, e')
    ensures Fits(e') && e'.s.maxBytes == e.s.maxBytes
  {
    hide FramesFit, EndCode;
    if l.HandlerReport? {
      WriteKeepsFits(e, EndFrame(EndCode(e.ctl.handler.err)), l.ok);
    }
  }

  lemma ReaderKeepsFits(l: Label, e: Endpoint, e': Endpoint)
    requires Fits(e) && ReaderStep(l, e, e')
    ensures Fits(e') && e'.s.maxBytes == e.s.maxBytes
  {
    hide FramesFit, ItemsFit;
    if l.AckWrite? {
      WriteKeepsFits(e, AckFrame, l.ok);
    } else if l.RefuseWrite? {
      WriteKeepsFits(e, EndFrame(e.rx.reader.code), l.ok);
    } else if l.OversizedWrite? {
      WriteKeepsFits(e, EndFrame(MESSAGE_TOO_LARGE), l.ok);
    }
  }

  lemma ReceivingKeepsFits(l: Label, e: Endpoint, p: Endpoint, e': Endpoint)
    requires Fits(e) && (IntakeStep(l, e, p, e') || ConsumerStep(l, e, e'))
    ensures Fits(e') && e'.s.maxBytes == e.s.maxBytes
  {
    hide Fits, IntakeStep, ConsumerStep;
    if IntakeStep(l, e, p, e') { IntakeKeepsFits(l, e, p, e'); } else { ConsumerKeepsFits(l, e, e'); }
  }

  lemma IntakeKeepsFits(l: Label, e: Endpoint, p: Endpoint, e': Endpoint)
    requires Fits(e) && IntakeStep(l, e, p, e')
    ensures Fits(e') && e'.s.maxBytes == e.s.maxBytes
  {
    assert e'.tx.written == e.tx.written && e'.s.outbound == e.s.outbound && e'.s.maxBytes == e.s.maxBytes &&
           (e'.tx.pump == e.tx.pump || e'.tx.pump == Waiting) by {
      hide Fits, Err, Is, Session.TerminalOf, StreamCause;
    }
    hide FramesFit, ItemsFit, IntakeStep;
  }

  lemma ConsumerKeepsFits(l: Label, e: Endpoint, e': Endpoint)
    requires Fits(e) && ConsumerStep(l, e, e')
    ensures Fits(e') && e'.s.maxBytes == e.s.maxBytes
  {
    hide FramesFit, ItemsFit;
  }

  lemma StepKeepsFits(l: Label, e: Endpoint, p: Endpoint, e': Endpoint)
    requires Fits(e) && Step(l, e, p, e')
    ensures Fits(e') && e'.s.maxBytes == e.s.maxBytes
  {
    hide Fits, OpenerStep, HandlerStep, SenderStep, PumpStep, IntakeStep, ReaderStep, ConsumerStep;
    if OpenerStep(l, e, e') {
      OpenerKeepsFits(l, e, e');
    } else if HandlerStep(l, e, e') {
      HandlerKeepsFits(l, e, e');
    } else if SenderStep(l, e, e') || PumpStep(l, e, e') {
      SendingKeepsFits(l, e, e');
    } else if ReaderStep(l, e, e') {
      ReaderKeepsFits(l, e, e');
    } else {
      ReceivingKeepsFits(l, e, p, e');
    }
  }

  lemma StepKeepsServer(l: Label, e: Endpoint, p: Endpoint, e': Endpoint)
    requires EndpointInv(e) && !e.ctl.client && OpensOnce(e, p) && ServerCalm(e)
    requires NoEnd(p.tx.written) && FramesFit(p.tx.written, e.s.maxBytes)
    requires Step(l, e, p, e') && Undisturbed(l, e, p, e')
    ensures ServerCalm(e')
  {
    assert !OpenerStep(l, e, e') by { hide ServerCalm, SendingIn, ReceivingIn; }
    hide ServerCalm, SendingIn, ReceivingIn, Coherent, Undisturbed, NoEnd, FramesFit;
    hide OpenerStep, HandlerStep, SenderStep, PumpStep, IntakeStep, ReaderStep, ConsumerStep;
    if HandlerStep(l, e, e') {
      HandlerKeepsServer(l, e, p, e');
    } else if SenderStep(l, e, e') {
      SenderKeepsServer(l, e, p, e');
    } else if PumpStep(l, e, e') {
      PumpKeepsServer(l, e, p, e');
    } else if IntakeStep(l, e, p, e') {
      IntakeKeepsServer(l, e, p, e');
    } else if ReaderStep(l, e, e') {
      ReaderKeepsServer(l, e, p, e');
    } else {
      ConsumerKeepsServer(l, e, p, e');
    }
  }

  lemma HandlerKeepsServer(l: Label, e: Endpoint, p: Endpoint, e': Endpoint)
    requires SendingIn(e) && ServerCalm(e) && HandlerStep(l, e, e') && Undisturbed(l, e, p, e')
    ensures ServerCalm(e')
  {
    hide SendingIn, HandlerStep, Undisturbed, ServerPhase, CloserIn, FlushedIn, EndsIn;
    HandlerKeepsServerPhase(l, e, p, e');
    HandlerKeepsFlushed(l, e, p, e');
    HandlerKeepsEnds(l, e, p, e');
  }

  lemma PumpKeepsServer(l: Label, e: Endpoint, p: Endpoint, e': Endpoint)
    requires SendingIn(e) && ServerCalm(e) && PumpStep(l, e, e') && Undisturbed(l, e, p, e')
    ensures ServerCalm(e')
  {
    hide SendingIn, ServerCalm, Undisturbed;
    match l
    case PumpTake => PumpTakeKeepsServer(e, p, e');
    case PumpWrite(ok) => PumpWriteKeepsServer(e, p, e', ok);
    case _ => PumpQuitKeepsServer(e, p, e');
  }

  lemma IntakeKeepsServer(l: Label, e: Endpoint, p: Endpoint, e': Endpoint)
    requires EndpointInv(e) && !e.ctl.client && OpensOnce(e, p) && ServerCalm(e)
    requires NoEnd(p.tx.written) && FramesFit(p.tx.written, e.s.maxBytes)
    requires IntakeStep(l, e, p, e') && Undisturbed(l, e, p, e')
    ensures ServerCalm(e')
  {
    hide SendingIn, ReceivingIn, Coherent, Opening, ServerCalm, Undisturbed, NoEnd, FramesFit;
    if l.Read? {
      ReadKeepsServer(l.refusal, e, p, e');
    } else {
      ServeKeepsServer(l.takeCancel, e, p, e');
    }
  }

  lemma StepKeepsClient(l: Label, e: Endpoint, p: Endpoint, e': Endpoint)
    requires EndpointInv(e) && e.ctl.client && OpensOnce(e, p) && ClientCalm(e)
    requires ServerCalm(p) && FramesFit(p.tx.written, e.s.maxBytes)
    requires Step(l, e, p, e') && Undisturbed(l, e, p, e')
    ensures ClientCalm(e')
  {
    assert !HandlerStep(l, e, e') by { hide ClientCalm, ServerCalm, SendingIn, ReceivingIn; }
    hide ClientCalm, ServerCalm, SendingIn, ReceivingIn, Coherent, Undisturbed, FramesFit;
    hide OpenerStep, HandlerStep, SenderStep, PumpStep, IntakeStep, ReaderStep, ConsumerStep;
    if OpenerStep(l, e, e') {
      OpenerKeepsClient(l, e, p, e');
    } else if SenderStep(l, e, e') {
      SenderKeepsClient(l, e, p, e');
    } else if PumpStep(l, e, e') {
      PumpKeepsClient(l, e, p, e');
    } else if IntakeStep(l, e, p, e') {
      IntakeKeepsClient(l, e, p, e');
    } else if ReaderStep(l, e, e') {
      ReaderKeepsClient(l, e, p, e');
    } else {
      ConsumerKeepsClient(l, e, p, e');
    }
  }

  lemma IntakeKeepsClient(l: Label, e: Endpoint, p: Endpoint, e': Endpoint)
    requires EndpointInv(e) && e.ctl.client && OpensOnce(e, p) && ClientCalm(e)
    requires ServerCalm(p) && FramesFit(p.tx.written, e.s.maxBytes)
    requires IntakeStep(l, e, p, e') && Undisturbed(l, e, p, e')
    ensures ClientCalm(e')
  {
    hide ClientCalm, SendingIn, ReceivingIn, Coherent, Opening, Undisturbed, FramesFit, FlushedIn, CloserIn;
    if l.Serve? {
      ServeKeepsClient(l.takeCancel, e, p, e');
    } else if e.rx.processed == [] {
      FirstReadKeepsClient(l.refusal, e, p, e');
    } else {
      LaterReadKeepsClient(l.refusal, e, p, e');
    }
  }

  /** A step after which the session is down has written nothing. */
  lemma DownWritesNothing(l: Label, e: Endpoint, p: Endpoint, e': Endpoint)
    requires Step(l, e, p, e') && e'.ctl.down
    ensures e'.tx.written == e.tx.written
  {
    hide OpenerStep, HandlerStep, SenderStep, PumpStep, IntakeStep, ReaderStep, ConsumerStep;
    if OpenerStep(l, e, e') || HandlerStep(l, e, e') {
      DownOpenerWritesNothing(l, e, e');
    } else if PumpStep(l, e, e') || ReaderStep(l, e, e') {
      DownPumpWritesNothing(l, e, e');
    } else {
      DownRestWritesNothing(l, e, p, e');
    }
  }

  lemma DownOpenerWritesNothing(l: Label, e: Endpoint, e': Endpoint)
    requires (OpenerStep(l, e, e') || HandlerStep(l, e, e')) && e'.ctl.down
    ensures e'.tx.written == e.tx.written
  {
    hide Writable, Clean, StatusOf, FinishBegin;
  }

  lemma DownPumpWritesNothing(l: Label, e: Endpoint, e': Endpoint)
    requires (PumpStep(l, e, e') || ReaderStep(l, e, e')) && e'.ctl.down
    ensures e'.tx.written == e.tx.written
  {
    hide Writable, FinishBegin;
  }

  lemma DownRestWritesNothing(l: Label, e: Endpoint, p: Endpoint, e': Endpoint)
    requires (SenderStep(l, e, e') || IntakeStep(l, e, p, e') || ConsumerStep(l, e, e')) && e'.ctl.down
    ensures e'.tx.written == e.tx.written
  {
    hide FinishBegin;
  }

  lemma NextKeepsCalmInv(y: System, y': System, side: Side, l: Label)
    requires Inv(y) && CalmInv(y) && Next(y, y', side, l)
    ensures CalmInv(y')
  {
    hide Step, SendingIn, ReceivingIn, Coherent, FramesFit, ItemsFit, Disturbs, NoEnd, ServerCalm;
    hide ClientEndsIn, ClientPhaseIn, ClientPumpIn;
    var (e, p, e') := if side == ClientSide then (y.client, y.server, y'.client) else (y.server, y.client, y'.server);
    StepKeepsFits(l, e, p, e');
    assert OpensOnce(e, p);
    StepKeepsEndpointInv(l, e, p, e');
    if !y'.fault && !y'.server.ctl.down {
      if side == ServerSide {
        StepKeepsServer(l, e, p, e');
      } else if e'.ctl.down {
        DownWritesNothing(l, e, p, e');
      } else {
        StepKeepsClient(l, e, p, e');
      }
    }
  }

  lemma {:induction false} RunKeepsCalmInv(run: seq<System>, moves: seq<Move>)
    requires IsRun(run, moves) && Inv(run[0]) && CalmInv(run[0])
    ensures Inv(run[|run| - 1]) && CalmInv(run[|run| - 1])
    decreases |moves|
  {
    hide Inv, CalmInv, Next;
    if moves != [] {
      var n := |moves| - 1;
      RunKeepsCalmInv(run[..n + 1], moves[..n]);
      NextKeepsInv(run[n], run[n + 1], moves[n].side, moves[n].step);
      NextKeepsCalmInv(run[n], run[n + 1], moves[n].side, moves[n].step);
    }
  }

  lemma InitIsCalm(y: System)
    requires Init(y)
    ensures Inv(y) && CalmInv(y)
  {
  }

  lemma ReachableKeepsCalmInv(y: System)
    requires Reachable(y)
    ensures Inv(y) && CalmInv(y)
  {
    hide Inv, CalmInv, Init;
    var y0 :| Init(y0) && Reaches(y0, y);
    var run, moves :| IsRun(run, moves) && run[0] == y0 && run[|run| - 1] == y;
    InitIsCalm(y0);
    RunKeepsCalmInv(run, moves);
  }

  // --------------------------------------------------------------- theorems

  /** What the terminal frame in front of a terminated Recv stands for. */
  lemma TerminatedMeansEnd(y: System, r: RecvEnd)
    requires Inv(y) && CalmInv(y) && Calm(y) && r in y.client.rx.ends && r.Terminated?
    requires y.server.ctl.returned.Some?
    ensures var k := y.client.rx.endAt;
            && 0 <= k < |y.server.tx.written| && k < |y.client.rx.processed|
            && y.server.tx.written[k] == EndFrame(EndCode(y.server.ctl.returned.value))
            && r.err == EndFailure(EndCode(y.server.ctl.returned.value))
            && EndJustified(y.server.tx.written, y.server.ctl.returned, y.server.ctl.mark, k)
            && y.client.rx.received == DataOf(y.server.tx.written[..k])
  {
    var c, k := y.client, y.client.rx.endAt;
    assert Usable(c.ctl);
    assert EndTakenIn(c);
    assert c.rx.processed[k] == y.server.tx.written[k];
    assert c.rx.processed[..k] == y.server.tx.written[..k];
  }

  /**
   A handler that returns a failure without having half-closed: whatever Recv has returned on
   the other side, it never was io.EOF; if it was a terminal error it is exactly what the failure
   conveys, and every message accepted before the return came before it.
   */
  lemma FailureDrainsFirst(y: System, e: Error)
    requires Reachable(y) && Calm(y)
    requires y.server.ctl.returned == Some(Some(e)) && !Is(e, StreamClosed) && !y.server.s.sendClosed
    ensures forall r :: r in y.client.rx.ends ==> r.Terminated? && Conveys(e, r.err)
    ensures y.client.rx.ends != [] ==>
              && y.server.ctl.mark <= |y.server.tx.accepted|
              && y.server.tx.accepted[..y.server.ctl.mark] <= y.client.rx.received <= y.server.tx.accepted
  {
    hide Inv, CalmInv, Calm, StatusOf, Err, Is, Reachable, Conveys;
    ReachableKeepsCalmInv(y);
    MessagesAreConserved(y);
    forall r | r in y.client.rx.ends
      ensures r.Terminated? && Conveys(e, r.err)
      ensures y.server.ctl.mark <= |y.client.rx.received|
    {
      TerminatedMeansEnd(y, r);
      FailureCode(e);
    }
    if y.client.rx.ends != [] {
      assert y.client.rx.ends[0] in y.client.rx.ends;
    }
  }

  lemma FailureCode(e: Error)
    requires !Is(e, StreamClosed)
    ensures EndCode(Some(e)) == StatusOf(Some(e)) != OK && !Clean(Some(e))
    ensures Conveys(e, EndFailure(EndCode(Some(e))))
  {
    StatusConveys(e);
    hide Is, Conveys;
  }

  /** The terminal frame of an undisturbed stream carries status 0 for a clean return, else that of the failure. */
  lemma ReportTellsTheReturn(y: System, k: nat)
    requires Reachable(y) && Calm(y) && y.server.ctl.returned.Some?
    requires k < |y.server.tx.written| && y.server.tx.written[k].EndFrame?
    ensures var err := y.server.ctl.returned.value;
            y.server.tx.written[k].code == if err.None? || Is(err.value, StreamClosed) then 0 else StatusOf(err)
  {
    ReachableKeepsCalmInv(y);
    hide Reachable, Inv, ClientCalm, ServerPhase, CloserIn, FlushedIn, Fits, StatusOf, Is, CloseBefore;
    assert EndJustified(y.server.tx.written, y.server.ctl.returned, y.server.ctl.mark, k);
  }

  /** A handler that returns cleanly: the other side sees every message and then only io.EOF. */
  lemma CleanReturnEndsInEof(y: System)
    requires Reachable(y) && Calm(y) && y.server.ctl.returned.Some?
    requires y.server.ctl.returned.value.None? || Is(y.server.ctl.returned.value.value, StreamClosed)
    ensures forall r :: r in y.client.rx.ends ==> r == Eof
    ensures y.client.rx.ends != [] ==> y.client.rx.received == y.server.tx.accepted
  {
    ReachableKeepsCalmInv(y);
    MessagesAreConserved(y);
    forall r | r in y.client.rx.ends
      ensures r == Eof
    {
      if r.Terminated? {
        TerminatedMeansEnd(y, r);
        var c, v := y.client, y.server;
        assert EndsJustified(v.tx.written, v.ctl.returned, v.ctl.mark) by { assert EndsIn(v); }
        assert !c.s.inboundEOF && !c.rx.reader.Serving?;
        CloseWasSeen(c.rx, c.s.inboundEOF, v.tx.written, v.ctl.returned, v.ctl.mark);
        assert false;
      }
    }
    if y.client.rx.ends != [] {
      assert y.client.rx.ends[0] in y.client.rx.ends;
    }
  }

  /** The first close frame precedes every terminal frame of a clean return, so it was taken. */
  lemma CloseWasSeen(rx: Rx, inboundEOF: bool, written: seq<Frame>, returned: Option<Option<Error>>, mark: nat)
    requires EndsJustified(written, returned, mark) && returned.Some? && Clean(returned.value)
    requires CloseSeen(rx, inboundEOF) && !rx.reader.Serving?
    requires rx.processed <= written && 0 <= rx.endAt < |rx.processed|
    requires CloseBefore(written, rx.endAt)
    ensures inboundEOF
  {
    var j := FirstClose(written, rx.endAt);
    forall i | 0 <= i < j
      ensures !written[i].EndFrame?
    {
    }
    assert NoEnd(rx.processed[..j]);
  }

  lemma FirstClose(written: seq<Frame>, k: nat) returns (j: nat)
    requires CloseBefore(written, k) && k <= |written|
    ensures j < k && written[j] == CloseSendFrame && !CloseBefore(written, j)
  {
    j := 0;
    while written[j] != CloseSendFrame
      invariant j < k && !CloseBefore(written, j)
      decreases k - j
    {
      j := j + 1;
    }
  }
}
