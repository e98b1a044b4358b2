/**
 The flow of a served stream's outbound queue while nothing disturbs it: where the close marker
 and the barrier of flushOutbound can be, and when the pump is still there to take them.
 */
module StreamFlow {
  import opened Status
  import opened Stream
  import opened StreamPair
  import opened StreamConservation
  import opened StreamTermination

  // ------------------------------------------------------------ marks

  /** The first item of a queue that is not a message. */
  function FirstMark(outbound: seq<Item>): Option<Item> {
    if outbound == [] then None
    else if outbound[0].DataItem? then FirstMark(outbound[1..])
    else Some(outbound[0])
  }

  lemma {:induction false} FirstMarkPush(outbound: seq<Item>, item: Item)
    ensures FirstMark(outbound + [item]) ==
            if FirstMark(outbound).Some? then FirstMark(outbound) else if item.DataItem? then None else Some(item)
  {
    if outbound == [] {
      assert outbound + [item] == [item] && [item][1..] == [];
    } else {
      FirstMarkPush(outbound[1..], item);
      assert (outbound + [item])[1..] == outbound[1..] + [item];
    }
  }

  lemma {:induction false} FirstMarkIsThere(outbound: seq<Item>)
    ensures FirstMark(outbound).None? <==> CloseItem !in outbound && BarrierItem !in outbound
    ensures FirstMark(outbound).Some? ==> FirstMark(outbound).value in outbound && !FirstMark(outbound).value.DataItem?
  {
    if outbound != [] {
      FirstMarkIsThere(outbound[1..]);
      assert outbound == [outbound[0]] + outbound[1..];
    }
  }

  /** The close marker comes before any barrier: it was written, is being written, or is the first mark. */
  predicate CloseAhead(pump: Pump, written: seq<Frame>, outbound: seq<Item>) {
    CloseSendFrame in written || pump == Writing(CloseItem) || FirstMark(outbound) == Some(CloseItem)
  }

  // ------------------------------------------------------------ the invariant

  /** The pump runs until the close frame is out, and each mark is where its owner left it. */
  ghost predicate Flow(h: Handler, reader: Reader, tx: Tx, outbound: seq<Item>, sendClosed: bool, live: bool) {
    var closeWritten := CloseSendFrame in tx.written;
    && (!h.Absent? || reader.Acking? ==> tx.pump != NotStarted)
    && (live && tx.pump.Stopped? ==> closeWritten)
    && (sendClosed <==> tx.closer != NotCalled)
    && (tx.closer == NotCalled || tx.closer == Marked ==>
          CloseItem !in outbound && tx.pump != Writing(CloseItem) && !closeWritten)
    && (tx.closer == Queued ==> CloseItem in outbound || tx.pump == Writing(CloseItem) || tx.closeReport.Some?)
    && (closeWritten ==> tx.closeReport.Some?)
    && (h.FlushWait? ==> tx.barrierDone || BarrierItem in outbound)
    && (h.Reporting? ==> !live)
  }

  ghost predicate FlowIn(e: Endpoint) {
    Flow(e.ctl.handler, e.rx.reader, e.tx, e.s.outbound, e.s.sendClosed, e.s.stage == Live)
  }

  lemma HandlerKeepsFlow(l: Label, e: Endpoint, p: Endpoint, e': Endpoint)
    requires FlowIn(e) && ServerCalm(e) && HandlerStep(l, e, e') && Undisturbed(l, e, p, e')
    ensures FlowIn(e')
  {
    hide EndsIn, StatusOf, Is, BarrierBehind, CloserIn;
  }

  lemma SenderKeepsFlow(l: Label, e: Endpoint, p: Endpoint, e': Endpoint)
    requires FlowIn(e) && ServerCalm(e) && SenderStep(l, e, e') && Undisturbed(l, e, p, e')
    ensures FlowIn(e')
  {
    hide EndsIn, BarrierBehind, CloserIn, AfterTerminal;
  }

  lemma PumpKeepsFlow(l: Label, e: Endpoint, p: Endpoint, e': Endpoint)
    requires FlowIn(e) && SendingIn(e) && ServerCalm(e) && PumpStep(l, e, e') && Undisturbed(l, e, p, e')
    ensures FlowIn(e')
  {
    hide EndsIn, BarrierBehind, CloserIn, Sending, Flushed;
    if l.PumpTake? {
      assert e.s.outbound == [e.s.outbound[0]] + e.s.outbound[1..];
    }
  }

  lemma ReadKeepsFlow(l: Label, e: Endpoint, p: Endpoint, e': Endpoint)
    requires FlowIn(e) && Shape(e) && !e.ctl.client && OpensOnce(e, p) && ServerCalm(e) && NoEnd(p.tx.written)
    requires l.Read? && IntakeStep(l, e, p, e') && Undisturbed(l, e, p, e')
    ensures FlowIn(e')
  {
    hide EndsIn, FlushedIn, CloserIn;
  }

  lemma ServeKeepsFlow(l: Label, e: Endpoint, p: Endpoint, e': Endpoint)
    requires FlowIn(e) && ServerCalm(e) && ReceivingIn(e)
    requires e.rx.processed <= p.tx.written && FramesFit(p.tx.written, e.s.maxBytes)
    requires l.Serve? && IntakeStep(l, e, p, e') && Undisturbed(l, e, p, e')
    ensures FlowIn(e')
  {
    hide EndsIn, FlushedIn, CloserIn;
    var last := |e.rx.processed| - 1;
    assert p.tx.written[last] == e.rx.reader.frame;
  }

  lemma ReaderKeepsFlow(l: Label, e: Endpoint, p: Endpoint, e': Endpoint)
    requires FlowIn(e) && ServerCalm(e) && (ReaderStep(l, e, e') || ConsumerStep(l, e, e')) && Undisturbed(l, e, p, e')
    ensures FlowIn(e')
  {
    hide EndsIn, FlushedIn, CloserIn;
    assert e'.s.outbound == e.s.outbound && e'.s.sendClosed == e.s.sendClosed &&
           (e'.s.stage == Live ==> e.s.stage == Live);
  }

  lemma StepKeepsFlow(l: Label, e: Endpoint, p: Endpoint, e': Endpoint)
    requires FlowIn(e) && EndpointInv(e) && !e.ctl.client && OpensOnce(e, p) && ServerCalm(e)
    requires NoEnd(p.tx.written) && FramesFit(p.tx.written, e.s.maxBytes)
    requires Step(l, e, p, e') && Undisturbed(l, e, p, e')
    ensures FlowIn(e')
  {
    assert !OpenerStep(l, e, e') by { hide ServerCalm, SendingIn, ReceivingIn, FlowIn; }
    hide FlowIn, ServerCalm, SendingIn, ReceivingIn, Coherent, Undisturbed, NoEnd, FramesFit;
    hide OpenerStep, HandlerStep, SenderStep, PumpStep, IntakeStep, ReaderStep, ConsumerStep;
    if HandlerStep(l, e, e') {
      HandlerKeepsFlow(l, e, p, e');
    } else if SenderStep(l, e, e') {
      SenderKeepsFlow(l, e, p, e');
    } else if PumpStep(l, e, e') {
      PumpKeepsFlow(l, e, p, e');
    } else if IntakeStep(l, e, p, e') {
      assert l.Read? || l.Serve? by { IntakeLabels(l, e, p, e'); }
      if l.Read? { ReadKeepsFlow(l, e, p, e'); } else { ServeKeepsFlow(l, e, p, e'); }
    } else {
      ReaderKeepsFlow(l, e, p, e');
    }
  }

  lemma IntakeLabels(l: Label, e: Endpoint, p: Endpoint, e': Endpoint)
    requires IntakeStep(l, e, p, e')
    ensures l.Read? || l.Serve?
  {
  }

  // ------------------------------------------------------------ whole runs

  /** Everything known about two endpoints that nothing has disturbed, the serving one being up. */
  ghost predicate FlowInv(y: System) {
    Inv(y) && CalmInv(y) && (!y.fault && !y.server.ctl.down ==> FlowIn(y.server))
  }

  lemma NextKeepsFlowInv(y: System, y': System, side: Side, l: Label)
    requires FlowInv(y) && Next(y, y', side, l)
    ensures FlowInv(y')
  {
    NextKeepsInv(y, y', side, l);
    NextKeepsCalmInv(y, y', side, l);
    hide Step, SendingIn, ReceivingIn, Coherent, FlowIn, ServerCalm, ItemsFit, Disturbs, NoEnd, ClientCalm;
    if !y'.fault && !y'.server.ctl.down && side == ServerSide {
      var e, p, e' := y.server, y.client, y'.server;
      assert !e.ctl.down by { StepKeepsEndpointInv(l, e, p, e'); }
      StepKeepsFlow(l, e, p, e');
    }
  }

  lemma {:induction false} RunKeepsFlowInv(run: seq<System>, moves: seq<Move>)
    requires IsRun(run, moves) && FlowInv(run[0])
    ensures FlowInv(run[|run| - 1])
    decreases |moves|
  {
    hide FlowInv, Next;
    if moves != [] {
      var n := |moves| - 1;
      RunKeepsFlowInv(run[..n + 1], moves[..n]);
      NextKeepsFlowInv(run[n], run[n + 1], moves[n].side, moves[n].step);
    }
  }

  lemma ReachableKeepsFlowInv(y: System)
    requires Reachable(y)
    ensures FlowInv(y)
  {
    hide FlowInv, Next, Init;
    var y0 :| Init(y0) && Reaches(y0, y);
    var run, moves :| IsRun(run, moves) && run[0] == y0 && run[|run| - 1] == y;
    InitHasFlow(y0);
    RunKeepsFlowInv(run, moves);
  }

  lemma InitHasFlow(y: System)
    requires Init(y)
    ensures FlowInv(y)
  {
    InitIsCalm(y);
    hide Inv, CalmInv;
  }
}
