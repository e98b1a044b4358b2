/**
 When a served stream's terminal frame is certain to be reported, on a session that carries this
 stream alone: a shutdown because of another call or stream counts as a disturbance.

 Once its handler has returned, the terminal frame can fail to be written in four ways although
 nothing disturbs the stream.
 - The session ends first, because a message of the opener is in the reader's hand when the handler
   releases the stream (StreamRace).
 - The handler is stuck: it half-closed before it returned a failure, the pump stopped behind the
   close marker, and the barrier of flushOutbound is never taken.
 - A message that Send accepted is larger than the frame writer accepts; the pump's write is refused
   and ends the session.
 - The terminal frame itself is larger than the frame writer accepts.
 This module shows that these are the only ways.
 */
module StreamReport {
  import opened Status
  import opened Stream
  import opened StreamPair
  import opened StreamConservation
  import opened StreamTermination
  import opened StreamRace
  import opened StreamFlow
  import opened StreamProgress
  import WireSize

  // ------------------------------------------------------------ certain

  /** Everything that makes the report certain. */
  ghost predicate Certain(y: System) {
    Returning(y) && Quiet(y) && Tracked(y.server) && MessagesFit(y.server) && TerminalFits(y.server)
  }

  /** The serving side's writer refuses nothing. */
  lemma CertainIsTaken(y: System, l: Label)
    requires Returning(y) && MessagesFit(y.server) && TerminalFits(y.server)
    ensures !TooLarge(l, y.server)
  {
    hide Returning, SendingIn, ReceivingIn, FlowIn, EndsIn, FlushedIn, CloserIn, Coherent, OpensOnce, EndCode;
    ReturningFacts(y);
    hide WireSize.NameFits, WireSize.DataFit, WireSize.EndFits;
  }

  lemma NextKeepsCertain(y: System, y': System, side: Side, l: Label)
    requires Certain(y) && Next(y, y', side, l) && !y'.fault && y'.server.tx.accepted == y.server.tx.accepted
    requires Failing(y) ==> y'.server.s.sendClosed == y.server.s.sendClosed
    ensures Certain(y') && y'.server.ctl.returned == y.server.ctl.returned
  {
    CertainIsTaken(y, l);
    ReturningFacts(y);
    NextKeepsFlowInv(y, y', side, l);
    assert Inv(y) && CalmInv(y) && Calm(y) by { hide Inv, CalmInv; }
    hide Quiet, Tracked, Step, TooLarge, Inv, CalmInv, FlowInv, MessagesFit, ServerCalm, EndpointInv, FlowIn, Disturbs;
    NextKeepsQuiet(y, y', side, l);
    if side == ServerSide {
      ServerKeepsCertain(y, y', l);
    }
  }

  lemma ServerKeepsCertain(y: System, y': System, l: Label)
    requires Returning(y) && Tracked(y.server) && MessagesFit(y.server) && TerminalFits(y.server)
    requires Next(y, y', ServerSide, l) && Calm(y') && y'.server.tx.accepted == y.server.tx.accepted
    requires Failing(y) ==> y'.server.s.sendClosed == y.server.s.sendClosed
    ensures Tracked(y'.server) && MessagesFit(y'.server) && TerminalFits(y'.server)
    ensures y'.server.ctl.returned == y.server.ctl.returned && y'.server.s.depth == y.server.s.depth
  {
    hide Returning, Tracked, Step, MessagesFit, ServerCalm, FlowIn, Disturbs, OpensOnce, Clean, EndCode, EndpointInv;
    ReturningFacts(y);
    var e, p, e' := y.server, y.client, y'.server;
    StepKeepsTrack(l, e, p, e');
    StepKeepsFit(l, e, p, e');
    StepKeepsEndpointInv(l, e, p, e');
    hide Undisturbed;
  }

  /** Along a run invariants hold, what was done stays done, and an ended session writes nothing. */
  lemma {:induction false} RunStays(run: seq<System>, moves: seq<Move>, n: nat)
    requires IsRun(run, moves) && Inv(run[0]) && n < |run|
    ensures Inv(run[n]) && (run[0].fault ==> run[n].fault)
    ensures run[0].server.s.sendClosed ==> run[n].server.s.sendClosed
    ensures run[0].server.tx.accepted <= run[n].server.tx.accepted
    ensures run[0].server.ctl.down ==> run[n].server.ctl.down && run[n].server.tx.written == run[0].server.tx.written
    ensures run[0].client.ctl.down ==> run[n].client.ctl.down
    decreases n
  {
    hide Inv, Next;
    if n > 0 {
      assert Next(run[n - 1], run[n - 1 + 1], moves[n - 1].side, moves[n - 1].step);
      RunStays(run, moves, n - 1);
      NextKeepsInv(run[n - 1], run[n], moves[n - 1].side, moves[n - 1].step);
      NextStays(run[n - 1], run[n], moves[n - 1].side, moves[n - 1].step);
    }
  }

  lemma NextStays(y: System, y': System, side: Side, l: Label)
    requires Inv(y) && Next(y, y', side, l)
    ensures y.server.s.sendClosed ==> y'.server.s.sendClosed
    ensures y.server.tx.accepted <= y'.server.tx.accepted
    ensures y.server.ctl.down ==> y'.server.ctl.down && y'.server.tx.written == y.server.tx.written
    ensures y.client.ctl.down ==> y'.client.ctl.down
    ensures y.fault ==> y'.fault
  {
    OpensOnceOf(y);
    assert OpensOnce(y.client, y.server) by { hide SendingIn, ReceivingIn, Coherent; }
    hide Step, SendingIn, ReceivingIn, Coherent, OpensOnce, Opening, Disturbs;
    if side == ServerSide {
      StepKeepsEndpointInv(l, y.server, y.client, y'.server);
    } else {
      StepKeepsEndpointInv(l, y.client, y.server, y'.client);
    }
  }

  lemma {:induction false} RunKeepsCertain(run: seq<System>, moves: seq<Move>, n: nat)
    requires IsRun(run, moves) && n < |run| && Inv(run[0]) && Certain(run[0]) && !run[n].fault
    requires run[n].server.tx.accepted == run[0].server.tx.accepted
    requires Failing(run[0]) ==> run[n].server.s.sendClosed == run[0].server.s.sendClosed
    ensures Certain(run[n]) && run[n].server.ctl.returned == run[0].server.ctl.returned
    decreases n
  {
    hide Certain, Next, Inv;
    if n > 0 {
      assert Next(run[n - 1], run[n - 1 + 1], moves[n - 1].side, moves[n - 1].step);
      RunStays(run, moves, n - 1);
      NextStays(run[n - 1], run[n], moves[n - 1].side, moves[n - 1].step);
      RunKeepsCertain(run, moves, n - 1);
      NextKeepsCertain(run[n - 1], run[n], moves[n - 1].side, moves[n - 1].step);
    }
  }

  lemma FollowingKeepsCertain(y: System, z: System)
    requires Certain(y) && Follows(y, z)
    ensures Certain(z)
  {
    assert Inv(y) by { hide Inv, CalmInv, Quiet; }
    hide Certain, Next, Inv;
    var run, moves :| IsRun(run, moves) && run[0] == y && run[|run| - 1] == z;
    RunKeepsCertain(run, moves, |run| - 1);
  }

  lemma CertainIsReported(y: System)
    requires Certain(y)
    ensures ReportIsCertain(y)
  {
    hide Certain, MayReport, Follows;
    forall z | Follows(y, z) ensures MayReport(z) {
      FollowingKeepsCertain(y, z);
      CertainMayReport(z);
    }
  }

  lemma CertainMayReport(z: System)
    requires Certain(z)
    ensures MayReport(z)
  {
    hide Returning, Quiet, MayReport, OnTrack, NoEnd, MessagesFit, TerminalFits;
    TrackedMayReport(z);
  }

  // ------------------------------------------------------------ overtaken: never reported

  /** A stream its handler still holds does not end the session, whatever arrives. */
  lemma HeldIntakeStaysUp(l: Label, y: System, e': Endpoint)
    requires Inv(y) && CalmInv(y) && Calm(y) && y.server.s.stage == Live && IntakeStep(l, y.server, y.client, e')
    ensures !e'.ctl.down
  {
    var e := y.server;
    HeldFacts(y);
    if l.Serve? && e.rx.reader.frame.DataFrame? {
      if e.s.inboundEOF {
        hide CalmInv;
        SeenEofIsQuiet(y);
        assert false;
      }
      HeldMessageFits(y, e.rx.reader.frame.message);
    }
    hide Inv, CalmInv, StatusOf;
  }

  lemma HeldFacts(y: System)
    requires Inv(y) && CalmInv(y) && Calm(y) && y.server.s.stage == Live
    ensures var e := y.server;
            && !e.s.cancelled && !e.ctl.client && !e.ctl.openPending && !e.ctl.down
            && (e.s.inboundClosed ==> e.s.inboundEOF)
            && (e.rx.reader.Serving? ==> e.rx.reader.frame.DataFrame? || e.rx.reader.frame.CloseSendFrame?)
  {
    hide SendingIn, ReceivingIn, FlushedIn, EndsIn, CloserIn, ClientCalm, Fits;
  }

  lemma HeldStaysUp(y: System, y': System, l: Label)
    requires FlowInv(y) && Calm(y) && y.server.s.stage == Live && Next(y, y', ServerSide, l) && !y'.fault
    requires !TooLarge(l, y.server)
    ensures !y'.server.ctl.down
  {
    var e, p, e' := y.server, y.client, y'.server;
    assert Step(l, e, p, e') && !Disturbs(l, e, p);
    hide Step, Inv, CalmInv, Disturbs, IntakeStep, TooLarge;
    if IntakeStep(l, e, p, e') {
      HeldIntakeStaysUp(l, y, e');
    } else {
      OnlyIntakeFails(l, e, p, e');
    }
  }

  lemma HandlerKeepsOvertaken(l: Label, e: Endpoint, p: Endpoint, e': Endpoint)
    requires Overtaken(e) && ServerCalm(e) && HandlerStep(l, e, e') && Undisturbed(l, e, p, e')
    ensures Overtaken(e')
  {
    hide EndsIn, FlushedIn, CloserIn;
    if l.FlushQueue? { FirstMarkPush(e.s.outbound, BarrierItem); }
  }

  lemma SenderKeepsOvertaken(l: Label, e: Endpoint, e': Endpoint)
    requires Overtaken(e) && SenderStep(l, e, e')
    ensures Overtaken(e')
  {
    hide AfterTerminal, Clean;
    if l.Send? { FirstMarkPush(e.s.outbound, DataItem(l.message)); }
    if l == StreamPair.CloseQueue { FirstMarkPush(e.s.outbound, CloseItem); }
  }

  lemma PumpKeepsOvertaken(l: Label, e: Endpoint, p: Endpoint, e': Endpoint)
    requires Overtaken(e) && SendingIn(e) && PumpStep(l, e, e') && Undisturbed(l, e, p, e') && !e.s.cancelled
    ensures Overtaken(e')
  {
    hide Clean, DataOf, QueuedData;
  }

  lemma OthersKeepOvertaken(l: Label, e: Endpoint, p: Endpoint, e': Endpoint)
    requires Overtaken(e) && ServerCalm(e) && !e.ctl.client && OpensOnce(e, p) && Opening(e)
    requires IntakeStep(l, e, p, e') || ReaderStep(l, e, e') || ConsumerStep(l, e, e')
    requires Undisturbed(l, e, p, e')
    ensures Overtaken(e')
  {
    assert e.ctl.returned.Some? by { hide EndsIn, FlushedIn, CloserIn, CloseAhead, Clean; }
    OthersLeaveSending(l, e, p, e');
    hide ServerCalm, CloseAhead, Clean, IntakeStep, ReaderStep, ConsumerStep;
  }

  lemma StepKeepsOvertaken(l: Label, e: Endpoint, p: Endpoint, e': Endpoint)
    requires Overtaken(e) && ServerCalm(e) && EndpointInv(e) && !e.ctl.client && OpensOnce(e, p)
    requires Step(l, e, p, e') && Undisturbed(l, e, p, e')
    ensures Overtaken(e')
  {
    assert !OpenerStep(l, e, e') by { hide ServerCalm, SendingIn, ReceivingIn, Overtaken; }
    assert !e.s.cancelled by { hide Step, EndsIn, FlushedIn, CloserIn, SendingIn, ReceivingIn, CloseAhead; }
    hide ServerCalm, SendingIn, ReceivingIn, Coherent, Undisturbed, Overtaken, Opening, OpensOnce;
    hide OpenerStep, HandlerStep, SenderStep, PumpStep, IntakeStep, ReaderStep, ConsumerStep;
    if HandlerStep(l, e, e') {
      HandlerKeepsOvertaken(l, e, p, e');
    } else if SenderStep(l, e, e') {
      SenderKeepsOvertaken(l, e, e');
    } else if PumpStep(l, e, e') {
      PumpKeepsOvertaken(l, e, p, e');
    } else {
      OthersKeepOvertaken(l, e, p, e');
    }
  }

  /** An overtaken failure on an endpoint that is up. */
  ghost predicate Stuck(y: System) {
    FlowInv(y) && !y.fault && !y.server.ctl.down && Overtaken(y.server)
  }

  /** A failure that is stuck, or whose session has ended without it. */
  ghost predicate Doomed(y: System) {
    Stuck(y) || Lost(y)
  }

  lemma StuckFacts(y: System)
    requires Stuck(y)
    ensures y.server.s.stage == Live && NoEnd(y.server.tx.written) && !y.server.ctl.client
    ensures EndpointInv(y.server) && ServerCalm(y.server) && Inv(y) && OpensOnce(y.server, y.client)
  {
    OpensOnceOf(y);
    hide SendingIn, ReceivingIn, FlushedIn, CloserIn, ClientCalm, Fits, CloseAhead, Clean, FlowIn, OpensOnce;
  }

  lemma NextKeepsDoomed(y: System, y': System, side: Side, l: Label)
    requires Inv(y) && Doomed(y) && Next(y, y', side, l) && !y'.fault
    ensures Doomed(y')
  {
    NextStays(y, y', side, l);
    hide NoEnd, Inv;
    if Stuck(y) {
      StuckFacts(y);
      NextKeepsFlowInv(y, y', side, l);
      hide FlowInv, ServerCalm, EndpointInv, Step, OpensOnce, Overtaken, Disturbs;
      if side == ServerSide {
        if y'.server.ctl.down {
          DownWritesNothing(l, y.server, y.client, y'.server);
        } else {
          StepKeepsOvertaken(l, y.server, y.client, y'.server);
        }
      }
    }
  }

  lemma {:induction false} RunKeepsDoomed(run: seq<System>, moves: seq<Move>, n: nat)
    requires IsRun(run, moves) && n < |run| && Inv(run[0]) && Doomed(run[0]) && !run[n].fault
    ensures Doomed(run[n])
    decreases n
  {
    hide Doomed, Next, Inv;
    if n > 0 {
      assert Next(run[n - 1], run[n - 1 + 1], moves[n - 1].side, moves[n - 1].step);
      RunStays(run, moves, n - 1);
      NextStays(run[n - 1], run[n], moves[n - 1].side, moves[n - 1].step);
      RunKeepsDoomed(run, moves, n - 1);
      NextKeepsDoomed(run[n - 1], run[n], moves[n - 1].side, moves[n - 1].step);
    }
  }

  lemma DoomedIsNeverReported(y: System, z: System)
    requires Inv(y) && Doomed(y) && Reaches(y, z) && !z.fault
    ensures Doomed(z) && NoEnd(z.server.tx.written)
  {
    hide Doomed, NoEnd, Next, Inv;
    var run, moves :| IsRun(run, moves) && run[0] == y && run[|run| - 1] == z;
    RunKeepsDoomed(run, moves, |run| - 1);
    DoomedHasNoEnd(z);
  }

  lemma DoomedHasNoEnd(y: System)
    requires Doomed(y)
    ensures NoEnd(y.server.tx.written)
  {
    hide Stuck, NoEnd;
    if Stuck(y) { StuckFacts(y); }
  }

  /** A stuck failure whose close frame is out. */
  ghost predicate Shut(y: System) {
    Stuck(y) && CloseSendFrame in y.server.tx.written
  }

  /** Nothing the serving side has to write is refused then. */
  lemma ShutIsTaken(y: System, l: Label)
    requires Shut(y)
    ensures !TooLarge(l, y.server)
  {
    StuckFacts(y);
    hide ReceivingIn, FlushedIn, EndsIn, CloserIn, FlowInv, Writable, OpensOnce, Coherent, DataOf, QueuedData;
  }

  /** While the opener's session is up the serving one is. */
  lemma NextKeepsShut(y: System, y': System, side: Side, l: Label)
    requires Inv(y) && Shut(y) && Calm(y) && Next(y, y', side, l) && !y'.fault && !y'.client.ctl.down
    ensures Shut(y') && Calm(y')
  {
    ShutIsTaken(y, l);
    StuckFacts(y);
    NextKeepsDoomed(y, y', side, l);
    assert y.server.tx.written <= y'.server.tx.written by {
      hide Stuck, TooLarge, ServerCalm, NoEnd;
      NextGrowsWritten(y, y', side, l);
    }
    if side == ServerSide {
      hide ServerCalm, EndpointInv, TooLarge, NoEnd, Overtaken, OpensOnce, Step;
      HeldStaysUp(y, y', l);
    }
    hide FlowInv, ServerCalm, EndpointInv, TooLarge, NoEnd, Overtaken, OpensOnce, Step, Inv, Disturbs;
  }

  lemma NextGrowsWritten(y: System, y': System, side: Side, l: Label)
    requires Inv(y) && Next(y, y', side, l)
    ensures y.server.tx.written <= y'.server.tx.written
  {
    OpensOnceOf(y);
    hide Step, SendingIn, ReceivingIn, Coherent, OpensOnce, Opening, Disturbs;
    if side == ServerSide {
      StepKeepsEndpointInv(l, y.server, y.client, y'.server);
    }
  }

  lemma {:induction false} RunKeepsShut(run: seq<System>, moves: seq<Move>, n: nat)
    requires IsRun(run, moves) && n < |run| && Inv(run[0]) && Shut(run[0]) && Calm(run[0])
    requires !run[n].fault && !run[n].client.ctl.down
    ensures Shut(run[n]) && Calm(run[n])
    decreases n
  {
    hide Shut, Next, Inv;
    if n > 0 {
      assert Next(run[n - 1], run[n - 1 + 1], moves[n - 1].side, moves[n - 1].step);
      RunStays(run, moves, n - 1);
      NextStays(run[n - 1], run[n], moves[n - 1].side, moves[n - 1].step);
      RunKeepsShut(run, moves, n - 1);
      NextKeepsShut(run[n - 1], run[n], moves[n - 1].side, moves[n - 1].step);
    }
  }

  /** And a quiet opener's session stays up. */
  lemma {:induction false} RunKeepsShutQuiet(run: seq<System>, moves: seq<Move>, n: nat)
    requires IsRun(run, moves) && n < |run| && Inv(run[0]) && Shut(run[0]) && Calm(run[0]) && Quiet(run[0])
    requires run[0].server.rx.processed != [] && !run[n].fault
    ensures Shut(run[n]) && Calm(run[n]) && Quiet(run[n]) && run[n].server.rx.processed != []
    decreases n
  {
    hide Shut, Next, Inv, Quiet;
    if n > 0 {
      assert Next(run[n - 1], run[n - 1 + 1], moves[n - 1].side, moves[n - 1].step);
      RunStays(run, moves, n - 1);
      NextStays(run[n - 1], run[n], moves[n - 1].side, moves[n - 1].step);
      RunKeepsShutQuiet(run, moves, n - 1);
      NextKeepsShutQuiet(run[n - 1], run[n], moves[n - 1].side, moves[n - 1].step);
    }
  }

  lemma NextKeepsShutQuiet(y: System, y': System, side: Side, l: Label)
    requires Inv(y) && Shut(y) && Calm(y) && Quiet(y) && y.server.rx.processed != []
    requires Next(y, y', side, l) && !y'.fault
    ensures Shut(y') && Calm(y') && Quiet(y') && y'.server.rx.processed != []
  {
    ShutIsTaken(y, l);
    assert CalmInv(y) by { hide CalmInv, Inv; }
    hide Shut, Next, Inv, Quiet, CalmInv, TooLarge;
    NextKeepsQuiet(y, y', side, l);
    NextKeepsShut(y, y', side, l);
  }

  /**
   A handler that half-closes and then returns a failure: the failure is never reported, on any
   undisturbed run. The pump stopped behind the close frame, so the handler waits for its barrier
   until its session ends or something outside ends its context; and its session does not end
   before the opener's, which for a quiet opener does not end at all.
   */
  lemma HalfClosedFailureIsNeverReported(y: System, z: System)
    requires Reachable(y) && Calm(y) && y.server.ctl.handler.Returned? && !Clean(y.server.ctl.handler.err)
    requires CloseSendFrame in y.server.tx.written
    requires Reaches(y, z) && !z.fault
    ensures NoEnd(z.server.tx.written)
    ensures var h := z.server.ctl.handler; z.server.ctl.down || h.Returned? || h.Flushing? || h.FlushWait?
    ensures !z.client.ctl.down || Quiet(y) ==> Calm(z)
  {
    hide Reachable, Reaches, NoEnd, Quiet;
    HalfClosedIsShut(y);
    hide FlowInv, Inv;
    DoomedIsNeverReported(y, z);
    hide Shut;
    if !z.client.ctl.down || Quiet(y) { ShutStaysCalm(y, z); }
  }

  lemma HalfClosedIsShut(y: System)
    requires Reachable(y) && Calm(y) && y.server.ctl.handler.Returned? && !Clean(y.server.ctl.handler.err)
    requires CloseSendFrame in y.server.tx.written
    ensures Shut(y) && Inv(y) && y.server.rx.processed != []
  {
    ReachableKeepsFlowInv(y);
    assert ServerCalm(y.server) && EndpointInv(y.server) && Inv(y) && !y.server.ctl.client by {
      hide Inv, ServerCalm, EndpointInv, ClientCalm, Fits, FlowIn;
      assert Inv(y);
      OpensOnceOf(y);
    }
    hide Reachable, FlowInv, Inv;
    ReturnedHasNoBarrier(y.server);
    ReturnedHasRead(y.server);
    hide ServerCalm, EndpointInv;
  }

  lemma ReturnedHasNoBarrier(e: Endpoint)
    requires ServerCalm(e) && e.ctl.handler.Returned?
    ensures !e.tx.barrierDone
  {
    hide EndsIn, CloserIn, BarrierBehind;
  }

  lemma ReturnedHasRead(e: Endpoint)
    requires EndpointInv(e) && !e.ctl.client && e.ctl.handler.Returned?
    ensures e.rx.processed != []
  {
    hide SendingIn, ReceivingIn, Coherent;
  }

  lemma ShutStaysCalm(y: System, z: System)
    requires Inv(y) && Shut(y) && Calm(y) && y.server.rx.processed != [] && Reaches(y, z) && !z.fault
    requires !z.client.ctl.down || Quiet(y)
    ensures Calm(z)
  {
    hide Shut, Inv, Quiet, Next;
    var run, moves :| IsRun(run, moves) && run[0] == y && run[|run| - 1] == z;
    if Quiet(y) {
      RunKeepsShutQuiet(run, moves, |run| - 1);
    } else {
      RunKeepsShut(run, moves, |run| - 1);
    }
  }

  // ------------------------------------------------------------ a message that is too large

  /** The first message that is too large comes before any mark of the queue. */
  predicate OversizedFirst(limits: Limits, outbound: seq<Item>) {
    && outbound != [] && outbound[0].DataItem?
    && (|outbound[0].message| > WireSize.DataFit(limits.maxBody) || OversizedFirst(limits, outbound[1..]))
  }

  lemma {:induction false} PushKeepsOversized(limits: Limits, outbound: seq<Item>, item: Item)
    requires OversizedFirst(limits, outbound)
    ensures OversizedFirst(limits, outbound + [item])
  {
    assert (outbound + [item])[1..] == outbound[1..] + [item];
    if OversizedFirst(limits, outbound[1..]) { PushKeepsOversized(limits, outbound[1..], item); }
  }

  lemma {:induction false} OversizedIsFirst(limits: Limits, outbound: seq<Item>, i: nat)
    requires i < |outbound| && outbound[i].DataItem? && |outbound[i].message| > WireSize.DataFit(limits.maxBody)
    requires forall j :: 0 <= j < i ==> outbound[j].DataItem?
    ensures OversizedFirst(limits, outbound)
  {
    if i > 0 { OversizedIsFirst(limits, outbound[1..], i - 1); }
  }

  /** A message that is too large is in the pump's hand, or comes before any mark in the queue. */
  ghost predicate OversizedAhead(e: Endpoint) {
    || (e.tx.pump.Writing? && e.tx.pump.item.DataItem? && !Writable(e, DataFrame(e.tx.pump.item.message)))
    || OversizedFirst(e.tx.limits, e.s.outbound)
  }

  /** A handler that has returned and waits for the pump, which cannot pass. */
  ghost predicate Blocked(e: Endpoint) {
    var h := e.ctl.handler;
    && (h.Returned? || h.ClosingSend? || h.Flushing? || h.FlushWait?)
    && !e.tx.barrierDone && OversizedAhead(e)
  }

  /** The close marker comes behind every message, so its frame is not written and CloseSend not done. */
  lemma BlockedFacts(e: Endpoint)
    requires Blocked(e) && SendingIn(e) && ServerCalm(e)
    ensures !e.tx.closer.Closed? && e.s.stage == Live && !e.s.cancelled && NoEnd(e.tx.written)
    ensures e.tx.pump != Writing(CloseItem) && CloseSendFrame !in e.tx.written
    ensures e.tx.pump == Waiting ==> e.s.outbound != [] && e.s.outbound[0].DataItem?
  {
    hide FlushedIn, Writable, DataOf, QueuedData;
  }

  lemma HandlerKeepsBlocked(l: Label, e: Endpoint, p: Endpoint, e': Endpoint)
    requires Blocked(e) && SendingIn(e) && ServerCalm(e) && HandlerStep(l, e, e') && Undisturbed(l, e, p, e')
    ensures Blocked(e')
  {
    BlockedFacts(e);
    hide EndsIn, FlushedIn, CloserIn, Sending, NoEnd, OversizedFirst;
    if l.FlushQueue? && OversizedFirst(e.tx.limits, e.s.outbound) {
      PushKeepsOversized(e.tx.limits, e.s.outbound, BarrierItem);
    }
  }

  lemma SenderKeepsBlocked(l: Label, e: Endpoint, e': Endpoint)
    requires Blocked(e) && SenderStep(l, e, e')
    ensures Blocked(e')
  {
    hide AfterTerminal, OversizedFirst;
    if OversizedFirst(e.tx.limits, e.s.outbound) {
      if l.Send? { PushKeepsOversized(e.tx.limits, e.s.outbound, DataItem(l.message)); }
      PushKeepsOversized(e.tx.limits, e.s.outbound, CloseItem);
    }
  }

  lemma PumpKeepsBlocked(l: Label, e: Endpoint, p: Endpoint, e': Endpoint)
    requires Blocked(e) && SendingIn(e) && ServerCalm(e) && PumpStep(l, e, e') && Undisturbed(l, e, p, e')
    ensures Blocked(e')
  {
    BlockedFacts(e);
    hide EndsIn, FlushedIn, CloserIn, Sending, NoEnd;
  }

  lemma OthersKeepBlocked(l: Label, e: Endpoint, p: Endpoint, e': Endpoint)
    requires Blocked(e) && ServerCalm(e) && !e.ctl.client && OpensOnce(e, p) && Opening(e)
    requires IntakeStep(l, e, p, e') || ReaderStep(l, e, e') || ConsumerStep(l, e, e')
    requires Undisturbed(l, e, p, e')
    ensures Blocked(e')
  {
    assert e.ctl.returned.Some? by { hide EndsIn, FlushedIn, CloserIn, OversizedAhead, Clean; }
    OthersLeaveSending(l, e, p, e');
    hide ServerCalm, IntakeStep, ReaderStep, ConsumerStep;
  }

  lemma StepKeepsBlocked(l: Label, e: Endpoint, p: Endpoint, e': Endpoint)
    requires Blocked(e) && ServerCalm(e) && EndpointInv(e) && !e.ctl.client && OpensOnce(e, p)
    requires Step(l, e, p, e') && Undisturbed(l, e, p, e')
    ensures Blocked(e')
  {
    assert !OpenerStep(l, e, e') by { hide ServerCalm, SendingIn, ReceivingIn, Blocked; }
    hide ServerCalm, SendingIn, ReceivingIn, Coherent, Undisturbed, Blocked, Opening, OpensOnce;
    hide OpenerStep, HandlerStep, SenderStep, PumpStep, IntakeStep, ReaderStep, ConsumerStep;
    if HandlerStep(l, e, e') {
      HandlerKeepsBlocked(l, e, p, e');
    } else if SenderStep(l, e, e') {
      SenderKeepsBlocked(l, e, e');
    } else if PumpStep(l, e, e') {
      PumpKeepsBlocked(l, e, p, e');
    } else {
      OthersKeepBlocked(l, e, p, e');
    }
  }

  /** Blocked, or ended without the terminal. */
  ghost predicate BlockedOrLost(y: System) {
    (FlowInv(y) && !y.fault && !y.server.ctl.down && Blocked(y.server)) || Lost(y)
  }

  lemma NextKeepsBlocked(y: System, y': System, side: Side, l: Label)
    requires Inv(y) && BlockedOrLost(y) && Next(y, y', side, l) && !y'.fault
    ensures BlockedOrLost(y') && NoEnd(y.server.tx.written)
  {
    NextStays(y, y', side, l);
    hide NoEnd, Inv;
    if !Lost(y) {
      BlockedUpFacts(y);
      NextKeepsFlowInv(y, y', side, l);
      hide FlowInv, ServerCalm, EndpointInv, Step, OpensOnce, Blocked, Disturbs;
      if side == ServerSide {
        if y'.server.ctl.down {
          DownWritesNothing(l, y.server, y.client, y'.server);
        } else {
          StepKeepsBlocked(l, y.server, y.client, y'.server);
        }
      }
    }
  }

  lemma BlockedUpFacts(y: System)
    requires FlowInv(y) && !y.fault && !y.server.ctl.down && Blocked(y.server)
    ensures NoEnd(y.server.tx.written) && !y.server.ctl.client
    ensures EndpointInv(y.server) && ServerCalm(y.server) && OpensOnce(y.server, y.client)
  {
    OpensOnceOf(y);
    hide SendingIn, ReceivingIn, FlushedIn, CloserIn, ClientCalm, Fits, OversizedAhead, FlowIn, OpensOnce, Clean;
  }

  lemma {:induction false} RunKeepsBlocked(run: seq<System>, moves: seq<Move>, n: nat)
    requires IsRun(run, moves) && n < |run| && Inv(run[0]) && BlockedOrLost(run[0]) && !run[n].fault
    ensures BlockedOrLost(run[n])
    decreases n
  {
    hide BlockedOrLost, Next, Inv;
    if n > 0 {
      assert Next(run[n - 1], run[n - 1 + 1], moves[n - 1].side, moves[n - 1].step);
      RunStays(run, moves, n - 1);
      NextStays(run[n - 1], run[n], moves[n - 1].side, moves[n - 1].step);
      RunKeepsBlocked(run, moves, n - 1);
      NextKeepsBlocked(run[n - 1], run[n], moves[n - 1].side, moves[n - 1].step);
    }
  }

  /** At the return there is no barrier yet, and the close marker is behind every message. */
  lemma UnfitReturnIsBlocked(e: Endpoint)
    requires SendingIn(e) && ServerCalm(e) && e.ctl.handler.Returned? && !MessagesFit(e)
    ensures Blocked(e)
  {
    hide EndsIn, CloserIn, BarrierBehind, DataOf, QueuedData, Clean, OversizedFirst;
    if i :| 0 <= i < |e.s.outbound| && e.s.outbound[i].DataItem? && !Writable(e, DataFrame(e.s.outbound[i].message)) {
      forall j | 0 <= j < i ensures e.s.outbound[j].DataItem? { assert e.s.outbound[j] != CloseItem; }
      OversizedIsFirst(e.tx.limits, e.s.outbound, i);
    }
  }

  /**
   A handler that returns while a message it sent is larger than the frame writer accepts: whatever
   it returned is never reported, on any undisturbed run, however the run goes.
   */
  lemma OversizedReturnIsNeverReported(y: System, z: System)
    requires Reachable(y) && Calm(y) && y.server.ctl.handler.Returned? && !MessagesFit(y.server)
    requires Reaches(y, z) && !z.fault
    ensures NoEnd(z.server.tx.written)
  {
    ReachableKeepsFlowInv(y);
    assert Inv(y) && SendingIn(y.server) && ServerCalm(y.server) by {
      hide SendingIn, ReceivingIn, ServerCalm, ClientCalm, Fits;
    }
    hide Reachable, FlowInv, Inv, SendingIn, ServerCalm, MessagesFit, Next, NoEnd;
    UnfitReturnIsBlocked(y.server);
    var run, moves :| IsRun(run, moves) && run[0] == y && run[|run| - 1] == z;
    RunKeepsBlocked(run, moves, |run| - 1);
    if !Lost(z) { BlockedUpFacts(z); }
  }

  // ------------------------------------------------------------ exactly when

  /** The pump's write is refused, and the session ends. */
  lemma RefusedPumpIsLost(x: System, y: System) returns (z: System)
    requires Moves(x, y) && Active(y.server.ctl.handler)
    requires y.server.tx.pump.Writing? && y.server.tx.pump.item.DataItem?
    requires !Writable(y.server, DataFrame(y.server.tx.pump.item.message))
    ensures Follows(x, z) && Inv(z) && Lost(z)
  {
    hide Moves, NoEnd, Follows, Inv;
    HoldingEnds(x, y);
    MovesIsUndisturbed(x, y);
    var e' := RefusedPump(y.server, y.server.tx.pump.item.message);
    z := y.(server := e');
    assert !Disturbs(PumpWrite(false), y.server, y.client) by { hide PumpStep; }
    hide PumpStep, Disturbs;
    PumpLoses(x, y, z, PumpWrite(false));
  }

  lemma RefusedPump(e: Endpoint, m: Message) returns (e': Endpoint)
    requires e.tx.pump == Writing(DataItem(m))
    ensures PumpStep(PumpWrite(false), e, e') && e'.ctl.down && e'.tx.written == e.tx.written
    ensures e'.tx.accepted == e.tx.accepted && e'.s.sendClosed == e.s.sendClosed && e'.ctl.returned == e.ctl.returned
  {
    e' := SetPump(Write(e, DataFrame(m), false), Stopped([m]));
  }

  lemma HoldingEnds(x: System, y: System)
    requires Moves(x, y) && Active(y.server.ctl.handler)
    ensures NoEnd(y.server.tx.written)
  {
    hide Follows, SendingIn, ReceivingIn, FlushedIn, CloserIn, ClientCalm, Fits, FlowIn;
  }

  /** The pump writes or takes what is in front of the message that is too large. */
  lemma {:induction false} UnfitIsLost(x: System, y: System) returns (z: System)
    requires Moves(x, y) && Active(y.server.ctl.handler) && !MessagesFit(y.server)
    ensures Follows(x, z) && Inv(z) && Lost(z)
    decreases |y.server.s.outbound|, if y.server.tx.pump.Writing? then 1 else 0
  {
    HoldingFacts(x, y);
    UnfitPumpIsAlive(y.server);
    hide Moves, FlowIn, SendingIn, Follows, Inv, NoEnd;
    var e := y.server;
    if e.tx.pump.Writing? && !Writable(e, DataFrame(e.tx.pump.item.message)) {
      z := RefusedPumpIsLost(x, y);
    } else {
      var y1 := PumpMovesOn(x, y);
      z := UnfitIsLost(x, y1);
    }
  }

  lemma UnfitPumpIsAlive(e: Endpoint)
    requires SendingIn(e) && e.tx.pump != NotStarted && !MessagesFit(e)
    requires e.tx.pump.Stopped? ==> CloseSendFrame in e.tx.written
    ensures e.tx.pump == Waiting || (e.tx.pump.Writing? && e.tx.pump.item.DataItem?)
    ensures e.tx.pump == Waiting ==> e.s.outbound != [] && e.s.outbound[0] != CloseItem
  {
    hide DataOf, QueuedData, Writable;
  }

  /** One turn of the pump over an item that can be written, or over a barrier. */
  lemma PumpMovesOn(x: System, y: System) returns (z: System)
    requires Moves(x, y) && Active(y.server.ctl.handler) && !MessagesFit(y.server)
    requires y.server.tx.pump == Waiting || (y.server.tx.pump.Writing? && y.server.tx.pump.item.DataItem?)
    requires y.server.tx.pump == Waiting ==> y.server.s.outbound != [] && y.server.s.outbound[0] != CloseItem
    requires y.server.tx.pump.Writing? ==> Writable(y.server, DataFrame(y.server.tx.pump.item.message))
    ensures Moves(x, z) && Active(z.server.ctl.handler) && !MessagesFit(z.server)
    ensures if y.server.tx.pump.Writing? then z.server.tx.pump == Waiting && z.server.s == y.server.s
            else |z.server.s.outbound| < |y.server.s.outbound|
  {
    hide Moves;
    if y.server.tx.pump.Writing? { z := UnfitPumpWrites(x, y); } else { z := UnfitPumpTakes(x, y); }
  }

  lemma UnfitPumpWrites(x: System, y: System) returns (z: System)
    requires Moves(x, y) && Active(y.server.ctl.handler) && !MessagesFit(y.server)
    requires y.server.tx.pump.Writing? && y.server.tx.pump.item.DataItem?
    requires Writable(y.server, DataFrame(y.server.tx.pump.item.message))
    ensures Moves(x, z) && z.server.ctl == y.server.ctl && !MessagesFit(z.server)
    ensures z.server.tx.pump == Waiting && z.server.s == y.server.s
  {
    hide Moves, FlowIn, SendingIn;
    HoldingFacts(x, y);
    var e := y.server;
    z := y.(server := SetPump(Write(e, DataFrame(e.tx.pump.item.message), true), Waiting));
    assert PumpStep(PumpWrite(true), e, z.server);
    assert !MessagesFit(z.server);
    hide PumpStep, MessagesFit;
    PumpMoves(x, y, z, PumpWrite(true));
  }

  lemma UnfitPumpTakes(x: System, y: System) returns (z: System)
    requires Moves(x, y) && Active(y.server.ctl.handler) && !MessagesFit(y.server)
    requires y.server.tx.pump == Waiting && y.server.s.outbound != [] && y.server.s.outbound[0] != CloseItem
    ensures Moves(x, z) && z.server.ctl == y.server.ctl && !MessagesFit(z.server)
    ensures |z.server.s.outbound| < |y.server.s.outbound|
  {
    hide Moves, FlowIn, SendingIn, MessagesFit;
    HoldingFacts(x, y);
    var e := y.server;
    var v := e.(s := Dequeue(e.s));
    z := y.(server := if e.s.outbound[0] == BarrierItem then v.(tx := e.tx.(barrierDone := true))
                      else SetPump(v, Writing(e.s.outbound[0])));
    assert PumpStep(PumpTake, e, z.server);
    TakingKeepsUnfit(e, z.server);
    hide PumpStep;
    PumpMoves(x, y, z, PumpTake);
  }

  lemma TakingKeepsUnfit(e: Endpoint, e': Endpoint)
    requires !MessagesFit(e) && e.tx.pump == Waiting && e.s.outbound != [] && e'.tx.limits == e.tx.limits
    requires e'.s.outbound == e.s.outbound[1..]
    requires e.s.outbound[0].DataItem? ==> e'.tx.pump == Writing(e.s.outbound[0])
    ensures !MessagesFit(e')
  {
    var i :| 0 <= i < |e.s.outbound| && e.s.outbound[i].DataItem? && !Writable(e, DataFrame(e.s.outbound[i].message));
    if i > 0 { assert e'.s.outbound[i - 1] == e.s.outbound[i]; }
  }

  lemma PumpMoves(x: System, y: System, z: System, l: Label)
    requires Moves(x, y) && PumpStep(l, y.server, z.server) && !Disturbs(l, y.server, y.client) && Onward(y, z)
    ensures Moves(x, z)
  {
    hide PumpStep, Moves, Disturbs, Onward;
    MovesByStep(x, y, z, l);
  }

  /** A failure whose half-close began before its barrier was queued can be overtaken by it. */
  lemma OffTrackGetsStuck(y: System) returns (z: System)
    requires Returning(y) && Active(y.server.ctl.handler) && !OnTrack(y.server) && MessagesFit(y.server)
    ensures Follows(y, z) && Stuck(z)
  {
    LeadsItself(y);
    hide Returning, Leads, Moves, FlowIn, SendingIn, MessagesFit;
    LeadingFacts(y, y);
    HoldingFacts(y, y);
    z := y;
    if y.server.tx.closer == Marked && !y.server.ctl.handler.FlushWait? {
      z := MarkedIsQueued(y, y);
      LeadingFacts(y, z);
      HoldingFacts(y, z);
    } else {
      OffTrackIsOvertaken(y.server);
    }
    hide OnTrack;
    LeadsIsStuck(y, z);
  }

  /** Off track, the close marker was queued before the barrier. */
  lemma OffTrackIsOvertaken(e: Endpoint)
    requires FlowIn(e) && HasErr(e.ctl.handler) && !OnTrack(e)
    requires e.tx.closer.Closed? ==> CloseSendFrame in e.tx.written
    requires e.tx.closeReport.Some? ==> CloseSendFrame in e.tx.written
    requires var h := e.ctl.handler; !h.FlushWait? && !h.Discarding? ==>
             BarrierItem !in e.s.outbound && !e.tx.barrierDone
    requires e.tx.closer != Marked || e.ctl.handler.FlushWait?
    ensures Overtaken(e)
  {
    FirstMarkIsThere(e.s.outbound);
    hide FirstMark, Clean;
  }

  lemma LeadsIsStuck(x: System, y: System)
    requires Leads(x, y) && Overtaken(y.server)
    ensures Follows(x, y) && Stuck(y)
  {
    hide FlowInv, Overtaken, Follows, MessagesFit;
  }

  lemma StuckCannotReport(z: System)
    requires Stuck(z)
    ensures !MayReport(z)
  {
    assert Inv(z) by { hide Inv, CalmInv; }
    hide Stuck, NoEnd, Inv;
    forall w | Follows(z, w) ensures NoEnd(w.server.tx.written) {
      DoomedIsNeverReported(z, w);
    }
  }

  lemma LostCannotReport(z: System)
    requires Inv(z) && Lost(z)
    ensures !MayReport(z)
  {
    hide Stuck, NoEnd, Inv;
    forall w | Follows(z, w) ensures NoEnd(w.server.tx.written) {
      DoomedIsNeverReported(z, w);
    }
  }

  /** The session goes first: a message of the opener is still on its way. */
  lemma NotQuietGetsLost(y: System) returns (z: System)
    requires Returning(y) && Active(y.server.ctl.handler) && OnTrack(y.server) && MessagesFit(y.server)
    requires !Quiet(y) && y.client.s.depth > 0
    ensures Follows(y, z) && Inv(z) && Lost(z)
  {
    var d := ReachesDiscarding(y);
    assert Handing(d) && !Quiet(d) by { hide Follows, Inv, CalmInv, OnTrack, FlowIn, MessagesFit; }
    assert Follows(y, d) && Inv(d) && d.client == y.client by { hide Inv, CalmInv, OnTrack, FlowIn, MessagesFit; }
    hide Returning, Leads, Moves, Handing, Quiet, OnTrack, Inv, MessagesFit;
    NotQuietIsLost(d);
    z :| Reaches(d, z) && SameReturn(d, z) && Lost(z);
    hide Reaches;
    ReachesIsTransitive(y, d, z);
    ReachesKeepsInv(d, z);
  }

  /** The terminal frame itself is refused. */
  lemma UnfitTerminalGetsLost(y: System) returns (z: System)
    requires Returning(y) && OnTrack(y.server) && MessagesFit(y.server) && !TerminalFits(y.server)
    requires Active(y.server.ctl.handler)
    ensures Follows(y, z) && Inv(z) && Lost(z)
  {
    var w := ReachesReport(y);
    assert NoEnd(w.server.tx.written) by {
      assert Returning(w) by { hide Returning, Follows, MessagesFit; }
      ReturningFacts(w);
      hide Returning, Leads, Moves, FlushedIn, CloserIn, ServerPhase, SendingIn, ReceivingIn, FlowIn, OpensOnce;
    }
    hide Returning, Leads, Moves, MessagesFit, NoEnd, Follows, Inv;
    z := ReportIsRefused(y, w);
  }

  lemma ReachesKeepsInv(y: System, z: System)
    requires Inv(y) && Reaches(y, z)
    ensures Inv(z)
  {
    hide Inv, Next;
    var run, moves :| IsRun(run, moves) && run[0] == y && run[|run| - 1] == z;
    RunStays(run, moves, |run| - 1);
  }

  /** Nothing of the handler's own, of its limits and of the opener is in the way. */
  ghost predicate InTheClear(y: System) {
    Quiet(y) && OnTrack(y.server) && MessagesFit(y.server) && TerminalFits(y.server)
  }

  /** Otherwise some run gets stuck, or loses the session, before the terminal frame is written. */
  lemma NotClearIsLostOrStuck(y: System) returns (z: System)
    requires Returning(y) && Active(y.server.ctl.handler) && y.client.s.depth > 0 && !InTheClear(y)
    ensures Follows(y, z) && Inv(z) && (Stuck(z) || Lost(z))
    ensures OnTrack(y.server) ==> Lost(z)
  {
    MovesItself(y);
    hide Returning, Moves, Follows, MessagesFit, TerminalFits, Quiet, OnTrack, Inv, NoEnd;
    if !MessagesFit(y.server) {
      z := UnfitIsLost(y, y);
    } else if !OnTrack(y.server) {
      z := OffTrackGetsStuck(y);
      assert Inv(z) by { hide Overtaken, CalmInv; }
    } else if !Quiet(y) {
      z := NotQuietGetsLost(y);
    } else {
      z := UnfitTerminalGetsLost(y);
    }
  }

  lemma ReachableReturns(y: System)
    requires Reachable(y) && Calm(y) && y.server.ctl.returned.Some? && y.server.s.depth > 0
    ensures Returning(y)
  {
    ReachableKeepsFlowInv(y);
    hide Reachable, FlowInv;
  }

  /**
   After a handler has returned, and until it releases the stream, on a session that carries this
   stream alone: its report is certain if and only if
   - the opener half-closed, and everything it sent was handed over,
   - the handler's own half-close cannot come before its barrier,
   - the frame writer accepts every message that is still to be written, and
   - it accepts the terminal frame.
   */
  lemma ReportIsCertainIff(y: System)
    requires Reachable(y) && Calm(y) && y.server.ctl.returned.Some? && Active(y.server.ctl.handler)
    requires y.client.s.depth > 0 && y.server.s.depth > 0
    ensures ReportIsCertain(y) <==>
            Quiet(y) && OnTrack(y.server) && MessagesFit(y.server) && TerminalFits(y.server)
  {
    ReachableReturns(y);
    hide Reachable, Calm, Active, Returning, OnTrack, Quiet, MessagesFit, TerminalFits, Follows, MayReport, Inv, Lost,
         Stuck;
    if InTheClear(y) {
      hide ReportIsCertain;
      CertainIsReported(y);
    } else {
      var z := NotClearIsLostOrStuck(y);
      if Stuck(z) { StuckCannotReport(z); } else { LostCannotReport(z); }
    }
  }

  /**
   The same at the moment of the return. Of its four conditions a handler knows the last three; the
   first it knows when it has received io.EOF, by SeenEofIsQuiet.
   */
  lemma ReturnIsReportedIff(y: System)
    requires Reachable(y) && Calm(y) && y.server.ctl.handler.Returned?
    requires y.client.s.depth > 0 && y.server.s.depth > 0
    ensures ReportIsCertain(y) <==>
            && Quiet(y) && (Clean(y.server.ctl.handler.err) || !y.server.s.sendClosed)
            && MessagesFit(y.server) && Writable(y.server, EndFrame(EndCode(y.server.ctl.handler.err)))
  {
    ReachableKeepsCalmInv(y);
    assert y.server.ctl.returned == Some(y.server.ctl.handler.err) by {
      hide Inv, ClientCalm, Fits, EndsIn, FlushedIn, CloserIn, NoEnd;
    }
    hide Reachable, Inv, CalmInv, Calm, ReportIsCertain, Quiet, MessagesFit, Writable;
    ReportIsCertainIff(y);
  }

  /**
   When the handler is about to release its stream, its session survives every undisturbed run on
   which nothing more is sent if and only if the same holds; its half-close no longer matters.
   */
  lemma SessionSurvivesIff(y: System)
    requires Reachable(y) && Calm(y) && y.server.ctl.handler.Discarding?
    requires y.client.s.depth > 0 && y.server.s.depth > 0
    ensures (forall z :: Follows(y, z) ==> !z.server.ctl.down) <==>
            Quiet(y) && MessagesFit(y.server) && TerminalFits(y.server)
  {
    ReachableKeepsCalmInv(y);
    assert y.server.ctl.returned.Some? by { hide Inv, ClientCalm, Fits, EndsIn, FlushedIn, CloserIn, NoEnd; }
    hide Inv, CalmInv;
    ReachableReturns(y);
    assert OnTrack(y.server);
    hide Reachable, Returning, OnTrack, Quiet, MessagesFit, TerminalFits, Follows, NoEnd;
    if InTheClear(y) {
      forall z | Follows(y, z) ensures !z.server.ctl.down {
        FollowingKeepsCertain(y, z);
        ReturningIsUp(z);
      }
    } else {
      var z := NotClearIsLostOrStuck(y);
    }
  }

  lemma ReturningIsUp(y: System)
    requires Returning(y)
    ensures !y.server.ctl.down
  {
    hide FlowInv;
  }

  /** Limits that never refuse what Send accepts, nor any terminal frame. */
  lemma LimitsThatFit(y: System)
    requires Reachable(y) && y.server.s.maxBytes <= WireSize.DataFit(y.server.tx.limits.maxBody)
    ensures MessagesFit(y.server)
    ensures y.server.tx.limits.maxBody >= 25 ==> TerminalFits(y.server)
  {
    ReachableKeepsCalmInv(y);
    hide Reachable, Inv, ServerCalm, ClientCalm, NoEnd, EndCode;
    if y.server.ctl.returned.Some? {
      WireSize.EndRefusedIff(1, EndCode(y.server.ctl.returned.value), y.server.tx.limits.maxBody);
    }
  }

  /** Why Follows bars a half-close after a failing return: one step of it and nothing is certain any more. */
  lemma LateHalfCloseCanBlock(y: System) returns (z: System)
    requires Reachable(y) && Calm(y) && y.server.ctl.handler.Returned? && !Clean(y.server.ctl.handler.err)
    requires !y.server.s.sendClosed && y.client.s.depth > 0 && y.server.s.depth > 0
    ensures Next(y, z, ServerSide, CloseStart) && Calm(z) && !ReportIsCertain(z)
  {
    ReachableKeepsFlowInv(y);
    var e := y.server;
    assert e.tx.closer == NotCalled && Usable(e.ctl) by { hide SendingIn, ReceivingIn, ServerCalm, ClientCalm, Fits; }
    z := y.(server := e.(tx := e.tx.(closer := Marked), s := MarkSendClosed(e.s)));
    hide Reachable, FlowInv, ReportIsCertain, Quiet, Clean, MessagesFit, Writable;
    assert SenderStep(CloseStart, e, z.server);
    ReachableByStep(y, z, ServerSide, CloseStart);
    ReturnIsReportedIff(z);
  }

}
