/**
 What a served stream's handler can do about its report once it has returned: the steps of the
 serving side alone that lead to the terminal frame, and what keeps them possible.
 */
module StreamProgress {
  import opened Status
  import opened Stream
  import opened StreamPair
  import opened StreamConservation
  import opened StreamTermination
  import opened StreamRace
  import opened StreamFlow
  import WireSize

  // ------------------------------------------------------------ what is claimed

  ghost predicate Failing(y: System) {
    y.server.ctl.returned.Some? && !Clean(y.server.ctl.returned.value)
  }

  /**
   `z` follows `y` on an undisturbed run, on which a handler that has returned no longer uses its
   stream: nothing more is sent, and after a failure nobody half-closes. (After a clean return the
   engine half-closes itself.)
   */
  ghost predicate Follows(y: System, z: System) {
    && Reaches(y, z) && !z.fault && z.server.ctl.returned == y.server.ctl.returned
    && z.server.tx.accepted == y.server.tx.accepted
    && (Failing(y) ==> z.server.s.sendClosed == y.server.s.sendClosed)
  }

  /** The terminal frame was written, or can still be. */
  ghost predicate MayReport(z: System) {
    exists w :: Follows(z, w) && !NoEnd(w.server.tx.written)
  }

  /** However the run goes on, it never gets to a point from which the terminal can no longer be written. */
  ghost predicate ReportIsCertain(y: System) {
    forall z :: Follows(y, z) ==> MayReport(z)
  }

  /** Nothing of the handler's own stands between it and its report. */
  ghost predicate OnTrack(e: Endpoint) {
    var h := e.ctl.handler;
    && HasErr(h)
    && (!Clean(h.err) ==>
          && (h.Returned? || h.Flushing? ==> !e.s.sendClosed)
          && (h.FlushWait? ==> e.tx.barrierDone || !CloseAhead(e.tx.pump, e.tx.written, e.s.outbound)))
  }

  /** The frame writer accepts every message that is not written yet. */
  ghost predicate MessagesFit(e: Endpoint) {
    && (e.tx.pump.Writing? && e.tx.pump.item.DataItem? ==> Writable(e, DataFrame(e.tx.pump.item.message)))
    && forall i :: 0 <= i < |e.s.outbound| && e.s.outbound[i].DataItem? ==>
         Writable(e, DataFrame(e.s.outbound[i].message))
  }

  /** The frame writer accepts the terminal frame of what the handler returned. */
  ghost predicate TerminalFits(e: Endpoint) {
    e.ctl.returned.Some? ==> Writable(e, EndFrame(EndCode(e.ctl.returned.value)))
  }

  /** A failure whose barrier is behind the close marker. */
  ghost predicate Overtaken(e: Endpoint) {
    var h := e.ctl.handler;
    && (h.Returned? || h.Flushing? || h.FlushWait?) && !Clean(h.err)
    && !e.tx.barrierDone && CloseAhead(e.tx.pump, e.tx.written, e.s.outbound)
  }

  // ------------------------------------------------------------ runs

  lemma {:induction false} ReachesIsTransitive(x: System, y: System, z: System)
    requires Reaches(x, y) && Reaches(y, z)
    ensures Reaches(x, z)
  {
    hide Next;
    var a: seq<System>, ma: seq<Move> :| IsRun(a, ma) && a[0] == x && a[|a| - 1] == y;
    var b: seq<System>, mb: seq<Move> :| IsRun(b, mb) && b[0] == y && b[|b| - 1] == z;
    var run, moves := a + b[1..], ma + mb;
    forall i | 0 <= i < |moves| ensures Next(run[i], run[i + 1], moves[i].side, moves[i].step) {
      if i >= |ma| { assert run[i] == b[i - |ma|] && run[i + 1] == b[i - |ma| + 1]; }
    }
    assert IsRun(run, moves) && run[0] == x && run[|run| - 1] == z;
  }

  lemma FollowsIsTransitive(x: System, y: System, z: System)
    requires Follows(x, y) && Follows(y, z)
    ensures Follows(x, z)
  {
    hide Reaches;
    ReachesIsTransitive(x, y, z);
  }

  lemma FollowsItself(y: System)
    requires !y.fault
    ensures Follows(y, y)
  {
    ReachesItself(y);
    hide Reaches;
  }

  // ------------------------------------------------------------ steps of the serving side alone

  /** An undisturbed pair of endpoints whose handler has returned. */
  ghost predicate Returning(y: System) {
    FlowInv(y) && Calm(y) && y.server.ctl.returned.Some? && y.server.s.depth > 0
  }

  /** The serving side moved on by itself: the opener and the reader stand still. */
  ghost predicate Moves(y: System, z: System) {
    && Follows(y, z) && Returning(z) && z.client == y.client && z.server.rx == y.server.rx
    && z.server.tx.limits == y.server.tx.limits
  }

  /** And every message it still has to write can be written. */
  ghost predicate Leads(y: System, z: System) {
    Moves(y, z) && MessagesFit(z.server)
  }

  /** What a single step of the serving side must respect to lead on. */
  predicate Onward(y: System, z: System) {
    && z == y.(server := z.server) && !z.server.ctl.down && z.server.rx == y.server.rx
    && z.server.ctl.returned == y.server.ctl.returned && z.server.s.depth == y.server.s.depth
    && z.server.tx.accepted == y.server.tx.accepted && z.server.tx.limits == y.server.tx.limits
    && (z.server.s.sendClosed == y.server.s.sendClosed
        || (y.server.ctl.returned.Some? && Clean(y.server.ctl.returned.value)))
  }

  lemma MovesByStep(x: System, y: System, z: System, l: Label)
    requires Moves(x, y) && Step(l, y.server, y.client, z.server) && !Disturbs(l, y.server, y.client) && Onward(y, z)
    ensures Moves(x, z)
  {
    hide Step, Disturbs, Reaches, FlowInv;
    assert Next(y, z, ServerSide, l);
    NextKeepsFlowInv(y, z, ServerSide, l);
    ReachesByStep(x, y, z, ServerSide, l);
  }

  lemma LeadsByStep(x: System, y: System, z: System, l: Label)
    requires Leads(x, y) && Step(l, y.server, y.client, z.server) && !Disturbs(l, y.server, y.client) && Onward(y, z)
    ensures Leads(x, z)
  {
    MovesByStep(x, y, z, l);
    ReturningFacts(y);
    hide Moves, Returning, Step, Disturbs, MessagesFit, ServerCalm, Opening, OpensOnce, SendingIn;
    StepKeepsFit(l, y.server, y.client, z.server);
  }

  lemma ReturningFacts(y: System)
    requires Returning(y)
    ensures ServerCalm(y.server) && FlowIn(y.server) && EndpointInv(y.server) && !y.server.ctl.client
    ensures OpensOnce(y.server, y.client) && y.server.rx.processed != [] && y.server.ctl.returned.Some?
    ensures y.server.ctl.handler != Absent && !y.server.ctl.down
  {
    OpensOnceOf(y);
    assert y.server.ctl.handler != Absent by { hide EndsIn, FlushedIn, CloserIn, Fits, ClientCalm; }
    hide SendingIn, ReceivingIn, ServerCalm, ClientCalm, Fits, Coherent, OpensOnce;
  }

  lemma PumpLeads(x: System, y: System, z: System, l: Label)
    requires Leads(x, y) && PumpStep(l, y.server, z.server) && !Disturbs(l, y.server, y.client) && Onward(y, z)
    ensures Leads(x, z)
  {
    hide PumpStep, Leads, Disturbs, Onward;
    LeadsByStep(x, y, z, l);
  }

  lemma HandlerLeads(x: System, y: System, z: System, l: Label)
    requires Leads(x, y) && HandlerStep(l, y.server, z.server) && !Disturbs(l, y.server, y.client) && Onward(y, z)
    ensures Leads(x, z)
  {
    hide HandlerStep, Leads, Disturbs, Onward;
    LeadsByStep(x, y, z, l);
  }

  lemma SenderLeads(x: System, y: System, z: System, l: Label)
    requires Leads(x, y) && SenderStep(l, y.server, z.server) && !Disturbs(l, y.server, y.client) && Onward(y, z)
    ensures Leads(x, z)
  {
    hide SenderStep, Leads, Disturbs, Onward;
    LeadsByStep(x, y, z, l);
  }

  lemma ConsumerLeads(x: System, y: System, z: System, l: Label)
    requires Leads(x, y) && ConsumerStep(l, y.server, z.server) && !Disturbs(l, y.server, y.client) && Onward(y, z)
    ensures Leads(x, z)
  {
    hide ConsumerStep, Leads, Disturbs, Onward;
    LeadsByStep(x, y, z, l);
  }

  /** What the invariants say of a handler that still holds its stream. */
  lemma HoldingFacts(x: System, y: System)
    requires Moves(x, y) && Active(y.server.ctl.handler)
    ensures var e := y.server;
            && HasErr(e.ctl.handler) && e.ctl.returned == Some(e.ctl.handler.err)
            && e.s.stage == Live && !e.s.cancelled && e.s.depth > 0 && e.ctl.registered && !e.ctl.down && !e.ctl.client
            && FlowIn(e) && SendingIn(e) && |e.s.outbound| <= e.s.depth
            && e.tx.pump != NotStarted && (e.tx.pump.Stopped? ==> CloseSendFrame in e.tx.written)
            && (!e.ctl.handler.FlushWait? && !e.ctl.handler.Discarding? ==>
                BarrierItem !in e.s.outbound && !e.tx.barrierDone)
            && (e.tx.closeReport.Some? ==> e.tx.closeReport.value.None? && CloseSendFrame in e.tx.written)
            && (e.tx.closer.Closed? ==> e.tx.closer.err.None? && CloseSendFrame in e.tx.written)
            && (e.ctl.handler.ClosingSend? ==> Clean(e.ctl.handler.err))
            && (e.ctl.handler.Flushing? || e.ctl.handler.FlushWait? ==> !Clean(e.ctl.handler.err))
  {
    hide ReceivingIn, Opening, EndsIn, ClientCalm, Fits, BarrierBehind, Sending;
  }

  lemma LeadingFacts(x: System, y: System)
    requires Leads(x, y)
    ensures Moves(x, y) && MessagesFit(y.server)
  {
    hide Moves, MessagesFit;
  }

  /** Only the pump moved, and only messages left the queue. */
  predicate Pumped(e: Endpoint, e': Endpoint) {
    && e'.ctl == e.ctl && e'.rx == e.rx
    && e'.s == e.s.(outbound := e'.s.outbound) && |e'.s.outbound| <= |e.s.outbound|
    && e'.tx.closer == e.tx.closer && e'.tx.closeReport == e.tx.closeReport
    && e'.tx.barrierDone == e.tx.barrierDone && e'.tx.accepted == e.tx.accepted
    && (CloseSendFrame in e'.tx.written <==> CloseSendFrame in e.tx.written)
    && (CloseItem in e'.s.outbound ==> CloseItem in e.s.outbound)
    && (BarrierItem in e'.s.outbound ==> BarrierItem in e.s.outbound)
  }

  predicate PumpAtData(e: Endpoint) {
    || e.tx.pump == Waiting
    || (e.tx.pump.Writing? && e.tx.pump.item.DataItem? && Writable(e, DataFrame(e.tx.pump.item.message)))
  }

  /** The pump finishes the write it is in. */
  lemma PumpIdles(x: System, y: System) returns (z: System)
    requires Leads(x, y) && Active(y.server.ctl.handler) && PumpAtData(y.server)
    ensures Leads(x, z) && Pumped(y.server, z.server) && z.server.tx.pump == Waiting && z.server.s == y.server.s
  {
    hide Leads, Moves, FlowIn, SendingIn;
    LeadingFacts(x, y);
    HoldingFacts(x, y);
    z := y;
    if y.server.tx.pump.Writing? {
      var e := y.server;
      z := y.(server := SetPump(Write(e, DataFrame(e.tx.pump.item.message), true), Waiting));
      assert PumpStep(PumpWrite(true), e, z.server);
      hide PumpStep;
      PumpLeads(x, y, z, PumpWrite(true));
    }
  }

  /** The pump takes the message at the head of the queue. */
  lemma PumpTakesData(x: System, y: System) returns (z: System)
    requires Leads(x, y) && Active(y.server.ctl.handler) && y.server.tx.pump == Waiting
    requires y.server.s.outbound != [] && y.server.s.outbound[0].DataItem?
    ensures Leads(x, z) && Pumped(y.server, z.server) && PumpAtData(z.server)
    ensures z.server.s.outbound == y.server.s.outbound[1..]
  {
    hide Leads, Moves, FlowIn, SendingIn;
    LeadingFacts(x, y);
    HoldingFacts(x, y);
    var e := y.server;
    z := y.(server := SetPump(e.(s := Dequeue(e.s)), Writing(e.s.outbound[0])));
    assert PumpStep(PumpTake, e, z.server);
    hide PumpStep;
    PumpLeads(x, y, z, PumpTake);
  }

  /** Room for a mark in a queue of messages. */
  lemma PumpMakesRoom(x: System, y: System) returns (z: System)
    requires Leads(x, y) && Active(y.server.ctl.handler) && PumpAtData(y.server)
    requires CloseItem !in y.server.s.outbound && BarrierItem !in y.server.s.outbound
    ensures Leads(x, z) && Pumped(y.server, z.server) && PumpAtData(z.server) && HasRoom(z.server.s)
  {
    hide Leads, Moves, FlowIn, SendingIn;
    LeadingFacts(x, y);
    HoldingFacts(x, y);
    z := y;
    if !HasRoom(y.server.s) {
      var z1 := PumpIdles(x, y);
      z := PumpTakesData(x, z1);
    }
  }

  /** The pump writes all the messages in front of the first mark. */
  lemma {:induction false} PumpReachesMark(x: System, y: System, mark: Item) returns (z: System)
    requires Leads(x, y) && Active(y.server.ctl.handler) && PumpAtData(y.server)
    requires FirstMark(y.server.s.outbound) == Some(mark)
    ensures Leads(x, z) && Pumped(y.server, z.server) && z.server.tx.pump == Waiting
    ensures z.server.s.outbound != [] && z.server.s.outbound[0] == mark
    decreases |y.server.s.outbound|
  {
    hide Leads, Moves;
    z := PumpIdles(x, y);
    if y.server.s.outbound[0].DataItem? {
      var z1 := PumpTakesData(x, z);
      z := PumpReachesMark(x, z1, mark);
    }
  }

  // ------------------------------------------------------------ a failure on its way to its report

  /** The pump takes the barrier. */
  lemma BarrierIsTaken(x: System, y: System) returns (z: System)
    requires Leads(x, y) && y.server.ctl.handler.FlushWait? && y.server.tx.pump == Waiting
    requires y.server.s.outbound != [] && y.server.s.outbound[0] == BarrierItem
    ensures Leads(x, z) && z.server.ctl == y.server.ctl && z.server.tx.barrierDone
  {
    hide Leads, Moves, FlowIn, SendingIn;
    LeadingFacts(x, y);
    HoldingFacts(x, y);
    var e := y.server;
    z := y.(server := e.(s := Dequeue(e.s), tx := e.tx.(barrierDone := true)));
    assert PumpStep(PumpTake, e, z.server);
    hide PumpStep;
    PumpLeads(x, y, z, PumpTake);
  }

  lemma FlushIsDone(x: System, y: System) returns (z: System)
    requires Leads(x, y) && y.server.ctl.handler.FlushWait? && y.server.tx.barrierDone
    ensures Leads(x, z) && z.server.ctl.handler.Discarding?
  {
    hide Leads, Moves, FlowIn, SendingIn;
    LeadingFacts(x, y);
    HoldingFacts(x, y);
    z := y.(server := SetHandler(y.server, Discarding(y.server.ctl.handler.err)));
    assert HandlerStep(FlushDone, y.server, z.server);
    hide HandlerStep;
    HandlerLeads(x, y, z, FlushDone);
  }

  lemma FlushReachesDiscarding(x: System, y: System) returns (z: System)
    requires Leads(x, y) && y.server.ctl.handler.FlushWait? && OnTrack(y.server)
    ensures Leads(x, z) && z.server.ctl.handler.Discarding?
  {
    hide Leads, Moves, Sending;
    LeadingFacts(x, y);
    HoldingFacts(x, y);
    FirstMarkIsThere(y.server.s.outbound);
    var y1 := y;
    if !y.server.tx.barrierDone {
      assert PumpAtData(y.server) && FirstMark(y.server.s.outbound) == Some(BarrierItem);
      hide FlowIn, OnTrack, SendingIn;
      y1 := PumpReachesMark(x, y, BarrierItem);
      y1 := BarrierIsTaken(x, y1);
    }
    hide FlowIn, OnTrack;
    z := FlushIsDone(x, y1);
  }

  /** flushOutbound queues its barrier behind nothing but messages. */
  lemma BarrierIsQueued(x: System, y: System) returns (z: System)
    requires Leads(x, y) && y.server.ctl.handler.Flushing? && HasRoom(y.server.s)
    requires PumpAtData(y.server) && CloseSendFrame !in y.server.tx.written
    requires CloseItem !in y.server.s.outbound && BarrierItem !in y.server.s.outbound
    ensures Leads(x, z) && z.server.ctl.handler.FlushWait? && OnTrack(z.server)
  {
    hide Leads, Moves, FlowIn, SendingIn;
    LeadingFacts(x, y);
    HoldingFacts(x, y);
    var e := y.server;
    FirstMarkIsThere(e.s.outbound);
    FirstMarkPush(e.s.outbound, BarrierItem);
    z := y.(server := SetHandler(e.(s := EnqueueItem(e.s, BarrierItem)), FlushWait(e.ctl.handler.err)));
    assert HandlerStep(FlushQueue, e, z.server);
    hide HandlerStep;
    HandlerLeads(x, y, z, FlushQueue);
  }

  lemma FailureReachesDiscarding(x: System, y: System) returns (z: System)
    requires Leads(x, y) && y.server.ctl.handler.Flushing? && !y.server.s.sendClosed
    ensures Leads(x, z) && z.server.ctl.handler.Discarding?
  {
    hide Leads, Moves;
    LeadingFacts(x, y);
    HoldingFacts(x, y);
    assert PumpAtData(y.server) && CloseItem !in y.server.s.outbound && CloseSendFrame !in y.server.tx.written by {
      hide Sending;
    }
    hide FlowIn, SendingIn, OnTrack;
    var y1 := PumpMakesRoom(x, y);
    y1 := BarrierIsQueued(x, y1);
    z := FlushReachesDiscarding(x, y1);
  }

  // ------------------------------------------------------------ a clean return on its way to its report

  lemma CloseIsStarted(x: System, y: System) returns (z: System)
    requires Leads(x, y) && y.server.ctl.handler.ClosingSend? && y.server.tx.closer == NotCalled
    ensures Leads(x, z) && z.server.ctl == y.server.ctl && z.server.tx.closer == Marked
  {
    hide Leads, Moves, FlowIn, SendingIn;
    LeadingFacts(x, y);
    HoldingFacts(x, y);
    var e := y.server;
    z := y.(server := e.(tx := e.tx.(closer := Marked), s := MarkSendClosed(e.s)));
    assert SenderStep(CloseStart, e, z.server);
    hide SenderStep;
    SenderLeads(x, y, z, CloseStart);
  }

  /** CloseSend finds room for its marker; no barrier is in its way. */
  lemma MarkedIsQueued(x: System, y: System) returns (z: System)
    requires Leads(x, y) && y.server.tx.closer == Marked
    requires var h := y.server.ctl.handler; h.Returned? || h.ClosingSend? || h.Flushing?
    ensures Leads(x, z) && z.server.ctl == y.server.ctl && z.server.tx.closer == Queued
    ensures CloseAhead(z.server.tx.pump, z.server.tx.written, z.server.s.outbound)
  {
    hide Leads, Moves;
    LeadingFacts(x, y);
    HoldingFacts(x, y);
    assert PumpAtData(y.server) && CloseItem !in y.server.s.outbound by { hide Sending; }
    hide FlowIn, SendingIn;
    var y1 := PumpMakesRoom(x, y);
    z := CloseIsQueued(x, y1);
  }

  lemma CloseIsQueued(x: System, y: System) returns (z: System)
    requires Leads(x, y) && Active(y.server.ctl.handler) && y.server.tx.closer == Marked && HasRoom(y.server.s)
    requires CloseItem !in y.server.s.outbound && BarrierItem !in y.server.s.outbound
    ensures Leads(x, z) && z.server.ctl == y.server.ctl && z.server.tx.closer == Queued
    ensures CloseAhead(z.server.tx.pump, z.server.tx.written, z.server.s.outbound)
  {
    hide Leads, Moves, FlowIn, SendingIn;
    LeadingFacts(x, y);
    HoldingFacts(x, y);
    var e := y.server;
    FirstMarkIsThere(e.s.outbound);
    FirstMarkPush(e.s.outbound, CloseItem);
    z := y.(server := e.(tx := e.tx.(closer := Queued), s := EnqueueItem(e.s, CloseItem)));
    assert SenderStep(StreamPair.CloseQueue, e, z.server);
    hide SenderStep;
    SenderLeads(x, y, z, StreamPair.CloseQueue);
  }

  lemma CloseIsTaken(x: System, y: System) returns (z: System)
    requires Leads(x, y) && Active(y.server.ctl.handler) && y.server.tx.pump == Waiting
    requires y.server.s.outbound != [] && y.server.s.outbound[0] == CloseItem
    ensures Leads(x, z) && z.server.ctl == y.server.ctl && z.server.tx == y.server.tx.(pump := Writing(CloseItem))
  {
    hide Leads, Moves, FlowIn, SendingIn;
    LeadingFacts(x, y);
    HoldingFacts(x, y);
    var e := y.server;
    z := y.(server := SetPump(e.(s := Dequeue(e.s)), Writing(CloseItem)));
    assert PumpStep(PumpTake, e, z.server);
    hide PumpStep;
    PumpLeads(x, y, z, PumpTake);
  }

  lemma CloseIsWritten(x: System, y: System) returns (z: System)
    requires Leads(x, y) && Active(y.server.ctl.handler) && y.server.tx.pump == Writing(CloseItem)
    ensures Leads(x, z) && z.server.ctl == y.server.ctl && z.server.tx.closer == y.server.tx.closer
    ensures z.server.tx.closeReport == Some(None)
  {
    hide Leads, Moves, FlowIn, SendingIn;
    LeadingFacts(x, y);
    HoldingFacts(x, y);
    var w := Write(y.server, CloseSendFrame, true);
    z := y.(server := w.(tx := w.tx.(pump := Stopped([]), closeReport := Some(None))));
    assert PumpStep(PumpWrite(true), y.server, z.server);
    hide PumpStep;
    PumpLeads(x, y, z, PumpWrite(true));
  }

  lemma CloseIsReported(x: System, y: System) returns (z: System)
    requires Leads(x, y) && Active(y.server.ctl.handler)
    requires y.server.tx.closer == Queued && y.server.tx.closeReport == Some(None)
    ensures Leads(x, z) && z.server.ctl == y.server.ctl && z.server.tx.closer == Closed(None)
  {
    hide Leads, Moves, FlowIn, SendingIn;
    LeadingFacts(x, y);
    HoldingFacts(x, y);
    var e := y.server;
    z := y.(server := e.(tx := e.tx.(closer := Closed(None))));
    assert SenderStep(CloseAck, e, z.server);
    hide SenderStep;
    SenderLeads(x, y, z, CloseAck);
  }

  /** A queued close marker reaches the wire. */
  lemma QueuedCloseIsWritten(x: System, y: System) returns (z: System)
    requires Leads(x, y) && y.server.ctl.handler.ClosingSend? && y.server.tx.closer == Queued
    ensures Leads(x, z) && z.server.ctl == y.server.ctl
    ensures z.server.tx.closer == Queued && z.server.tx.closeReport == Some(None)
  {
    hide Leads, Moves;
    LeadingFacts(x, y);
    HoldingFacts(x, y);
    z := y;
    if y.server.tx.closeReport.None? {
      if y.server.tx.pump != Writing(CloseItem) {
        FirstMarkIsThere(y.server.s.outbound);
        assert FirstMark(y.server.s.outbound) == Some(CloseItem) && PumpAtData(y.server) by {
          hide Sending; CloseQueuedPumpsOn(y.server);
        }
        hide FlowIn, SendingIn;
        z := PumpReachesMark(x, y, CloseItem);
        z := CloseIsTaken(x, z);
      }
      hide FlowIn, SendingIn;
      z := CloseIsWritten(x, z);
    }
  }

  /** While a close marker is in the queue the close frame is not written yet. */
  lemma CloseQueuedPumpsOn(e: Endpoint)
    requires FlowIn(e) && SendingIn(e) && MessagesFit(e) && e.s.stage == Live && !e.ctl.handler.Absent?
    requires e.tx.closer == Queued && e.tx.closeReport.None? && e.tx.pump != Writing(CloseItem)
    ensures PumpAtData(e)
  {
  }

  lemma CloseCompletes(x: System, y: System) returns (z: System)
    requires Leads(x, y) && y.server.ctl.handler.ClosingSend?
    ensures Leads(x, z) && z.server.ctl == y.server.ctl && z.server.tx.closer == Closed(None)
  {
    hide Leads, Moves, FlowIn, SendingIn;
    LeadingFacts(x, y);
    HoldingFacts(x, y);
    z := y;
    if z.server.tx.closer == NotCalled { z := CloseIsStarted(x, z); }
    if z.server.tx.closer == Marked { z := MarkedIsQueued(x, z); }
    if z.server.tx.closer == Queued {
      z := QueuedCloseIsWritten(x, z);
      z := CloseIsReported(x, z);
    }
  }

  lemma ClosingReachesDiscarding(x: System, y: System) returns (z: System)
    requires Leads(x, y) && y.server.ctl.handler.ClosingSend?
    ensures Leads(x, z) && z.server.ctl.handler.Discarding?
  {
    hide Leads, Moves, FlowIn, SendingIn;
    var y1 := CloseCompletes(x, y);
    LeadingFacts(x, y1);
    HoldingFacts(x, y1);
    var e := y1.server;
    z := y1.(server := SetHandler(e, Discarding(e.ctl.handler.err)));
    assert HandlerStep(HandlerClosed, e, z.server);
    hide HandlerStep;
    HandlerLeads(x, y1, z, HandlerClosed);
  }

  // ------------------------------------------------------------ every handler on track reports

  lemma MovesItself(y: System)
    requires Returning(y)
    ensures Moves(y, y)
  {
    FollowsItself(y);
    hide Follows, FlowInv;
  }

  lemma LeadsItself(y: System)
    requires Returning(y) && MessagesFit(y.server)
    ensures Leads(y, y)
  {
    MovesItself(y);
    hide Moves, MessagesFit;
  }

  lemma ReturnIsChecked(x: System, y: System) returns (z: System)
    requires Leads(x, y) && y.server.ctl.handler.Returned?
    ensures Leads(x, z) && z.server.s == y.server.s && z.server.tx == y.server.tx
    ensures var err := y.server.ctl.handler.err;
            z.server.ctl.handler == if Clean(err) then ClosingSend(err) else Flushing(err)
  {
    hide Leads, Moves, FlowIn, SendingIn;
    LeadingFacts(x, y);
    HoldingFacts(x, y);
    var h := y.server.ctl.handler;
    z := y.(server := SetHandler(y.server, if Clean(h.err) then ClosingSend(h.err) else Flushing(h.err)));
    assert HandlerStep(HandlerCheck, y.server, z.server);
    hide HandlerStep;
    HandlerLeads(x, y, z, HandlerCheck);
  }

  lemma ReachesDiscarding(y: System) returns (z: System)
    requires Returning(y) && Active(y.server.ctl.handler) && OnTrack(y.server) && MessagesFit(y.server)
    ensures Leads(y, z) && z.server.ctl.handler.Discarding?
  {
    hide Returning, Leads, Moves, FlowIn, SendingIn;
    LeadsItself(y);
    LeadingFacts(y, y);
    HoldingFacts(y, y);
    z := y;
    if z.server.ctl.handler.Returned? { z := ReturnIsChecked(y, z); }
    if z.server.ctl.handler.FlushWait? { z := FlushReachesDiscarding(y, z); }
    else if z.server.ctl.handler.Flushing? { z := FailureReachesDiscarding(y, z); }
    else if z.server.ctl.handler.ClosingSend? { z := ClosingReachesDiscarding(y, z); }
  }

  lemma DiscardingReports(x: System, y: System) returns (z: System)
    requires Leads(x, y) && y.server.ctl.handler.Discarding?
    ensures Leads(x, z) && z.server.ctl.handler.Reporting?
  {
    hide Leads, Moves, FlowIn, SendingIn;
    LeadingFacts(x, y);
    HoldingFacts(x, y);
    var e, h := y.server, y.server.ctl.handler;
    z := y.(server := BeginFinish(e.(ctl := e.ctl.(handler := Reporting(h.err), registered := false)),
                                  if Clean(h.err) then None else h.err));
    assert HandlerStep(HandlerDiscard, e, z.server);
    hide HandlerStep;
    HandlerLeads(x, y, z, HandlerDiscard);
  }

  lemma StreamIsFinished(x: System, y: System) returns (z: System)
    requires Leads(x, y) && y.server.ctl.handler.Reporting?
    ensures Leads(x, z) && z.server.ctl == y.server.ctl && z.server.s.stage == Finished && !z.server.ctl.down
    ensures z.server.tx == y.server.tx && z.server.ctl.returned == Some(z.server.ctl.handler.err)
  {
    hide Leads, Moves;
    ReportingFacts(x, y);
    z := y;
    if y.server.s.stage == Closing {
      z := y.(server := y.server.(s := FinishClose(y.server.s)));
      assert ConsumerStep(FinishQueue, y.server, z.server);
      hide ConsumerStep;
      ConsumerLeads(x, y, z, FinishQueue);
    }
  }

  lemma ReportingFacts(x: System, y: System)
    requires Leads(x, y) && y.server.ctl.handler.Reporting?
    ensures !y.server.ctl.down && y.server.s.stage != Live && y.server.ctl.returned == Some(y.server.ctl.handler.err)
  {
    hide SendingIn, ReceivingIn, Follows, EndsIn, FlushedIn, CloserIn, ClientCalm, Fits, MessagesFit;
  }

  lemma ReportIsWritten(x: System, y: System) returns (z: System)
    requires Leads(x, y) && y.server.ctl.handler.Reporting? && y.server.s.stage == Finished && !y.server.ctl.down
    requires Writable(y.server, EndFrame(EndCode(y.server.ctl.handler.err)))
    ensures Leads(x, z) && !NoEnd(z.server.tx.written)
  {
    hide Leads, Moves, EndCode, Writable;
    var e := y.server;
    var f := EndFrame(EndCode(e.ctl.handler.err));
    z := y.(server := SetHandler(Write(e, f, true), Over));
    assert HandlerStep(HandlerReport(true), e, z.server);
    hide HandlerStep;
    HandlerLeads(x, y, z, HandlerReport(true));
    assert z.server.tx.written[|e.tx.written|] == f;
  }

  /** The terminal frame is too large: the write is refused and the session ends. */
  lemma ReportIsRefused(x: System, y: System) returns (z: System)
    requires Leads(x, y) && y.server.ctl.handler.Reporting? && y.server.s.stage == Finished && !y.server.ctl.down
    requires !Writable(y.server, EndFrame(EndCode(y.server.ctl.handler.err))) && NoEnd(y.server.tx.written)
    ensures Follows(x, z) && Inv(z) && Lost(z)
  {
    hide NoEnd, Follows, Inv, Moves, EndCode, Writable;
    LeadingFacts(x, y);
    hide Leads;
    MovesIsUndisturbed(x, y);
    var e := y.server;
    var f := EndFrame(EndCode(e.ctl.handler.err));
    z := y.(server := SetHandler(Write(e, f, false), Over));
    assert HandlerStep(HandlerReport(false), e, z.server);
    hide HandlerStep;
    HandlerLoses(x, y, z, HandlerReport(false));
  }

  lemma MovesIsUndisturbed(x: System, y: System)
    requires Moves(x, y)
    ensures !y.fault && !y.server.ctl.down && !y.client.ctl.down
  {
    hide Follows, FlowInv;
  }

  lemma HandlerLoses(x: System, y: System, z: System, l: Label)
    requires Moves(x, y) && HandlerStep(l, y.server, z.server) && !Disturbs(l, y.server, y.client)
    requires z == y.(server := z.server) && SameReturn(y, z) && Lost(z)
    ensures Follows(x, z) && Inv(z)
  {
    hide HandlerStep, Moves, Disturbs, Lost, Follows, Inv;
    LosesByStep(x, y, z, l);
  }

  lemma PumpLoses(x: System, y: System, z: System, l: Label)
    requires Moves(x, y) && PumpStep(l, y.server, z.server) && !Disturbs(l, y.server, y.client)
    requires z == y.(server := z.server) && SameReturn(y, z) && Lost(z)
    ensures Follows(x, z) && Inv(z)
  {
    hide PumpStep, Moves, Disturbs, Lost, Follows, Inv;
    LosesByStep(x, y, z, l);
  }

  /** One more step of the serving side, with which its session ends. */
  lemma LosesByStep(x: System, y: System, z: System, l: Label)
    requires Moves(x, y) && Step(l, y.server, y.client, z.server) && !Disturbs(l, y.server, y.client)
    requires z == y.(server := z.server) && SameReturn(y, z) && Lost(z)
    ensures Follows(x, z) && Inv(z)
  {
    hide Step, Disturbs, Reaches, CalmInv, NoEnd;
    assert Next(y, z, ServerSide, l);
    hide Inv, Next;
    NextKeepsInv(y, z, ServerSide, l);
    ReachesByStep(x, y, z, ServerSide, l);
  }

  /** On its way to its report: finished, and about to write the terminal frame. */
  lemma ReachesReport(y: System) returns (z: System)
    requires Returning(y) && OnTrack(y.server) && MessagesFit(y.server)
    ensures Leads(y, z) && z.server.ctl.handler.Reporting? && z.server.s.stage == Finished && !z.server.ctl.down
    ensures y.server.ctl.returned == Some(z.server.ctl.handler.err) && z.server.tx.limits == y.server.tx.limits
  {
    LeadsItself(y);
    z := y;
    hide Returning, Leads, Moves, MessagesFit;
    if !y.server.ctl.handler.Reporting? {
      z := ReachesDiscarding(y);
      z := DiscardingReports(y, z);
    }
    z := StreamIsFinished(y, z);
    LeadsKeeps(y, z);
  }

  lemma LeadsKeeps(x: System, y: System)
    requires Leads(x, y)
    ensures y.server.tx.limits == x.server.tx.limits && y.server.ctl.returned == x.server.ctl.returned
  {
    hide Returning, MessagesFit, Reaches;
  }

  lemma TrackedMayReport(y: System)
    requires Returning(y) && Tracked(y.server) && MessagesFit(y.server) && TerminalFits(y.server)
    ensures MayReport(y)
  {
    LeadsItself(y);
    if NoEnd(y.server.tx.written) {
      hide Returning, Leads, Moves, MessagesFit;
      var z := ReachesReport(y);
      z := ReportIsWritten(y, z);
      hide NoEnd;
      LeadsFollows(y, z);
    } else {
      LeadsFollows(y, y);
    }
  }

  lemma LeadsFollows(x: System, y: System)
    requires Leads(x, y)
    ensures Follows(x, y)
  {
  }

  // ------------------------------------------------------------ on track and quiet: certain

  /** The terminal frame was written, or nothing stands in its way. */
  ghost predicate Tracked(e: Endpoint) {
    OnTrack(e) || !NoEnd(e.tx.written)
  }

  lemma HandlerKeepsTrack(l: Label, e: Endpoint, p: Endpoint, e': Endpoint)
    requires Tracked(e) && ServerCalm(e) && FlowIn(e) && SendingIn(e)
    requires HandlerStep(l, e, e') && Undisturbed(l, e, p, e') && e.ctl.returned.Some?
    ensures Tracked(e')
  {
    hide EndsJustified, BarrierBehind, Sending, CloserIn;
    if OnTrack(e) {
      if l.FlushQueue? {
        FirstMarkIsThere(e.s.outbound);
        FirstMarkPush(e.s.outbound, BarrierItem);
      }
      if l.HandlerReport? {
        assert e'.tx.written[|e.tx.written|].EndFrame?;
      }
    } else {
      EndsStay(e.tx.written, e'.tx.written);
    }
  }

  lemma EndsStay(written: seq<Frame>, written': seq<Frame>)
    requires written <= written' && !NoEnd(written)
    ensures !NoEnd(written')
  {
    var k :| 0 <= k < |written| && written[k].EndFrame?;
    assert written'[k] == written[k];
  }

  lemma SenderKeepsTrack(l: Label, e: Endpoint, p: Endpoint, e': Endpoint)
    requires Tracked(e) && ServerCalm(e) && FlowIn(e)
    requires SenderStep(l, e, e') && Undisturbed(l, e, p, e')
    requires !Clean(if HasErr(e.ctl.handler) then e.ctl.handler.err else None) ==> e'.s.sendClosed == e.s.sendClosed
    ensures Tracked(e')
  {
    hide EndsIn, BarrierBehind, NoEnd, CloserIn, AfterTerminal;
    if l.Send? { FirstMarkPush(e.s.outbound, DataItem(l.message)); }
    if l == StreamPair.CloseQueue { FirstMarkPush(e.s.outbound, CloseItem); }
    if OnTrack(e) && e.ctl.handler.FlushWait? && !e.tx.barrierDone { FirstMarkIsThere(e.s.outbound); }
  }

  lemma PumpKeepsTrack(l: Label, e: Endpoint, p: Endpoint, e': Endpoint)
    requires Tracked(e) && ServerCalm(e) && FlowIn(e) && SendingIn(e)
    requires PumpStep(l, e, e') && Undisturbed(l, e, p, e')
    ensures Tracked(e')
  {
    hide EndsIn, BarrierBehind, Sending, CloserIn;
    if !NoEnd(e.tx.written) { EndsStay(e.tx.written, e'.tx.written); }
    hide NoEnd;
    if OnTrack(e) && e.ctl.handler.FlushWait? && !e.tx.barrierDone { FirstMarkIsThere(e.s.outbound); }
  }

  /** The reader and Recv leave the sending side of a stream that is open alone. */
  lemma OthersLeaveSending(l: Label, e: Endpoint, p: Endpoint, e': Endpoint)
    requires ServerCalm(e) && e.ctl.returned.Some? && !e.ctl.client && OpensOnce(e, p) && Opening(e)
    requires IntakeStep(l, e, p, e') || ReaderStep(l, e, e') || ConsumerStep(l, e, e')
    requires Undisturbed(l, e, p, e')
    ensures e'.ctl.handler == e.ctl.handler && e'.tx == e.tx
    ensures e'.s.outbound == e.s.outbound && e'.s.sendClosed == e.s.sendClosed
  {
    hide EndsIn, FlushedIn, CloserIn, IntakeStep, ReaderStep, ConsumerStep;
    if IntakeStep(l, e, p, e') { IntakeLeavesSending(l, e, p, e'); }
    else { ReaderLeavesSending(l, e, p, e'); }
  }

  lemma IntakeLeavesSending(l: Label, e: Endpoint, p: Endpoint, e': Endpoint)
    requires ServerPhase(e) && e.ctl.returned.Some? && !e.ctl.client && OpensOnce(e, p) && Opening(e)
    requires IntakeStep(l, e, p, e') && Undisturbed(l, e, p, e')
    ensures e'.ctl.handler == e.ctl.handler && e'.tx == e.tx
    ensures e'.s.outbound == e.s.outbound && e'.s.sendClosed == e.s.sendClosed
  {
  }

  lemma ReaderLeavesSending(l: Label, e: Endpoint, p: Endpoint, e': Endpoint)
    requires ServerPhase(e) && e.ctl.returned.Some?
    requires ReaderStep(l, e, e') || ConsumerStep(l, e, e')
    requires Undisturbed(l, e, p, e')
    ensures e'.ctl.handler == e.ctl.handler && e'.tx == e.tx
    ensures e'.s.outbound == e.s.outbound && e'.s.sendClosed == e.s.sendClosed
  {
  }

  lemma OthersKeepTrack(l: Label, e: Endpoint, p: Endpoint, e': Endpoint)
    requires Tracked(e) && ServerCalm(e) && e.ctl.returned.Some? && !e.ctl.client
    requires IntakeStep(l, e, p, e') || ReaderStep(l, e, e') || ConsumerStep(l, e, e')
    requires OpensOnce(e, p) && Opening(e) && Undisturbed(l, e, p, e')
    ensures Tracked(e')
  {
    OthersLeaveSending(l, e, p, e');
    hide ServerCalm, NoEnd, CloseAhead, Clean, IntakeStep, ReaderStep, ConsumerStep;
  }

  lemma StepKeepsTrack(l: Label, e: Endpoint, p: Endpoint, e': Endpoint)
    requires Tracked(e) && ServerCalm(e) && FlowIn(e) && EndpointInv(e) && !e.ctl.client && e.ctl.returned.Some?
    requires Step(l, e, p, e') && OpensOnce(e, p) && Undisturbed(l, e, p, e')
    requires !Clean(e.ctl.returned.value) ==> e'.s.sendClosed == e.s.sendClosed
    ensures Tracked(e') && e'.ctl.returned == e.ctl.returned && e'.s.depth == e.s.depth
  {
    assert !OpenerStep(l, e, e') by { hide ServerCalm, SendingIn, ReceivingIn, FlowIn, Tracked; }
    assert !Clean(if HasErr(e.ctl.handler) then e.ctl.handler.err else None) ==> !Clean(e.ctl.returned.value) by {
      hide SendingIn, ReceivingIn, FlowIn, Tracked, Step, EndsIn, FlushedIn, CloserIn, Clean;
      assert Clean(None);
    }
    StepKeepsReturn(l, e, p, e');
    hide FlowIn, ServerCalm, SendingIn, ReceivingIn, Coherent, Undisturbed, Tracked, Clean, Opening, OpensOnce;
    hide OpenerStep, HandlerStep, SenderStep, PumpStep, IntakeStep, ReaderStep, ConsumerStep;
    if HandlerStep(l, e, e') {
      HandlerKeepsTrack(l, e, p, e');
    } else if SenderStep(l, e, e') {
      SenderKeepsTrack(l, e, p, e');
    } else if PumpStep(l, e, e') {
      PumpKeepsTrack(l, e, p, e');
    } else {
      OthersKeepTrack(l, e, p, e');
    }
  }

  predicate KeepsReturn(e: Endpoint, e': Endpoint) {
    e'.ctl.returned == e.ctl.returned && e'.s.depth == e.s.depth
  }

  /** No helper of the step relation touches what the handler returned. */
  lemma HelpersKeepReturn()
    ensures forall e: Endpoint, c {:trigger EndSession(e, c)} :: KeepsReturn(e, EndSession(e, c))
    ensures forall e: Endpoint, f, ok {:trigger Write(e, f, ok)} :: KeepsReturn(e, Write(e, f, ok))
    ensures forall e: Endpoint, err {:trigger BeginFinish(e, err)} :: KeepsReturn(e, BeginFinish(e, err))
  {
  }

  lemma StepKeepsReturn(l: Label, e: Endpoint, p: Endpoint, e': Endpoint)
    requires Step(l, e, p, e') && ServerCalm(e) && e.ctl.returned.Some?
    ensures KeepsReturn(e, e')
  {
    hide OpenerStep, HandlerStep, SenderStep, PumpStep, IntakeStep, ReaderStep, ConsumerStep, ServerCalm, KeepsReturn;
    if HandlerStep(l, e, e') { HandlerKeepsReturn(l, e, e'); }
    else if IntakeStep(l, e, p, e') { IntakeKeepsReturn(l, e, p, e'); }
    else if ReaderStep(l, e, e') { ReaderKeepsReturn(l, e, e'); }
    else if ConsumerStep(l, e, e') { ConsumerKeepsReturn(l, e, e'); }
    else if OpenerStep(l, e, e') { OpenerKeepsReturn(l, e, e'); }
    else { SendersKeepReturn(l, e, e'); }
  }

  lemma HandlerKeepsReturn(l: Label, e: Endpoint, e': Endpoint)
    requires HandlerStep(l, e, e') && ServerCalm(e) && e.ctl.returned.Some?
    ensures KeepsReturn(e, e')
  {
    HelpersKeepReturn();
    hide EndsIn, FlushedIn, CloserIn, Clean, Write, BeginFinish, EndCode;
  }

  lemma IntakeKeepsReturn(l: Label, e: Endpoint, p: Endpoint, e': Endpoint)
    requires IntakeStep(l, e, p, e')
    ensures KeepsReturn(e, e')
  {
    HelpersKeepReturn();
    hide EndSession, BeginFinish, Err;
  }

  lemma ReaderKeepsReturn(l: Label, e: Endpoint, e': Endpoint)
    requires ReaderStep(l, e, e')
    ensures KeepsReturn(e, e')
  {
    HelpersKeepReturn();
    hide EndSession, Write, BeginFinish;
  }

  lemma ConsumerKeepsReturn(l: Label, e: Endpoint, e': Endpoint)
    requires ConsumerStep(l, e, e')
    ensures KeepsReturn(e, e')
  {
    HelpersKeepReturn();
    hide EndSession, BeginFinish;
  }

  lemma OpenerKeepsReturn(l: Label, e: Endpoint, e': Endpoint)
    requires OpenerStep(l, e, e')
    ensures KeepsReturn(e, e')
  {
    HelpersKeepReturn();
    hide EndSession, Write, BeginFinish;
  }

  lemma SendersKeepReturn(l: Label, e: Endpoint, e': Endpoint)
    requires SenderStep(l, e, e') || PumpStep(l, e, e')
    ensures KeepsReturn(e, e')
  {
    HelpersKeepReturn();
    hide AfterTerminal, Write;
  }

  // ------------------------------------------------------------ what is unwritten stays writable

  lemma HandlerKeepsFit(l: Label, e: Endpoint, e': Endpoint)
    requires MessagesFit(e) && HandlerStep(l, e, e')
    ensures MessagesFit(e')
  {
    hide Clean, StatusOf;
  }

  lemma SenderKeepsFit(l: Label, e: Endpoint, e': Endpoint)
    requires MessagesFit(e) && SenderStep(l, e, e') && e'.tx.accepted == e.tx.accepted
    ensures MessagesFit(e')
  {
    hide AfterTerminal;
  }

  lemma PumpKeepsFit(l: Label, e: Endpoint, e': Endpoint)
    requires MessagesFit(e) && PumpStep(l, e, e')
    ensures MessagesFit(e')
  {
    if l.PumpTake? {
      assert forall i :: 0 <= i < |e'.s.outbound| ==> e'.s.outbound[i] == e.s.outbound[i + 1];
    }
  }

  lemma StepKeepsFit(l: Label, e: Endpoint, p: Endpoint, e': Endpoint)
    requires MessagesFit(e) && ServerCalm(e) && EndpointInv(e) && !e.ctl.client && e.ctl.returned.Some?
    requires Step(l, e, p, e') && OpensOnce(e, p) && Undisturbed(l, e, p, e') && e'.tx.accepted == e.tx.accepted
    ensures MessagesFit(e')
  {
    assert !OpenerStep(l, e, e') by { hide ServerCalm, SendingIn, ReceivingIn, MessagesFit; }
    hide ServerCalm, SendingIn, ReceivingIn, Coherent, Undisturbed, MessagesFit, Opening, OpensOnce;
    hide OpenerStep, HandlerStep, SenderStep, PumpStep, IntakeStep, ReaderStep, ConsumerStep;
    if HandlerStep(l, e, e') {
      HandlerKeepsFit(l, e, e');
    } else if SenderStep(l, e, e') {
      SenderKeepsFit(l, e, e');
    } else if PumpStep(l, e, e') {
      PumpKeepsFit(l, e, e');
    } else {
      OthersLeaveSending(l, e, p, e');
      SameQueueKeepsFit(e, e');
    }
  }

  lemma SameQueueKeepsFit(e: Endpoint, e': Endpoint)
    requires MessagesFit(e) && e'.tx == e.tx && e'.s.outbound == e.s.outbound
    ensures MessagesFit(e')
  {
  }

  lemma OpensOnceOf(y: System)
    requires Inv(y)
    ensures OpensOnce(y.server, y.client)
  {
    hide SendingIn, ReceivingIn, Coherent;
  }
}
