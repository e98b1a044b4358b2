/**
 When a session survives the end of a stream it serves.

 The absence of disturbances alone does not guarantee it. The reader looks a stream up before it
 delivers to it; if the handler releases and finishes the stream in between, the delivery fails
 and the reader ends the whole session. This module shows when that can happen: exactly when the
 opener may still have data on its way. Whether the terminal is reported at all also depends on
 the handler's own half-close and on the size limits; StreamReport puts them together.
 */
module StreamRace {
  import opened Status
  import opened Stream
  import opened StreamPair
  import opened StreamConservation
  import opened StreamTermination
  import WireSize

  /** The opener half-closed, and everything it ever sent has been handed to the stream. */
  ghost predicate Quiet(y: System) {
    && y.client.s.sendClosed
    && DataOf(y.server.rx.processed) == y.client.tx.accepted
    && InHand(y.server.rx.reader) == []
  }

  /** The session has ended and the terminal frame was not written. */
  ghost predicate Lost(z: System) {
    !z.fault && z.server.ctl.down && NoEnd(z.server.tx.written)
  }

  /** What the handler did with its stream: what it sent, whether it half-closed, and what it returned. */
  predicate SameReturn(y: System, z: System) {
    && z.server.tx.accepted == y.server.tx.accepted
    && z.server.s.sendClosed == y.server.s.sendClosed && z.server.ctl.returned == y.server.ctl.returned
  }

  /** An undisturbed run from here, in which the handler does nothing more, loses the terminal with the session. */
  ghost predicate MayLoseTerminal(y: System) {
    exists z :: Reaches(y, z) && SameReturn(y, z) && Lost(z)
  }

  /** The handler finished its work on the stream and is about to release it. */
  ghost predicate Handing(y: System) {
    Inv(y) && CalmInv(y) && Calm(y) && y.server.ctl.handler.Discarding?
  }

  // -------------------------------------------------- quiet implies no loss

  /** Outside the reader's intake, a session ends only by a disturbance or by a frame its writer refuses. */
  lemma OnlyIntakeFails(l: Label, e: Endpoint, p: Endpoint, e': Endpoint)
    requires Step(l, e, p, e') && !e.ctl.down && !p.ctl.down && !Disturbs(l, e, p) && !TooLarge(l, e)
    requires !IntakeStep(l, e, p, e')
    ensures !e'.ctl.down
  {
    hide OpenerStep, HandlerStep, SenderStep, PumpStep, IntakeStep, ReaderStep, ConsumerStep, Disturbs, TooLarge;
    if OpenerStep(l, e, e') {
      OpenerStaysUp(l, e, p, e');
    } else if HandlerStep(l, e, e') {
      HandlerStaysUp(l, e, p, e');
    } else {
      OthersStayUp(l, e, p, e');
    }
  }

  lemma OpenerStaysUp(l: Label, e: Endpoint, p: Endpoint, e': Endpoint)
    requires OpenerStep(l, e, e') && !e.ctl.down && !Disturbs(l, e, p) && !TooLarge(l, e)
    ensures !e'.ctl.down
  {
  }

  lemma HandlerStaysUp(l: Label, e: Endpoint, p: Endpoint, e': Endpoint)
    requires HandlerStep(l, e, e') && !e.ctl.down && !Disturbs(l, e, p) && !TooLarge(l, e)
    ensures !e'.ctl.down
  {
    hide FinishBegin, StatusOf, Clean;
  }

  lemma OthersStayUp(l: Label, e: Endpoint, p: Endpoint, e': Endpoint)
    requires SenderStep(l, e, e') || PumpStep(l, e, e') || ReaderStep(l, e, e') || ConsumerStep(l, e, e')
    requires !e.ctl.down && !p.ctl.down && !Disturbs(l, e, p) && !TooLarge(l, e)
    ensures !e'.ctl.down
  {
    hide FinishBegin, FinishClose, RecvFrom, Enqueue, Writable;
  }

  /** An undisturbed opener always has room or a reason to wait: its reader never fails. */
  lemma ClientIntakeStaysUp(l: Label, y: System, e': Endpoint)
    requires Inv(y) && CalmInv(y) && Calm(y) && IntakeStep(l, y.client, y.server, e')
    ensures !e'.ctl.down
  {
    if l.Read? {
      ClientReadStaysUp(l, y, e');
    } else {
      if y.client.rx.reader.frame.DataFrame? {
        ClientHasRoom(y);
      }
      hide SendingIn, ReceivingIn, ServerCalm, Fits;
    }
  }

  lemma ClientReadStaysUp(l: Label, y: System, e': Endpoint)
    requires Inv(y) && CalmInv(y) && Calm(y) && IntakeStep(l, y.client, y.server, e') && l.Read?
    ensures !e'.ctl.down
  {
    var e, p := y.client, y.server;
    assert ClientPhaseIn(e) && EndsIn(p);
    hide Fits;
    var f := p.tx.written[|e.rx.processed|];
    assert f != OpenFrame;
    if e.rx.processed == [] {
      assert f == p.tx.written[0];
    }
  }

  lemma ClientHasRoom(y: System)
    requires Inv(y) && CalmInv(y) && Calm(y) && y.client.rx.reader.Serving? && y.client.rx.reader.frame.DataFrame?
    ensures var e := y.client;
            |e.rx.reader.frame.message| <= e.s.maxBytes && !e.s.cancelled && !e.s.inboundClosed
  {
    var e, p := y.client, y.server;
    assert ClientPhaseIn(e);
    var last := |e.rx.processed| - 1;
    assert p.tx.written[last] == e.rx.reader.frame;
    if e.s.inboundClosed {
      assert false;
    }
  }

  lemma ServerIntakeStaysUp(l: Label, y: System, e': Endpoint)
    requires Inv(y) && CalmInv(y) && Calm(y) && Quiet(y) && IntakeStep(l, y.server, y.client, e')
    ensures !e'.ctl.down
  {
    var e := y.server;
    assert !e.ctl.client && !e.ctl.openPending && InHand(e.rx.reader) == [] && !e.ctl.down by {
      hide SendingIn, ReceivingIn, ServerCalm, ClientCalm, Fits, Coherent, OpensFirst, IntakeStep;
    }
    hide Inv, CalmInv, Quiet, StatusOf, Is;
  }

  /** Nothing beyond what was accepted can be taken off the wire. */
  lemma ServerStepKeepsQuiet(y: System, e': Endpoint)
    requires SendingIn(y.client) && Quiet(y) && Logged(y.server, y.client, e') && ReceivingIn(e')
    ensures Quiet(y.(server := e'))
  {
    hide Sending, Stays;
    var before, after := y.server.rx.processed, e'.rx.processed;
    DataOfPrefix(before, after);
    DataOfPrefix(after, y.client.tx.written);
    WrittenIsAccepted(y.client);
    assert DataOf(after) == DataOf(before);
    if after != before {
      LastFrameCarriesNothing(before, after);
    }
  }

  lemma LastFrameCarriesNothing(before: seq<Frame>, after: seq<Frame>)
    requires before < after && DataOf(after) == DataOf(before)
    ensures Carried(after[|after| - 1]) == []
  {
    DataOfPrefix(before, after[..|after| - 1]);
  }

  /** The opener's writer refuses nothing any more: all its messages are out. */
  lemma QuietOpenerIsTaken(y: System, l: Label)
    requires Inv(y) && CalmInv(y) && Calm(y) && Quiet(y) && y.server.rx.processed != []
    ensures !TooLarge(l, y.client)
  {
    hide SendingIn, ReceivingIn, ClientEndsIn, ClientPumpIn, ServerCalm, Fits, Quiet, EndTaken;
    QuietPumpIsIdle(y);
    assert y.client.tx.written != [];
    assert ClientPhaseIn(y.client);
  }

  lemma QuietPumpIsIdle(y: System)
    requires Inv(y) && Quiet(y)
    ensures !(y.client.tx.pump.Writing? && y.client.tx.pump.item.DataItem?)
  {
    DataOfPrefix(y.server.rx.processed, y.client.tx.written);
    hide CloseIsLast, ReceivingIn, Opening;
  }

  lemma NextKeepsQuiet(y: System, y': System, side: Side, l: Label)
    requires Inv(y) && CalmInv(y) && Calm(y) && Quiet(y) && Next(y, y', side, l) && !y'.fault
    requires y.server.rx.processed != [] && (side == ServerSide ==> !TooLarge(l, y.server))
    ensures Inv(y') && CalmInv(y') && Calm(y') && Quiet(y') && y'.server.rx.processed != []
  {
    NextKeepsInv(y, y', side, l);
    NextKeepsCalmInv(y, y', side, l);
    var (e, p, e') := if side == ClientSide then (y.client, y.server, y'.client) else (y.server, y.client, y'.server);
    assert OpensOnce(e, p) && EndpointInv(e) && Step(l, e, p, e') && !Disturbs(l, e, p);
    hide Step, CalmInv, SendingIn, ReceivingIn, Coherent, Opening, OpensOnce, Disturbs, IntakeStep, TooLarge;
    StepKeepsEndpointInv(l, e, p, e');
    if side == ClientSide {
      QuietOpenerIsTaken(y, l);
    }
    if !IntakeStep(l, e, p, e') {
      OnlyIntakeFails(l, e, p, e');
    } else if side == ClientSide {
      ClientIntakeStaysUp(l, y, e');
    } else {
      ServerIntakeStaysUp(l, y, e');
    }
    if side == ServerSide {
      ServerStepKeepsQuiet(y, e');
    }
  }

  // -------------------------------------------------- not quiet implies a loss

  /** Prepend one undisturbed step to a losing run. */
  lemma LossByStep(y: System, y': System, side: Side, l: Label)
    requires Next(y, y', side, l) && SameReturn(y, y') && MayLoseTerminal(y')
    ensures MayLoseTerminal(y)
  {
    hide Next, Lost;
    var z :| Reaches(y', z) && SameReturn(y', z) && Lost(z);
    var run, moves :| IsRun(run, moves) && run[0] == y' && run[|run| - 1] == z;
    assert IsRun([y] + run, [Move(side, l)] + moves);
    assert Reaches(y, z);
  }

  /** A message in the reader's hand cannot be delivered once the handler has let go. */
  lemma ReleasedDeliveryFails(e: Endpoint, m: Message) returns (e': Endpoint)
    requires e.rx.reader == Serving(DataFrame(m)) && |m| <= e.s.maxBytes && e.s.cancelled
    ensures ServeStep(e, e', true) && e'.ctl.down && e'.tx == e.tx
    ensures e'.s.sendClosed == e.s.sendClosed && e'.ctl.returned == e.ctl.returned
  {
    var err := if e.s.inboundClosed then Of(ProtocolViolation) else CtxErr(e.ctl);
    assert DeliverTo(e.s, m, true, CtxErr(e.ctl)).1 == Failed(err);
    hide DeliverTo;
    e' := SetReader(EndSession(e, Some(err)), ReaderStopped);
  }

  lemma HandlerLetsGo(e: Endpoint) returns (e': Endpoint)
    requires e.ctl.handler.Discarding? && e.s.stage == Live
    ensures HandlerStep(HandlerDiscard, e, e')
    ensures e'.rx == e.rx && e'.tx == e.tx && e'.s.cancelled && e'.s.maxBytes == e.s.maxBytes
    ensures e'.s.sendClosed == e.s.sendClosed && e'.ctl.returned == e.ctl.returned
  {
    hide Clean;
    var h := e.ctl.handler;
    e' := BeginFinish(e.(ctl := e.ctl.(handler := Reporting(h.err), registered := false)),
                      if Clean(h.err) then None else h.err);
  }

  lemma HandingFacts(y: System)
    requires Handing(y)
    ensures y.server.s.stage == Live && y.server.ctl.registered && !y.server.ctl.openPending
    ensures NoEnd(y.server.tx.written)
  {
    hide SendingIn, ReceivingIn, CloserIn, FlushedIn, ClientCalm, Fits;
  }

  lemma HeldMessageFits(y: System, m: Message)
    requires Inv(y) && CalmInv(y) && y.server.rx.reader == Serving(DataFrame(m))
    ensures |m| <= y.server.s.maxBytes
  {
    assert y.client.tx.written[|y.server.rx.processed| - 1] == DataFrame(m);
    hide SendingIn, ClientCalm, ServerCalm;
  }

  /** The reader holds a message: the handler releases the stream and the delivery fails. */
  lemma HeldDataIsLost(y: System, m: Message)
    requires Handing(y) && y.server.rx.reader == Serving(DataFrame(m))
    ensures MayLoseTerminal(y)
  {
    hide Inv, CalmInv, NoEnd, HandlerStep, ServeStep;
    HandingFacts(y);
    HeldMessageFits(y, m);
    var e1 := HandlerLetsGo(y.server);
    var e2 := ReleasedDeliveryFails(e1, m);
    LossAtTwo(y, y.(server := e1), y.(server := e2));
  }

  lemma LossAtTwo(y: System, y1: System, y2: System)
    requires Next(y, y1, ServerSide, HandlerDiscard) && Next(y1, y2, ServerSide, Serve(true))
    requires SameReturn(y, y1) && SameReturn(y1, y2) && Lost(y2)
    ensures MayLoseTerminal(y)
  {
    hide Next, Lost;
    ReachesItself(y2);
    LossByStep(y1, y2, ServerSide, Serve(true));
    LossByStep(y, y1, ServerSide, HandlerDiscard);
  }

  /** Handing over survives any step that neither disturbs, ends a session nor moves the handler. */
  lemma HandingByStep(y: System, y': System, side: Side, l: Label)
    requires Handing(y) && Next(y, y', side, l) && Calm(y')
    requires y'.server.ctl.handler == y.server.ctl.handler
    ensures Handing(y')
  {
    hide Inv, CalmInv, Next, Calm;
    NextKeepsInv(y, y', side, l);
    NextKeepsCalmInv(y, y', side, l);
  }

  /** The next frame on the wire is a message. */
  lemma WireDataIsLost(y: System, m: Message)
    requires Handing(y) && y.server.rx.reader == Ready
    requires |y.server.rx.processed| < |y.client.tx.written|
    requires y.client.tx.written[|y.server.rx.processed|] == DataFrame(m)
    ensures MayLoseTerminal(y)
  {
    hide Inv, CalmInv;
    HandingFacts(y);
    var e := y.server;
    var e1 := e.(rx := e.rx.(reader := Serving(DataFrame(m)), processed := e.rx.processed + [DataFrame(m)]));
    var y1 := y.(server := e1);
    assert IntakeStep(Read(OK), e, y.client, e1);
    HandingByStep(y, y1, ServerSide, Read(OK));
    HeldDataIsLost(y1, m);
    LossByStep(y, y1, ServerSide, Read(OK));
  }

  /** Everything written was taken, and the server's reader waits for the next frame. */
  predicate CaughtUp(y: System) {
    y.server.rx.reader == Ready && y.server.rx.processed == y.client.tx.written
  }

  /** The opener's pump holds a message: it writes it, or its writer refuses it and ends its session. */
  lemma PumpDataIsLost(y: System, m: Message)
    requires Handing(y) && CaughtUp(y) && y.client.tx.pump == Writing(DataItem(m))
    ensures MayLoseTerminal(y)
  {
    if Writable(y.client, DataFrame(m)) {
      WrittenDataIsLost(y, m);
    } else {
      RefusedDataIsLost(y, m);
    }
  }

  lemma WrittenDataIsLost(y: System, m: Message)
    requires Handing(y) && CaughtUp(y) && y.client.tx.pump == Writing(DataItem(m)) && Writable(y.client, DataFrame(m))
    ensures MayLoseTerminal(y)
  {
    var e := y.client;
    var e1 := SetPump(Write(e, DataFrame(m), true), Waiting);
    var y1 := y.(client := e1);
    hide Inv, CalmInv;
    assert PumpStep(PumpWrite(true), e, e1);
    HandingByStep(y, y1, ClientSide, PumpWrite(true));
    WireDataIsLost(y1, m);
    LossByStep(y, y1, ClientSide, PumpWrite(true));
  }

  /** The opener's session ends, and the serving reader's next read fails. */
  lemma RefusedDataIsLost(y: System, m: Message)
    requires Handing(y) && CaughtUp(y) && y.client.tx.pump == Writing(DataItem(m)) && !Writable(y.client, DataFrame(m))
    ensures MayLoseTerminal(y)
  {
    hide Inv, CalmInv, NoEnd, Writable;
    HandingFacts(y);
    var e := y.client;
    var e1 := SetPump(Write(e, DataFrame(m), false), Stopped([m]));
    var y1 := y.(client := e1);
    assert PumpStep(PumpWrite(false), e, e1);
    hide PumpStep;
    assert Next(y, y1, ClientSide, PumpWrite(false));
    hide Next;
    OrphanIsLost(y1);
    LossByStep(y, y1, ClientSide, PumpWrite(false));
  }

  lemma OrphanIsLost(y: System)
    requires y.client.ctl.down && y.server.rx.reader == Ready && !y.fault && NoEnd(y.server.tx.written)
    ensures MayLoseTerminal(y)
  {
    hide NoEnd;
    var e := y.server;
    var z := y.(server := SetReader(EndSession(e, None), ReaderStopped));
    assert ReaderStep(ReadFail, e, z.server);
    hide ReaderStep;
    assert Next(y, z, ServerSide, ReadFail);
    hide Next;
    ReachesItself(z);
    LossByStep(y, z, ServerSide, ReadFail);
  }

  lemma QueuedDataIsLost(y: System, m: Message)
    requires Handing(y) && CaughtUp(y) && y.client.tx.pump == Waiting
    requires y.client.s.outbound != [] && y.client.s.outbound[0] == DataItem(m)
    ensures MayLoseTerminal(y)
  {
    var e := y.client;
    var e1 := SetPump(e.(s := Dequeue(e.s)), Writing(DataItem(m)));
    var y1 := y.(client := e1);
    hide Inv, CalmInv;
    assert PumpStep(PumpTake, e, e1);
    HandingByStep(y, y1, ClientSide, PumpTake);
    PumpDataIsLost(y1, m);
    LossByStep(y, y1, ClientSide, PumpTake);
  }

  /** The opener may still send: it sends an empty message. */
  lemma SendIsLost(y: System)
    requires Handing(y) && CaughtUp(y) && y.client.tx.pump == Waiting && y.client.s.outbound == []
    requires y.client.ctl.opener == Established && y.client.ctl.client
    requires !y.client.s.sendClosed && y.client.s.depth > 0
    ensures MayLoseTerminal(y)
  {
    var e := y.client;
    var e1 := e.(s := e.s.(outbound := e.s.outbound + [DataItem([])]), tx := e.tx.(accepted := e.tx.accepted + [[]]));
    var y1 := y.(client := e1);
    hide Inv, CalmInv;
    assert SenderStep(Send([]), e, e1);
    HandingByStep(y, y1, ClientSide, Send([]));
    QueuedDataIsLost(y1, []);
    LossByStep(y, y1, ClientSide, Send([]));
  }

  lemma AcceptedSendIsLost(y: System)
    requires Handing(y) && CaughtUp(y) && y.client.tx.pump == Waiting && y.client.s.outbound == []
    requires y.client.ctl.opener == Awaiting && y.client.ctl.verdict == Some(Accept) && y.client.ctl.client
    requires !y.client.s.sendClosed && y.client.s.depth > 0
    ensures MayLoseTerminal(y)
  {
    var e := y.client;
    var e1 := e.(ctl := e.ctl.(opener := Established, openPending := false));
    var y1 := y.(client := e1);
    hide Inv, CalmInv;
    assert OpenerStep(OpenAccepted, e, e1);
    HandingByStep(y, y1, ClientSide, OpenAccepted);
    SendIsLost(y1);
    LossByStep(y, y1, ClientSide, OpenAccepted);
  }

  /** The acknowledgement is still on the wire: the opener takes it first. */
  lemma UnreadAckIsLost(y: System)
    requires Handing(y) && CaughtUp(y) && y.client.tx.pump == Waiting && y.client.s.outbound == []
    requires y.client.ctl.opener == Awaiting && y.client.ctl.client
    requires y.client.ctl.openPending && y.client.rx.processed == [] && y.client.rx.reader == Ready
    requires y.server.tx.written != [] && y.server.tx.written[0] == AckFrame
    requires !y.client.s.sendClosed && y.client.s.depth > 0
    ensures MayLoseTerminal(y)
  {
    var e := y.client;
    var e1 := e.(ctl := e.ctl.(verdict := Some(Accept), openPending := false), rx := e.rx.(processed := [AckFrame]));
    var y1 := y.(client := e1);
    hide Inv, CalmInv;
    assert e.rx.processed + [AckFrame] == [AckFrame];
    assert IntakeStep(Read(OK), e, y.server, e1);
    HandingByStep(y, y1, ClientSide, Read(OK));
    AcceptedSendIsLost(y1);
    LossByStep(y, y1, ClientSide, Read(OK));
  }

  /** Where the opener's data can be when everything written has been taken. */
  lemma CaughtUpIsLost(y: System)
    requires Handing(y) && !Quiet(y) && CaughtUp(y) && y.client.s.depth > 0
    ensures MayLoseTerminal(y)
  {
    var c := y.client;
    OpenerIsAlive(y);
    PumpAtWork(y);
    hide Handing, Quiet;
    if c.tx.pump.Writing? {
      PumpDataIsLost(y, c.tx.pump.item.message);
    } else if c.s.outbound != [] {
      QueuedDataIsLost(y, c.s.outbound[0].message);
    } else if c.ctl.opener == Established {
      SendIsLost(y);
    } else if c.ctl.verdict.Some? {
      AcceptedSendIsLost(y);
    } else {
      UnreadAckIsLost(y);
    }
  }

  /** The pump holds a message, finds one next, or could be given one. */
  predicate PumpHasWork(c: Endpoint) {
    || (c.tx.pump.Writing? && c.tx.pump.item.DataItem?)
    || (c.tx.pump == Waiting && c.s.outbound != [] && c.s.outbound[0].DataItem?)
    || (c.tx.pump == Waiting && c.s.outbound == [] && !c.s.sendClosed)
  }

  lemma UnfinishedSenderHasWork(c: Endpoint)
    requires SendingIn(c) && ClientPumpIn(c) && c.ctl.opener != NotOpened && !c.s.cancelled
    requires !(c.s.sendClosed && DataOf(c.tx.written) == c.tx.accepted)
    ensures PumpHasWork(c)
  {
    if NoData(c.s.outbound) {
      NoDataQueued(c.s.outbound);
    }
  }

  lemma PumpAtWork(y: System)
    requires Handing(y) && !Quiet(y) && CaughtUp(y)
    ensures PumpHasWork(y.client)
  {
    OpenerIsAlive(y);
    assert SendingIn(y.client) && ClientPumpIn(y.client);
    hide Inv, CalmInv, SendingIn, ClientPumpIn, PumpHasWork;
    UnfinishedSenderHasWork(y.client);
  }

  /** While the handler still holds the stream, its opener has neither failed nor been told to stop. */
  lemma OpenerIsAlive(y: System)
    requires Handing(y)
    ensures var c := y.client;
            && c.ctl.client && !c.s.cancelled && c.ctl.opener in {Awaiting, Established}
            && (c.ctl.verdict.Some? ==> c.ctl.verdict.value == Accept)
            && (c.ctl.verdict.None? ==>
                  c.ctl.opener == Awaiting && c.ctl.openPending && c.rx.processed == [] && c.rx.reader == Ready)
            && y.server.tx.written != [] && y.server.tx.written[0] == AckFrame
  {
    var c, v := y.client, y.server;
    assert v.rx.processed != [] && c.tx.written != [];
    assert ClientPhaseIn(c) && EndsIn(v);
    assert NoEnd(v.tx.written);
    hide ServerCalm, SendingIn, ReceivingIn, ClientEndsIn, ClientPumpIn, Fits;
    if c.rx.processed != [] {
      assert c.rx.processed[0] == v.tx.written[0];
    }
    NoEndTaken(c, v);
  }

  lemma NoEndTaken(c: Endpoint, v: Endpoint)
    requires c.rx.processed <= v.tx.written && NoEnd(v.tx.written)
    ensures !EndTakenIn(c)
  {
  }

  lemma NotQuietIsLost(y: System)
    requires Handing(y) && !Quiet(y) && y.client.s.depth > 0
    ensures MayLoseTerminal(y)
  {
    var c, v := y.client, y.server;
    var n := |v.rx.processed|;
    assert ServerPhase(v);
    if InHand(v.rx.reader) != [] {
      HeldDataIsLost(y, v.rx.reader.frame.message);
    } else if v.rx.reader.Serving? {
      TakenCloseIsQuiet(y, n - 1);
      assert false;
    } else if n == |c.tx.written| {
      CaughtUpIsLost(y);
    } else if c.tx.written[n] == CloseSendFrame {
      NextCloseIsQuiet(y);
      assert false;
    } else {
      assert v.rx.processed != [];
      WireDataIsLost(y, c.tx.written[n].message);
    }
  }

  /** The close frame is next on the wire: all the data is in front of it. */
  lemma NextCloseIsQuiet(y: System)
    requires Inv(y) && |y.server.rx.processed| < |y.client.tx.written|
    requires y.client.tx.written[|y.server.rx.processed|] == CloseSendFrame
    requires InHand(y.server.rx.reader) == []
    ensures Quiet(y)
  {
    var n := |y.server.rx.processed|;
    CloseMeansAllWritten(y.client, n);
    assert y.client.tx.written[..n] == y.server.rx.processed;
  }

  /** Taking the close frame means having taken everything that was ever accepted. */
  lemma TakenCloseIsQuiet(y: System, k: nat)
    requires Inv(y) && k < |y.server.rx.processed| && y.server.rx.processed[k] == CloseSendFrame
    requires InHand(y.server.rx.reader) == []
    ensures Quiet(y)
  {
    var c, v := y.client, y.server;
    DataOfPrefix(v.rx.processed, c.tx.written);
    DataOfPrefix(v.rx.processed[..k], v.rx.processed);
    WrittenIsAccepted(c);
    CloseMeansAllWritten(c, k);
    assert c.tx.written[..k] == v.rx.processed[..k];
  }

  /** A handler that has seen the half-close mark knows that nothing is on its way. */
  lemma SeenEofIsQuiet(y: System)
    requires Inv(y) && y.server.s.inboundEOF
    ensures Quiet(y)
  {
    var c, v := y.client, y.server;
    var k := v.rx.eofAt;
    assert c.tx.written[k] == CloseSendFrame;
    if v.rx.reader.Serving? && v.rx.reader.frame.DataFrame? {
      assert false;
    }
    TakenCloseIsQuiet(y, k);
  }

  // ------------------------------------------------------- a concrete loss

  /** The writer accepts the open frame; the acknowledgement and the close frame are empty. */
  predicate Roomy(limits: Limits) {
    WireSize.NameFits(limits.nameLength, limits.maxBody)
  }

  /** The open frame is on its way. */
  lemma OpenedStream(maxBytes: nat, limits: Limits) returns (y: System)
    requires Roomy(limits)
    ensures Reachable(y)
    ensures y == System(Requesting(maxBytes, limits), Fresh(false, false, 1, maxBytes, limits), false)
  {
    var c0 := Fresh(true, false, 1, maxBytes, limits);
    var y0 := System(c0, Fresh(false, false, 1, maxBytes, limits), false);
    assert Init(y0);
    ReachesItself(y0);
    var c1 := SetPump(c0.(ctl := c0.ctl.(opener := Registered, registered := true, openPending := true)), Waiting);
    var y1 := y0.(client := c1);
    assert OpenerStep(OpenStart, c0, c1);
    ReachesByStep(y0, y0, y1, ClientSide, OpenStart);
    y := y1.(client := SetOpener(Write(c1, OpenFrame, true), Awaiting));
    assert OpenerStep(OpenWrite(true), c1, y.client);
    ReachesByStep(y0, y1, y, ClientSide, OpenWrite(true));
    assert y.client.tx.written == [OpenFrame];
  }

  /** An opener that has written its request and waits for the answer. */
  function Requesting(maxBytes: nat, limits: Limits): Endpoint {
    var c := Fresh(true, false, 1, maxBytes, limits);
    c.(ctl := c.ctl.(opener := Awaiting, registered := true, openPending := true),
       tx := c.tx.(pump := Waiting, written := [OpenFrame]))
  }

  lemma ReachableByStep(y: System, y': System, side: Side, l: Label)
    requires Reachable(y) && Next(y, y', side, l)
    ensures Reachable(y')
  {
    hide Next, Init;
    var y0 :| Init(y0) && Reaches(y0, y);
    ReachesByStep(y0, y, y', side, l);
  }

  /** The request was admitted. */
  lemma AdmittedStream(maxBytes: nat, limits: Limits) returns (y: System)
    requires Roomy(limits)
    ensures Reachable(y) && y == System(Requesting(maxBytes, limits), Admitted(maxBytes, limits), false)
  {
    hide Reachable;
    var a := OpenedStream(maxBytes, limits);
    var v := Admitted(maxBytes, limits);
    assert a.server.rx.processed + [OpenFrame] == [OpenFrame];
    assert IntakeStep(Read(OK), a.server, a.client, v);
    hide IntakeStep;
    y := a.(server := v);
    ReachableByStep(a, y, ServerSide, Read(OK));
  }

  function Admitted(maxBytes: nat, limits: Limits): Endpoint {
    var v := Fresh(false, false, 1, maxBytes, limits);
    v.(ctl := v.ctl.(registered := true), tx := v.tx.(pump := Waiting),
       rx := v.rx.(reader := Acking, processed := [OpenFrame]))
  }

  /** It was acknowledged, and its handler runs. */
  function Served(maxBytes: nat, limits: Limits): Endpoint {
    var v := Admitted(maxBytes, limits);
    v.(ctl := v.ctl.(handler := Running), tx := v.tx.(written := [AckFrame]), rx := v.rx.(reader := Ready))
  }

  lemma ServedStream(maxBytes: nat, limits: Limits) returns (y: System)
    requires Roomy(limits)
    ensures Reachable(y) && Calm(y) && y == System(Requesting(maxBytes, limits), Served(maxBytes, limits), false)
  {
    hide Reachable;
    var a := AdmittedStream(maxBytes, limits);
    var v := Served(maxBytes, limits);
    y := a.(server := v);
    assert a.server.tx.written + [AckFrame] == [AckFrame];
    assert ReaderStep(AckWrite(true), a.server, v);
    hide ReaderStep;
    ReachableByStep(a, y, ServerSide, AckWrite(true));
  }

  /** Its handler returned a failure at once, and is about to flush. */
  lemma FailedStream(maxBytes: nat, limits: Limits, err: Option<Error>) returns (y: System)
    requires Roomy(limits) && err == Some(Of(Unavailable))
    ensures Reachable(y) && Calm(y) && y.client == Requesting(maxBytes, limits)
    ensures y.server.ctl.handler == Flushing(err) && y.server.ctl.returned == Some(err)
    ensures y.server.tx.pump == Waiting && y.server.s == NewStream(1, maxBytes)
  {
    hide Reachable;
    var a := ServedStream(maxBytes, limits);
    var v0 := a.server;
    var v1 := v0.(ctl := v0.ctl.(handler := Returned(err), returned := Some(err), mark := |v0.tx.accepted|));
    var y1 := a.(server := v1);
    assert HandlerStep(HandlerReturn(err), v0, v1);
    ReachableByStep(a, y1, ServerSide, HandlerReturn(err));
    y := y1.(server := SetHandler(v1, Flushing(err)));
    assert HandlerStep(HandlerCheck, v1, y.server);
    ReachableByStep(y1, y, ServerSide, HandlerCheck);
  }

  /** Its barrier was queued and taken. */
  lemma FlushedStream(maxBytes: nat, limits: Limits, err: Option<Error>) returns (y: System)
    requires Roomy(limits) && err == Some(Of(Unavailable))
    ensures Reachable(y) && Calm(y) && y.client == Requesting(maxBytes, limits)
    ensures y.server.ctl.handler == FlushWait(err) && y.server.ctl.returned == Some(err) && y.server.tx.barrierDone
    ensures y.server.s == NewStream(1, maxBytes)
  {
    hide Reachable;
    var a := FailedStream(maxBytes, limits, err);
    var v1 := SetHandler(a.server.(s := EnqueueItem(a.server.s, BarrierItem)), FlushWait(err));
    var y1 := a.(server := v1);
    assert HandlerStep(FlushQueue, a.server, v1);
    hide HandlerStep;
    ReachableByStep(a, y1, ServerSide, FlushQueue);
    y := y1.(server := v1.(s := Dequeue(v1.s), tx := v1.tx.(barrierDone := true)));
    assert PumpStep(PumpTake, v1, y.server);
    hide PumpStep;
    ReachableByStep(y1, y, ServerSide, PumpTake);
  }

  /**
   A reachable state in which the handler returned an error on an undisturbed stream, and from
   which the session can end without the terminal frame.
   */
  lemma TerminalCanBeLost(maxBytes: nat, limits: Limits) returns (y: System)
    requires Roomy(limits)
    ensures Reachable(y) && Calm(y) && y.server.ctl.returned == Some(Some(Of(Unavailable)))
    ensures MayLoseTerminal(y)
  {
    hide Reachable;
    var err := Some(Of(Unavailable));
    var a := FlushedStream(maxBytes, limits, err);
    y := a.(server := SetHandler(a.server, Discarding(err)));
    assert HandlerStep(FlushDone, a.server, y.server);
    hide HandlerStep;
    ReachableByStep(a, y, ServerSide, FlushDone);
    ReachableKeepsCalmInv(y);
    hide Inv, CalmInv;
    NotQuietIsLost(y);
  }
}
