/**
 Concrete runs to the states that StreamReport is about: for all limits under which a stream can be
 opened at all, a failing handler whose report is certain, and one for each way of losing it. And runs
 on which an opener's message arrives, and on which its request is refused.
 */
module StreamReportRuns {
  import opened Status
  import opened Stream
  import opened StreamPair
  import opened StreamConservation
  import opened StreamTermination
  import opened StreamRace
  import opened StreamFlow
  import opened StreamProgress
  import opened StreamReport
  import opened StreamEnds
  import WireSize

  function Mine(y: System, side: Side): Endpoint {
    if side == ClientSide then y.client else y.server
  }

  function Put(y: System, side: Side, e: Endpoint): System {
    if side == ClientSide then y.(client := e) else y.(server := e)
  }

  /** One undisturbed step of one side. */
  lemma ReachableBySide(y: System, side: Side, l: Label, e': Endpoint)
    requires Reachable(y) && Calm(y) && !Disturbs(l, y.client, y.server) && !Disturbs(l, y.server, y.client)
    requires SenderStep(l, Mine(y, side), e') || PumpStep(l, Mine(y, side), e') || HandlerStep(l, Mine(y, side), e')
    requires !e'.ctl.down
    ensures Reachable(Put(y, side, e')) && Calm(Put(y, side, e'))
  {
    hide Reachable, SenderStep, PumpStep, HandlerStep, Disturbs;
    ReachableByStep(y, Put(y, side, e'), side, l);
  }

  /** CloseSend on an idle stream of depth one queues its marker. */
  lemma QueuesClose(y: System, side: Side) returns (z: System)
    requires var e := Mine(y, side); Usable(e.ctl) && e.s.outbound == [] && e.s.depth == 1 && e.tx.closer == NotCalled
    requires Reachable(y) && Calm(y)
    ensures Reachable(z) && Calm(z)
    ensures var e := Mine(y, side);
            z == Put(y, side, e.(tx := e.tx.(closer := Queued), s := e.s.(sendClosed := true, outbound := [CloseItem])))
  {
    hide Reachable;
    var e := Mine(y, side);
    var e1 := e.(tx := e.tx.(closer := Marked), s := MarkSendClosed(e.s));
    assert SenderStep(CloseStart, e, e1);
    ReachableBySide(y, side, CloseStart, e1);
    var e2 := e1.(tx := e1.tx.(closer := Queued), s := EnqueueItem(e1.s, CloseItem));
    assert SenderStep(StreamPair.CloseQueue, e1, e2);
    ReachableBySide(Put(y, side, e1), side, StreamPair.CloseQueue, e2);
    z := Put(y, side, e2);
  }

  /** The pump writes it. */
  lemma WritesClose(y: System, side: Side) returns (z: System)
    requires var e := Mine(y, side); e.s.outbound == [CloseItem] && e.tx.pump == Waiting
    requires Reachable(y) && Calm(y)
    ensures Reachable(z) && Calm(z) && z == Put(y, side, Mine(z, side))
    ensures var e, e' := Mine(y, side), Mine(z, side);
            && e'.ctl == e.ctl && e'.rx == e.rx && e'.s == e.s.(outbound := [])
            && e'.tx.written == e.tx.written + [CloseSendFrame] && e'.tx.accepted == e.tx.accepted
            && e'.tx.limits == e.tx.limits
  {
    hide Reachable;
    var e := Mine(y, side);
    var e1 := SetPump(e.(s := Dequeue(e.s)), Writing(CloseItem));
    assert PumpStep(PumpTake, e, e1);
    ReachableBySide(y, side, PumpTake, e1);
    var w := Write(e1, CloseSendFrame, true);
    var e2 := w.(tx := w.tx.(pump := Stopped([]), closeReport := Some(None)));
    assert PumpStep(PumpWrite(true), e1, e2);
    ReachableBySide(Put(y, side, e1), side, PumpWrite(true), e2);
    z := Put(y, side, e2);
  }

  /** An opener that has learnt that its stream is open. */
  function Opened(maxBytes: nat, limits: Limits): Endpoint {
    var c := Requesting(maxBytes, limits);
    c.(ctl := c.ctl.(opener := Established, verdict := Some(Accept), openPending := false),
       rx := c.rx.(processed := [AckFrame]))
  }

  lemma OpenerIsAccepted(maxBytes: nat, limits: Limits) returns (y: System)
    requires Roomy(limits)
    ensures Reachable(y) && Calm(y) && y == System(Opened(maxBytes, limits), Served(maxBytes, limits), false)
  {
    hide Reachable;
    y := ServedStream(maxBytes, limits);
    var c := y.client;
    var c1 := c.(ctl := c.ctl.(verdict := Some(Accept), openPending := false), rx := c.rx.(processed := [AckFrame]));
    assert c.rx.processed + [AckFrame] == [AckFrame];
    assert IntakeStep(Read(OK), c, y.server, c1);
    var y1 := y.(client := c1);
    ReachableByStep(y, y1, ClientSide, Read(OK));
    var c2 := c1.(ctl := c1.ctl.(opener := Established));
    assert OpenerStep(OpenAccepted, c1, c2);
    y := y1.(client := c2);
    ReachableByStep(y1, y, ClientSide, OpenAccepted);
  }

  /** The opener half-closes its stream. */
  lemma OpenerHalfCloses(maxBytes: nat, limits: Limits) returns (y: System)
    requires Roomy(limits)
    ensures Reachable(y) && Calm(y) && y.server == Served(maxBytes, limits) && y.client.s.depth == 1
    ensures y.client.tx.written == [OpenFrame, CloseSendFrame]
  {
    hide Reachable;
    y := OpenerIsAccepted(maxBytes, limits);
    y := QueuesClose(y, ClientSide);
    y := WritesClose(y, ClientSide);
    assert [OpenFrame] + [CloseSendFrame] == [OpenFrame, CloseSendFrame];
  }

  /** A handler that runs, and whose stream carries the end-of-file mark. */
  function AtEof(maxBytes: nat, limits: Limits): Endpoint {
    var v := Served(maxBytes, limits);
    v.(s := HalfClose(v.s), rx := v.rx.(processed := [OpenFrame, CloseSendFrame], eofAt := 1))
  }

  lemma HandlerSeesEof(maxBytes: nat, limits: Limits) returns (y: System)
    requires Roomy(limits)
    ensures Reachable(y) && Calm(y) && Quiet(y) && y.server == AtEof(maxBytes, limits) && y.client.s.depth == 1
  {
    hide Reachable;
    var a := OpenerHalfCloses(maxBytes, limits);
    var v := a.server;
    var v1 := v.(rx := v.rx.(reader := Serving(CloseSendFrame), processed := [OpenFrame, CloseSendFrame]));
    assert v.rx.processed + [CloseSendFrame] == [OpenFrame, CloseSendFrame];
    assert IntakeStep(Read(OK), v, a.client, v1);
    var y1 := a.(server := v1);
    ReachableByStep(a, y1, ServerSide, Read(OK));
    y := y1.(server := AtEof(maxBytes, limits));
    assert IntakeStep(Serve(false), v1, a.client, y.server);
    hide IntakeStep;
    ReachableByStep(y1, y, ServerSide, Serve(false));
    ReachableKeepsInv(y);
    hide Inv;
    SeenEofIsQuiet(y);
  }

  /** The handler returns an error. */
  lemma HandlerFails(y: System) returns (z: System)
    requires Reachable(y) && Calm(y) && Quiet(y) && y.server.ctl.handler == Running
    ensures Reachable(z) && Calm(z) && Quiet(z) && z.client == y.client
    ensures z.server == y.server.(ctl := z.server.ctl) && z.server.ctl.handler == Returned(Some(Of(Unavailable)))
    ensures z.server.ctl.returned == Some(Some(Of(Unavailable)))
  {
    hide Reachable;
    var v, err := y.server, Some(Of(Unavailable));
    var v1 := v.(ctl := v.ctl.(handler := Returned(err), returned := Some(err), mark := |v.tx.accepted|));
    assert HandlerStep(HandlerReturn(err), v, v1);
    hide HandlerStep;
    ReachableBySide(y, ServerSide, HandlerReturn(err), v1);
    z := Put(y, ServerSide, v1);
  }

  /**
   A handler that has received io.EOF and returns an error without having sent anything: the error
   is certain to be reported exactly when the limit leaves room for its terminal frame.
   */
  lemma PlainFailure(maxBytes: nat, limits: Limits) returns (y: System)
    requires Roomy(limits)
    ensures Reachable(y) && Calm(y) && Quiet(y) && y.server.ctl.handler == Returned(Some(Of(Unavailable)))
    ensures y.server.tx.limits == limits && y.server.s.maxBytes == maxBytes
    ensures ReportIsCertain(y) <==> WireSize.EndFits(UNAVAILABLE, limits.maxBody)
  {
    hide Reachable, ReportIsCertain, Quiet;
    y := HandlerSeesEof(maxBytes, limits);
    y := HandlerFails(y);
    ReturnIsReportedIff(y);
    UnavailableIsAFailure();
  }

  lemma UnavailableIsAFailure()
    ensures !Clean(Some(Of(Unavailable))) && EndCode(Some(Of(Unavailable))) == UNAVAILABLE
  {
  }

  /**
   A quiet state, in which nothing of the opener is on its way, whose failure is nevertheless never
   reported: both sides half-closed and then the handler returned an error.
   */
  lemma FailureAfterHalfClose(maxBytes: nat, limits: Limits) returns (y: System)
    requires Roomy(limits)
    ensures Reachable(y) && Calm(y) && Quiet(y) && y.server.ctl.returned == Some(Some(Of(Unavailable)))
    ensures forall z :: Reaches(y, z) && !z.fault ==> NoEnd(z.server.tx.written) && Calm(z)
    ensures !ReportIsCertain(y)
  {
    hide Reachable, Reaches, NoEnd, Quiet;
    y := HandlerSeesEof(maxBytes, limits);
    y := QueuesClose(y, ServerSide);
    y := WritesClose(y, ServerSide);
    assert Quiet(y) by { ReachableKeepsInv(y); hide Inv; SeenEofIsQuiet(y); }
    y := HandlerFails(y);
    UnavailableIsAFailure();
    forall z | Reaches(y, z) && !z.fault ensures NoEnd(z.server.tx.written) && Calm(z) {
      HalfClosedFailureIsNeverReported(y, z);
    }
    FollowsItself(y);
  }

  /**
   Whenever the limit on stream messages is above what the frame writer accepts -- as when the two
   limits are equal -- a quiet state whose failure is never reported: the handler sent one message
   that Send accepted, and returned an error without having half-closed.
   */
  lemma FailureAfterOversizedMessage(maxBytes: nat, limits: Limits) returns (y: System)
    requires Roomy(limits) && maxBytes > WireSize.DataFit(limits.maxBody)
    ensures Reachable(y) && Calm(y) && Quiet(y) && y.server.ctl.returned == Some(Some(Of(Unavailable)))
    ensures !y.server.s.sendClosed && y.server.s.maxBytes == maxBytes && y.server.tx.limits == limits
    ensures forall z :: Reaches(y, z) && !z.fault ==> NoEnd(z.server.tx.written)
    ensures !ReportIsCertain(y)
  {
    hide Reachable, Reaches, NoEnd, Quiet;
    y := HandlerSeesEof(maxBytes, limits);
    y := HandlerSends(y, seq(maxBytes, _ => 0));
    y := HandlerFails(y);
    assert !MessagesFit(y.server) by {
      assert y.server.s.outbound[0].DataItem? && |y.server.s.outbound[0].message| == maxBytes;
    }
    forall z | Reaches(y, z) && !z.fault ensures NoEnd(z.server.tx.written) {
      OversizedReturnIsNeverReported(y, z);
    }
    FollowsItself(y);
  }

  lemma HandlerSends(y: System, m: Message) returns (z: System)
    requires Reachable(y) && Calm(y) && Quiet(y) && y.server.ctl.handler == Running && !y.server.ctl.client
    requires |m| <= y.server.s.maxBytes && y.server.s.outbound == [] && y.server.s.depth == 1 && !y.server.s.sendClosed
    ensures Reachable(z) && Calm(z) && Quiet(z) && z.client == y.client && z.server.ctl == y.server.ctl
    ensures z.server.s == y.server.s.(outbound := [DataItem(m)]) && z.server.tx.limits == y.server.tx.limits
  {
    hide Reachable;
    var e := y.server;
    var e1 := e.(s := e.s.(outbound := [DataItem(m)]), tx := e.tx.(accepted := e.tx.accepted + [m]));
    assert e.s.outbound + [DataItem(m)] == [DataItem(m)];
    assert SenderStep(Send(m), e, e1);
    hide SenderStep;
    ReachableBySide(y, ServerSide, Send(m), e1);
    z := Put(y, ServerSide, e1);
  }

  // ------------------------------------------------------------ a message, and a refusal

  /** The opener's message is queued. */
  lemma MessageIsQueued(m: Message, maxBytes: nat, limits: Limits) returns (y: System)
    requires Roomy(limits) && |m| <= maxBytes
    ensures Reachable(y) && Calm(y) && y.server == Served(maxBytes, limits)
    ensures var c := Opened(maxBytes, limits);
            y.client == c.(s := c.s.(outbound := [DataItem(m)]), tx := c.tx.(accepted := [m]))
  {
    hide Reachable;
    y := OpenerIsAccepted(maxBytes, limits);
    var c := y.client;
    var c1 := c.(s := c.s.(outbound := [DataItem(m)]), tx := c.tx.(accepted := [m]));
    assert c.s.outbound + [DataItem(m)] == [DataItem(m)] && c.tx.accepted + [m] == [m];
    assert SenderStep(Send(m), c, c1);
    hide SenderStep;
    ReachableBySide(y, ClientSide, Send(m), c1);
    y := Put(y, ClientSide, c1);
  }

  /** And written. */
  lemma MessageIsWritten(m: Message, maxBytes: nat, limits: Limits) returns (y: System)
    requires Roomy(limits) && |m| <= maxBytes && |m| <= WireSize.DataFit(limits.maxBody)
    ensures Reachable(y) && Calm(y) && y.server == Served(maxBytes, limits)
    ensures y.client.tx.accepted == [m] && y.client.tx.written == [OpenFrame, DataFrame(m)]
  {
    hide Reachable;
    y := MessageIsQueued(m, maxBytes, limits);
    var c1 := y.client;
    var c2 := SetPump(c1.(s := Dequeue(c1.s)), Writing(DataItem(m)));
    assert PumpStep(PumpTake, c1, c2);
    ReachableBySide(y, ClientSide, PumpTake, c2);
    var c3 := SetPump(Write(c2, DataFrame(m), true), Waiting);
    assert PumpStep(PumpWrite(true), c2, c3);
    assert [OpenFrame] + [DataFrame(m)] == [OpenFrame, DataFrame(m)];
    ReachableBySide(Put(y, ClientSide, c2), ClientSide, PumpWrite(true), c3);
    y := Put(y, ClientSide, c3);
  }

  /** Every message that fits both limits can arrive: the conservation theorems speak of real runs. */
  lemma MessageCanArrive(m: Message, maxBytes: nat, limits: Limits) returns (y: System)
    requires Roomy(limits) && |m| <= maxBytes && |m| <= WireSize.DataFit(limits.maxBody)
    ensures Reachable(y) && y.client.tx.accepted == [m] && y.server.rx.received == [m]
  {
    hide Reachable;
    var a := MessageIsWritten(m, maxBytes, limits);
    var v, frames := a.server, [OpenFrame, DataFrame(m)];
    var v1 := v.(rx := v.rx.(reader := Serving(DataFrame(m)), processed := frames));
    assert v.rx.processed + [DataFrame(m)] == frames;
    assert IntakeStep(Read(OK), v, a.client, v1);
    ReachableByStep(a, a.(server := v1), ServerSide, Read(OK));
    var v2 := v1.(rx := v1.rx.(reader := Ready), s := v1.s.(inbound := [m]));
    assert v1.s.inbound + [m] == [m];
    assert IntakeStep(Serve(false), v1, a.client, v2);
    ReachableByStep(a.(server := v1), a.(server := v2), ServerSide, Serve(false));
    var v3 := v2.(s := v2.s.(inbound := []), rx := v2.rx.(received := [m]));
    assert ConsumerStep(RecvQueue, v2, v3) by { assert v2.s.inbound[1..] == [] && v2.rx.received + [m] == [m]; }
    y := a.(server := v3);
    hide IntakeStep, ConsumerStep;
    ReachableByStep(a.(server := v2), y, ServerSide, RecvQueue);
  }

  /** A refused request: its terminal frame is the first and only one. */
  lemma RefusalIsWritten(code: StatusCode, maxBytes: nat, limits: Limits) returns (y: System)
    requires Roomy(limits) && code != OK && WireSize.EndFits(code, limits.maxBody)
    ensures Reachable(y) && y.client == Requesting(maxBytes, limits) && y.server.tx.written == [EndFrame(code)]
  {
    hide Reachable;
    var a := OpenedStream(maxBytes, limits);
    var v := a.server;
    var v1 := v.(rx := v.rx.(reader := Refusing(code), processed := [OpenFrame]));
    assert v.rx.processed + [OpenFrame] == [OpenFrame];
    assert IntakeStep(Read(code), v, a.client, v1);
    ReachableByStep(a, a.(server := v1), ServerSide, Read(code));
    var v2 := v1.(rx := v1.rx.(reader := Ready), tx := v1.tx.(written := [EndFrame(code)]));
    assert v1.tx.written + [EndFrame(code)] == [EndFrame(code)];
    assert ReaderStep(RefuseWrite(true), v1, v2);
    y := a.(server := v2);
    hide IntakeStep, ReaderStep;
    ReachableByStep(a.(server := v1), y, ServerSide, RefuseWrite(true));
  }

  /** The opener takes it. */
  lemma RefusalIsTaken(code: StatusCode, maxBytes: nat, limits: Limits) returns (y: System)
    requires Roomy(limits) && code != OK && WireSize.EndFits(code, limits.maxBody)
    ensures Reachable(y) && y.client.s == NewStream(1, maxBytes) && y.client.ctl.opener == Awaiting
    ensures y.client.ctl.verdict.Some? && y.client.ctl.verdict.value.Refuse?
    ensures TellsEnd(y.client.ctl.verdict.value.err, code)
  {
    hide Reachable, IntakeStep, TellsEnd;
    var a := RefusalIsWritten(code, maxBytes, limits);
    var c1 := TakesRefusal(a.client, a.server, code);
    y := a.(client := c1);
    ReachableByStep(a, y, ClientSide, Read(OK));
  }

  lemma TakesRefusal(c: Endpoint, v: Endpoint, code: StatusCode) returns (c1: Endpoint)
    requires c.rx.reader == Ready && c.rx.processed == [] && c.ctl.openPending && code != OK
    requires v.tx.written == [EndFrame(code)]
    ensures IntakeStep(Read(OK), c, v, c1) && c1.s == c.s && c1.ctl.opener == c.ctl.opener
    ensures c1.ctl.verdict.Some? && c1.ctl.verdict.value.Refuse? && TellsEnd(c1.ctl.verdict.value.err, code)
  {
    CodeTellsEnd(code);
    hide TellsEnd;
    c1 := c.(ctl := c.ctl.(verdict := Some(Refuse(Err(code).value)), openPending := false),
             rx := c.rx.(processed := [EndFrame(code)]));
    assert c.rx.processed + [EndFrame(code)] == [EndFrame(code)];
  }

  /** A request refused with any status can fail with exactly what that status tells. */
  lemma OpenCanBeRefused(code: StatusCode, maxBytes: nat, limits: Limits) returns (y: System)
    requires Roomy(limits) && code != OK && WireSize.EndFits(code, limits.maxBody)
    ensures Reachable(y) && y.client.ctl.opener == OpenFailed
    ensures y.client.ctl.verdict.Some? && y.client.ctl.verdict.value.Refuse?
    ensures TellsEnd(y.client.ctl.verdict.value.err, code)
    ensures y.client.s.finishErr == Some(y.client.ctl.verdict.value.err)
  {
    hide Reachable;
    hide TellsEnd;
    var a := RefusalIsTaken(code, maxBytes, limits);
    var c := a.client;
    var x := c.ctl.verdict.value.err;
    var c1 := BeginFinish(c.(ctl := c.ctl.(opener := OpenFailed, openPending := false)), Some(x));
    assert OpenerStep(OpenRefused, c, c1);
    y := a.(client := c1);
    hide OpenerStep;
    ReachableByStep(a, y, ClientSide, OpenRefused);
  }
}
