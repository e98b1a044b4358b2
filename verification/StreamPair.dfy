/**
 Two conforming endpoints that share one stream: the endpoint that opened it (the client of
 the stream) and the endpoint that serves it. Frames carrying the stream's ID travel on one
 ordered wire per direction. A `Label` names one atomic step of one goroutine: the opener,
 the goroutine that follows the caller's context, the handler, Send, CloseSend, the pump, the
 connection's single reader, finishStream, Recv, or an outside event.

 Each endpoint keeps the log of the frames it wrote and of the frames its reader took, so the
 wire from `tx` to `rx` is what `tx` wrote and `rx` has not taken yet.
 */
module StreamPair {
  import opened Status
  import opened Stream
  import Session
  import WireSize

  datatype Frame =
    | OpenFrame
    | AckFrame
    | DataFrame(message: Message)
    | CloseSendFrame
    | EndFrame(code: StatusCode)

  /** NotStarted until the stream is established; Stopped keeps the message of a failed write. */
  datatype Pump = NotStarted | Waiting | Writing(item: Item) | Stopped(lost: seq<Message>)

  datatype Verdict = Accept | Refuse(err: Error)

  /** OpenStream, and afterwards the goroutine that follows the caller's context. */
  datatype Opener =
    | NotOpened | Registered | Awaiting | Established
    | Abandoning | Following | Notifying | GaveUp | OpenFailed

  /** The goroutine that serves an inbound stream. */
  datatype Handler =
    | Absent | Running | Returned(err: Option<Error>)
    | ClosingSend(err: Option<Error>) | Flushing(err: Option<Error>) | FlushWait(err: Option<Error>)
    | Discarding(err: Option<Error>) | Reporting(err: Option<Error>) | Over

  /** The connection's reader. */
  datatype Reader =
    | Ready | Serving(frame: Frame) | Settling | Oversized
    | Acking | Refusing(code: StatusCode) | ReaderStopped

  /** What Recv returned when it did not return a message. */
  datatype RecvEnd = Eof | Terminated(err: Error)

  /**
   Control state: whether the context the stream was derived from is done and by a deadline, the
   registries, what the session ended with, the opener and the serving goroutine.
   */
  datatype Control = Control(
    client: bool,
    deadline: bool,
    callerDone: bool,
    registered: bool,
    down: bool,
    terminal: Option<Error>,
    opener: Opener,
    openPending: bool,
    verdict: Option<Verdict>,
    handler: Handler,
    returned: Option<Option<Error>>,
    mark: nat)

  /** What the frame writer goes by: its body limit, and the length of the stream's method name. */
  datatype Limits = Limits(maxBody: nat, nameLength: nat)

  /** The sending direction: the pump, CloseSend, and what was accepted and written. */
  datatype Tx = Tx(
    limits: Limits,
    pump: Pump,
    closer: Closer,
    closeReport: Option<Option<Error>>,
    barrierDone: bool,
    accepted: seq<Message>,
    written: seq<Frame>)

  /** The receiving direction: the reader, the Recv calls, and what each of them took. */
  datatype Rx = Rx(
    reader: Reader,
    settling: nat,
    processed: seq<Frame>,
    received: seq<Message>,
    ends: seq<RecvEnd>,
    eofAt: int,
    endAt: int)

  datatype Endpoint = Endpoint(ctl: Control, s: StreamState, tx: Tx, rx: Rx)

  datatype System = System(client: Endpoint, server: Endpoint, fault: bool)

  function Fresh(client: bool, deadline: bool, depth: nat, maxBytes: nat, limits: Limits): Endpoint {
    Endpoint(Control(client, deadline, false, false, false, None, NotOpened, false, None, Absent, None, 0),
             NewStream(depth, maxBytes),
             Tx(limits, NotStarted, NotCalled, None, false, [], []),
             Rx(Ready, 0, [], [], [], 0, 0))
  }

  /** Equal limits on both sides; each context will end by cancellation or by its deadline. */
  ghost predicate Init(y: System) {
    exists depth: nat, maxBytes: nat, limits, byDeadline, byDeadline' ::
      y == System(Fresh(true, byDeadline, depth, maxBytes, limits),
                  Fresh(false, byDeadline', depth, maxBytes, limits), false)
  }

  // -------------------------------------------------------------------- steps

  datatype Label =
    | OpenStart | OpenWrite(ok: bool) | OpenAccepted | OpenRefused | OpenAbandon | OpenNotify(ok: bool)
    | FollowCheck | FollowDiscard | FollowNotify(ok: bool)
    | HandlerReturn(err: Option<Error>) | HandlerCheck | HandlerClosed
    | FlushQueue | FlushDone | FlushAbort | HandlerDiscard | HandlerReport(ok: bool)
    | Send(message: Message) | CloseStart | CloseQueue | CloseAck | CloseAbort
    | PumpTake | PumpWrite(ok: bool) | PumpQuit
    | Read(refusal: StatusCode) | AckWrite(ok: bool) | RefuseWrite(ok: bool)
    | Serve(takeCancel: bool) | ServeDone | OversizedWrite(ok: bool) | ReadFail
    | FinishQueue
    | RecvQueue | RecvObserve | RecvSettle | RecvReport
    | Cancel | Shutdown(cause: Option<Error>)

  predicate Clean(err: Option<Error>) {
    err.None? || Is(err.value, StreamClosed)
  }

  /** What the stream's context reports once it is done: the caller's deadline, or that it was cancelled. */
  function CtxErr(c: Control): Error {
    Of(if c.callerDone && c.deadline then DeadlineExceeded else Canceled)
  }

  /** The user of this endpoint holds the stream. */
  predicate Usable(c: Control) {
    if c.client then c.opener in {Established, Following, Notifying, GaveUp} else c.handler != Absent
  }

  /** The cause end gives to the streams: an orderly end is none. */
  function StreamCause(cause: Option<Error>): Option<Error> {
    if cause.Some? && Is(cause.value, EndOfFile) then None else cause
  }

  /**
   Session.end as one stream sees it: the first cause is recorded, the stream leaves the registry, a
   pending open is settled, the stream is finished, and a served stream's context ends with the
   session's.
   */
  function EndSession(e: Endpoint, cause: Option<Error>): Endpoint {
    var c := e.ctl;
    var terminal := if c.terminal.Some? then c.terminal.value else Session.TerminalOf(cause);
    var s1 := if c.registered then FinishBegin(e.s, StreamCause(cause)) else e.s;
    e.(ctl := c.(down := true, terminal := Some(terminal), registered := false, openPending := false,
                 verdict := if c.openPending && c.verdict.None? then Some(Refuse(terminal)) else c.verdict),
       s := if c.client then s1 else s1.(cancelled := true))
  }

  /** What a write fails with: the writer's refusal, or the transport's failure. */
  function WriteError(e: Endpoint, f: Frame): Error {
    Of(if Writable(e, f) then ConnectionClosed else MessageTooLarge)
  }

  /** writeFrame: the frame reaches the wire whole, or the session ends. */
  function Write(e: Endpoint, f: Frame, ok: bool): Endpoint {
    if ok then e.(tx := e.tx.(written := e.tx.written + [f]))
    else EndSession(e, Some(WriteError(e, f)))
  }

  /** The frame writer accepts a frame: its encoded body is within the limit. */
  predicate Writable(e: Endpoint, f: Frame) {
    match f
    case OpenFrame => WireSize.NameFits(e.tx.limits.nameLength, e.tx.limits.maxBody)
    case DataFrame(m) => |m| <= WireSize.DataFit(e.tx.limits.maxBody)
    case EndFrame(code) => WireSize.EndFits(code, e.tx.limits.maxBody)
    case _ => true
  }

  predicate CanWrite(e: Endpoint, f: Frame, ok: bool) {
    ok ==> !e.ctl.down && Writable(e, f)
  }

  function FrameOf(item: Item): Frame {
    match item
    case DataItem(m) => DataFrame(m)
    case _ => CloseSendFrame
  }

  function EndCode(err: Option<Error>): StatusCode {
    if Clean(err) then OK else StatusOf(err)
  }

  function SetOpener(e: Endpoint, opener: Opener): Endpoint {
    e.(ctl := e.ctl.(opener := opener))
  }

  function SetHandler(e: Endpoint, handler: Handler): Endpoint {
    e.(ctl := e.ctl.(handler := handler))
  }

  function SetPump(e: Endpoint, pump: Pump): Endpoint {
    e.(tx := e.tx.(pump := pump))
  }

  function SetReader(e: Endpoint, reader: Reader): Endpoint {
    e.(rx := e.rx.(reader := reader))
  }

  function BeginFinish(e: Endpoint, err: Option<Error>): Endpoint {
    e.(s := FinishBegin(e.s, err))
  }

  /** notifyCancelled: the status of the context's error. */
  function Notice(c: Control): Frame {
    EndFrame(StatusOf(Some(CtxErr(c))))
  }

  /** OpenStream and followStreamContext. */
  ghost predicate OpenerStep(l: Label, e: Endpoint, e': Endpoint) {
    var c := e.ctl;
    match l
    case OpenStart =>
      && c.client && c.opener == NotOpened && !c.down
      && e' == SetPump(e.(ctl := c.(opener := Registered, registered := true, openPending := true)), Waiting)
    case OpenWrite(ok) =>
      && c.opener == Registered && CanWrite(e, OpenFrame, ok)
      && e' == if ok then SetOpener(Write(e, OpenFrame, ok), Awaiting)
               else BeginFinish(SetOpener(Write(e, OpenFrame, ok), OpenFailed), Some(WriteError(e, OpenFrame)))
    case OpenAccepted =>
      && c.opener == Awaiting && c.verdict == Some(Accept)
      && e' == e.(ctl := c.(opener := Established, openPending := false))
    case OpenRefused =>
      && c.opener == Awaiting && c.verdict.Some? && c.verdict.value.Refuse?
      && e' == BeginFinish(e.(ctl := c.(opener := OpenFailed, openPending := false)), Some(c.verdict.value.err))
    case OpenAbandon =>
      && c.opener == Awaiting && c.callerDone
      && e' == BeginFinish(SetOpener(e, Abandoning), Some(CtxErr(c)))
    case OpenNotify(ok) =>
      && c.opener == Abandoning && e.s.stage == Finished && CanWrite(e, Notice(c), ok)
      && var e1 := Write(e, Notice(c), ok);
         e' == e1.(ctl := e1.ctl.(opener := OpenFailed, openPending := false))
    case FollowCheck =>
      && c.opener == Established && e.s.cancelled && c.registered
      && e' == SetOpener(e, Following)
    case FollowDiscard =>
      && c.opener == Following
      && e' == BeginFinish(e.(ctl := c.(opener := Notifying, registered := false)), Some(CtxErr(c)))
    case FollowNotify(ok) =>
      && c.opener == Notifying && e.s.stage == Finished && CanWrite(e, Notice(c), ok)
      && e' == SetOpener(Write(e, Notice(c), ok), GaveUp)
    case _ => false
  }

  /** The goroutine that serves an inbound stream. */
  ghost predicate HandlerStep(l: Label, e: Endpoint, e': Endpoint) {
    var c, h := e.ctl, e.ctl.handler;
    match l
    case HandlerReturn(err) =>
      && h == Running
      && e' == e.(ctl := c.(handler := Returned(err), returned := Some(err), mark := |e.tx.accepted|))
    case HandlerCheck =>
      && h.Returned?
      && e' == SetHandler(e, if !c.registered then Over
                             else if Clean(h.err) then ClosingSend(h.err)
                             else Flushing(h.err))
    case HandlerClosed =>
      && h.ClosingSend? && e.tx.closer.Closed?
      && e' == SetHandler(e, Discarding(if e.tx.closer.err.Some? then e.tx.closer.err else h.err))
    case FlushQueue =>
      && h.Flushing? && HasRoom(e.s)
      && e' == SetHandler(e.(s := EnqueueItem(e.s, BarrierItem)), FlushWait(h.err))
    case FlushDone =>
      && h.FlushWait? && e.tx.barrierDone
      && e' == SetHandler(e, Discarding(h.err))
    case FlushAbort =>
      && (h.Flushing? || h.FlushWait?) && e.s.cancelled
      && e' == SetHandler(e, Discarding(Some(CtxErr(c))))
    case HandlerDiscard =>
      && h.Discarding?
      && e' == BeginFinish(e.(ctl := c.(handler := Reporting(h.err), registered := false)),
                           if Clean(h.err) then None else h.err)
    case HandlerReport(ok) =>
      && h.Reporting? && e.s.stage == Finished && CanWrite(e, EndFrame(EndCode(h.err)), ok)
      && e' == SetHandler(Write(e, EndFrame(EndCode(h.err)), ok), Over)
    case _ => false
  }

  /** Send and the body of CloseSend. */
  ghost predicate SenderStep(l: Label, e: Endpoint, e': Endpoint) {
    match l
    case Send(m) =>
      && Usable(e.ctl) && |m| <= e.s.maxBytes
      && var (s', r) := Enqueue(e.s, m);
         e' == e.(s := s', tx := if r == Accepted then e.tx.(accepted := e.tx.accepted + [m]) else e.tx)
    case CloseStart =>
      && Usable(e.ctl) && e.tx.closer == NotCalled
      && e' == e.(tx := e.tx.(closer := Marked), s := MarkSendClosed(e.s))
    case CloseQueue =>
      && e.tx.closer == Marked && HasRoom(e.s)
      && e' == e.(tx := e.tx.(closer := Queued), s := EnqueueItem(e.s, CloseItem))
    case CloseAck =>
      && e.tx.closer == Queued && e.tx.closeReport.Some?
      && e' == e.(tx := e.tx.(closer := Closed(e.tx.closeReport.value)))
    case CloseAbort =>
      && (e.tx.closer == Marked || e.tx.closer == Queued) && e.s.cancelled
      && e' == e.(tx := e.tx.(closer := Closed(AfterTerminal(e.s, CtxErr(e.ctl)))))
    case _ => false
  }

  ghost predicate PumpStep(l: Label, e: Endpoint, e': Endpoint) {
    match l
    case PumpTake =>
      && e.tx.pump == Waiting && e.s.outbound != []
      && e' == e.(s := Dequeue(e.s),
                  tx := if e.s.outbound[0] == BarrierItem then e.tx.(barrierDone := true)
                        else e.tx.(pump := Writing(e.s.outbound[0])))
    case PumpWrite(ok) =>
      && e.tx.pump.Writing? && CanWrite(e, FrameOf(e.tx.pump.item), ok)
      && (match e.tx.pump.item
          case DataItem(m) => e' == SetPump(Write(e, DataFrame(m), ok), if ok then Waiting else Stopped([m]))
          case _ =>
            var e1 := Write(e, CloseSendFrame, ok);
            e' == e1.(tx := e1.tx.(pump := Stopped([]),
                                   closeReport := Some(if ok then None else Some(Of(ConnectionClosed))))))
    case PumpQuit =>
      && e.tx.pump == Waiting && e.s.cancelled
      && e' == SetPump(e, Stopped([]))
    case _ => false
  }

  /** dispatchScoped for one frame, after the frame left the wire. */
  function Dispatch(e: Endpoint, f: Frame, refusal: StatusCode): Endpoint {
    var c := e.ctl;
    match f
    case OpenFrame =>
      if c.client then SetReader(EndSession(e, Some(Of(ProtocolViolation))), ReaderStopped)
      else if refusal != OK then SetReader(e, Refusing(refusal))
      else SetReader(SetPump(e.(ctl := c.(registered := true)), Waiting), Acking)
    case AckFrame =>
      if c.openPending then e.(ctl := c.(verdict := Some(Accept), openPending := false)) else e
    case EndFrame(code) =>
      if c.openPending then
        var failure := Err(code);
        e.(ctl := c.(verdict := Some(if failure.None? then Accept else Refuse(failure.value)),
                     openPending := false))
      else if c.registered then SetReader(e.(ctl := c.(registered := false)), Serving(f))
      else e
    case _ =>
      if c.openPending then SetReader(EndSession(e, Some(Of(ProtocolViolation))), ReaderStopped)
      else if c.registered then SetReader(e, Serving(f))
      else e
  }

  function EndFailure(code: StatusCode): Error {
    if code == OK then Of(StreamClosed) else Err(code).value
  }

  /** serveFrame for a frame whose stream was found. */
  ghost predicate ServeStep(e: Endpoint, e': Endpoint, takeCancel: bool)
    requires e.rx.reader.Serving?
  {
    match e.rx.reader.frame
    case DataFrame(message) =>
      var (s', r) := DeliverTo(e.s, message, takeCancel, CtxErr(e.ctl));
      (match r
       case Delivered => e' == SetReader(e.(s := s'), Ready)
       case Blocked => false
       case Failed(err) =>
         e' == if err == Of(MessageTooLarge) then SetReader(BeginFinish(e, Some(err)), Oversized)
               else SetReader(EndSession(e, Some(err)), ReaderStopped))
    case CloseSendFrame =>
      e' == e.(s := HalfClose(e.s),
               rx := e.rx.(reader := Ready,
                           eofAt := if e.s.inboundClosed then e.rx.eofAt else |e.rx.processed| - 1))
    case EndFrame(code) =>
      e' == BeginFinish(e, Some(EndFailure(code))).(
              rx := e.rx.(reader := Settling, endAt := |e.rx.processed| - 1))
    case _ => false
  }

  /** The connection's single reader takes a frame, or serves the frame it holds. */
  ghost predicate IntakeStep(l: Label, e: Endpoint, p: Endpoint, e': Endpoint) {
    var rx := e.rx;
    match l
    case Read(refusal) =>
      && rx.reader == Ready && |rx.processed| < |p.tx.written|
      && var f := p.tx.written[|rx.processed|];
         var e1 := Dispatch(e, f, refusal);
         e' == e1.(rx := e1.rx.(processed := rx.processed + [f]))
    case Serve(takeCancel) => rx.reader.Serving? && ServeStep(e, e', takeCancel)
    case _ => false
  }

  /** What the reader does between two frames: replies, waiting for finishStream, giving up. */
  ghost predicate ReaderStep(l: Label, e: Endpoint, e': Endpoint) {
    var rx := e.rx;
    match l
    case AckWrite(ok) =>
      && rx.reader == Acking && CanWrite(e, AckFrame, ok)
      && var e1 := SetReader(Write(e, AckFrame, ok), Ready);
         e' == if ok then SetHandler(e1, Running)
               else BeginFinish(e1.(ctl := e1.ctl.(registered := false)), Some(WriteError(e, AckFrame)))
    case RefuseWrite(ok) =>
      && rx.reader.Refusing? && CanWrite(e, EndFrame(rx.reader.code), ok)
      && e' == SetReader(Write(e, EndFrame(rx.reader.code), ok), Ready)
    case ServeDone => rx.reader == Settling && e.s.stage == Finished && e' == SetReader(e, Ready)
    case OversizedWrite(ok) =>
      && rx.reader == Oversized && e.s.stage == Finished && CanWrite(e, EndFrame(MESSAGE_TOO_LARGE), ok)
      && e' == SetReader(Write(e, EndFrame(MESSAGE_TOO_LARGE), ok), Ready)
    case ReadFail =>
      && rx.reader == Ready
      && e' == SetReader(EndSession(e, None), ReaderStopped)
    case _ => false
  }

  /** Recv, the second phase of finishStream, and events from outside the two engines. */
  ghost predicate ConsumerStep(l: Label, e: Endpoint, e': Endpoint) {
    var rx := e.rx;
    match l
    case RecvQueue =>
      && Usable(e.ctl)
      && var (s', r) := RecvFrom(e.s);
         (match r
          case Received(m) => e' == e.(s := s', rx := rx.(received := rx.received + [m]))
          case EndOfStream => e' == e.(rx := rx.(ends := rx.ends + [Eof]))
          case Ended(err) => e' == e.(rx := rx.(ends := rx.ends + [Terminated(err)]))
          case WouldBlock => false)
    case RecvObserve =>
      && Usable(e.ctl) && e.s.cancelled && e.s.inbound == [] && !e.s.inboundClosed
      && e' == e.(rx := rx.(settling := rx.settling + 1))
    case RecvSettle =>
      && rx.settling > 0
      && e' == BeginFinish(e, Some(if e.ctl.terminal.Some? then e.ctl.terminal.value else Of(Canceled)))
    case RecvReport =>
      && rx.settling > 0 && e.s.stage == Finished
      && e' == e.(rx := rx.(settling := rx.settling - 1, ends := rx.ends + [Terminated(Terminal(e.s))]))
    case FinishQueue => e.s.stage == Closing && e' == e.(s := FinishClose(e.s))
    case Cancel =>
      e' == e.(ctl := e.ctl.(callerDone := true, deadline := e.ctl.deadline && (e.ctl.callerDone || !e.s.cancelled)),
               s := e.s.(cancelled := true))
    case Shutdown(cause) => e' == EndSession(e, cause)
    case _ => false
  }

  ghost predicate Step(l: Label, e: Endpoint, p: Endpoint, e': Endpoint) {
    || OpenerStep(l, e, e')
    || HandlerStep(l, e, e')
    || SenderStep(l, e, e')
    || PumpStep(l, e, e')
    || IntakeStep(l, e, p, e')
    || ReaderStep(l, e, e')
    || ConsumerStep(l, e, e')
  }

  /** The frame a step writes, if it writes one. */
  function Outgoing(l: Label, e: Endpoint): Option<Frame> {
    match l
    case OpenWrite(_) => if e.ctl.opener == Registered then Some(OpenFrame) else None
    case OpenNotify(_) => if e.ctl.opener == Abandoning then Some(Notice(e.ctl)) else None
    case FollowNotify(_) => if e.ctl.opener == Notifying then Some(Notice(e.ctl)) else None
    case HandlerReport(_) => if e.ctl.handler.Reporting? then Some(EndFrame(EndCode(e.ctl.handler.err))) else None
    case PumpWrite(_) => if e.tx.pump.Writing? then Some(FrameOf(e.tx.pump.item)) else None
    case AckWrite(_) => Some(AckFrame)
    case RefuseWrite(_) => if e.rx.reader.Refusing? then Some(EndFrame(e.rx.reader.code)) else None
    case OversizedWrite(_) => if e.rx.reader == Oversized then Some(EndFrame(MESSAGE_TOO_LARGE)) else None
    case _ => None
  }

  /** The endpoint's own frame writer refuses the frame, which ends the session. */
  predicate TooLarge(l: Label, e: Endpoint) {
    Outgoing(l, e).Some? && !Writable(e, Outgoing(l, e).value)
  }

  /** A write that fails although the writer accepts the frame: the transport has failed. */
  predicate TransportFails(l: Label, e: Endpoint, ok: bool) {
    !ok && !e.ctl.down && !TooLarge(l, e)
  }

  /**
   A step that nothing on this stream causes: a cancellation, a failed transport, or a shutdown --
   by its user, by the keep-alive, or because of another call or stream on the same session.
   */
  predicate Disturbs(l: Label, e: Endpoint, p: Endpoint) {
    match l
    case OpenWrite(ok) => TransportFails(l, e, ok)
    case OpenNotify(ok) => TransportFails(l, e, ok)
    case FollowNotify(ok) => TransportFails(l, e, ok)
    case HandlerReport(ok) => TransportFails(l, e, ok)
    case PumpWrite(ok) => TransportFails(l, e, ok)
    case AckWrite(ok) => TransportFails(l, e, ok)
    case RefuseWrite(ok) => TransportFails(l, e, ok)
    case OversizedWrite(ok) => TransportFails(l, e, ok)
    case ReadFail => !p.ctl.down
    case Cancel => true
    case Shutdown(_) => true
    case _ => false
  }

  datatype Side = ClientSide | ServerSide

  ghost predicate Next(y: System, y': System, side: Side, l: Label) {
    match side
    case ClientSide =>
      && Step(l, y.client, y.server, y'.client)
      && y'.server == y.server
      && y'.fault == (y.fault || Disturbs(l, y.client, y.server))
    case ServerSide =>
      && Step(l, y.server, y.client, y'.server)
      && y'.client == y.client
      && y'.fault == (y.fault || Disturbs(l, y.server, y.client))
  }

  datatype Move = Move(side: Side, step: Label)

  /** `run` is a sequence of states starting in `run[0]`, one step of either endpoint apart. */
  ghost predicate IsRun(run: seq<System>, moves: seq<Move>) {
    && |run| == |moves| + 1
    && forall i :: 0 <= i < |moves| ==> Next(run[i], run[i + 1], moves[i].side, moves[i].step)
  }

  ghost predicate Reaches(y: System, z: System) {
    exists run, moves :: IsRun(run, moves) && run[0] == y && run[|run| - 1] == z
  }

  ghost predicate Reachable(y: System) {
    exists y0 :: Init(y0) && Reaches(y0, y)
  }

  lemma ReachesItself(y: System)
    ensures Reaches(y, y)
  {
    assert IsRun([y], []);
  }

  lemma ReachesByStep(y: System, z: System, z': System, side: Side, l: Label)
    requires Reaches(y, z) && Next(z, z', side, l)
    ensures Reaches(y, z')
  {
    hide Next;
    var run, moves :| IsRun(run, moves) && run[0] == y && run[|run| - 1] == z;
    assert IsRun(run + [z'], moves + [Move(side, l)]);
  }
}
