/**
 One endpoint of a session as a step system: the callers of Call and OpenStream, the single
 reader, any number of concurrent `end` invocations, and the goroutines that serve inbound
 calls. Inbound frames are arbitrary unless a theorem says that they come from a conforming
 peer. Each label is what one goroutine does between two lock, channel or write operations. A
 write that fails ends the session: that invocation of `end` is an EndStart, which any goroutine
 may begin at any time.

 `emitted` and `consumed` are the frames this endpoint wrote and its reader took, in order.
 */
module Engine {
  import opened Status
  import opened Session

  datatype Call = Call(name: Bytes, payload: Bytes)

  /** A frame as dispatch sees it; None or Undecodable stands for a body that does not decode. */
  datatype Frame =
    | OpenCall(id: Id, request: Option<Call>)
    | CallResult(id: Id, result: Option<Bytes>)
    | OpenStream(id: Id, name: Option<Bytes>)
    | StreamAck(id: Id)
    | Data(id: Id)
    | CloseSend(id: Id)
    | StreamEnd(id: Id, body: FailureBody)
    | CloseSession

  // ------------------------------------------------------------------ state

  datatype Kind = CallKind(call: Call) | StreamKind(name: Bytes)

  /** Where the goroutine that runs Call or OpenStream is. */
  datatype Phase = Allocated | Registered | Waiting | Notifying | Leaving | Gone

  datatype Outcome = Answer(payload: Bytes) | Accepted | Failed(err: Error)

  datatype Request = Request(kind: Kind, phase: Phase, result: Option<Outcome>)

  /** Who sent a value on an outcome channel: the reader for a frame it took, or `end`. */
  datatype Source = FromFrame(index: nat) | FromEnd

  datatype Settlement = Settlement(outcome: Outcome, source: Source)

  datatype Callers = Callers(
    issued: nat,
    requests: map<Id, Request>,
    sent: map<Id, seq<Settlement>>)

  /** One invocation of end: after cancelling the context, after closing the transport, settling. */
  datatype Ender =
    | EndCancelled(cause: Option<Error>)
    | EndClosed(cause: Option<Error>)
    | EndSettling(waiters: set<Id>, failure: Error, tickets: set<Ticket>)

  datatype Net = Net(cancelled: bool, closed: bool, emitted: seq<Frame>, consumed: seq<Frame>)

  datatype Reader =
    | Idle
    | Settling(id: Id, outcome: Outcome, fails: bool)
    | Deciding
    | Refusing(id: Id, code: StatusCode)
    | Acking(id: Id)
    | Failing(cause: Error)
    | Halted

  datatype HandlerOutcome = Returned(payload: Bytes) | Erred(err: Error)

  /** An inbound call; the ticket is the position of its open frame in `consumed`. */
  datatype ServePhase = Running | Ran(outcome: HandlerOutcome) | Replied | Cancelled | Released

  datatype Serve = Serve(id: Id, call: Call, phase: ServePhase, cancelled: bool)

  /** One execution of a consumer's handler. */
  datatype Run = Run(ticket: Ticket, call: Call, from: Bytes, outcome: HandlerOutcome)

  datatype Serving = Serving(
    tickets: map<Ticket, Serve>,
    refusals: map<Ticket, Error>,
    served: set<Id>,
    runs: seq<Run>)

  datatype Engine = Engine(
    role: Role,
    remote: Bytes,
    reg: Registry,
    callers: Callers,
    enders: map<nat, Ender>,
    net: Net,
    reader: Reader,
    serving: Serving)

  function NewEngine(role: Role, remote: Bytes): Engine {
    Engine(role, remote, NewRegistry(), Callers(0, map[], map[]), map[], Net(false, false, [], []),
           Idle, Serving(map[], map[], {}, []))
  }

  function SentOn(sent: map<Id, seq<Settlement>>, id: Id): seq<Settlement> {
    if id in sent then sent[id] else []
  }

  function Send(sent: map<Id, seq<Settlement>>, id: Id, value: Settlement): map<Id, seq<Settlement>> {
    sent[id := SentOn(sent, id) + [value]]
  }

  /** The waiters an invocation of end has collected and not settled yet. */
  function Held(x: Ender): set<Id> {
    if x.EndSettling? then x.waiters else {}
  }

  function InHand(reader: Reader): set<Id> {
    if reader.Settling? then {reader.id} else {}
  }

  // ------------------------------------------------------------------ labels

  datatype Label =
    | Start(kind: Kind) | RegisterStream(id: Id) | Register(id: Id) | WriteOpen(id: Id, ok: bool) | Receive(id: Id)
    | GiveUp(id: Id) | Notify(id: Id, code: StatusCode, ok: bool) | Leave(id: Id)
    | EndStart(tid: nat, cause: Option<Error>) | EndClose(tid: nat) | EndSwap(tid: nat)
    | EndSettle(tid: nat, id: Id) | EndCancel(tid: nat, ticket: Ticket) | EndDone(tid: nat)
    | Consume(frame: Frame) | SettleSend | Refuse(err: Error) | RefuseWrite(ok: bool)
    | AdmitCall | AdmitStream | AckWrite(ok: bool) | ReadFail(tid: nat, err: Error)
    | RunHandler(ticket: Ticket, outcome: HandlerOutcome) | Reply(ticket: Ticket, ok: bool)
    | CancelContext(ticket: Ticket) | ReleaseInflight(ticket: Ticket)
    | EmitStream(frame: Frame) | DropStream(id: Id)

  // ------------------------------------------------------------------ callers

  function SetPhase(c: Callers, id: Id, phase: Phase): Callers
    requires id in c.requests
  {
    c.(requests := c.requests[id := c.requests[id].(phase := phase)])
  }

  function OpenFrameOf(id: Id, kind: Kind): Frame {
    match kind
    case CallKind(call) => OpenCall(id, Some(call))
    case StreamKind(name) => OpenStream(id, Some(name))
  }

  /** writeFrame succeeds only while the transport is open and the ID fits the wire. */
  predicate CanWrite(net: Net, id: Id, ok: bool) {
    ok ==> !net.closed && id <= MAX_STREAM_ID
  }

  function Emit(net: Net, f: Frame, ok: bool): Net {
    if ok then net.(emitted := net.emitted + [f]) else net
  }

  predicate InPhase(c: Callers, id: Id, phase: Phase) {
    id in c.requests && c.requests[id].phase == phase
  }

  ghost predicate CallerStep(l: Label, e: Engine, e': Engine) {
    var c, r := e.callers, e.reg;
    match l
    case Start(kind) =>
      var id := AllocatedId(e.role, c.issued);
      e' == e.(callers := c.(issued := c.issued + 1, requests := c.requests[id := Request(kind, Allocated, None)]))
    case RegisterStream(id) =>
      && InPhase(c, id, Allocated) && c.requests[id].kind.StreamKind?
      && e' == e.(reg := r.(streams := r.streams + {id}))
    case Register(id) =>
      && InPhase(c, id, Allocated)
      && e' == e.(callers := SetPhase(c, id, Registered),
                  reg := if c.requests[id].kind.CallKind? then r.(calls := r.calls + {id})
                         else r.(opens := r.opens + {id}))
    case WriteOpen(id, ok) =>
      && InPhase(c, id, Registered) && CanWrite(e.net, id, ok)
      && e' == e.(callers := SetPhase(c, id, if ok then Waiting else Leaving),
                  net := Emit(e.net, OpenFrameOf(id, c.requests[id].kind), ok))
    case Receive(id) =>
      && InPhase(c, id, Waiting) && SentOn(c.sent, id) != []
      && e' == e.(callers := c.(requests := c.requests[id := c.requests[id].(
                                  phase := Leaving, result := Some(SentOn(c.sent, id)[0].outcome))]))
    case GiveUp(id) =>
      && InPhase(c, id, Waiting)
      && e' == e.(callers := SetPhase(c, id, Notifying))
    case Notify(id, code, ok) =>
      && InPhase(c, id, Notifying) && CanWrite(e.net, id, ok) && (code == CANCELED || code == DEADLINE_EXCEEDED)
      && e' == e.(callers := SetPhase(c, id, Leaving), net := Emit(e.net, StreamEnd(id, EndBody(code)), ok))
    case Leave(id) =>
      && InPhase(c, id, Leaving)
      && e' == e.(callers := SetPhase(c, id, Gone), reg := r.(calls := r.calls - {id}, opens := r.opens - {id}))
    case _ => false
  }

  // -------------------------------------------------------------------- end

  function CancelTicket(v: Serving, t: Ticket): Serving {
    if t in v.tickets then v.(tickets := v.tickets[t := v.tickets[t].(cancelled := true)]) else v
  }

  ghost predicate EnderStep(l: Label, e: Engine, e': Engine) {
    match l
    case EndStart(tid, cause) =>
      && tid !in e.enders
      && e' == e.(net := e.net.(cancelled := true), enders := e.enders[tid := EndCancelled(cause)])
    case EndClose(tid) =>
      && tid in e.enders && e.enders[tid].EndCancelled?
      && e' == e.(net := e.net.(closed := true), enders := e.enders[tid := EndClosed(e.enders[tid].cause)])
    case EndSwap(tid) =>
      && tid in e.enders && e.enders[tid].EndClosed?
      && var reg' := Swap(e.reg, e.enders[tid].cause);
         && reg'.terminal.Some?
         && e' == e.(reg := reg',
                     enders := e.enders[tid := EndSettling(e.reg.calls + e.reg.opens, reg'.terminal.value,
                                                           e.reg.inflight.Values)])
    case EndSettle(tid, id) =>
      && tid in e.enders && e.enders[tid].EndSettling? && id in e.enders[tid].waiters
      && var x := e.enders[tid];
         e' == e.(callers := e.callers.(sent := Send(e.callers.sent, id, Settlement(Failed(x.failure), FromEnd))),
                  enders := e.enders[tid := x.(waiters := x.waiters - {id})])
    case EndCancel(tid, t) =>
      && tid in e.enders && e.enders[tid].EndSettling? && t in e.enders[tid].tickets
      && var x := e.enders[tid];
         e' == e.(serving := CancelTicket(e.serving, t), enders := e.enders[tid := x.(tickets := x.tickets - {t})])
    case EndDone(tid) =>
      && tid in e.enders && e.enders[tid].EndSettling?
      && e.enders[tid].waiters == {} && e.enders[tid].tickets == {}
      && e' == e.(enders := e.enders - {tid})
    case _ => false
  }

  // ------------------------------------------------------------------ reader

  /** settleCall: the value for the pending call, and whether the frame also fails the session. */
  function SettleCall(f: Frame): (Outcome, bool) {
    match f
    case CallResult(_, result) => if result.Some? then (Answer(result.value), false)
                                else (Failed(Tree({}, [Of(ProtocolViolation)])), true)
    case StreamEnd(_, body) =>
      (match DecodeFailure(body)
       case Refused(v) => (Failed(v), true)
       case Failure(err) => if err.Some? then (Failed(err.value), false) else (Answer([]), false))
    case _ => (Failed(Of(ProtocolViolation)), true)
  }

  function SettleOpen(f: Frame): (Outcome, bool) {
    match f
    case StreamAck(_) => (Accepted, false)
    case StreamEnd(_, body) =>
      (match DecodeFailure(body)
       case Refused(v) => (Failed(v), true)
       case Failure(err) => if err.Some? then (Failed(err.value), false) else (Accepted, false))
    case _ => (Failed(Of(ProtocolViolation)), true)
  }

  /** dispatch and dispatchScoped: everything up to the first blocking or replying operation. */
  function Dispatch(e: Engine, f: Frame): Engine {
    if f.CloseSession? then e.(reader := Failing(Of(EndOfFile)))
    else if f.id == 0 then e.(reader := Failing(Of(ProtocolViolation)))
    else if f.OpenCall? || f.OpenStream? then
      e.(reader := if Owns(e.role, f.id) then Failing(Of(ProtocolViolation)) else Deciding)
    else if f.id in e.reg.calls then
      var (outcome, fails) := SettleCall(f);
      e.(reg := e.reg.(calls := e.reg.calls - {f.id}), reader := Settling(f.id, outcome, fails))
    else if f.id in e.reg.opens then
      var (outcome, fails) := SettleOpen(f);
      e.(reg := e.reg.(opens := e.reg.opens - {f.id}), reader := Settling(f.id, outcome, fails))
    else if f.StreamEnd? then
      if f.id in e.reg.streams then e.(reg := e.reg.(streams := e.reg.streams - {f.id}))
      else if f.id in e.reg.inflight then
        e.(serving := CancelTicket(e.serving, e.reg.inflight[f.id]),
           reg := e.reg.(inflight := Remove(e.reg.inflight, f.id)))
      else e
    else e
  }

  /** The request the reader is deciding about is the last frame it took. */
  function LastFrame(net: Net): Option<Frame> {
    if net.consumed == [] then None else Some(net.consumed[|net.consumed| - 1])
  }

  /** A malformed request can only be refused as such, and a nameless one as not found. */
  predicate RefusalFits(f: Frame, err: Error) {
    var name := if f.OpenCall? then (if f.request.None? then None else Some(f.request.value.name))
                else if f.OpenStream? then f.name else None;
    && (name.None? ==> err == Of(InvalidRequest))
    && (name == Some([]) ==> err == Of(MethodNotFound))
  }

  ghost predicate ReaderStep(l: Label, e: Engine, e': Engine) {
    var t := |e.net.consumed| - 1;
    match l
    case Consume(f) =>
      && e.reader == Idle
      && e' == Dispatch(e, f).(net := e.net.(consumed := e.net.consumed + [f]))
    case SettleSend =>
      && e.reader.Settling? && e.net.consumed != []
      && e' == e.(callers := e.callers.(sent := Send(e.callers.sent, e.reader.id,
                                                     Settlement(e.reader.outcome, FromFrame(t)))),
                  reader := if e.reader.fails && e.reader.outcome.Failed? then Failing(e.reader.outcome.err) else Idle)
    case Refuse(err) =>
      && e.reader == Deciding && LastFrame(e.net).Some? && !LastFrame(e.net).value.CloseSession?
      && RefusalFits(LastFrame(e.net).value, err)
      && e' == e.(reader := Refusing(LastFrame(e.net).value.id, StatusOf(Some(err))),
                  serving := e.serving.(refusals := e.serving.refusals[t := err]))
    case RefuseWrite(ok) =>
      && e.reader.Refusing? && CanWrite(e.net, e.reader.id, ok)
      && e' == e.(reader := Idle, net := Emit(e.net, StreamEnd(e.reader.id, EndBody(e.reader.code)), ok))
    case AdmitCall =>
      && e.reader == Deciding && LastFrame(e.net).Some? && LastFrame(e.net).value.OpenCall?
      && LastFrame(e.net).value.request.Some? && LastFrame(e.net).value.request.value.name != []
      && var f := LastFrame(e.net).value;
         e' == e.(reader := Idle,
                  reg := e.reg.(inflight := e.reg.inflight[f.id := t]),
                  serving := e.serving.(
                    tickets := e.serving.tickets[t := Serve(f.id, f.request.value, Running, false)]))
    case AdmitStream =>
      && e.reader == Deciding && LastFrame(e.net).Some? && LastFrame(e.net).value.OpenStream?
      && LastFrame(e.net).value.name.Some? && LastFrame(e.net).value.name.value != []
      && var f := LastFrame(e.net).value;
         e' == e.(reader := Acking(f.id),
                  reg := e.reg.(streams := e.reg.streams + {f.id}),
                  serving := e.serving.(served := e.serving.served + {f.id}))
    case AckWrite(ok) =>
      && e.reader.Acking? && CanWrite(e.net, e.reader.id, ok)
      && e' == e.(reader := Idle, net := Emit(e.net, StreamAck(e.reader.id), ok),
                  reg := if ok then e.reg else e.reg.(streams := e.reg.streams - {e.reader.id}))
    case ReadFail(tid, err) =>
      && (e.reader == Idle || e.reader == Failing(err)) && tid !in e.enders
      && e' == e.(reader := Halted, net := e.net.(cancelled := true),
                  enders := e.enders[tid := EndCancelled(Some(err))])
    case _ => false
  }

  // -------------------------------------------------------- serving goroutines

  /** The frame that answers an inbound call. */
  function ReplyFrame(id: Id, outcome: HandlerOutcome): Frame {
    match outcome
    case Returned(payload) => CallResult(id, Some(payload))
    case Erred(err) => StreamEnd(id, EndBody(StatusOf(Some(err))))
  }

  predicate TicketIn(v: Serving, t: Ticket, phase: ServePhase) {
    t in v.tickets && v.tickets[t].phase == phase
  }

  function SetServe(v: Serving, t: Ticket, phase: ServePhase): Serving
    requires t in v.tickets
  {
    v.(tickets := v.tickets[t := v.tickets[t].(phase := phase)])
  }

  /** The stream frames this endpoint may write: for a stream it opened or one it has acknowledged. */
  predicate MayEmit(e: Engine, f: Frame) {
    && (f.Data? || f.CloseSend? || f.StreamEnd?)
    && (|| (f.id in e.callers.requests && e.callers.requests[f.id].kind.StreamKind?)
        || (f.id in e.serving.served && StreamAck(f.id) in e.net.emitted))
  }

  ghost predicate ServingStep(l: Label, e: Engine, e': Engine) {
    var v := e.serving;
    match l
    case RunHandler(t, outcome) =>
      && TicketIn(v, t, Running)
      && e' == e.(serving := SetServe(v, t, Ran(outcome)).(
                    runs := v.runs + [Run(t, v.tickets[t].call, e.remote, outcome)]))
    case Reply(t, ok) =>
      && t in v.tickets && v.tickets[t].phase.Ran? && CanWrite(e.net, v.tickets[t].id, ok)
      && e' == e.(serving := SetServe(v, t, Replied),
                  net := Emit(e.net, ReplyFrame(v.tickets[t].id, v.tickets[t].phase.outcome), ok))
    case CancelContext(t) =>
      && TicketIn(v, t, Replied)
      && e' == e.(serving := SetServe(CancelTicket(v, t), t, Cancelled))
    case ReleaseInflight(t) =>
      && TicketIn(v, t, Cancelled)
      && e' == e.(serving := SetServe(v, t, Released),
                  reg := e.reg.(inflight := Remove(e.reg.inflight, v.tickets[t].id)))
    case EmitStream(f) =>
      && MayEmit(e, f) && CanWrite(e.net, f.id, true)
      && e' == e.(net := Emit(e.net, f, true))
    case DropStream(id) => e' == e.(reg := e.reg.(streams := e.reg.streams - {id}))
    case _ => false
  }

  ghost predicate Step(l: Label, e: Engine, e': Engine) {
    CallerStep(l, e, e') || EnderStep(l, e, e') || ReaderStep(l, e, e') || ServingStep(l, e, e')
  }

  ghost predicate Init(e: Engine) {
    e == NewEngine(e.role, e.remote)
  }

  ghost predicate IsRun(run: seq<Engine>, labels: seq<Label>) {
    && |run| == |labels| + 1 && Init(run[0])
    && forall i :: 0 <= i < |labels| ==> Step(labels[i], run[i], run[i + 1])
  }

  ghost predicate Reachable(e: Engine) {
    exists run, labels :: IsRun(run, labels) && run[|run| - 1] == e
  }
}
