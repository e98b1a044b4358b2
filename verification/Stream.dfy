/**
 One live stream, infrastructure/peer/conn/stream.go: the two bounded queues, the send side
 that may be closed once, the inbound queue that is closed either as a half-close or as part
 of ending the stream, and the terminal error that is recorded once.

 `StreamState` is the value of the object's fields. Every function on it is one section of
 the source that no other goroutine can interleave with: the body of a mutex, one channel
 operation, or one of the two phases of finishStream.
 */
module Stream {
  import opened Status

  type Message = seq<int>

  /** One queued outbound frame. */
  datatype Item = DataItem(message: Message) | CloseItem | BarrierItem

  /** finishStream runs once: not yet, error recorded and context cancelled, queue closed. */
  datatype FinishStage = Live | Closing | Finished

  datatype StreamState = StreamState(
    depth: nat,
    maxBytes: nat,
    cancelled: bool,
    inbound: seq<Message>,
    inboundClosed: bool,
    inboundEOF: bool,
    outbound: seq<Item>,
    sendClosed: bool,
    stage: FinishStage,
    finishErr: Option<Error>)

  function NewStream(depth: nat, maxBytes: nat): StreamState {
    StreamState(depth, maxBytes, false, [], false, false, [], false, Live, None)
  }

  /** The consequences of the locks: bounded queues and an EOF mark only on a closed queue. */
  ghost predicate Coherent(s: StreamState) {
    && |s.inbound| <= s.depth
    && |s.outbound| <= s.depth
    && (s.inboundEOF ==> s.inboundClosed)
    && (s.stage == Finished ==> s.inboundClosed)
    && (s.stage != Live ==> s.cancelled && s.finishErr.Some?)
    && (s.stage == Live ==> s.finishErr.None?)
    && (s.inboundClosed && s.stage != Finished ==> s.inboundEOF)
  }

  // ------------------------------------------------------------------ sending

  predicate HasRoom(s: StreamState) {
    |s.outbound| < s.depth
  }

  datatype SendResult = Accepted | Rejected(err: Error)

  /** The part of Send under sendMu: refuse a closed send side or a full queue, else queue. */
  function Enqueue(s: StreamState, message: Message): (StreamState, SendResult) {
    if s.sendClosed then (s, Rejected(Of(StreamClosed)))
    else if !HasRoom(s) then (s, Rejected(Of(SendQueueFull)))
    else (s.(outbound := s.outbound + [DataItem(message)]), Accepted)
  }

  function MarkSendClosed(s: StreamState): StreamState {
    s.(sendClosed := true)
  }

  function EnqueueItem(s: StreamState, item: Item): StreamState {
    s.(outbound := s.outbound + [item])
  }

  function Dequeue(s: StreamState): StreamState
    requires s.outbound != []
  {
    s.(outbound := s.outbound[1..])
  }

  /** terminal: the recorded failure, or the clean-end sentinel when there is none. */
  function Terminal(s: StreamState): Error {
    if s.finishErr.None? then Of(StreamClosed) else s.finishErr.value
  }

  /** closeSendAfterTerminal: a stream that ended cleanly, or not at all, closed its send side. */
  function AfterTerminal(s: StreamState, ctxErr: Error): Option<Error> {
    if Is(Terminal(s), StreamClosed) then None else Some(ctxErr)
  }

  /** How far the body that CloseSend runs once has got. */
  datatype Closer = NotCalled | Marked | Queued | Closed(err: Option<Error>)

  /** The marker goes into the queue: only while it is not there yet, and only once. */
  predicate QueuesMarker(s: StreamState, sendEnd: Closer, takeDone: bool) {
    (sendEnd == NotCalled || sendEnd == Marked) && HasRoom(s) && !(s.cancelled && takeDone)
  }

  /** One turn of CloseSend: the stream after it, and how far it has got. */
  function CloseTurn(s: StreamState, sendEnd: Closer, reply: Option<Option<Error>>, takeDone: bool, ctxErr: Error)
      : (r: (StreamState, Closer))
    ensures sendEnd.Closed? ==> r == (s, sendEnd)
    ensures r.0.outbound == if QueuesMarker(s, sendEnd, takeDone) then s.outbound + [CloseItem] else s.outbound
    ensures QueuesMarker(s, sendEnd, takeDone) || sendEnd == Queued ==> r.1 == Queued || r.1.Closed?
  {
    if sendEnd.Closed? then (s, sendEnd)
    else
      var queues := QueuesMarker(s, sendEnd, takeDone);
      var marked := MarkSendClosed(s);
      (if queues then EnqueueItem(marked, CloseItem) else marked,
       if (queues || sendEnd == Queued) && reply.Some? then Closed(reply.value)
       else if s.cancelled then Closed(AfterTerminal(s, ctxErr))
       else if queues || sendEnd == Queued then Queued else Marked)
  }

  datatype CloseResult = Reported(err: Option<Error>) | Blocking

  // ---------------------------------------------------------------- receiving

  datatype DeliverResult = Delivered | Blocked | Failed(err: Error)

  /**
   deliver under inboundMu. When the queue has room and the context is done both cases of
   the select are ready; `takeCancel` says which one it takes. `ctxErr` is why the context is done.
   */
  function DeliverTo(s: StreamState, message: Message, takeCancel: bool, ctxErr: Error): (StreamState, DeliverResult) {
    if |message| > s.maxBytes then (s, Failed(Of(MessageTooLarge)))
    else if s.inboundClosed then (s, Failed(Of(ProtocolViolation)))
    else if s.cancelled && (takeCancel || |s.inbound| >= s.depth) then (s, Failed(ctxErr))
    else if |s.inbound| < s.depth then (s.(inbound := s.inbound + [message]), Delivered)
    else (s, Blocked)
  }

  function HalfClose(s: StreamState): StreamState {
    if s.inboundClosed then s else s.(inboundClosed := true, inboundEOF := true)
  }

  function CloseQueue(s: StreamState): StreamState {
    s.(inboundClosed := true)
  }

  /** The first phase of finishStream: only the first caller records its error. */
  function FinishBegin(s: StreamState, err: Option<Error>): StreamState {
    if s.stage != Live then s
    else
      s.(stage := Closing,
         finishErr := Some(if err.None? then Of(StreamClosed) else err.value),
         cancelled := true)
  }

  function FinishClose(s: StreamState): StreamState {
    if s.stage == Closing then CloseQueue(s).(stage := Finished) else s
  }

  function Finish(s: StreamState, err: Option<Error>): StreamState {
    FinishClose(FinishBegin(s, err))
  }

  datatype RecvResult = Received(message: Message) | EndOfStream | Ended(err: Error) | WouldBlock

  /** One non-blocking look at the inbound queue. */
  function RecvFrom(s: StreamState): (StreamState, RecvResult) {
    if s.inbound != [] then (s.(inbound := s.inbound[1..]), Received(s.inbound[0]))
    else if !s.inboundClosed then (s, WouldBlock)
    else if s.inboundEOF then (s, EndOfStream)
    else (s, Ended(Terminal(s)))
  }

  /** What the pump does in one turn of its loop. */
  datatype Turn = Quits | Takes(item: Item) | Waits

  // ------------------------------------------------------------- the object

  /** The stream object. Each method is the uninterrupted execution of its source method. */
  class LiveStream {
    const depth: nat
    const maxBytes: nat
    var cancelled: bool
    var inbound: seq<Message>
    var inboundClosed: bool
    var inboundEOF: bool
    var outbound: seq<Item>
    var sendClosed: bool
    var stage: FinishStage
    var finishErr: Option<Error>
    var sendEnd: Closer

    ghost function State(): StreamState
      reads this
    {
      StreamState(depth, maxBytes, cancelled, inbound, inboundClosed, inboundEOF, outbound,
                  sendClosed, stage, finishErr)
    }

    constructor (depth: nat, maxBytes: nat)
      ensures State() == NewStream(depth, maxBytes)
      ensures Coherent(State()) && sendEnd == NotCalled
    {
      this.depth, this.maxBytes := depth, maxBytes;
      cancelled, inbound, inboundClosed, inboundEOF := false, [], false, false;
      outbound, sendClosed, stage, finishErr := [], false, Live, None;
      sendEnd := NotCalled;
    }

    /** Send: never blocks, and never loses a message it has accepted; `ctxErr` is why the context is done. */
    method Send(message: Message, ctxErr: Error) returns (r: SendResult)
      requires Coherent(State())
      modifies this`outbound
      ensures Coherent(State())
      ensures |message| > maxBytes ==> r == Rejected(Of(MessageTooLarge))
      ensures |message| <= maxBytes && cancelled ==> r == Rejected(ctxErr)
      ensures |message| <= maxBytes && !cancelled && sendClosed ==> r == Rejected(Of(StreamClosed))
      ensures |message| <= maxBytes && !cancelled && !sendClosed && |old(outbound)| >= depth ==>
                r == Rejected(Of(SendQueueFull))
      ensures |message| <= maxBytes && !cancelled ==>
                (State(), r) == Enqueue(old(State()), message)
      ensures r == Accepted <==>
              |message| <= maxBytes && !cancelled && !sendClosed && |old(outbound)| < depth
      ensures outbound == if r == Accepted then old(outbound) + [DataItem(message)] else old(outbound)
    {
      if |message| > maxBytes {
        return Rejected(Of(MessageTooLarge));
      }
      if cancelled {
        return Rejected(ctxErr);
      }
      if sendClosed {
        return Rejected(Of(StreamClosed));
      }
      if |outbound| < depth {
        outbound := outbound + [DataItem(message)];
        return Accepted;
      }
      return Rejected(Of(SendQueueFull));
    }

    /**
     CloseSend, one turn of it: the first call marks the send side closed; it waits for room and
     queues the marker; it waits for the pump's `reply`. Either wait ends when the context is done,
     and blocks otherwise; when both cases of a select are ready `takeDone` says which one it takes.
     A caller that was blocked goes on where it stopped, and a later call only reports.
     */
    method CloseSend(reply: Option<Option<Error>>, takeDone: bool, ctxErr: Error) returns (r: CloseResult)
      requires Coherent(State())
      modifies this`sendClosed, this`outbound, this`sendEnd
      ensures Coherent(State())
      ensures (State(), sendEnd) == CloseTurn(old(State()), old(sendEnd), reply, takeDone, ctxErr)
      ensures r == if sendEnd.Closed? then Reported(sendEnd.err) else Blocking
      ensures old(sendEnd).Closed? ==> sendEnd == old(sendEnd) && State() == old(State())
      ensures !old(sendEnd).Closed? ==>
                var queues := old(sendEnd) != Queued && |old(outbound)| < depth && !(cancelled && takeDone);
                var ended := finishErr.Some? && !Is(finishErr.value, StreamClosed);
                && sendClosed && outbound == (if queues then old(outbound) + [CloseItem] else old(outbound))
                && r == (if (queues || old(sendEnd) == Queued) && reply.Some? then Reported(reply.value)
                         else if !cancelled then Blocking
                         else Reported(if ended then Some(ctxErr) else None))
                && (r == Blocking ==> (sendEnd == Queued <==> queues || old(sendEnd) == Queued))
    {
      assert Is(Of(StreamClosed), StreamClosed);
      hide Is;
      if sendEnd.Closed? {
        return Reported(sendEnd.err);
      }
      sendClosed := true;
      if sendEnd != Queued {
        sendEnd := Marked;
        if |outbound| < depth && !(cancelled && takeDone) {
          outbound := outbound + [CloseItem];
          sendEnd := Queued;
        }
      }
      if sendEnd == Queued && reply.Some? {
        sendEnd := Closed(reply.value);
        return Reported(reply.value);
      }
      if cancelled {
        var clean := Is(if finishErr.None? then Of(StreamClosed) else finishErr.value, StreamClosed);
        sendEnd := Closed(if clean then None else Some(ctxErr));
        return Reported(if clean then None else Some(ctxErr));
      }
      return Blocking;
    }

    method Deliver(message: Message, takeCancel: bool, ctxErr: Error) returns (r: DeliverResult)
      requires Coherent(State())
      modifies this`inbound
      ensures Coherent(State())
      ensures (State(), r) == DeliverTo(old(State()), message, takeCancel, ctxErr)
      ensures inbound == if r == Delivered then old(inbound) + [message] else old(inbound)
      ensures if |message| > maxBytes then r == Failed(Of(MessageTooLarge))
              else if inboundClosed then r == Failed(Of(ProtocolViolation))
              else if |old(inbound)| < depth then r == (if cancelled && takeCancel then Failed(ctxErr) else Delivered)
              else r == if cancelled then Failed(ctxErr) else Blocked
    {
      if |message| > maxBytes {
        return Failed(Of(MessageTooLarge));
      }
      if inboundClosed {
        return Failed(Of(ProtocolViolation));
      }
      if cancelled && (takeCancel || |inbound| >= depth) {
        return Failed(ctxErr);
      }
      if |inbound| < depth {
        inbound := inbound + [message];
        return Delivered;
      }
      return Blocked;
    }

    method CloseInboundHalf()
      requires Coherent(State())
      modifies this`inboundClosed, this`inboundEOF
      ensures Coherent(State())
      ensures State() == HalfClose(old(State()))
      ensures inboundClosed && inboundEOF == (!old(inboundClosed) || old(inboundEOF))
    {
      if !inboundClosed {
        inboundClosed, inboundEOF := true, true;
      }
    }

    /** finishStream: the first error wins, and everything already queued stays readable. */
    method FinishStream(err: Option<Error>)
      requires Coherent(State()) && stage != Closing
      modifies this`stage, this`finishErr, this`cancelled, this`inboundClosed
      ensures Coherent(State())
      ensures State() == Finish(old(State()), err)
      ensures stage == Finished && inbound == old(inbound)
      ensures old(stage) == Live ==> cancelled && inboundClosed && inboundEOF == old(inboundEOF)
      ensures old(stage) == Live && err.Some? ==> finishErr == err
      ensures old(stage) == Live && err.None? ==> finishErr == Some(Of(StreamClosed))
      ensures old(stage) == Finished ==> State() == old(State())
    {
      if stage == Live {
        finishErr := Some(if err.None? then Of(StreamClosed) else err.value);
        cancelled := true;
        stage := Closing;
        inboundClosed := true;
        stage := Finished;
      }
    }

    /**
     Recv: a queued message first; on an empty open queue it waits, unless the context is done: then
     it finishes the stream, with the session's error if the session has ended, and reports the
     terminal error.
     */
    method Recv(sessionErr: Option<Error>) returns (r: RecvResult)
      requires Coherent(State()) && stage != Closing
      modifies this`inbound, this`stage, this`finishErr, this`cancelled, this`inboundClosed
      ensures Coherent(State())
      ensures var (s, look) := RecvFrom(old(State()));
              if look.WouldBlock? && old(cancelled) then
                var cause := Some(if sessionErr.Some? then sessionErr.value else Of(Canceled));
                State() == Finish(old(State()), cause) && r == Ended(Terminal(State()))
              else State() == s && r == look
      ensures if old(inbound) != [] then r == Received(old(inbound)[0]) && inbound == old(inbound)[1..]
              else if old(inboundClosed) && inboundEOF then r == EndOfStream && inbound == []
              else if old(inboundClosed) then finishErr.Some? && r == Ended(finishErr.value) && inbound == []
              else if !old(cancelled) then r == WouldBlock && State() == old(State())
              else
                && stage == Finished && inbound == [] && finishErr.Some? && r == Ended(finishErr.value)
                && (old(stage) == Live ==>
                      finishErr == Some(if sessionErr.Some? then sessionErr.value else Of(Canceled)))
    {
      if inbound != [] {
        r := Received(inbound[0]);
        inbound := inbound[1..];
        return;
      }
      if !inboundClosed {
        if !cancelled { return WouldBlock; }
        FinishStream(Some(if sessionErr.Some? then sessionErr.value else Of(Canceled)));
        return Ended(if finishErr.None? then Of(StreamClosed) else finishErr.value);
      }
      if inboundEOF {
        return EndOfStream;
      }
      return Ended(if finishErr.None? then Of(StreamClosed) else finishErr.value);
    }

    /** One turn of the pump's loop: it quits on a done context, takes an item, or waits. */
    method PumpTurn(takeDone: bool) returns (turn: Turn)
      requires Coherent(State())
      modifies this`outbound
      ensures Coherent(State())
      ensures turn.Quits? <==> cancelled && (takeDone || old(outbound) == [])
      ensures turn.Waits? <==> !cancelled && old(outbound) == []
      ensures turn.Takes? ==> old(outbound) == [turn.item] + outbound && State() == Dequeue(old(State()))
      ensures !turn.Takes? ==> State() == old(State())
    {
      if cancelled && (takeDone || outbound == []) {
        return Quits;
      }
      if outbound == [] {
        return Waits;
      }
      turn := Takes(outbound[0]);
      outbound := outbound[1..];
    }
  }
}
