/**
 Admission, application/peer/router.go: the order of the refusals, the two slot channels that
 bound concurrency, and the deferred release and recovery around consumer code that may fail or
 panic.
 */
module Router {
  import opened Status

  datatype Work = CallWork | StreamWork

  /** A buffered channel used as a counting gate. */
  datatype Gate = Gate(capacity: nat, used: nat)

  /** acquire: takes a slot unless the channel is full. */
  function Acquire(g: Gate): Option<Gate> {
    if g.used < g.capacity then Some(g.(used := g.used + 1)) else None
  }

  /** release: receives one slot, or does nothing on an empty channel. */
  function Release(g: Gate): Gate {
    if g.used > 0 then g.(used := g.used - 1) else g
  }

  datatype Verdict = Allow | Deny(err: Error) | AuthorizerPanics

  /** What PrepareCall or PrepareStream looks at, in the order it looks. */
  datatype Request = Request(
    named: bool,
    size: nat,
    registered: bool,
    contextErr: Option<Error>,
    verdict: Verdict)

  datatype HandlerEnd = Succeeds(payload: seq<int>) | Errs(err: Error) | Panics

  datatype Result = Reply(payload: seq<int>) | Refusal(err: Error)

  /** A recovered panic: a wrapped internal error. */
  const PANIC: Error := Tree({}, [Of(Internal)])

  /** Who is let in: exactly the named, registered, authorized request that fits and finds a slot. */
  predicate Admitted(kind: Work, q: Request, maxMessageBytes: nat, g: Gate) {
    && q.named && q.registered && q.verdict.Allow? && g.used < g.capacity
    && (kind == CallWork ==> q.size <= maxMessageBytes && q.contextErr.None?)
  }

  lemma PanicIsInternal()
    ensures OnlyIs(PANIC, Internal)
  {
    assert Is(Of(Internal), Internal);
  }

  class RouterObject {
    const maxMessageBytes: nat
    const configured: bool
    var callSlots: Gate
    var streamSlots: Gate

    constructor (configured: bool, maxMessageBytes: nat, maxCalls: nat, maxStreams: nat)
      ensures this.configured == configured && this.maxMessageBytes == maxMessageBytes
      ensures callSlots == Gate(maxCalls, 0) && streamSlots == Gate(maxStreams, 0)
    {
      this.configured, this.maxMessageBytes := configured, maxMessageBytes;
      callSlots, streamSlots := Gate(maxCalls, 0), Gate(maxStreams, 0);
    }

    /** PrepareCall: the first check that fails decides; a slot is reserved exactly on admission. */
    method PrepareCall(q: Request) returns (refusal: Option<Error>)
      modifies this`callSlots
      ensures refusal.None? <==> configured && Admitted(CallWork, q, maxMessageBytes, old(callSlots))
      ensures refusal.None? ==> callSlots == old(callSlots).(used := old(callSlots).used + 1)
      ensures refusal.Some? ==> callSlots == old(callSlots)
      ensures if !configured then refusal == Some(Of(InvalidRegistration))
              else if !q.named then refusal == Some(Of(MethodNotFound))
              else if q.size > maxMessageBytes then refusal == Some(Of(MessageTooLarge))
              else if !q.registered then refusal == Some(Of(MethodNotFound))
              else if q.contextErr.Some? then refusal == q.contextErr
              else if q.verdict.Deny? then refusal == Some(q.verdict.err)
              else if q.verdict.AuthorizerPanics? then refusal.Some? && OnlyIs(refusal.value, Internal)
              else refusal == if old(callSlots).used >= old(callSlots).capacity then Some(Of(Overloaded)) else None
    {
      PanicIsInternal();
      if !configured { return Some(Of(InvalidRegistration)); }
      if !q.named { return Some(Of(MethodNotFound)); }
      if q.size > maxMessageBytes { return Some(Of(MessageTooLarge)); }
      if !q.registered { return Some(Of(MethodNotFound)); }
      if q.contextErr.Some? { return q.contextErr; }
      match q.verdict {
        case Deny(err) => return Some(err);
        case AuthorizerPanics => return Some(PANIC);
        case Allow =>
      }
      var taken := Acquire(callSlots);
      if taken.None? { return Some(Of(Overloaded)); }
      callSlots := taken.value;
      refusal := None;
    }

    /** The function PrepareCall returns: the slot goes back however the handler ends. */
    method ServeCall(end: HandlerEnd) returns (r: Result)
      modifies this`callSlots
      ensures callSlots == Release(old(callSlots))
      ensures end.Errs? ==> r == Refusal(end.err)
      ensures end.Panics? ==> r.Refusal? && OnlyIs(r.err, Internal)
      ensures end.Succeeds? && |end.payload| <= maxMessageBytes ==> r == Reply(end.payload)
      ensures end.Succeeds? && |end.payload| > maxMessageBytes ==> r == Refusal(Of(MessageTooLarge))
    {
      PanicIsInternal();
      match end {
        case Errs(err) => r := Refusal(err);
        case Panics => r := Refusal(PANIC);
        case Succeeds(payload) =>
          r := if |payload| > maxMessageBytes then Refusal(Of(MessageTooLarge)) else Reply(payload);
      }
      callSlots := Release(callSlots);
    }

    /** PrepareStream: as PrepareCall, without the size and context checks. */
    method PrepareStream(q: Request) returns (refusal: Option<Error>)
      modifies this`streamSlots
      ensures refusal.None? <==> configured && Admitted(StreamWork, q, maxMessageBytes, old(streamSlots))
      ensures refusal.None? ==> streamSlots == old(streamSlots).(used := old(streamSlots).used + 1)
      ensures refusal.Some? ==> streamSlots == old(streamSlots)
      ensures if !configured then refusal == Some(Of(InvalidRegistration))
              else if !q.named || !q.registered then refusal == Some(Of(MethodNotFound))
              else if q.verdict.Deny? then refusal == Some(q.verdict.err)
              else if q.verdict.AuthorizerPanics? then refusal.Some? && OnlyIs(refusal.value, Internal)
              else refusal == if old(streamSlots).used >= old(streamSlots).capacity then Some(Of(Overloaded)) else None
    {
      PanicIsInternal();
      if !configured { return Some(Of(InvalidRegistration)); }
      if !q.named || !q.registered { return Some(Of(MethodNotFound)); }
      match q.verdict {
        case Deny(err) => return Some(err);
        case AuthorizerPanics => return Some(PANIC);
        case Allow =>
      }
      var taken := Acquire(streamSlots);
      if taken.None? { return Some(Of(Overloaded)); }
      streamSlots := taken.value;
      refusal := None;
    }

    /** The function PrepareStream returns. */
    method ServeStreamHandler(end: HandlerEnd) returns (err: Option<Error>)
      modifies this`streamSlots
      ensures streamSlots == Release(old(streamSlots))
      ensures end.Succeeds? ==> err.None?
      ensures end.Errs? ==> err == Some(end.err)
      ensures end.Panics? ==> err.Some? && OnlyIs(err.value, Internal)
    {
      PanicIsInternal();
      streamSlots := Release(streamSlots);
      err := match end
        case Succeeds(_) => None
        case Errs(e) => Some(e)
        case Panics => Some(PANIC);
    }

    /** Invoke: an in-process call leaves the budget as it found it, whatever happens in it. */
    method Invoke(q: Request, end: HandlerEnd) returns (r: Result)
      modifies this`callSlots
      ensures callSlots == old(callSlots)
      ensures if !configured then r == Refusal(Of(InvalidRegistration))
              else if !q.named then r == Refusal(Of(MethodNotFound))
              else if q.size > maxMessageBytes then r == Refusal(Of(MessageTooLarge))
              else if !q.registered then r == Refusal(Of(MethodNotFound))
              else if q.contextErr.Some? then r == Refusal(q.contextErr.value)
              else if q.verdict.Deny? then r == Refusal(q.verdict.err)
              else if q.verdict.AuthorizerPanics? then r.Refusal? && OnlyIs(r.err, Internal)
              else if old(callSlots).used >= old(callSlots).capacity then r == Refusal(Of(Overloaded))
              else match end
                case Errs(err) => r == Refusal(err)
                case Panics => r.Refusal? && OnlyIs(r.err, Internal)
                case Succeeds(payload) =>
                  r == if |payload| <= maxMessageBytes then Reply(payload) else Refusal(Of(MessageTooLarge))
    {
      var refusal := PrepareCall(q);
      if refusal.Some? { return Refusal(refusal.value); }
      r := ServeCall(end);
    }

    /** ServeStream: likewise for a stream. */
    method ServeStream(q: Request, end: HandlerEnd) returns (err: Option<Error>)
      modifies this`streamSlots
      ensures streamSlots == old(streamSlots)
      ensures if !configured then err == Some(Of(InvalidRegistration))
              else if !q.named || !q.registered then err == Some(Of(MethodNotFound))
              else if q.verdict.Deny? then err == Some(q.verdict.err)
              else if q.verdict.AuthorizerPanics? then err.Some? && OnlyIs(err.value, Internal)
              else if old(streamSlots).used >= old(streamSlots).capacity then err == Some(Of(Overloaded))
              else match end
                case Errs(e) => err == Some(e)
                case Panics => err.Some? && OnlyIs(err.value, Internal)
                case Succeeds(_) => err.None?
    {
      var refusal := PrepareStream(q);
      if refusal.Some? { return refusal; }
      err := ServeStreamHandler(end);
    }
  }
}
