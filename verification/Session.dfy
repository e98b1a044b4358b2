/**
 The registries of infrastructure/peer/conn/session.go: the maps of pending calls, pending
 opens, live streams and inbound calls in flight, the terminal cause, and the allocator of
 stream IDs. `Registry` is the value of the fields the session's mutex protects; each function
 on it is the body of one critical section.
 */
module Session {
  import opened Status
  import Codec

  type Id = nat
  type Ticket = nat
  type Bytes = seq<int>

  datatype Role = Client | Server

  const MAX_STREAM_ID: nat := Codec.MAX_STREAM_ID
  const ID_MODULUS: nat := 0x1_0000_0000_0000_0000
  /** How many IDs an endpoint can allocate before the 64-bit counter repeats one. */
  const ID_PERIOD: nat := 0x8000_0000_0000_0000

  function Parity(role: Role): Id {
    if role == Client then 1 else 2
  }

  /** The ID the n-th call of allocateStreamID returns; the atomic counter wraps at 2^64. */
  function AllocatedId(role: Role, n: nat): Id {
    (Parity(role) + 2 * n) % ID_MODULUS
  }

  predicate Owns(role: Role, id: Id) {
    (id % 2 == 1) == (role == Client)
  }

  /** Every allocated ID lies in the owner's half, and two allocations collide exactly a period apart. */
  lemma AllocationsCollideIffPeriodApart(role: Role, m: nat, n: nat)
    ensures Owns(role, AllocatedId(role, m))
    ensures AllocatedId(role, m) == AllocatedId(role, n) <==> m % ID_PERIOD == n % ID_PERIOD
  {
    HalvedModulus(role, m);
    HalvedModulus(role, n);
  }

  lemma HalvedModulus(role: Role, n: nat)
    ensures AllocatedId(role, n) == if role == Client then 1 + 2 * (n % ID_PERIOD)
                                    else 2 * ((n + 1) % ID_PERIOD)
    ensures (n + 1) % ID_PERIOD == if n % ID_PERIOD == ID_PERIOD - 1 then 0 else n % ID_PERIOD + 1
  {
    var q, r := n / ID_PERIOD, n % ID_PERIOD;
    assert n == q * ID_PERIOD + r;
    assert 2 * n == q * ID_MODULUS + 2 * r;
  }

  // ------------------------------------------------------------- registries

  datatype Registry = Registry(
    calls: set<Id>,
    opens: set<Id>,
    streams: set<Id>,
    inflight: map<Id, Ticket>,
    ended: bool,
    terminal: Option<Error>)

  function NewRegistry(): Registry {
    Registry({}, {}, {}, map[], false, None)
  }

  /** terminalOf: a clean or missing cause becomes the closed-connection error, never nil. */
  function TerminalOf(cause: Option<Error>): Error {
    if cause.None? || Is(cause.value, EndOfFile) then Of(ConnectionClosed) else cause.value
  }

  function Remove<T>(m: map<Id, T>, id: Id): map<Id, T> {
    m - {id}
  }

  /** The critical section of end: record the first cause and empty every registry. */
  function Swap(r: Registry, cause: Option<Error>): Registry {
    Registry({}, {}, {}, map[], true, if r.ended then r.terminal else Some(TerminalOf(cause)))
  }

  ghost predicate Sound(r: Registry) {
    r.ended <==> r.terminal.Some?
  }

  /** The session object: the fields under the mutex and what was sent on each outcome channel. */
  class SessionObject {
    const role: Role
    var nextStreamID: nat
    var calls: set<Id>
    var opens: set<Id>
    var streams: set<Id>
    var inflight: map<Id, Ticket>
    var ended: bool
    var terminal: Option<Error>
    var outcomes: map<Id, seq<Option<Error>>>
    var cancelled: bool
    var transportClosed: bool

    ghost function State(): Registry
      reads this
    {
      Registry(calls, opens, streams, inflight, ended, terminal)
    }

    ghost function Sent(id: Id): seq<Option<Error>>
      reads this
    {
      if id in outcomes then outcomes[id] else []
    }

    constructor (role: Role)
      ensures State() == NewRegistry() && Sound(State())
      ensures calls == {} && opens == {} && streams == {} && inflight == map[] && !ended && terminal.None?
      ensures this.role == role && nextStreamID == Parity(role) && outcomes == map[]
      ensures !cancelled && !transportClosed
    {
      this.role := role;
      nextStreamID := Parity(role);
      calls, opens, streams, inflight := {}, {}, {}, map[];
      ended, terminal, outcomes := false, None, map[];
      cancelled, transportClosed := false, false;
    }

    /** allocateStreamID: the previous value of a counter that advances by two, modulo 2^64. */
    method AllocateStreamID(ghost n: nat) returns (id: Id)
      requires nextStreamID == AllocatedId(role, n)
      modifies this`nextStreamID
      ensures id == AllocatedId(role, n) && Owns(role, id)
      ensures nextStreamID == AllocatedId(role, n + 1)
    {
      HalvedModulus(role, n);
      HalvedModulus(role, n + 1);
      AllocationsCollideIffPeriodApart(role, n, n);
      id := nextStreamID;
      nextStreamID := (nextStreamID + 2) % ID_MODULUS;
    }

    method RegisterCall(id: Id)
      modifies this`calls
      ensures State() == old(State()).(calls := old(calls) + {id})
    {
      calls := calls + {id};
    }

    /** takeCall: at most one caller of this ever obtains a given pending call. */
    method TakeCall(id: Id) returns (ok: bool)
      modifies this`calls
      ensures ok <==> id in old(calls)
      ensures id !in calls
      ensures State() == old(State()).(calls := old(calls) - {id})
    {
      ok := id in calls;
      calls := calls - {id};
    }

    method TakeOpen(id: Id) returns (ok: bool)
      modifies this`opens
      ensures ok <==> id in old(opens)
      ensures id !in opens
      ensures State() == old(State()).(opens := old(opens) - {id})
    {
      ok := id in opens;
      opens := opens - {id};
    }

    method RegisterStream(id: Id)
      modifies this`streams
      ensures State() == old(State()).(streams := old(streams) + {id})
    {
      streams := streams + {id};
    }

    method RegisterOpen(id: Id)
      modifies this`opens
      ensures State() == old(State()).(opens := old(opens) + {id})
    {
      opens := opens + {id};
    }

    method TakeStream(id: Id) returns (ok: bool)
      modifies this`streams
      ensures ok <==> id in old(streams)
      ensures State() == old(State()).(streams := old(streams) - {id})
    {
      ok := id in streams;
      streams := streams - {id};
    }

    method TrackInflight(id: Id, ticket: Ticket)
      modifies this`inflight
      ensures State() == old(State()).(inflight := old(inflight)[id := ticket])
    {
      inflight := inflight[id := ticket];
    }

    /** cancelInflight: the context to cancel, if a call was running under the ID. */
    method CancelInflight(id: Id) returns (ticket: Option<Ticket>)
      modifies this`inflight
      ensures ticket == if id in old(inflight) then Some(old(inflight)[id]) else None
      ensures State() == old(State()).(inflight := Remove(old(inflight), id))
    {
      if id in inflight {
        ticket := Some(inflight[id]);
        inflight := inflight - {id};
      } else {
        ticket := None;
        assert inflight - {id} == inflight;
      }
    }

    method Usable() returns (err: Option<Error>)
      requires Sound(State())
      ensures err == terminal
      ensures err.None? <==> !ended
    {
      err := if !ended then None else terminal;
    }

    /** The critical section of end. */
    method EndSwap(cause: Option<Error>)
        returns (pendingCalls: set<Id>, pendingOpens: set<Id>, live: set<Id>, running: set<Ticket>, failure: Error)
      requires Sound(State())
      modifies this`calls, this`opens, this`streams, this`inflight, this`ended, this`terminal
      ensures State() == Swap(old(State()), cause) && Sound(State())
      ensures ended && calls == {} && opens == {} && streams == {} && inflight == map[]
      ensures pendingCalls == old(calls) && pendingOpens == old(opens)
      ensures live == old(streams) && running == old(inflight).Values
      ensures terminal == Some(failure)
      ensures old(ended) ==> terminal == old(terminal)
      ensures !old(ended) && cause.Some? && !Is(cause.value, EndOfFile) ==> terminal == cause
      ensures !old(ended) && (cause.None? || Is(cause.value, EndOfFile)) ==> failure == Of(ConnectionClosed)
    {
      if !ended {
        ended := true;
        terminal := Some(TerminalOf(cause));
      }
      pendingCalls, pendingOpens, live, running := calls, opens, streams, inflight.Values;
      calls, opens, streams, inflight := {}, {}, {}, map[];
      failure := terminal.value;
    }

    /** The settle loop of end: every collected waiter receives the failure once, and no other. */
    method SettleAll(pending: set<Id>, failure: Error)
      modifies this`outcomes
      ensures forall id :: id in pending ==> Sent(id) == old(Sent(id)) + [Some(failure)]
      ensures forall id :: id !in pending ==> Sent(id) == old(Sent(id))
    {
      var left := pending;
      while left != {}
        invariant left <= pending
        invariant forall id :: id in pending && id !in left ==> Sent(id) == old(Sent(id)) + [Some(failure)]
        invariant forall id :: id in left || id !in pending ==> Sent(id) == old(Sent(id))
        decreases left
      {
        var id :| id in left;
        outcomes := outcomes[id := (if id in outcomes then outcomes[id] else []) + [Some(failure)]];
        left := left - {id};
      }
    }

    /**
     end, run alone: the context is cancelled and the transport closed before anything else; one
     cause is recorded and every pending call and open is told it exactly once; the inbound calls
     in `running` are cancelled and the streams in `live` finished with `streamCause`.
     */
    method End(cause: Option<Error>) returns (running: set<Ticket>, live: set<Id>, streamCause: Option<Error>)
      requires Sound(State()) && calls !! opens
      modifies this`calls, this`opens, this`streams, this`inflight, this`ended, this`terminal, this`outcomes,
               this`cancelled, this`transportClosed
      ensures cancelled && transportClosed
      ensures ended && calls == {} && opens == {} && streams == {} && inflight == map[] && terminal.Some?
      ensures old(ended) ==> terminal == old(terminal)
      ensures !old(ended) && cause.Some? && !Is(cause.value, EndOfFile) ==> terminal == cause
      ensures !old(ended) && (cause.None? || Is(cause.value, EndOfFile)) ==> terminal == Some(Of(ConnectionClosed))
      ensures forall id :: id in old(calls) + old(opens) ==> Sent(id) == old(Sent(id)) + [Some(terminal.value)]
      ensures forall id :: id !in old(calls) + old(opens) ==> Sent(id) == old(Sent(id))
      ensures running == old(inflight).Values && live == old(streams)
      ensures streamCause == if cause.Some? && Is(cause.value, EndOfFile) then None else cause
    {
      cancelled := true;
      transportClosed := true;
      var pendingCalls, pendingOpens, failure;
      pendingCalls, pendingOpens, live, running, failure := EndSwap(cause);
      SettleAll(pendingCalls, failure);
      SettleAll(pendingOpens, failure);
      streamCause := cause;
      if cause.Some? && Is(cause.value, EndOfFile) {
        streamCause := None;
      }
    }
  }
}
