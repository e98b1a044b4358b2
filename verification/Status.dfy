/**
 The failure taxonomy of domain/peer/status.go: error trees, the total mapping of an error
 onto a status code, the code's way back to an error, and the terminal frame body that
 carries a code between two peers.
 */
module Status {

  datatype Option<+T> = None | Some(value: T)

  /** The sentinel errors a tree may be compared with. */
  datatype Sentinel =
    | MethodNotFound | Unauthorized | Overloaded | SendQueueFull | MessageTooLarge
    | InvalidRequest | ProtocolViolation | Unavailable | ConnectionClosed
    | DeadlineExceeded | Canceled | Internal | StreamClosed | InvalidRegistration
    | ShortWrite | EndOfFile

  /**
   An error value. `Tree` is any error that is not itself a sentinel: `claims` are the
   sentinels its own `Is` method answers for and `causes` are the errors it unwraps to, so a
   wrapped error has one cause, a joined error several and a foreign error none.
   */
  datatype Error = Of(kind: Sentinel) | Tree(claims: set<Sentinel>, causes: seq<Error>)

  /** errors.Is: the error, something it claims, or something it unwraps to, is the target. */
  predicate Is(e: Error, target: Sentinel) {
    match e
    case Of(kind) => kind == target
    case Tree(claims, causes) => target in claims || exists c | c in causes :: Is(c, target)
  }

  type StatusCode = c: int | 0 <= c < 256

  const OK: StatusCode := 0
  const METHOD_NOT_FOUND: StatusCode := 1
  const UNAUTHORIZED: StatusCode := 2
  const OVERLOADED: StatusCode := 3
  const MESSAGE_TOO_LARGE: StatusCode := 4
  const INVALID_REQUEST: StatusCode := 5
  const PROTOCOL_VIOLATION: StatusCode := 6
  const INTERNAL: StatusCode := 7
  const UNAVAILABLE: StatusCode := 8
  const DEADLINE_EXCEEDED: StatusCode := 9
  const CANCELED: StatusCode := 10
  const CONNECTION_CLOSED: StatusCode := 11

  /** The error a code stands for; an unknown code is a protocol violation. */
  function Err(code: StatusCode): Option<Error> {
    match code
    case 0 => None
    case 1 => Some(Of(MethodNotFound))
    case 2 => Some(Of(Unauthorized))
    case 3 => Some(Of(Overloaded))
    case 4 => Some(Of(MessageTooLarge))
    case 5 => Some(Of(InvalidRequest))
    case 6 => Some(Of(ProtocolViolation))
    case 7 => Some(Of(Internal))
    case 8 => Some(Of(Unavailable))
    case 9 => Some(Of(DeadlineExceeded))
    case 10 => Some(Of(Canceled))
    case 11 => Some(Of(ConnectionClosed))
    case _ => Some(Of(ProtocolViolation))
  }

  /** The code an error is reported as; the first sentinel that matches decides. */
  function StatusOf(err: Option<Error>): StatusCode {
    match err
    case None => OK
    case Some(e) =>
      if Is(e, MethodNotFound) then METHOD_NOT_FOUND
      else if Is(e, Unauthorized) then UNAUTHORIZED
      else if Is(e, Overloaded) || Is(e, SendQueueFull) then OVERLOADED
      else if Is(e, MessageTooLarge) then MESSAGE_TOO_LARGE
      else if Is(e, InvalidRequest) then INVALID_REQUEST
      else if Is(e, ProtocolViolation) then PROTOCOL_VIOLATION
      else if Is(e, Unavailable) then UNAVAILABLE
      else if Is(e, ConnectionClosed) then CONNECTION_CLOSED
      else if Is(e, DeadlineExceeded) then DEADLINE_EXCEEDED
      else if Is(e, Canceled) then CANCELED
      else INTERNAL
  }

  /** What the body of a terminal frame decodes to before its code is interpreted. */
  datatype FailureBody = Undecodable | WithoutStatus | Code(code: nat)

  datatype Decoded = Failure(err: Option<Error>) | Refused(violation: Error)

  /** The body endFrame writes. */
  function EndBody(code: StatusCode): FailureBody {
    Code(code)
  }

  /** The receiving side of a terminal frame; a code that does not fit a byte is refused. */
  function DecodeFailure(body: FailureBody): Decoded {
    match body
    case Undecodable => Refused(Tree({}, [Of(ProtocolViolation)]))
    case WithoutStatus => Refused(Of(ProtocolViolation))
    case Code(code) => if code > 255 then Refused(Of(ProtocolViolation)) else Failure(Err(code))
  }

  /** One relay hop: an endpoint reports an error and its peer surfaces what it decodes. */
  function Hop(err: Option<Error>): Option<Error> {
    match DecodeFailure(EndBody(StatusOf(err)))
    case Failure(e) => e
    case Refused(v) => Some(v)
  }

  function Relay(hops: nat, err: Option<Error>): Option<Error> {
    if hops == 0 then err else Hop(Relay(hops - 1, err))
  }

  // ---------------------------------------------------------------------------------------
  // An independent reading of the switch: every sentinel has a rank, and a tree is reported
  // as the best-ranked sentinel found anywhere in it.
  // ---------------------------------------------------------------------------------------

  const WORST := 11

  function Rank(kind: Sentinel): nat {
    match kind
    case MethodNotFound => 1
    case Unauthorized => 2
    case Overloaded => 3
    case SendQueueFull => 3
    case MessageTooLarge => 4
    case InvalidRequest => 5
    case ProtocolViolation => 6
    case Unavailable => 7
    case ConnectionClosed => 8
    case DeadlineExceeded => 9
    case Canceled => 10
    case _ => WORST
  }

  function CodeOfRank(rank: nat): StatusCode {
    if rank < 7 then rank
    else if rank == 7 then UNAVAILABLE
    else if rank == 8 then CONNECTION_CLOSED
    else if rank == 9 then DEADLINE_EXCEEDED
    else if rank == 10 then CANCELED
    else INTERNAL
  }

  function Better(a: nat, b: nat): nat {
    if a < b then a else b
  }

  ghost function BestClaim(claims: set<Sentinel>): (rank: nat)
    ensures rank <= WORST
    ensures forall k | k in claims :: rank <= Rank(k)
    ensures rank < WORST ==> exists k | k in claims :: Rank(k) == rank
  {
    if claims == {} then WORST
    else
      var k :| k in claims;
      Better(Rank(k), BestClaim(claims - {k}))
  }

  /** The best rank in the tree, computed from its leaves without asking `Is`. */
  ghost function TreeRank(e: Error): nat
    decreases e, 1
  {
    match e
    case Of(kind) => Rank(kind)
    case Tree(claims, causes) => Better(BestClaim(claims), BestCause(causes))
  }

  ghost function BestCause(causes: seq<Error>): nat
    decreases causes, 0
  {
    if causes == [] then WORST else Better(TreeRank(causes[0]), BestCause(causes[1..]))
  }

  /** `rank` is the best rank of any sentinel `e` answers for. */
  ghost predicate IsBestRank(e: Error, rank: nat) {
    && rank <= WORST
    && (forall k :: Is(e, k) ==> rank <= Rank(k))
    && (rank < WORST ==> exists k :: Is(e, k) && Rank(k) == rank)
  }

  lemma {:induction false} BestCauseBounds(causes: seq<Error>)
    ensures BestCause(causes) <= WORST
    ensures forall c, k | c in causes && Is(c, k) :: BestCause(causes) <= Rank(k)
    ensures BestCause(causes) < WORST ==>
              exists c, k | c in causes :: Is(c, k) && Rank(k) == BestCause(causes)
    decreases causes, 0
  {
    if causes != [] {
      TreeRankIsBest(causes[0]);
      BestCauseBounds(causes[1..]);
      if TreeRank(causes[0]) == BestCause(causes) < WORST {
        var k :| Is(causes[0], k) && Rank(k) == TreeRank(causes[0]);
        assert causes[0] in causes;
      }
    }
  }

  lemma {:induction false} TreeRankIsBest(e: Error)
    ensures IsBestRank(e, TreeRank(e))
    decreases e, 1
  {
    match e
    case Of(kind) =>
      assert Is(e, kind);
    case Tree(claims, causes) =>
      BestCauseBounds(causes);
      if BestClaim(claims) == TreeRank(e) < WORST {
        var k :| k in claims && Rank(k) == TreeRank(e);
        assert Is(e, k);
      } else if TreeRank(e) < WORST {
        var c, k :| c in causes && Is(c, k) && Rank(k) == TreeRank(e);
        assert Is(e, k);
      }
  }

  /** The switch reports exactly the best-ranked sentinel of an arbitrarily nested tree. */
  lemma StatusIsBestRank(e: Error)
    ensures StatusOf(Some(e)) == CodeOfRank(TreeRank(e))
  {
    TreeRankIsBest(e);
    BestRankDecides(e, TreeRank(e));
  }

  lemma BestRankDecides(e: Error, rank: nat)
    requires IsBestRank(e, rank)
    ensures StatusOf(Some(e)) == CodeOfRank(rank)
  {
    hide StatusOf;
    assert forall k :: Rank(k) < rank ==> !Is(e, k);
    if rank < WORST {
      var k :| Is(e, k) && Rank(k) == rank;
      MatchDecides(e, k);
    } else {
      NoMatchIsInternal(e);
    }
  }

  lemma NoMatchIsInternal(e: Error)
    requires forall k | Rank(k) < WORST :: !Is(e, k)
    ensures StatusOf(Some(e)) == INTERNAL
  {
  }

  /** A sentinel the error answers for, with none better, fixes the reported code. */
  lemma MatchDecides(e: Error, k: Sentinel)
    requires Is(e, k) && Rank(k) < WORST
    requires forall j | Rank(j) < Rank(k) :: !Is(e, j)
    ensures StatusOf(Some(e)) == CodeOfRank(Rank(k))
  {
  }

  lemma StatusIsOkIffNil(err: Option<Error>)
    ensures StatusOf(err) == OK <==> err == None
    ensures StatusOf(err) <= CONNECTION_CLOSED
  {
  }

  /** A status survives the terminal frame: the peer decodes exactly the error it stands for. */
  lemma StatusSurvivesTheWire(err: Option<Error>)
    ensures DecodeFailure(EndBody(StatusOf(err))) == Failure(Err(StatusOf(err)))
    ensures Hop(err) == Err(StatusOf(err))
    ensures Hop(err) == None <==> err == None
    ensures err.Some? ==> Conveys(err.value, Hop(err).value)
    ensures StatusOf(Hop(err)) == StatusOf(err)
  {
    StatusIsOkIffNil(err);
    CodesAreStable(StatusOf(err));
    if err.Some? { StatusConveys(err.value); }
    hide StatusOf, Conveys;
  }

  /** A code that StatusOf can produce is a fixed point of one more hop. */
  lemma CodesAreStable(code: StatusCode)
    requires code <= CONNECTION_CLOSED
    ensures StatusOf(Err(code)) == code
    ensures Hop(Err(code)) == Err(code)
  {
    CodeRoundTrips(code);
    hide StatusOf, Err;
  }

  lemma CodeRoundTrips(code: StatusCode)
    requires code <= CONNECTION_CLOSED
    ensures StatusOf(Err(code)) == code
  {
  }

  /** Any positive number of relay hops yields the same error, and the same status, as one. */
  lemma {:induction false} RelayIsIdempotent(hops: nat, err: Option<Error>)
    ensures Relay(hops + 1, err) == Err(StatusOf(err))
    ensures StatusOf(Relay(hops, err)) == StatusOf(err)
  {
    StatusIsOkIffNil(err);
    var code := StatusOf(err);
    if hops == 0 {
      assert Relay(1, err) == Hop(Relay(0, err));
    } else {
      RelayIsIdempotent(hops - 1, err);
      assert Relay(hops, err) == Err(code);
      CodesAreStable(code);
    }
  }

  /**
   No terminal body but the one for OK decodes to success, whatever number it carries. A code that
   names no status stands for a violation; a body without a status byte is refused as one.
   */
  lemma OnlyOkDecodesToSuccess(body: FailureBody)
    ensures DecodeFailure(body) == Failure(None) <==> body == Code(OK)
    ensures body.Code? && CONNECTION_CLOSED < body.code <= 255 ==>
              DecodeFailure(body) == Failure(Some(Of(ProtocolViolation)))
    ensures DecodeFailure(body).Refused? <==> !body.Code? || body.code > 255
    ensures DecodeFailure(body).Refused? ==> OnlyIs(DecodeFailure(body).violation, ProtocolViolation)
  {
    assert Is(Of(ProtocolViolation), ProtocolViolation);
  }

  // ---------------------------------------------------------------------------------------
  // What the peer is told for an error, without the two switches.
  // ---------------------------------------------------------------------------------------

  /** The error answers for this sentinel and for no other. */
  ghost predicate OnlyIs(e: Error, k: Sentinel) {
    forall j :: Is(e, j) <==> j == k
  }

  /** `k` is a sentinel of the switch, the error answers for it, and for none of a better rank. */
  ghost predicate Decisive(e: Error, k: Sentinel) {
    Is(e, k) && Rank(k) < WORST && forall j :: Is(e, j) ==> Rank(k) <= Rank(j)
  }

  /**
   What the peer is told for an error: its decisive sentinel, a full queue being told as an overload.
   An error without one is told as an internal error.
   */
  ghost predicate Conveys(e: Error, told: Error) {
    && (forall k :: Decisive(e, k) ==> told == Of(if k == SendQueueFull then Overloaded else k))
    && ((forall k :: !Decisive(e, k)) ==> told == Of(Internal))
  }

  lemma RankHasItsError(k: Sentinel)
    requires Rank(k) < WORST
    ensures Err(CodeOfRank(Rank(k))) == Some(Of(if k == SendQueueFull then Overloaded else k))
  {
  }

  lemma DecisiveHasBestRank(e: Error)
    ensures forall k :: Decisive(e, k) ==> Rank(k) == TreeRank(e)
    ensures (forall k :: !Decisive(e, k)) ==> TreeRank(e) == WORST
  {
    TreeRankIsBest(e);
    if TreeRank(e) < WORST {
      var k :| Is(e, k) && Rank(k) == TreeRank(e);
      assert Decisive(e, k);
    }
    hide Is, Rank;
  }

  /** The error a status stands for is exactly what its error conveys. */
  lemma StatusConveys(e: Error)
    ensures Err(StatusOf(Some(e))).Some? && Conveys(e, Err(StatusOf(Some(e))).value)
  {
    StatusIsBestRank(e);
    DecisiveHasBestRank(e);
    hide StatusOf, TreeRank;
    forall k | Decisive(e, k)
      ensures Err(StatusOf(Some(e))) == Some(Of(if k == SendQueueFull then Overloaded else k))
    {
      RankHasItsError(k);
    }
    if forall k :: !Decisive(e, k) {
      assert Err(CodeOfRank(WORST)) == Some(Of(Internal));
    } else {
      hide Err, CodeOfRank;
    }
  }

  /** Every error conveys one sentinel, and never the end of a stream. */
  lemma ConveysOneSentinel(e: Error, told: Error)
    requires Conveys(e, told)
    ensures told.Of? && told.kind !in {StreamClosed, SendQueueFull, InvalidRegistration, ShortWrite, EndOfFile}
    ensures forall other :: Conveys(e, other) ==> other == told
  {
    if k :| Decisive(e, k) {
      assert told == Of(if k == SendQueueFull then Overloaded else k);
    }
    hide Decisive;
  }

  /** Any number of hops conveys the error itself. */
  lemma RelayConveys(hops: nat, e: Error)
    ensures Relay(hops + 1, Some(e)).Some? && Conveys(e, Relay(hops + 1, Some(e)).value)
  {
    RelayIsIdempotent(hops, Some(e));
    StatusConveys(e);
    hide Hop, StatusOf, Err, Decisive, Relay;
  }
}
