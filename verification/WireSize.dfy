/**
 The size limits: the payload checks of Session.Call, Router and stream.Send, and the body check of
 the frame writer, which also counts the Protocol Buffers tags, lengths and method name. The first
 let through what the second refuses; this module says exactly which payloads those are.
 */
module WireSize {
  import opened Status
  import opened Codec
  import Writer

  // ------------------------------------------------------------ Protocol Buffers encoding

  /** A base-128 varint, least significant group first. */
  function Varint(n: nat): seq<byte> {
    if n < 128 then [n] else [n % 128 + 128] + Varint(n / 128)
  }

  /** A length-delimited field with a one-byte tag; proto3 leaves an empty field out. */
  function Field(tag: byte, data: seq<byte>): seq<byte> {
    if data == [] then [] else [tag] + Varint(|data|) + data
  }

  const FIRST_FIELD: byte := 0x0a
  const SECOND_FIELD: byte := 0x12

  /** CallRequest: method is field 1, payload field 2. */
  function RequestBody(name: seq<byte>, payload: seq<byte>): seq<byte> {
    Field(FIRST_FIELD, name) + Field(SECOND_FIELD, payload)
  }

  /** CallResult: payload is field 1. */
  function ResultBody(payload: seq<byte>): seq<byte> {
    Field(FIRST_FIELD, payload)
  }

  // ------------------------------------------------------------ sizes

  /** The length of a varint below 2^35. */
  function VarintSize(n: nat): nat {
    if n < 0x80 then 1 else if n < 0x4000 then 2 else if n < 0x20_0000 then 3 else if n < 0x1000_0000 then 4 else 5
  }

  lemma VarintHasItsSize(n: nat)
    requires n < 0x8_0000_0000
    ensures |Varint(n)| == VarintSize(n)
  {
    var a := n / 128;
    var b := a / 128;
    var c := b / 128;
    var d := c / 128;
    assert n >= 128 ==> |Varint(n)| == 1 + |Varint(a)|;
    assert a >= 128 ==> |Varint(a)| == 1 + |Varint(b)|;
    assert b >= 128 ==> |Varint(b)| == 1 + |Varint(c)|;
    assert c >= 128 ==> |Varint(c)| == 1 + |Varint(d)|;
  }

  function FieldSize(length: nat): nat {
    if length == 0 then 0 else 1 + VarintSize(length) + length
  }

  lemma FieldHasItsSize(tag: byte, data: seq<byte>)
    ensures |data| <= MAX_UINT32 ==> |Field(tag, data)| == FieldSize(|data|)
    ensures |data| > MAX_UINT32 ==> |Field(tag, data)| > MAX_UINT32 && FieldSize(|data|) > MAX_UINT32
  {
    if |data| <= MAX_UINT32 { VarintHasItsSize(|data|); }
  }

  // ------------------------------------------------------------ the largest payload that fits

  /** How many bytes a field of the largest fitting length spends on its own length. */
  function Prefix(room: nat): nat {
    if room <= 0x81 then 1 else if room <= 0x4002 then 2 else if room <= 0x20_0003 then 3
    else if room <= 0x1000_0004 then 4 else 5
  }

  /** The longest content a field can have in `room` bytes. */
  function Fit(room: nat): nat {
    if room <= 2 then 0 else room - 1 - Prefix(room)
  }

  /** Fit is exact: a field fits exactly when its content is no longer than Fit. */
  lemma FitIsExact(room: nat, length: nat)
    requires room <= MAX_UINT32
    ensures FieldSize(length) <= room <==> length <= Fit(room)
  {
  }

  /** The body limit the writer enforces: the configured one, or what the header can carry. */
  function BodyLimit(maxBody: nat): nat {
    if maxBody < MAX_UINT32 then maxBody else MAX_UINT32
  }

  // ------------------------------------------------------------ requests and results

  /** The largest payload of a call to `name` that the writer accepts, if any does. */
  function RequestFit(nameLength: nat, maxBody: nat): Option<nat> {
    if FieldSize(nameLength) > BodyLimit(maxBody) then None
    else Some(Fit(BodyLimit(maxBody) - FieldSize(nameLength)))
  }

  lemma RequestSize(name: seq<byte>, payload: seq<byte>, limit: nat)
    requires limit <= MAX_UINT32
    ensures |RequestBody(name, payload)| <= limit <==> FieldSize(|name|) + FieldSize(|payload|) <= limit
  {
    FieldHasItsSize(FIRST_FIELD, name);
    FieldHasItsSize(SECOND_FIELD, payload);
    hide Field;
  }

  /**
   An outbound call is refused by the writer, which ends the session, exactly when its payload is
   longer than RequestFit: the payload check alone does not decide it.
   */
  lemma RequestRefusedIff(id: nat, name: seq<byte>, payload: seq<byte>, maxBody: nat)
    requires id <= MAX_STREAM_ID
    ensures var fit := RequestFit(|name|, maxBody);
            Writer.Refusal(Frame(OPEN_CALL, id, RequestBody(name, payload)), maxBody) ==
            if fit.Some? && |payload| <= fit.value then None else Some(Of(MessageTooLarge))
  {
    var limit := BodyLimit(maxBody);
    RequestSize(name, payload, limit);
    if FieldSize(|name|) <= limit {
      FitIsExact(limit - FieldSize(|name|), |payload|);
    }
    hide RequestBody, FieldSize, Fit;
  }

  /**
   The gap between the two checks for requests, under any limit: a name that does not fit refuses
   every payload; otherwise the payload check admits exactly these many bytes too many.
   */
  lemma RequestGap(nameLength: nat, maxBody: nat)
    ensures var fit, limit := RequestFit(nameLength, maxBody), BodyLimit(maxBody);
            && (fit.None? <==> FieldSize(nameLength) > limit)
            && (fit.Some? ==>
                  var room := limit - FieldSize(nameLength);
                  maxBody - fit.value ==
                  (maxBody - limit) + FieldSize(nameLength) + if room <= 2 then room else 1 + Prefix(room))
  {
    hide FieldSize, Prefix;
  }

  const CALL_RESULT: byte := 2

  /** A handler's result is refused by the writer exactly when it is longer than Fit of the limit. */
  lemma ResultRefusedIff(id: nat, payload: seq<byte>, maxBody: nat)
    requires id <= MAX_STREAM_ID
    ensures Writer.Refusal(Frame(CALL_RESULT, id, ResultBody(payload)), maxBody) ==
            if |payload| <= Fit(BodyLimit(maxBody)) then None else Some(Of(MessageTooLarge))
  {
    FieldHasItsSize(FIRST_FIELD, payload);
    FitIsExact(BodyLimit(maxBody), |payload|);
    hide Field, FieldSize, Fit;
  }

  /** Some payload within the limit is always refused: the gap is never empty. */
  lemma GapIsNeverEmpty(id: nat, payload: seq<byte>, maxBody: nat)
    requires id <= MAX_STREAM_ID && 0 < maxBody && |payload| == maxBody
    ensures Writer.Refusal(Frame(CALL_RESULT, id, ResultBody(payload)), maxBody) == Some(Of(MessageTooLarge))
  {
    ResultRefusedIff(id, payload, maxBody);
    hide ResultBody;
  }

  /** Under the default limit of 4 MiB the results of the last five sizes are refused. */
  lemma DefaultResultGap(id: nat, payload: seq<byte>)
    requires id <= MAX_STREAM_ID && |payload| <= 0x40_0000
    ensures Writer.Refusal(Frame(CALL_RESULT, id, ResultBody(payload)), 0x40_0000).Some? <==> |payload| > 0x40_0000 - 5
  {
    ResultRefusedIff(id, payload, 0x40_0000);
    hide ResultBody;
  }

  // ------------------------------------------------------------ stream messages

  const DATA: byte := 5
  const OPEN_STREAM: byte := 3

  /** Data: payload is field 1. */
  function DataBody(payload: seq<byte>): seq<byte> {
    Field(FIRST_FIELD, payload)
  }

  /** The longest stream message the writer accepts. */
  function DataFit(maxBody: nat): nat {
    Fit(BodyLimit(maxBody))
  }

  /** The pump's frame is refused by the writer, which ends the session, exactly above DataFit. */
  lemma DataRefusedIff(id: nat, payload: seq<byte>, maxBody: nat)
    requires id <= MAX_STREAM_ID
    ensures Writer.Refusal(Frame(DATA, id, DataBody(payload)), maxBody) ==
            if |payload| <= DataFit(maxBody) then None else Some(Of(MessageTooLarge))
  {
    FieldHasItsSize(FIRST_FIELD, payload);
    FitIsExact(BodyLimit(maxBody), |payload|);
    hide Field, FieldSize, Fit;
  }

  /**
   Send checks a message against MaxStreamMessageBytes alone. Every message it accepts can be
   written if and only if that limit is at most DataFit of MaxMessageBytes.
   */
  lemma AcceptedIsWritableIff(id: nat, maxStreamMessageBytes: nat, maxBody: nat)
    requires id <= MAX_STREAM_ID
    ensures (forall payload: seq<byte> :: |payload| <= maxStreamMessageBytes ==>
               Writer.Refusal(Frame(DATA, id, DataBody(payload)), maxBody).None?)
            <==> maxStreamMessageBytes <= DataFit(maxBody)
  {
    hide DataBody, DataFit;
    forall payload: seq<byte> | |payload| <= maxStreamMessageBytes
      ensures Writer.Refusal(Frame(DATA, id, DataBody(payload)), maxBody).None? <==> |payload| <= DataFit(maxBody)
    {
      DataRefusedIff(id, payload, maxBody);
    }
    var longest: seq<byte> := seq(maxStreamMessageBytes, _ => 0);
    assert |longest| == maxStreamMessageBytes;
  }

  /** The default limits leave room; two equal limits never do. */
  lemma StreamLimitsInUse(limit: nat)
    requires limit > 0
    ensures 0x10_0000 <= DataFit(0x40_0000)
    ensures DataFit(limit) < limit && DataFit(1024) == 1021
  {
  }

  // ------------------------------------------------------------ open and terminal frames

  /** The writer accepts the request for a stream of a method name of this length. */
  predicate NameFits(nameLength: nat, maxBody: nat) {
    FieldSize(nameLength) <= BodyLimit(maxBody)
  }

  /** The opener's frame is refused by the writer exactly for a name that does not fit. */
  lemma OpenRefusedIff(id: nat, name: seq<byte>, maxBody: nat)
    requires id <= MAX_STREAM_ID
    ensures Writer.Refusal(Frame(OPEN_STREAM, id, Field(FIRST_FIELD, name)), maxBody) ==
            if NameFits(|name|, maxBody) then None else Some(Of(MessageTooLarge))
  {
    FieldHasItsSize(FIRST_FIELD, name);
    hide Field, FieldSize;
  }

  /** StatusCode.String. */
  function StatusLabel(code: StatusCode): string {
    match code
    case 0 => "ok"
    case 1 => "method-not-found"
    case 2 => "unauthorized"
    case 3 => "overloaded"
    case 4 => "message-too-large"
    case 5 => "invalid-request"
    case 6 => "protocol-violation"
    case 7 => "internal"
    case 8 => "unavailable"
    case 9 => "deadline-exceeded"
    case 10 => "canceled"
    case 11 => "connection-closed"
    case _ => "unknown"
  }

  function Ascii(text: string): seq<byte> {
    seq(|text|, i requires 0 <= i < |text| => text[i] as int % 256)
  }

  const CODE_FIELD: byte := 0x08

  /** Status: code is field 1, left out when zero, and the label is field 2. */
  function StatusBody(code: StatusCode): seq<byte> {
    (if code == OK then [] else [CODE_FIELD] + Varint(code)) + Field(SECOND_FIELD, Ascii(StatusLabel(code)))
  }

  /** Failure: the status is field 1. */
  function FailureBytes(code: StatusCode): seq<byte> {
    Field(FIRST_FIELD, StatusBody(code))
  }

  function EndSize(code: StatusCode): nat {
    (if code == OK then 4 else if code < 128 then 6 else 7) + |StatusLabel(code)|
  }

  lemma EndHasItsSize(code: StatusCode)
    ensures |FailureBytes(code)| == EndSize(code) <= 25
  {
    var text := Ascii(StatusLabel(code));
    assert 2 <= |text| <= 18;
    VarintHasItsSize(code);
    VarintHasItsSize(|text|);
    assert |Field(SECOND_FIELD, text)| == 2 + |text|;
    VarintHasItsSize(|StatusBody(code)|);
    hide StatusLabel, Ascii;
  }

  /** The sizes in numbers, for the codes that StatusOf gives. */
  const END_SIZES: seq<nat> := [6, 22, 18, 16, 23, 21, 24, 14, 17, 23, 14, 23]

  lemma EndSizes(code: StatusCode)
    ensures code <= CONNECTION_CLOSED ==> EndSize(code) == END_SIZES[code]
    ensures CONNECTION_CLOSED < code < 128 ==> EndSize(code) == 13
    ensures code >= 128 ==> EndSize(code) == 14
  {
  }

  predicate EndFits(code: StatusCode, maxBody: nat) {
    EndSize(code) <= BodyLimit(maxBody)
  }

  /** A terminal frame is refused by the writer exactly when the limit is below its size. */
  lemma EndRefusedIff(id: nat, code: StatusCode, maxBody: nat)
    requires id <= MAX_STREAM_ID
    ensures Writer.Refusal(Frame(STREAM_END, id, FailureBytes(code)), maxBody) ==
            if EndFits(code, maxBody) then None else Some(Of(MessageTooLarge))
    ensures maxBody >= 25 ==> EndFits(code, maxBody)
  {
    EndHasItsSize(code);
    hide FailureBytes, EndSize;
  }
}
