/**
 The framing of infrastructure/peer/codec/frame.go: a 13-byte header (type, big-endian stream ID,
 big-endian body length) and an uninterpreted body.
 */
module Codec {
  import opened Status

  type byte = x: int | 0 <= x < 256

  const HEADER_SIZE: nat := 13
  const MAX_STREAM_ID: nat := 0x7fff_ffff_ffff_ffff
  const MAX_UINT32: nat := 0xffff_ffff
  const MAX_UINT64: nat := 0xffff_ffff_ffff_ffff

  const OPEN_CALL: byte := 1
  const STREAM_END: byte := 7
  const CLOSE: byte := 10

  datatype Frame = Frame(kind: byte, id: nat, payload: seq<byte>)

  /** The types that belong to a stream; ping, pong and close do not. */
  predicate Scoped(kind: byte) {
    OPEN_CALL <= kind <= STREAM_END
  }

  /** validate: a known type, an ID that fits 63 bits, and no ID on a connection-scoped frame. */
  predicate WellFormed(kind: byte, id: nat) {
    OPEN_CALL <= kind <= CLOSE && id <= MAX_STREAM_ID && (Scoped(kind) || id == 0)
  }

  /** The frames WriteFrame accepts under a body limit. */
  predicate Encodable(f: Frame, maxBody: nat) {
    |f.payload| <= maxBody && |f.payload| <= MAX_UINT32 && WellFormed(f.kind, f.id)
  }

  // ------------------------------------------------------------ big-endian numbers

  function BigEndian(n: nat, width: nat): seq<byte> {
    if width == 0 then [] else BigEndian(n / 256, width - 1) + [n % 256]
  }

  function FromBigEndian(s: seq<byte>): nat {
    if s == [] then 0 else 256 * FromBigEndian(s[..|s| - 1]) + s[|s| - 1]
  }

  function Bound(width: nat): nat {
    if width == 0 then 1 else 256 * Bound(width - 1)
  }

  lemma {:induction false} NumbersRoundTrip(n: nat, width: nat)
    requires n < Bound(width)
    ensures |BigEndian(n, width)| == width && FromBigEndian(BigEndian(n, width)) == n
  {
    if width > 0 {
      NumbersRoundTrip(n / 256, width - 1);
      assert BigEndian(n, width)[..width - 1] == BigEndian(n / 256, width - 1);
    }
  }

  lemma {:induction false} BytesRoundTrip(s: seq<byte>)
    ensures FromBigEndian(s) < Bound(|s|) && BigEndian(FromBigEndian(s), |s|) == s
  {
    if s != [] {
      BytesRoundTrip(s[..|s| - 1]);
    }
  }

  lemma Widths()
    ensures Bound(4) == MAX_UINT32 + 1 && Bound(8) == MAX_UINT64 + 1
  {
    assert Bound(4) == 0x1_0000_0000;
    assert Bound(5) == 256 * Bound(4) && Bound(6) == 256 * Bound(5) && Bound(7) == 256 * Bound(6) &&
           Bound(8) == 256 * Bound(7);
  }

  // ------------------------------------------------------------ one frame

  function Header(f: Frame): seq<byte> {
    [f.kind] + BigEndian(f.id, 8) + BigEndian(|f.payload|, 4)
  }

  function Encode(f: Frame): seq<byte> {
    Header(f) + f.payload
  }

  function EncodeAll(fs: seq<Frame>): seq<byte> {
    if fs == [] then [] else Encode(fs[0]) + EncodeAll(fs[1..])
  }

  /** How reading stops: the clean end, or the error that fails the connection. */
  datatype Outcome = Got(frame: Frame) | Stop(err: Error)

  /** truncated: the end of the input inside a frame violates the protocol; a failed read closes. */
  function Truncated(broken: bool): Error {
    Tree({}, [Of(if broken then ConnectionClosed else ProtocolViolation)])
  }

  /**
   One ReadFrame on the bytes that are still to come; `broken` tells whether the source then
   fails or ends. Gives the outcome and the bytes left.
   */
  function Parse(bytes: seq<byte>, broken: bool, maxBody: nat): (Outcome, seq<byte>) {
    if |bytes| < HEADER_SIZE then
      (Stop(if bytes == [] && !broken then Of(EndOfFile) else Truncated(broken)), [])
    else
      var kind, id, length := bytes[0], FromBigEndian(bytes[1..9]), FromBigEndian(bytes[9..13]);
      var rest := bytes[13..];
      if !WellFormed(kind, id) then (Stop(Of(ProtocolViolation)), rest)
      else if length > maxBody then (Stop(Of(MessageTooLarge)), rest)
      else if |rest| < length then (Stop(Truncated(broken)), [])
      else (Got(Frame(kind, id, rest[..length])), rest[length..])
  }

  /** The reader, which owns the bytes of its source and takes them from the front. */
  class Reader {
    const maxBodySize: nat
    const broken: bool
    var source: seq<byte>

    constructor (source: seq<byte>, broken: bool, maxBodySize: nat)
      ensures this.source == source && this.broken == broken && this.maxBodySize == maxBodySize
    {
      this.source, this.broken, this.maxBodySize := source, broken, maxBodySize;
    }

    /** io.ReadFull: exactly `n` bytes, or fewer when the source stops, and then why. */
    method ReadFull(n: nat) returns (data: seq<byte>, err: Option<Error>)
      modifies this`source
      ensures data + source == old(source)
      ensures err.None? <==> |data| == n
      ensures err.None? ==> data == old(source)[..n] && |old(source)| >= n
      ensures err.Some? ==> |old(source)| < n && source == []
      ensures err.Some? ==> Is(err.value, EndOfFile) == (!broken && old(source) == [])
    {
      if |source| < n {
        data := source;
        err := Some(if broken then Of(ConnectionClosed) else if source == [] then Of(EndOfFile) else Tree({}, []));
        source := [];
      } else {
        data, err, source := source[..n], None, source[n..];
      }
    }

    /** One frame; what becomes of the bytes is told field by field in ReadFrameDecides. */
    method ReadFrame() returns (r: Outcome)
      modifies this`source
      ensures (r, source) == Parse(old(source), broken, maxBodySize)
      ensures |old(source)| >= 13 && WholeBody(old(source)) && LengthField(old(source)) <= maxBodySize ==>
                (r.Got? <==> LegalHeader(old(source)))
      ensures r.Got? ==>
                && |old(source)| >= 13 && WholeBody(old(source))
                && r.frame == Frame(old(source)[0], IdField(old(source)),
                                    old(source)[13..13 + LengthField(old(source))])
    {
      ReadFrameDecides(source, broken, maxBodySize);
      var header, err := ReadFull(HEADER_SIZE);
      if err.Some? {
        if Is(err.value, EndOfFile) && header == [] { return Stop(Of(EndOfFile)); }
        return Stop(Truncated(broken));
      }
      var kind, id, length := header[0], FromBigEndian(header[1..9]), FromBigEndian(header[9..13]);
      assert header[1..9] == old(source)[1..9] && header[9..13] == old(source)[9..13];
      assert source == old(source)[13..];
      if !WellFormed(kind, id) { return Stop(Of(ProtocolViolation)); }
      if length > maxBodySize { return Stop(Of(MessageTooLarge)); }
      if length == 0 {
        return Got(Frame(kind, id, []));
      }
      ghost var rest := source;
      var body, short := ReadFull(length);
      if short.Some? { return Stop(Truncated(broken)); }
      assert source == rest[length..] by { assert rest == body + source; }
      return Got(Frame(kind, id, body));
    }
  }

  // ------------------------------------------------------------ the header, byte by byte

  /** The byte at `i` as a number. */
  function At(b: seq<byte>, i: nat): nat
    requires i < |b|
  {
    b[i]
  }

  /** Four bytes from `i` on as a number, the most significant first. */
  function Word(b: seq<byte>, i: nat): nat
    requires i + 4 <= |b|
  {
    0x100_0000 * At(b, i) + 0x1_0000 * At(b, i + 1) + 0x100 * At(b, i + 2) + At(b, i + 3)
  }

  /** Bytes 1 to 8. */
  function IdField(b: seq<byte>): nat
    requires |b| >= 13
  {
    0x1_0000_0000 * Word(b, 1) + Word(b, 5)
  }

  /** Bytes 9 to 12. */
  function LengthField(b: seq<byte>): nat
    requires |b| >= 13
  {
    Word(b, 9)
  }

  /** A type from 1 to 10, an identifier below 2^63, and none on the types 8, 9 and 10. */
  predicate Legal(kind: byte, id: nat) {
    1 <= kind <= 10 && id < 0x8000_0000_0000_0000 && (kind in {8, 9, 10} ==> id == 0)
  }

  predicate LegalHeader(b: seq<byte>)
    requires |b| >= 13
  {
    Legal(b[0], IdField(b))
  }

  predicate WholeBody(b: seq<byte>)
    requires |b| >= 13
  {
    13 + LengthField(b) <= |b|
  }

  lemma OneMoreByte(b: seq<byte>, i: nat, j: nat)
    requires i <= j < |b|
    ensures FromBigEndian(b[i..j + 1]) == 256 * FromBigEndian(b[i..j]) + At(b, j)
  {
    var s := b[i..j + 1];
    assert s[..|s| - 1] == b[i..j] && s[|s| - 1] == b[j];
  }

  lemma FourMoreBytes(b: seq<byte>, i: nat, j: nat)
    requires i <= j && j + 4 <= |b|
    ensures FromBigEndian(b[i..j + 4]) == 0x1_0000_0000 * FromBigEndian(b[i..j]) + Word(b, j)
  {
    hide FromBigEndian;
    OneMoreByte(b, i, j);
    OneMoreByte(b, i, j + 1);
    OneMoreByte(b, i, j + 2);
    OneMoreByte(b, i, j + 3);
  }

  lemma FieldsAreNumbers(b: seq<byte>)
    requires |b| >= 13
    ensures FromBigEndian(b[1..9]) == IdField(b) && FromBigEndian(b[9..13]) == LengthField(b)
  {
    assert FromBigEndian(b[1..1]) == 0 && FromBigEndian(b[9..9]) == 0;
    FourMoreBytes(b, 1, 1);
    FourMoreBytes(b, 1, 5);
    FourMoreBytes(b, 9, 9);
    hide FromBigEndian, Word;
  }

  /**
   What one ReadFrame makes of any bytes, in terms of the bytes alone: an empty source that ended is
   the clean end; less than a header or less than the announced body is a truncation; an illegal
   header is a violation before its length is looked at; anything else is the frame.
   */
  lemma ReadFrameDecides(b: seq<byte>, broken: bool, maxBody: nat)
    ensures var (r, rest) := Parse(b, broken, maxBody);
            if |b| < 13 then
              && r.Stop? && rest == [] && (r.err == Of(EndOfFile) <==> b == [] && !broken)
              && (b != [] || broken ==> OnlyIs(r.err, if broken then ConnectionClosed else ProtocolViolation))
            else if !LegalHeader(b) then r == Stop(Of(ProtocolViolation)) && rest == b[13..]
            else if LengthField(b) > maxBody then r == Stop(Of(MessageTooLarge)) && rest == b[13..]
            else if !WholeBody(b) then
              r.Stop? && rest == [] && OnlyIs(r.err, if broken then ConnectionClosed else ProtocolViolation)
            else
              && r == Got(Frame(b[0], IdField(b), b[13..13 + LengthField(b)]))
              && rest == b[13 + LengthField(b)..]
  {
    TruncationTells(broken);
    if |b| >= 13 {
      FieldsAreNumbers(b);
      assert b[13..][..|b| - 13] == b[13..];
    }
    hide FromBigEndian, IdField, LengthField, Truncated;
  }

  lemma TruncationTells(broken: bool)
    ensures OnlyIs(Truncated(broken), if broken then ConnectionClosed else ProtocolViolation)
    ensures Truncated(broken) != Of(EndOfFile)
  {
    assert Is(Of(ConnectionClosed), ConnectionClosed) && Is(Of(ProtocolViolation), ProtocolViolation);
  }

  lemma HeaderFields(f: Frame, maxBody: nat)
    requires Encodable(f, maxBody)
    ensures |Header(f)| == HEADER_SIZE && Header(f)[0] == f.kind
    ensures FromBigEndian(Header(f)[1..9]) == f.id && FromBigEndian(Header(f)[9..13]) == |f.payload|
  {
    Widths();
    NumbersRoundTrip(f.id, 8);
    NumbersRoundTrip(|f.payload|, 4);
    assert Header(f)[1..9] == BigEndian(f.id, 8) && Header(f)[9..13] == BigEndian(|f.payload|, 4);
  }

  /** Reading the encoding of a frame gives the frame and leaves exactly what follows it. */
  lemma ParseEncoded(f: Frame, rest: seq<byte>, broken: bool, maxBody: nat)
    requires Encodable(f, maxBody)
    ensures Parse(Encode(f) + rest, broken, maxBody) == (Got(f), rest)
  {
    HeaderFields(f, maxBody);
    var bytes := Encode(f) + rest;
    assert bytes[1..9] == Header(f)[1..9] && bytes[9..13] == Header(f)[9..13];
    assert bytes[13..] == f.payload + rest;
    assert bytes[13..][..|f.payload|] == f.payload && bytes[13..][|f.payload|..] == rest;
    hide Encode, Header, BigEndian, FromBigEndian;
  }

  lemma HeaderFromFields(bytes: seq<byte>, f: Frame)
    requires |bytes| >= HEADER_SIZE && f.kind == bytes[0]
    requires f.id == FromBigEndian(bytes[1..9]) && |f.payload| == FromBigEndian(bytes[9..13])
    ensures Header(f) == bytes[..13] && |f.payload| <= MAX_UINT32
  {
    BytesRoundTrip(bytes[1..9]);
    BytesRoundTrip(bytes[9..13]);
    Widths();
    hide BigEndian, FromBigEndian, Bound;
    assert bytes[..13] == [bytes[0]] + bytes[1..9] + bytes[9..13];
  }

  /** Any bytes that parse are the encoding of the frame they parse to, and what follows. */
  lemma ParsedIsEncoded(bytes: seq<byte>, broken: bool, maxBody: nat)
    requires Parse(bytes, broken, maxBody).0.Got?
    ensures var (r, rest) := Parse(bytes, broken, maxBody);
            Encodable(r.frame, maxBody) && bytes == Encode(r.frame) + rest
  {
    hide BigEndian, FromBigEndian, Header;
    var (r, rest) := Parse(bytes, broken, maxBody);
    HeaderFromFields(bytes, r.frame);
    assert bytes[13..] == r.frame.payload + rest;
    assert bytes == bytes[..13] + bytes[13..];
  }

  /** Cut inside its header or its body, a frame is a truncation. */
  lemma ParseCut(f: Frame, k: nat, maxBody: nat)
    requires Encodable(f, maxBody) && 0 < k < |Encode(f)|
    ensures Parse(Encode(f)[..k], false, maxBody) == (Stop(Truncated(false)), [])
  {
    HeaderFields(f, maxBody);
    var bytes := Encode(f)[..k];
    if k >= HEADER_SIZE {
      assert bytes[1..9] == Header(f)[1..9] && bytes[9..13] == Header(f)[9..13];
    }
    hide Header, BigEndian, FromBigEndian;
  }

  lemma ParseShrinks(bytes: seq<byte>, broken: bool, maxBody: nat)
    requires Parse(bytes, broken, maxBody).0.Got?
    ensures |Parse(bytes, broken, maxBody).1| < |bytes|
  {
  }

  // ------------------------------------------------------------ whole connections

  /** Reading until the first stop: the frames and why reading stopped. */
  function Decode(bytes: seq<byte>, broken: bool, maxBody: nat): (seq<Frame>, Error)
    decreases |bytes|
  {
    var (r, rest) := Parse(bytes, broken, maxBody);
    match r
    case Stop(err) => ([], err)
    case Got(f) =>
      ParseShrinks(bytes, broken, maxBody);
      var (fs, err) := Decode(rest, broken, maxBody);
      ([f] + fs, err)
  }

  ghost predicate AllEncodable(fs: seq<Frame>, maxBody: nat) {
    forall i :: 0 <= i < |fs| ==> Encodable(fs[i], maxBody)
  }

  /** Whole frames in front are returned first; what follows decides the rest. */
  lemma {:induction false} DecodeAfterFrames(fs: seq<Frame>, rest: seq<byte>, broken: bool, maxBody: nat)
    requires AllEncodable(fs, maxBody)
    ensures var (gs, err) := Decode(rest, broken, maxBody);
            Decode(EncodeAll(fs) + rest, broken, maxBody) == (fs + gs, err)
  {
    hide Parse, Encode, Encodable;
    var gs := Decode(rest, broken, maxBody).0;
    if fs == [] {
      assert EncodeAll(fs) + rest == rest && fs + gs == gs;
    } else {
      var tail := EncodeAll(fs[1..]) + rest;
      assert EncodeAll(fs) + rest == Encode(fs[0]) + tail;
      ParseEncoded(fs[0], tail, broken, maxBody);
      DecodeAfterFrames(fs[1..], rest, broken, maxBody);
      DecodeOneMore(EncodeAll(fs) + rest, fs[0], tail, broken, maxBody);
      assert [fs[0]] + (fs[1..] + gs) == fs + gs;
    }
  }

  lemma DecodeOneMore(bytes: seq<byte>, f: Frame, rest: seq<byte>, broken: bool, maxBody: nat)
    requires Parse(bytes, broken, maxBody) == (Got(f), rest)
    ensures Decode(bytes, broken, maxBody) == ([f] + Decode(rest, broken, maxBody).0, Decode(rest, broken, maxBody).1)
  {
    hide Parse;
  }

  /** Decoding the encodings of any frames gives them back and then the clean end. */
  lemma DecodeInvertsEncode(fs: seq<Frame>, maxBody: nat)
    requires AllEncodable(fs, maxBody)
    ensures Decode(EncodeAll(fs), false, maxBody) == (fs, Of(EndOfFile))
  {
    DecodeAfterFrames(fs, [], false, maxBody);
    assert EncodeAll(fs) + [] == EncodeAll(fs) && fs + [] == fs;
  }

  /** A connection cut inside a frame gives exactly the whole frames before it, then a violation. */
  lemma CutIsAViolation(fs: seq<Frame>, f: Frame, k: nat, maxBody: nat)
    requires AllEncodable(fs, maxBody) && Encodable(f, maxBody) && 0 < k < |Encode(f)|
    ensures Decode(EncodeAll(fs) + Encode(f)[..k], false, maxBody) == (fs, Truncated(false))
    ensures Is(Truncated(false), ProtocolViolation) && !Is(Truncated(false), EndOfFile)
  {
    ParseCut(f, k, maxBody);
    DecodeAfterFrames(fs, Encode(f)[..k], false, maxBody);
    assert fs + [] == fs;
    assert Is(Of(ProtocolViolation), ProtocolViolation);
  }

  /**
   Whatever bytes arrive, the frames returned re-encode to exactly the bytes before the point at
   which reading stopped, and the stop is what those remaining bytes parse to.
   */
  lemma {:induction false} DecodedFramesAreThePrefix(bytes: seq<byte>, broken: bool, maxBody: nat)
    returns (rest: seq<byte>)
    ensures var (fs, err) := Decode(bytes, broken, maxBody);
            && AllEncodable(fs, maxBody) && bytes == EncodeAll(fs) + rest
            && Parse(rest, broken, maxBody).0 == Stop(err)
    decreases |bytes|
  {
    var (r, tail) := Parse(bytes, broken, maxBody);
    match r
    case Stop(_) =>
      rest := bytes;
    case Got(f) =>
      ParsedIsEncoded(bytes, broken, maxBody);
      ParseShrinks(bytes, broken, maxBody);
      rest := DecodedFramesAreThePrefix(tail, broken, maxBody);
      var fs := Decode(tail, broken, maxBody).0;
      assert ([f] + fs)[1..] == fs;
      assert Encode(f) + (EncodeAll(fs) + rest) == Encode(f) + EncodeAll(fs) + rest;
      hide Parse, Encode;
  }

  /** Bytes decode to a clean end exactly when they are the encoding of the frames they decode to. */
  lemma CleanEndIffEncoding(bytes: seq<byte>, maxBody: nat)
    ensures var (fs, err) := Decode(bytes, false, maxBody);
            err == Of(EndOfFile) <==> bytes == EncodeAll(fs)
  {
    var (fs, err) := Decode(bytes, false, maxBody);
    var rest := DecodedFramesAreThePrefix(bytes, false, maxBody);
    if bytes == EncodeAll(fs) {
      DecodeInvertsEncode(fs, maxBody);
    }
    if err == Of(EndOfFile) {
      assert rest == [];
    }
    hide EncodeAll, Decode;
  }

  /** The encoding is unambiguous. */
  lemma EncodingIsInjective(fs: seq<Frame>, gs: seq<Frame>, maxBody: nat)
    requires AllEncodable(fs, maxBody) && AllEncodable(gs, maxBody) && EncodeAll(fs) == EncodeAll(gs)
    ensures fs == gs
  {
    DecodeInvertsEncode(fs, maxBody);
    DecodeInvertsEncode(gs, maxBody);
  }
}
