/**
 The writing half of infrastructure/peer/codec/frame.go against a target that may accept any
 number of bytes, report an error, or report a count that makes no sense.
 */
module Writer {
  import opened Status
  import opened Codec

  /**
   What the target does on one call of Write: it takes up to `n` bytes and reports what it
   took, with or without an error; or it takes up to `n` bytes and reports a count outside the
   range, below zero or above the length by `excess`.
   */
  datatype Response =
    | Takes(n: nat, failed: bool)
    | Lies(n: nat, negative: bool, excess: nat)

  /** The target's answers, call by call. */
  type Script = nat -> Response

  function Min(a: nat, b: nat): nat {
    if a < b then a else b
  }

  class Target {
    const script: Script
    var calls: nat
    var accepted: seq<byte>

    constructor (script: Script)
      ensures this.script == script && calls == 0 && accepted == []
    {
      this.script, calls, accepted := script, 0, [];
    }

    method Write(data: seq<byte>) returns (written: int, failed: bool)
      modifies this
      ensures calls == old(calls) + 1
      ensures accepted == old(accepted) + data[..Min(script(old(calls)).n, |data|)]
      ensures match script(old(calls))
              case Takes(n, f) => written == Min(n, |data|) && failed == f
              case Lies(_, _, _) => written < 0 || written > |data|
    {
      var r := script(calls);
      accepted := accepted + data[..Min(r.n, |data|)];
      calls := calls + 1;
      match r {
        case Takes(n, f) => written, failed := Min(n, |data|), f;
        case Lies(_, negative, excess) =>
          written, failed := if negative then -1 - excess else |data| + 1 + excess, false;
      }
    }
  }

  /** What one loop of writeAll comes to: why it failed, if it did, the bytes taken and the next call. */
  datatype Fed = Fed(err: Option<Error>, taken: nat, calls: nat)

  function Feed(script: Script, calls: nat, data: seq<byte>): (r: Fed)
    ensures r.taken <= |data| && calls <= r.calls
    ensures r.err.None? ==> r.taken == |data|
    decreases |data|
  {
    if data == [] then Fed(None, 0, calls)
    else
      var n := Min(script(calls).n, |data|);
      if script(calls).Lies? || script(calls).failed then Fed(Some(Of(ConnectionClosed)), n, calls + 1)
      else if n == 0 then Fed(Some(Of(ShortWrite)), 0, calls + 1)
      else
        var rest := Feed(script, calls + 1, data[n..]);
        rest.(taken := n + rest.taken)
  }

  lemma PrefixGrows(data: seq<byte>, done: nat, n: nat)
    requires done + n <= |data|
    ensures data[..done] + data[done..][..n] == data[..done + n] && data[done..][n..] == data[done + n..]
  {
  }

  lemma FeedNothing(script: Script, calls: nat)
    ensures Feed(script, calls, []) == Fed(None, 0, calls)
  {
  }

  /** What one answer of the target makes of the loop. */
  lemma FeedOnce(script: Script, calls: nat, data: seq<byte>)
    requires data != []
    ensures var r, n := script(calls), Min(script(calls).n, |data|);
            Feed(script, calls, data) ==
            if r.Lies? || r.failed then Fed(Some(Of(ConnectionClosed)), n, calls + 1)
            else if n == 0 then Fed(Some(Of(ShortWrite)), 0, calls + 1)
            else var rest := Feed(script, calls + 1, data[n..]); rest.(taken := n + rest.taken)
  {
  }

  /** An answer after which writeAll gives up. */
  predicate Bad(r: Response) {
    r.Lies? || r.failed || r.n == 0
  }

  /** The bytes that the answers from call `i` up to call `j` take, if there are that many. */
  function Capacity(script: Script, i: nat, j: nat): nat
    requires i <= j
    decreases j - i
  {
    if i == j then 0 else script(i).n + Capacity(script, i + 1, j)
  }

  /**
   The loop goes on over good answers, ends at the first bad one and says why: a claim out of range or
   a reported failure as a closed connection, an answer that took nothing as a short write. The
   bytes taken are those the answers take.
   */
  lemma {:induction false} FeedStopsAtTheFirstBad(script: Script, calls: nat, data: seq<byte>)
    ensures var fed := Feed(script, calls, data);
            && (forall i :: calls <= i < fed.calls - 1 ==> !Bad(script(i)))
            && (fed.err.None? ==> forall i :: calls <= i < fed.calls ==> !Bad(script(i)))
            && (fed.err.Some? ==>
                  && calls < fed.calls && Bad(script(fed.calls - 1))
                  && var last := script(fed.calls - 1);
                     fed.err.value == Of(if last.Lies? || last.failed then ConnectionClosed else ShortWrite))
            && fed.taken == Min(|data|, Capacity(script, calls, fed.calls))
    decreases |data|
  {
    if data != [] && !Bad(script(calls)) {
      var n := Min(script(calls).n, |data|);
      FeedStopsAtTheFirstBad(script, calls + 1, data[n..]);
      var rest := Feed(script, calls + 1, data[n..]);
      assert Capacity(script, calls, rest.calls) == script(calls).n + Capacity(script, calls + 1, rest.calls);
    } else if data != [] {
      assert Capacity(script, calls, calls + 1) == script(calls).n + Capacity(script, calls + 1, calls + 1);
    }
  }

  /** writeAll: terminates whatever the target does; all the bytes on success, a prefix on failure. */
  method WriteAll(target: Target, data: seq<byte>) returns (err: Option<Error>)
    modifies target
    ensures var fed := Feed(target.script, old(target.calls), data);
            && err == fed.err && target.calls == fed.calls
            && target.accepted == old(target.accepted) + data[..fed.taken]
    ensures err.None? ==> target.accepted == old(target.accepted) + data
  {
    hide Feed;
    ghost var goal := Feed(target.script, target.calls, data);
    ghost var before := target.accepted;
    var rest := data;
    ghost var done: nat := 0;
    while rest != []
      invariant done <= |data| && rest == data[done..] && target.accepted == before + data[..done]
      invariant goal == var fed := Feed(target.script, target.calls, rest); fed.(taken := done + fed.taken)
      decreases |rest|
    {
      ghost var n := Min(target.script(target.calls).n, |rest|);
      PrefixGrows(data, done, n);
      FeedOnce(target.script, target.calls, rest);
      var written, failed := target.Write(rest);
      assert target.accepted == before + data[..done + n];
      if written < 0 || written > |rest| { return Some(Of(ConnectionClosed)); }
      rest := rest[written..];
      done := done + written;
      if failed { return Some(Of(ConnectionClosed)); }
      if written == 0 { return Some(Of(ShortWrite)); }
    }
    FeedNothing(target.script, target.calls);
    err := None;
  }

  /** The refusal WriteFrame gives before it touches the target: the size first, then the fields. */
  function Refusal(f: Frame, maxBody: nat): (r: Option<Error>)
    ensures r.None? <==> Encodable(f, maxBody)
    ensures r.None? <==> |f.payload| <= maxBody && |f.payload| < 0x1_0000_0000 && Legal(f.kind, f.id)
    ensures r.Some? ==> r.value == Of(if |f.payload| <= maxBody && |f.payload| < 0x1_0000_0000
                                      then ProtocolViolation else MessageTooLarge)
  {
    if |f.payload| > maxBody || |f.payload| > MAX_UINT32 then Some(Of(MessageTooLarge))
    else if !WellFormed(f.kind, f.id) then Some(Of(ProtocolViolation))
    else None
  }

  /** WriteFrame's two loops: the header, then a body if there is one. */
  function FeedFrame(script: Script, calls: nat, f: Frame): (r: Fed)
    ensures r.taken <= |Encode(f)| && calls <= r.calls
    ensures r.err.None? ==> r.taken == |Encode(f)|
  {
    var head := Feed(script, calls, Header(f));
    if head.err.Some? then head
    else
      var body := Feed(script, head.calls, f.payload);
      body.(taken := |Header(f)| + body.taken)
  }

  lemma HeaderPart(f: Frame, k: nat)
    requires k <= |Header(f)|
    ensures Encode(f)[..k] == Header(f)[..k]
  {
  }

  lemma BodyPart(f: Frame, k: nat)
    requires k <= |f.payload|
    ensures Encode(f)[..|Header(f)| + k] == Header(f) + f.payload[..k]
  {
  }

  /** On a transport without a bad answer every frame that is not refused is written whole. */
  lemma GoodTransportTakesAll(script: Script, calls: nat, f: Frame)
    requires forall i :: calls <= i ==> !Bad(script(i))
    ensures FeedFrame(script, calls, f).err.None? && FeedFrame(script, calls, f).taken == |Encode(f)|
  {
    FeedStopsAtTheFirstBad(script, calls, Header(f));
    FeedStopsAtTheFirstBad(script, Feed(script, calls, Header(f)).calls, f.payload);
    hide Feed, Header, Capacity;
  }

  method WriteFrame(target: Target, maxBody: nat, f: Frame) returns (err: Option<Error>)
    modifies target
    ensures |f.payload| > maxBody || |f.payload| >= 0x1_0000_0000 ==>
              err == Some(Of(MessageTooLarge)) && target.accepted == old(target.accepted)
    ensures |f.payload| <= maxBody && |f.payload| < 0x1_0000_0000 && !Legal(f.kind, f.id) ==>
              err == Some(Of(ProtocolViolation)) && target.accepted == old(target.accepted)
    ensures (forall i :: old(target.calls) <= i ==> !Bad(target.script(i))) ==>
              (err.None? <==> |f.payload| <= maxBody && |f.payload| < 0x1_0000_0000 && Legal(f.kind, f.id))
    ensures Refusal(f, maxBody).Some? ==>
              err == Refusal(f, maxBody) && target.accepted == old(target.accepted) && target.calls == old(target.calls)
    ensures Refusal(f, maxBody).None? ==>
              var fed := FeedFrame(target.script, old(target.calls), f);
              && err == fed.err && target.calls == fed.calls
              && target.accepted == old(target.accepted) + Encode(f)[..fed.taken]
  {
    if forall i :: target.calls <= i ==> !Bad(target.script(i)) {
      GoodTransportTakesAll(target.script, target.calls, f);
    }
    hide Encode, Header, WellFormed, Bad;
    err := Refusal(f, maxBody);
    if err.Some? { return; }
    var header := Header(f);
    HeaderPart(f, Feed(target.script, target.calls, header).taken);
    err := WriteAll(target, header);
    if err.Some? { return; }
    BodyPart(f, Feed(target.script, target.calls, f.payload).taken);
    if f.payload == [] { return; }
    err := WriteAll(target, f.payload);
  }

  // ------------------------------------------------------------ many writers

  /** A transport that has failed stays failed: it takes nothing more and never succeeds again. */
  ghost predicate FailStop(script: Script) {
    forall i: nat, j: nat :: i < j && Bad(script(i)) ==> Bad(script(j)) && script(j).n == 0
  }

  /** The bytes that come of writing frames one after the other, as the mutex orders them. */
  function Stream(script: Script, calls: nat, frames: seq<Frame>): seq<byte>
    decreases |frames|
  {
    if frames == [] then []
    else
      var fed := FeedFrame(script, calls, frames[0]);
      Encode(frames[0])[..fed.taken] + Stream(script, fed.calls, frames[1..])
  }

  /** How many of the frames were written, counting from the first until one fails. */
  function Written(script: Script, calls: nat, frames: seq<Frame>): (n: nat)
    ensures n <= |frames|
    decreases |frames|
  {
    if frames == [] then 0
    else
      var fed := FeedFrame(script, calls, frames[0]);
      if fed.err.Some? then 0 else 1 + Written(script, fed.calls, frames[1..])
  }

  /** Every writer holds the mutex while it writes, so a run of writers is a sequence of frames. */
  method WriteFrames(target: Target, maxBody: nat, frames: seq<Frame>) returns (written: nat)
    requires AllEncodable(frames, maxBody)
    modifies target
    ensures target.accepted == old(target.accepted) + Stream(target.script, old(target.calls), frames)
    ensures written == Written(target.script, old(target.calls), frames)
  {
    hide FeedFrame, Encode, Encodable;
    written := 0;
    if frames != [] {
      var err := WriteFrame(target, maxBody, frames[0]);
      var n := WriteFrames(target, maxBody, frames[1..]);
      written := if err.Some? then 0 else 1 + n;
    }
  }

  /** A loop that fails has met a bad answer, and one that starts after it gets nothing through. */
  lemma {:induction false} FailureWasBad(script: Script, calls: nat, data: seq<byte>)
    requires Feed(script, calls, data).err.Some?
    ensures exists i: nat :: calls <= i < Feed(script, calls, data).calls && Bad(script(i))
    decreases |data|
  {
    var n := Min(script(calls).n, |data|);
    if script(calls).Lies? || script(calls).failed || n == 0 {
      assert Bad(script(calls));
    } else {
      FailureWasBad(script, calls + 1, data[n..]);
    }
  }

  lemma AfterFailure(script: Script, calls: nat, f: Frame)
    requires FailStop(script) && exists i: nat :: i < calls && Bad(script(i))
    requires |Header(f)| > 0
    ensures FeedFrame(script, calls, f).err.Some? && FeedFrame(script, calls, f).taken == 0
  {
    var i: nat :| i < calls && Bad(script(i));
    assert Bad(script(calls)) && script(calls).n == 0;
  }

  lemma FrameFailureWasBad(script: Script, calls: nat, f: Frame)
    requires FeedFrame(script, calls, f).err.Some?
    ensures exists i: nat :: i < FeedFrame(script, calls, f).calls && Bad(script(i))
  {
    var head := Feed(script, calls, Header(f));
    if head.err.Some? {
      FailureWasBad(script, calls, Header(f));
    } else {
      FailureWasBad(script, head.calls, f.payload);
    }
    hide Feed, Bad;
  }

  lemma {:induction false} NothingAfterFailure(script: Script, calls: nat, frames: seq<Frame>)
    requires FailStop(script) && exists i: nat :: i < calls && Bad(script(i))
    ensures Stream(script, calls, frames) == []
    decreases |frames|
  {
    if frames != [] {
      AfterFailure(script, calls, frames[0]);
      var fed := FeedFrame(script, calls, frames[0]);
      var i: nat :| i < calls && Bad(script(i));
      assert i < fed.calls;
      hide Bad, FailStop, FeedFrame;
      NothingAfterFailure(script, fed.calls, frames[1..]);
    }
  }

  /** The bytes taken of the first frame that was not written, if there is one. */
  ghost predicate WholeFramesAndAPart(bytes: seq<byte>, frames: seq<Frame>, n: nat, k: nat) {
    && n <= |frames|
    && (if n == |frames| then k == 0 && bytes == EncodeAll(frames)
        else k <= |Encode(frames[n])| && bytes == EncodeAll(frames[..n]) + Encode(frames[n])[..k])
  }

  /**
   On a fail-stop transport the byte stream is the frames whose WriteFrame succeeded, whole and in
   order, and at most one part of the next one.
   */
  lemma {:induction false} StreamIsWholeFrames(script: Script, calls: nat, frames: seq<Frame>) returns (k: nat)
    requires FailStop(script)
    ensures WholeFramesAndAPart(Stream(script, calls, frames), frames, Written(script, calls, frames), k)
    decreases |frames|
  {
    hide Encode, FeedFrame, FailStop;
    if frames == [] {
      k := 0;
    } else {
      var fed, rest := FeedFrame(script, calls, frames[0]), frames[1..];
      if fed.err.Some? {
        k := fed.taken;
        FrameFailureWasBad(script, calls, frames[0]);
        NothingAfterFailure(script, fed.calls, rest);
        assert frames[..0] == [];
      } else {
        k := StreamIsWholeFrames(script, fed.calls, rest);
        assert Encode(frames[0])[..fed.taken] == Encode(frames[0]);
        OneMoreWholeFrame(Stream(script, fed.calls, rest), frames[0], rest, Written(script, fed.calls, rest), k);
        assert [frames[0]] + rest == frames;
        hide WholeFramesAndAPart;
      }
    }
  }

  lemma OneMoreWholeFrame(bytes: seq<byte>, f: Frame, rest: seq<Frame>, n: nat, k: nat)
    requires WholeFramesAndAPart(bytes, rest, n, k)
    ensures WholeFramesAndAPart(Encode(f) + bytes, [f] + rest, n + 1, k)
  {
    hide Encode;
    var frames := [f] + rest;
    assert frames[1..] == rest;
    if n < |rest| {
      assert frames[..n + 1] == [f] + rest[..n];
      assert ([f] + rest[..n])[1..] == rest[..n];
      assert EncodeAll(frames[..n + 1]) == Encode(f) + EncodeAll(rest[..n]);
    }
  }

  /**
   End to end: whatever a fail-stop transport does to the writers, the reader at the other end
   gets exactly the frames whose WriteFrame succeeded -- or one more, if the transport took the
   whole frame and then reported an error -- and then the clean end or a violation.
   */
  lemma ReaderGetsWhatWasWritten(script: Script, frames: seq<Frame>, maxBody: nat)
    requires FailStop(script) && AllEncodable(frames, maxBody)
    ensures var n := Written(script, 0, frames);
            var (got, err) := Decode(Stream(script, 0, frames), false, maxBody);
            && (got == frames[..n] || (n < |frames| && got == frames[..n + 1]))
            && (err == Of(EndOfFile) || err == Truncated(false))
            && (n == |frames| ==> got == frames && err == Of(EndOfFile))
  {
    var k := StreamIsWholeFrames(script, 0, frames);
    var n, bytes := Written(script, 0, frames), Stream(script, 0, frames);
    hide Encode, FailStop, Stream, Written;
    PartIsReadAsSuch(bytes, frames, n, k, maxBody);
    hide Decode;
  }

  lemma PartIsReadAsSuch(bytes: seq<byte>, frames: seq<Frame>, n: nat, k: nat, maxBody: nat)
    requires AllEncodable(frames, maxBody) && WholeFramesAndAPart(bytes, frames, n, k)
    ensures var (got, err) := Decode(bytes, false, maxBody);
            && (got == frames[..n] || (n < |frames| && got == frames[..n + 1]))
            && (err == Of(EndOfFile) || err == Truncated(false))
            && (n == |frames| ==> got == frames && err == Of(EndOfFile))
  {
    hide Encode, Decode, Encodable, Truncated;
    if n == |frames| {
      assert frames[..n] == frames;
      DecodeInvertsEncode(frames, maxBody);
    } else if k == 0 {
      assert bytes == EncodeAll(frames[..n]);
      DecodeInvertsEncode(frames[..n], maxBody);
    } else if k < |Encode(frames[n])| {
      CutIsAViolation(frames[..n], frames[n], k, maxBody);
    } else {
      assert Encode(frames[n])[..k] == Encode(frames[n]);
      EncodeAllAppends(frames[..n], frames[n]);
      assert frames[..n] + [frames[n]] == frames[..n + 1];
      DecodeInvertsEncode(frames[..n + 1], maxBody);
    }
  }

  lemma {:induction false} EncodeAllAppends(fs: seq<Frame>, f: Frame)
    ensures EncodeAll(fs + [f]) == EncodeAll(fs) + Encode(f)
  {
    hide Encode;
    var all := fs + [f];
    if fs == [] {
      assert all == [f] && all[1..] == [];
    } else {
      EncodeAllAppends(fs[1..], f);
      assert all[1..] == fs[1..] + [f] && all[0] == fs[0];
      assert EncodeAll(all) == Encode(fs[0]) + (EncodeAll(fs[1..]) + Encode(f));
    }
  }

  lemma {:induction false} ZeroDigits(width: nat)
    requires width > 0
    ensures |BigEndian(0, width)| == width && BigEndian(0, width)[0] == 0
  {
    if width > 1 { ZeroDigits(width - 1); }
  }

  /** The second byte of every frame of a short identifier is zero. */
  lemma SecondByteIsZero(f: Frame)
    requires f.id < 256 && f.payload == []
    ensures |Encode(f)| == HEADER_SIZE && Encode(f)[0] == f.kind && Encode(f)[1] == 0
  {
    ZeroDigits(7);
    ZeroDigits(4);
    assert BigEndian(f.id, 8) == BigEndian(0, 7) + [f.id];
  }

  /**
   Without fail-stop the framing is lost: after a short write in the middle of one frame, the
   next frame is written whole behind the part of the first.
   */
  lemma ShortWriteCorruptsTheStream(f: Frame, script: Script)
    requires f == Frame(STREAM_END, 1, [])
    requires script(0) == Takes(1, false) && script(1) == Takes(0, false) && script(2) == Takes(13, false)
    ensures Encodable(f, 1)
    ensures forall n: nat, k: nat :: !WholeFramesAndAPart(Stream(script, 0, [f, f]), [f, f], n, k)
  {
    var frames := [f, f];
    SecondByteIsZero(f);
    var first, second := FeedFrame(script, 0, f), FeedFrame(script, 2, f);
    assert Encode(f) == Header(f);
    hide Encode, Header;
    assert Feed(script, 1, Header(f)[1..]).taken == 0;
    assert first == Fed(Some(Of(ShortWrite)), 1, 2);
    assert Feed(script, 2, Header(f)) == Fed(None, 13, 3) by { assert Header(f)[13..] == []; }
    assert second == Fed(None, 13, 3);
    assert frames[1..] == [f] && [f][1..] == [];
    var bytes := Stream(script, 0, frames);
    assert Stream(script, 2, [f]) == Encode(f)[..13] + Stream(script, 3, [f][1..]);
    assert bytes == Encode(f)[..1] + (Encode(f)[..13] + []);
    forall n: nat, k: nat ensures !WholeFramesAndAPart(bytes, frames, n, k) {
      assert frames[..0] == [] && frames[..1] == [f];
      assert EncodeAll([f]) == Encode(f) + EncodeAll([f][1..]);
      assert EncodeAll(frames) == Encode(f) + EncodeAll(frames[1..]);
      if n == 1 && k <= 13 { assert (EncodeAll([f]) + Encode(f)[..k])[1] == 0 && bytes[1] == STREAM_END; }
    }
  }
}
