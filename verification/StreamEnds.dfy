/**
 Why a stream ended, as its opener is told, over all runs of two endpoints, disturbed or not: every
 error Recv returns is what the peer's terminal frame tells, the end of the caller's context, or the
 cause of the session's end; and every terminal frame the opener writes tells the peer its own reason.
 */
module StreamEnds {
  import opened Status
  import opened Stream
  import opened StreamPair
  import opened StreamConservation
  import opened StreamTermination
  import WireSize

  // ------------------------------------------------------------ reasons

  /** What a terminal frame of this code tells: the one error of that status that survives a hop. */
  ghost predicate TellsEnd(x: Error, code: StatusCode) {
    && (code == OK ==> x == Of(StreamClosed))
    && (1 <= code <= CONNECTION_CLOSED ==> Conveys(x, x) && StatusOf(Some(x)) == code)
    && (code > CONNECTION_CLOSED ==> x == Of(ProtocolViolation))
  }

  ghost predicate PeerEnded(processed: seq<Frame>, x: Error) {
    exists k :: 0 <= k < |processed| && processed[k].EndFrame? && TellsEnd(x, processed[k].code)
  }

  /** A message above the limit was taken; no conforming peer sends one. */
  ghost predicate TooBig(processed: seq<Frame>, maxBytes: nat) {
    exists k :: 0 <= k < |processed| && processed[k].DataFrame? && |processed[k].message| > maxBytes
  }

  /** The context the stream was opened under is done, by its deadline or otherwise. */
  predicate CallerGaveUp(c: Control, x: Error) {
    c.callerDone && (x == Of(Canceled) || (c.deadline && x == Of(DeadlineExceeded)))
  }

  /** The session has ended with this error; one that ended in good order ends its streams cleanly. */
  predicate SessionEnded(c: Control, x: Error) {
    c.terminal.Some? && (x == c.terminal.value || (x == Of(StreamClosed) && c.terminal.value == Of(ConnectionClosed)))
  }

  ghost predicate Reason(c: Control, processed: seq<Frame>, maxBytes: nat, x: Error) {
    || PeerEnded(processed, x) || CallerGaveUp(c, x) || SessionEnded(c, x)
    || (x == Of(MessageTooLarge) && TooBig(processed, maxBytes))
  }

  /** The peer's answer to the open: an acknowledgement or an empty end, else its refusal or the session's end. */
  ghost predicate VerdictTold(c: Control, processed: seq<Frame>) {
    match c.verdict
    case None => true
    case Some(Accept) => AckFrame in processed || EndFrame(OK) in processed
    case Some(Refuse(x)) => PeerEnded(processed, x) || c.terminal == Some(x)
  }

  /** What the opener's own terminal frames say. */
  ghost predicate NoticeTold(c: Control, processed: seq<Frame>, maxBytes: nat, code: StatusCode) {
    || (c.callerDone && code == if c.deadline then DEADLINE_EXCEEDED else CANCELED)
    || (code in {MESSAGE_TOO_LARGE, CANCELED} && TooBig(processed, maxBytes))
  }

  ghost predicate NoticesTold(c: Control, processed: seq<Frame>, maxBytes: nat, written: seq<Frame>) {
    forall k :: 0 <= k < |written| && written[k].EndFrame? ==> NoticeTold(c, processed, maxBytes, written[k].code)
  }

  ghost predicate EndsRecorded(ends: seq<RecvEnd>, finishErr: Option<Error>) {
    forall r :: r in ends && r.Terminated? ==> finishErr == Some(r.err)
  }

  /** Where the opener's goroutines stand while the stream ends. */
  ghost predicate Standing(c: Control, s: StreamState, settling: nat, reader: Reader, tooBig: bool) {
    && (s.stage == Live && (s.cancelled || settling > 0) ==> c.callerDone)
    && (c.opener == Abandoning ==> c.callerDone)
    && (c.opener in {Following, Notifying} ==> c.callerDone || tooBig)
    && (c.opener == Following && s.stage == Live ==> c.callerDone)
    && (c.opener in {Registered, Awaiting, Established} && c.registered && s.stage != Live ==> c.callerDone || tooBig)
    && (c.opener == Registered ==> c.registered || s.stage != Live)
    && (c.opener == NotOpened ==> s.stage == Live && !c.registered && settling == 0)
    && (c.registered ==> !c.down)
    && (c.down <==> c.terminal.Some?)
    && (reader.Oversized? ==> tooBig)
    && (reader.Serving? && reader.frame.EndFrame? ==> !c.registered)
  }

  ghost predicate OpenerEnds(e: Endpoint) {
    && e.ctl.client
    && (e.s.finishErr.Some? ==> Reason(e.ctl, e.rx.processed, e.s.maxBytes, e.s.finishErr.value))
    && VerdictTold(e.ctl, e.rx.processed)
    && NoticesTold(e.ctl, e.rx.processed, e.s.maxBytes, e.tx.written)
    && EndsRecorded(e.rx.ends, e.s.finishErr)
    && Standing(e.ctl, e.s, e.rx.settling, e.rx.reader, TooBig(e.rx.processed, e.s.maxBytes))
  }

  // ------------------------------------------------------------ reasons stay

  /** Nothing that gives a reason is ever withdrawn. */
  predicate Later(c: Control, c': Control) {
    && (c.callerDone ==> c'.callerDone && c'.deadline == c.deadline)
    && (c.terminal.Some? ==> c'.terminal == c.terminal)
  }

  lemma ReasonStays(c: Control, c': Control, processed: seq<Frame>, maxBytes: nat, x: Error)
    requires Reason(c, processed, maxBytes, x) && Later(c, c')
    ensures Reason(c', processed, maxBytes, x)
  {
    hide PeerEnded, TooBig;
  }

  lemma NoticesStay(c: Control, c': Control, processed: seq<Frame>, maxBytes: nat, written: seq<Frame>)
    requires NoticesTold(c, processed, maxBytes, written) && Later(c, c')
    ensures NoticesTold(c', processed, maxBytes, written)
  {
    hide TooBig;
  }

  lemma FrameKeepsTold(processed: seq<Frame>, f: Frame, maxBytes: nat)
    ensures forall x :: PeerEnded(processed, x) ==> PeerEnded(processed + [f], x)
    ensures TooBig(processed, maxBytes) ==> TooBig(processed + [f], maxBytes)
  {
    var longer := processed + [f];
    forall x | PeerEnded(processed, x) ensures PeerEnded(longer, x) {
      var k :| 0 <= k < |processed| && processed[k].EndFrame? && TellsEnd(x, processed[k].code);
      assert longer[k] == processed[k];
    }
    if TooBig(processed, maxBytes) {
      var k :| 0 <= k < |processed| && processed[k].DataFrame? && |processed[k].message| > maxBytes;
      assert longer[k] == processed[k];
    }
  }

  lemma CodeTellsEnd(code: StatusCode)
    ensures TellsEnd(EndFailure(code), code)
    ensures code != OK ==> Err(code).Some? && TellsEnd(Err(code).value, code)
  {
    if 1 <= code <= CONNECTION_CLOSED {
      CodesAreStable(code);
      StatusConveys(Err(code).value);
      hide StatusOf, Conveys;
    }
  }

  // ------------------------------------------------------------ the end of the session

  lemma NothingRecorded(ends: seq<RecvEnd>, x: Option<Error>)
    requires EndsRecorded(ends, None)
    ensures EndsRecorded(ends, x)
  {
  }

  lemma EndSessionIsTold(e: Endpoint, cause: Option<Error>)
    requires OpenerEnds(e) && Coherent(e.s)
    ensures OpenerEnds(EndSession(e, cause))
  {
    var e' := EndSession(e, cause);
    if e.s.finishErr.Some? { ReasonStays(e.ctl, e'.ctl, e.rx.processed, e.s.maxBytes, e.s.finishErr.value); }
    NoticesStay(e.ctl, e'.ctl, e.rx.processed, e.s.maxBytes, e.tx.written);
    if e.s.stage == Live { NothingRecorded(e.rx.ends, e'.s.finishErr); }
    hide PeerEnded, TooBig, NoticesTold, EndsRecorded, Is;
  }

  /** Finishing a stream that is still live, for a reason. */
  lemma FinishIsTold(e: Endpoint, err: Option<Error>)
    requires OpenerEnds(e) && Coherent(e.s) && e.ctl.opener != NotOpened
    requires e.s.stage == Live ==>
               Reason(e.ctl, e.rx.processed, e.s.maxBytes, if err.Some? then err.value else Of(StreamClosed))
    requires e.ctl.opener in {Registered, Awaiting, Established} && e.ctl.registered ==>
               e.s.stage != Live || e.ctl.callerDone || TooBig(e.rx.processed, e.s.maxBytes)
    ensures OpenerEnds(BeginFinish(e, err))
  {
    var e' := BeginFinish(e, err);
    if e.s.stage == Live { NothingRecorded(e.rx.ends, e'.s.finishErr); }
    hide PeerEnded, TooBig, NoticesTold, EndsRecorded, Reason, VerdictTold;
  }

  /** A frame of the opener's own that tells its reason, or any other frame. */
  lemma WriteIsTold(e: Endpoint, f: Frame, ok: bool)
    requires OpenerEnds(e) && Coherent(e.s)
    requires f.EndFrame? ==> NoticeTold(e.ctl, e.rx.processed, e.s.maxBytes, f.code)
    ensures OpenerEnds(Write(e, f, ok))
  {
    if ok {
      hide Reason, VerdictTold, EndsRecorded, Standing, NoticeTold, TooBig;
    } else {
      hide OpenerEnds;
      EndSessionIsTold(e, Some(WriteError(e, f)));
    }
  }

  // ------------------------------------------------------------ steps

  /** The opener's own state moves, and nothing else. */
  lemma MoveIsTold(e: Endpoint, c': Control)
    requires OpenerEnds(e)
    requires c' == e.ctl.(opener := c'.opener, openPending := c'.openPending, registered := c'.registered)
    requires Standing(c', e.s, e.rx.settling, e.rx.reader, TooBig(e.rx.processed, e.s.maxBytes))
    ensures OpenerEnds(e.(ctl := c'))
  {
    if e.s.finishErr.Some? { ReasonStays(e.ctl, c', e.rx.processed, e.s.maxBytes, e.s.finishErr.value); }
    NoticesStay(e.ctl, c', e.rx.processed, e.s.maxBytes, e.tx.written);
    hide PeerEnded, TooBig, NoticesTold, EndsRecorded, Reason, Standing;
  }

  lemma NoticeIsTold(e: Endpoint)
    requires OpenerEnds(e) && e.ctl.opener in {Abandoning, Notifying}
    ensures NoticeTold(e.ctl, e.rx.processed, e.s.maxBytes, Notice(e.ctl).code)
  {
    hide Reason, VerdictTold, NoticesTold, EndsRecorded, TooBig, StatusOf;
    ContextCodes();
  }

  lemma ContextCodes()
    ensures StatusOf(Some(Of(Canceled))) == CANCELED && StatusOf(Some(Of(DeadlineExceeded))) == DEADLINE_EXCEEDED
  {
  }

  lemma OpenerIsTold(l: Label, e: Endpoint, e': Endpoint)
    requires OpenerEnds(e) && Coherent(e.s) && Opening(e) && OpenerStep(l, e, e')
    ensures OpenerEnds(e')
  {
    hide OpenerEnds, Opening;
    var c := e.ctl;
    match l {
      case OpenStart => StartIsTold(e, e');
      case OpenWrite(ok) => OpenWriteIsTold(ok, e, e');
      case OpenAccepted => OpenerMovesTold(l, e, e'.ctl);
      case FollowCheck => OpenerMovesTold(l, e, e'.ctl);
      case OpenRefused =>
        OpenerMovesTold(l, e, c.(opener := OpenFailed, openPending := false));
        RefusalHasReason(e);
        FinishIsTold(e.(ctl := c.(opener := OpenFailed, openPending := false)), Some(c.verdict.value.err));
      case OpenAbandon =>
        OpenerMovesTold(l, e, c.(opener := Abandoning));
        FinishIsTold(SetOpener(e, Abandoning), Some(CtxErr(c)));
      case FollowDiscard =>
        OpenerMovesTold(l, e, c.(opener := Notifying, registered := false));
        FollowingGaveUp(e);
        FinishIsTold(e.(ctl := c.(opener := Notifying, registered := false)), Some(CtxErr(c)));
      case OpenNotify(ok) =>
        NoticeIsTold(e);
        WriteIsTold(e, Notice(c), ok);
        var e1 := Write(e, Notice(c), ok);
        OpenerMovesTold(l, e1, e1.ctl.(opener := OpenFailed, openPending := false));
      case FollowNotify(ok) =>
        NoticeIsTold(e);
        WriteIsTold(e, Notice(c), ok);
        var e1 := Write(e, Notice(c), ok);
        OpenerMovesTold(l, e1, e1.ctl.(opener := GaveUp));
      case _ =>
    }
  }

  lemma StartIsTold(e: Endpoint, e': Endpoint)
    requires OpenerEnds(e) && Opening(e) && OpenerStep(OpenStart, e, e')
    ensures OpenerEnds(e')
  {
    hide PeerEnded, TooBig, NoticesTold, EndsRecorded, Reason, VerdictTold, OpensFirst;
    MoveIsTold(e, e'.ctl);
  }

  lemma OpenWriteIsTold(ok: bool, e: Endpoint, e': Endpoint)
    requires OpenerEnds(e) && Coherent(e.s) && OpenerStep(OpenWrite(ok), e, e')
    ensures OpenerEnds(e')
  {
    WriteIsTold(e, OpenFrame, ok);
    var e1 := Write(e, OpenFrame, ok);
    hide PeerEnded, TooBig, NoticesTold, EndsRecorded, Reason, VerdictTold, Writable;
    MoveIsTold(e1, e1.ctl.(opener := if ok then Awaiting else OpenFailed));
  }

  /** The opener moves between two of its states that have nothing to explain. */
  lemma OpenerMovesTold(l: Label, e: Endpoint, c': Control)
    requires OpenerEnds(e)
    requires c' == e.ctl.(opener := c'.opener, openPending := c'.openPending, registered := c'.registered)
    requires c'.registered ==> e.ctl.registered
    requires || c'.opener in {OpenFailed, GaveUp}
             || (c'.opener == Established && e.ctl.opener == Awaiting)
             || (c'.opener == Following && e.ctl.opener == Established && e.s.cancelled && e.ctl.registered)
             || (c'.opener == Abandoning && e.ctl.callerDone)
             || (c'.opener == Notifying && e.ctl.opener == Following)
    ensures OpenerEnds(e.(ctl := c'))
  {
    assert Standing(c', e.s, e.rx.settling, e.rx.reader, TooBig(e.rx.processed, e.s.maxBytes)) by {
      hide TooBig, Reason, VerdictTold, NoticesTold, EndsRecorded;
    }
    hide OpenerEnds, Standing;
    MoveIsTold(e, c');
  }

  lemma RefusalHasReason(e: Endpoint)
    requires OpenerEnds(e) && e.ctl.verdict.Some? && e.ctl.verdict.value.Refuse?
    ensures Reason(e.ctl, e.rx.processed, e.s.maxBytes, e.ctl.verdict.value.err)
  {
    hide PeerEnded, TooBig, NoticesTold, EndsRecorded, Standing;
  }

  lemma FollowingGaveUp(e: Endpoint)
    requires OpenerEnds(e) && e.ctl.opener == Following
    ensures e.s.stage == Live ==> CallerGaveUp(e.ctl, CtxErr(e.ctl))
  {
    hide PeerEnded, TooBig, NoticesTold, EndsRecorded, Reason, VerdictTold;
  }

  /** Steps that touch neither the reasons nor what they are given for. */
  predicate SameEnds(e: Endpoint, e': Endpoint) {
    && e'.ctl == e.ctl && e'.rx.processed == e.rx.processed && e'.rx.ends == e.rx.ends
    && e'.rx.settling == e.rx.settling && e'.tx.written == e.tx.written && e'.s.maxBytes == e.s.maxBytes
    && e'.s.finishErr == e.s.finishErr && (e'.s.stage == Live <==> e.s.stage == Live)
    && e'.s.cancelled == e.s.cancelled
    && (e'.rx.reader == e.rx.reader || e'.rx.reader in {Ready, ReaderStopped, Settling})
  }

  lemma SameEndsTold(e: Endpoint, e': Endpoint)
    requires OpenerEnds(e) && SameEnds(e, e')
    ensures OpenerEnds(e')
  {
    hide PeerEnded, TooBig, NoticesTold, EndsRecorded, Reason, VerdictTold;
  }

  lemma SendingIsTold(l: Label, e: Endpoint, e': Endpoint)
    requires OpenerEnds(e) && Coherent(e.s) && (SenderStep(l, e, e') || PumpStep(l, e, e'))
    ensures OpenerEnds(e')
  {
    hide OpenerEnds;
    if l.PumpWrite? {
      var f := FrameOf(e.tx.pump.item);
      WriteIsTold(e, f, l.ok);
      SameEndsTold(Write(e, f, l.ok), e');
    } else {
      SameEndsTold(e, e');
    }
  }

  // ------------------------------------------------------------ the reader

  /** One frame is taken: the reader holds it, or it settles the open, or it ends the session. */
  lemma ReadIsTold(refusal: StatusCode, e: Endpoint, p: Endpoint, e': Endpoint)
    requires OpenerEnds(e) && Coherent(e.s) && Opening(e) && OpensOnce(e, p) && IntakeStep(Read(refusal), e, p, e')
    ensures OpenerEnds(e')
  {
    var f := p.tx.written[|e.rx.processed|];
    assert e.ctl.opener !in {NotOpened, Registered} by { hide OpenerEnds; }
    hide Opening, OpensOnce;
    var longer := e.(rx := e.rx.(processed := e.rx.processed + [f]));
    FrameIsTold(e, f);
    if f == OpenFrame || (!f.AckFrame? && !f.EndFrame? && e.ctl.openPending) {
      EndSessionIsTold(longer, Some(Of(ProtocolViolation)));
      hide OpenerEnds;
      SameEndsTold(EndSession(longer, Some(Of(ProtocolViolation))), e');
    } else if e.ctl.openPending {
      SettledIsTold(longer, e', f);
    } else if e.ctl.registered && !f.AckFrame? {
      HeldIsTold(longer, e', f);
    }
  }

  lemma FrameIsTold(e: Endpoint, f: Frame)
    requires OpenerEnds(e)
    ensures OpenerEnds(e.(rx := e.rx.(processed := e.rx.processed + [f])))
  {
    FrameKeepsTold(e.rx.processed, f, e.s.maxBytes);
    hide PeerEnded, TooBig, EndsRecorded;
  }

  lemma SettledIsTold(e: Endpoint, e': Endpoint, f: Frame)
    requires OpenerEnds(e) && e.rx.processed != [] && e.rx.processed[|e.rx.processed| - 1] == f
    requires f.AckFrame? || f.EndFrame?
    requires e' == e.(ctl := e.ctl.(openPending := false, verdict := e'.ctl.verdict))
    requires f.AckFrame? ==> e'.ctl.verdict == Some(Accept)
    requires f.EndFrame? ==>
               e'.ctl.verdict == Some(if Err(f.code).None? then Accept else Refuse(Err(f.code).value))
    ensures OpenerEnds(e')
  {
    assert VerdictTold(e'.ctl, e.rx.processed) by {
      if f.EndFrame? {
        CodeTellsEnd(f.code);
        hide TellsEnd;
        assert Err(f.code).None? ==> f.code == OK;
      }
    }
    if e.s.finishErr.Some? { ReasonStays(e.ctl, e'.ctl, e.rx.processed, e.s.maxBytes, e.s.finishErr.value); }
    NoticesStay(e.ctl, e'.ctl, e.rx.processed, e.s.maxBytes, e.tx.written);
    hide VerdictTold, Reason, NoticesTold, TooBig, EndsRecorded;
  }

  lemma HeldIsTold(e: Endpoint, e': Endpoint, f: Frame)
    requires OpenerEnds(e) && !(e.ctl.opener in {NotOpened, Registered})
    requires e' == SetReader(e.(ctl := e.ctl.(registered := e'.ctl.registered)), Serving(f))
    requires (f.EndFrame? ==> !e'.ctl.registered) && (e'.ctl.registered ==> e.ctl.registered)
    ensures OpenerEnds(e')
  {
    if e.s.finishErr.Some? { ReasonStays(e.ctl, e'.ctl, e.rx.processed, e.s.maxBytes, e.s.finishErr.value); }
    NoticesStay(e.ctl, e'.ctl, e.rx.processed, e.s.maxBytes, e.tx.written);
    hide PeerEnded, Reason, NoticesTold, TooBig, EndsRecorded;
  }

  /** The frame in hand is the last one taken, and the stream was opened before. */
  lemma InHandFacts(e: Endpoint)
    requires EndpointInv(e) && e.ctl.client && e.rx.reader.Serving?
    ensures e.rx.processed != [] && e.rx.processed[|e.rx.processed| - 1] == e.rx.reader.frame
    ensures e.ctl.opener != NotOpened && e.ctl.opener != Registered
  {
    hide SendingIn, Coherent, OpensFirst;
  }

  lemma ServeIsTold(takeCancel: bool, e: Endpoint, p: Endpoint, e': Endpoint)
    requires OpenerEnds(e) && EndpointInv(e) && IntakeStep(Serve(takeCancel), e, p, e')
    ensures OpenerEnds(e')
  {
    InHandFacts(e);
    hide OpenerEnds, Opening, SendingIn, ReceivingIn;
    var f := e.rx.reader.frame;
    match f {
      case DataFrame(m) => ServeDataIsTold(m, takeCancel, e, e');
      case EndFrame(code) => ServeEndIsTold(code, e, e');
      case _ => SameEndsTold(e, e');
    }
  }

  lemma ServeDataIsTold(m: Message, takeCancel: bool, e: Endpoint, e': Endpoint)
    requires OpenerEnds(e) && Coherent(e.s) && e.rx.reader == Serving(DataFrame(m)) && ServeStep(e, e', takeCancel)
    requires e.rx.processed != [] && e.rx.processed[|e.rx.processed| - 1] == DataFrame(m)
    requires e.ctl.opener != NotOpened && e.ctl.opener != Registered
    ensures OpenerEnds(e')
  {
    var r := DeliverTo(e.s, m, takeCancel, CtxErr(e.ctl)).1;
    if r.Failed? && |m| > e.s.maxBytes {
      assert TooBig(e.rx.processed, e.s.maxBytes);
      FinishIsTold(e, Some(Of(MessageTooLarge)));
      OversizedIsTold(BeginFinish(e, Some(Of(MessageTooLarge))));
    } else if r.Failed? {
      EndSessionIsTold(e, Some(r.err));
      hide OpenerEnds;
      SameEndsTold(EndSession(e, Some(r.err)), e');
    } else {
      hide OpenerEnds;
      SameEndsTold(e, e');
    }
  }

  lemma OversizedIsTold(e: Endpoint)
    requires OpenerEnds(e) && TooBig(e.rx.processed, e.s.maxBytes)
    ensures OpenerEnds(SetReader(e, Oversized))
  {
    hide PeerEnded, TooBig, NoticesTold, EndsRecorded, Reason, VerdictTold;
  }

  lemma ServeEndIsTold(code: StatusCode, e: Endpoint, e': Endpoint)
    requires OpenerEnds(e) && Coherent(e.s) && e.rx.reader == Serving(EndFrame(code)) && ServeStep(e, e', false)
    requires e.rx.processed != [] && e.rx.processed[|e.rx.processed| - 1] == EndFrame(code)
    requires e.ctl.opener != NotOpened
    ensures OpenerEnds(e')
  {
    CodeTellsEnd(code);
    hide TellsEnd, EndFailure;
    var x := EndFailure(code);
    assert PeerEnded(e.rx.processed, x);
    FinishIsTold(e, Some(x));
    hide OpenerEnds;
    SameEndsTold(BeginFinish(e, Some(x)), e');
  }

  lemma ReaderIsTold(l: Label, e: Endpoint, e': Endpoint)
    requires OpenerEnds(e) && EndpointInv(e) && ReaderStep(l, e, e')
    ensures OpenerEnds(e')
  {
    assert Coherent(e.s) && e.rx.reader != Acking && !e.rx.reader.Refusing? by {
      hide SendingIn, ReceivingIn, OpensFirst, Coherent, Reason, NoticesTold;
    }
    hide EndpointInv;
    if l.ReadFail? {
      EndSessionIsTold(e, None);
      hide OpenerEnds;
      SameEndsTold(EndSession(e, None), e');
    } else if l.OversizedWrite? {
      assert TooBig(e.rx.processed, e.s.maxBytes);
      WriteIsTold(e, EndFrame(MESSAGE_TOO_LARGE), l.ok);
      hide OpenerEnds;
      SameEndsTold(Write(e, EndFrame(MESSAGE_TOO_LARGE), l.ok), e');
    } else {
      hide OpenerEnds;
      SameEndsTold(e, e');
    }
  }

  // ------------------------------------------------------------ the consumer and the outside

  lemma ConsumerIsTold(l: Label, e: Endpoint, e': Endpoint)
    requires OpenerEnds(e) && Coherent(e.s) && ConsumerStep(l, e, e')
    ensures OpenerEnds(e')
  {
    match l {
      case RecvSettle =>
        assert e.s.stage == Live ==> e.ctl.callerDone;
        FinishIsTold(e, Some(if e.ctl.terminal.Some? then e.ctl.terminal.value else Of(Canceled)));
      case FinishQueue =>
        hide OpenerEnds;
        SameEndsTold(e, e');
      case Cancel => CancelIsTold(e, e');
      case Shutdown(cause) => EndSessionIsTold(e, cause);
      case _ => RecvIsTold(l, e, e');
    }
  }

  lemma CancelIsTold(e: Endpoint, e': Endpoint)
    requires OpenerEnds(e) && ConsumerStep(Cancel, e, e')
    ensures OpenerEnds(e')
  {
    if e.s.finishErr.Some? { ReasonStays(e.ctl, e'.ctl, e.rx.processed, e.s.maxBytes, e.s.finishErr.value); }
    NoticesStay(e.ctl, e'.ctl, e.rx.processed, e.s.maxBytes, e.tx.written);
    hide PeerEnded, Reason, NoticesTold, TooBig, EndsRecorded;
  }

  lemma RecvIsTold(l: Label, e: Endpoint, e': Endpoint)
    requires OpenerEnds(e) && Coherent(e.s) && ConsumerStep(l, e, e')
    requires l.RecvQueue? || l.RecvObserve? || l.RecvReport?
    ensures OpenerEnds(e')
  {
    hide PeerEnded, Reason, NoticesTold, TooBig, VerdictTold;
  }

  // ------------------------------------------------------------ runs

  lemma StepIsTold(l: Label, e: Endpoint, p: Endpoint, e': Endpoint)
    requires OpenerEnds(e) && EndpointInv(e) && OpensOnce(e, p) && Step(l, e, p, e')
    ensures OpenerEnds(e')
  {
    assert Coherent(e.s) && Opening(e) && !HandlerStep(l, e, e') by {
      hide SendingIn, ReceivingIn, Coherent, OpensFirst, Reason, NoticesTold, VerdictTold, Standing;
      hide OpenerStep, SenderStep, PumpStep, IntakeStep, ReaderStep, ConsumerStep, OpensOnce;
    }
    hide OpenerEnds, EndpointInv, Opening, Coherent, OpensOnce;
    hide OpenerStep, HandlerStep, SenderStep, PumpStep, ReaderStep, ConsumerStep, ServeStep, Dispatch;
    if OpenerStep(l, e, e') { OpenerIsTold(l, e, e'); }
    else if SenderStep(l, e, e') || PumpStep(l, e, e') { SendingIsTold(l, e, e'); }
    else if ReaderStep(l, e, e') { ReaderIsTold(l, e, e'); }
    else if ConsumerStep(l, e, e') { ConsumerIsTold(l, e, e'); }
    else if l.Read? { ReadIsTold(l.refusal, e, p, e'); }
    else { ServeIsTold(l.takeCancel, e, p, e'); }
  }

  lemma NextIsTold(y: System, y': System, side: Side, l: Label)
    requires Inv(y) && OpenerEnds(y.client) && Next(y, y', side, l)
    ensures OpenerEnds(y'.client)
  {
    hide OpenerEnds, Step;
    if side == ClientSide {
      assert OpensOnce(y.client, y.server) && EndpointInv(y.client) by { hide SendingIn, ReceivingIn, Coherent; }
      hide Inv, EndpointInv, OpensOnce;
      StepIsTold(l, y.client, y.server, y'.client);
    }
  }

  lemma {:induction false} RunIsTold(run: seq<System>, moves: seq<Move>)
    requires IsRun(run, moves) && Inv(run[0]) && OpenerEnds(run[0].client)
    ensures Inv(run[|run| - 1]) && OpenerEnds(run[|run| - 1].client)
    decreases |moves|
  {
    hide Inv, OpenerEnds, Next;
    if moves != [] {
      var n := |moves| - 1;
      RunIsTold(run[..n + 1], moves[..n]);
      NextKeepsInv(run[n], run[n + 1], moves[n].side, moves[n].step);
      NextIsTold(run[n], run[n + 1], moves[n].side, moves[n].step);
    }
  }

  lemma FreshIsTold(y: System)
    requires Init(y)
    ensures OpenerEnds(y.client)
  {
  }

  lemma ReachableIsTold(y: System)
    requires Reachable(y)
    ensures OpenerEnds(y.client) && !TooBig(y.client.rx.processed, y.client.s.maxBytes)
  {
    hide Inv, CalmInv, Init, OpenerEnds;
    ReachableKeepsCalmInv(y);
    var y0 :| Init(y0) && Reaches(y0, y);
    var run, moves :| IsRun(run, moves) && run[0] == y0 && run[|run| - 1] == y;
    InitIsCalm(y0);
    FreshIsTold(y0);
    RunIsTold(run, moves);
    PeerSendsNothingTooBig(y);
  }

  lemma PeerSendsNothingTooBig(y: System)
    requires Inv(y) && CalmInv(y)
    ensures !TooBig(y.client.rx.processed, y.client.s.maxBytes)
  {
    hide EndpointInv, ServerCalm, ClientCalm, NoEnd;
    assert forall k :: 0 <= k < |y.client.rx.processed| ==> y.client.rx.processed[k] == y.server.tx.written[k];
  }

  // ------------------------------------------------------------ theorems

  /**
   Whatever happens: an error that Recv returns to the opener is what a terminal frame of the peer
   tells, the end of the caller's context, or the session's; and Recv always returns the same one.
   */
  lemma RecvTellsWhy(y: System, r: RecvEnd)
    requires Reachable(y) && r in y.client.rx.ends && r.Terminated?
    ensures || (exists k :: 0 <= k < |y.server.tx.written| && y.server.tx.written[k].EndFrame? &&
                            TellsEnd(r.err, y.server.tx.written[k].code))
            || CallerGaveUp(y.client.ctl, r.err) || SessionEnded(y.client.ctl, r.err)
    ensures forall q :: q in y.client.rx.ends && q.Terminated? ==> q == r
  {
    ReachableIsTold(y);
    ReachableKeepsInv(y);
    assert y.client.rx.processed <= y.server.tx.written by { hide EndpointInv; }
    hide Reachable, Inv, TellsEnd, TooBig, NoticesTold, VerdictTold, Standing;
    if PeerEnded(y.client.rx.processed, r.err) {
      var k :| 0 <= k < |y.client.rx.processed| && y.client.rx.processed[k].EndFrame? &&
               TellsEnd(r.err, y.client.rx.processed[k].code);
      assert y.server.tx.written[k] == y.client.rx.processed[k];
    }
  }

  /** And a terminal frame that the opener writes tells the peer whether its caller was cancelled or ran out of time. */
  lemma NoticesTellWhy(y: System, k: nat)
    requires Reachable(y) && k < |y.client.tx.written| && y.client.tx.written[k].EndFrame?
    ensures y.client.ctl.callerDone
    ensures y.client.tx.written[k].code == if y.client.ctl.deadline then DEADLINE_EXCEEDED else CANCELED
  {
    ReachableIsTold(y);
    hide Reachable, TooBig, Reason, VerdictTold, EndsRecorded, Standing;
  }

  /** OpenStream succeeds on an acknowledgement or an empty end, else it tells the refusal or the session's end. */
  lemma OpenTellsWhy(y: System)
    requires Reachable(y) && y.client.ctl.verdict.Some?
    ensures y.client.ctl.verdict.value.Accept? ==>
              AckFrame in y.client.rx.processed || EndFrame(OK) in y.client.rx.processed
    ensures y.client.ctl.verdict.value.Refuse? ==>
              || PeerEnded(y.client.rx.processed, y.client.ctl.verdict.value.err)
              || y.client.ctl.terminal == Some(y.client.ctl.verdict.value.err)
  {
    ReachableIsTold(y);
    hide Reachable, TooBig, Reason, PeerEnded, NoticesTold, EndsRecorded, Standing;
  }

  /**
   The session ends for the first time: its cause is recorded, an orderly one as a closed connection,
   and a stream that is still live ends with that cause, or cleanly.
   */
  lemma SessionEndIsRecorded(e: Endpoint, e': Endpoint, cause: Option<Error>)
    requires ConsumerStep(Shutdown(cause), e, e') && e.ctl.terminal.None?
    ensures e'.ctl.down && !e'.ctl.registered && !e'.ctl.openPending
    ensures cause.Some? && !Is(cause.value, EndOfFile) ==> e'.ctl.terminal == cause
    ensures cause.None? || Is(cause.value, EndOfFile) ==> e'.ctl.terminal == Some(Of(ConnectionClosed))
    ensures e.ctl.registered && e.s.stage == Live ==>
              && e'.s.stage == Closing && e'.s.cancelled
              && e'.s.finishErr == (if e'.ctl.terminal == cause then cause else Some(Of(StreamClosed)))
    ensures e.ctl.openPending && e.ctl.verdict.None? ==> e'.ctl.verdict == Some(Refuse(e'.ctl.terminal.value))
  {
  }

  /** A write that fails ends the session: with a message that is too large as such, else as a lost connection. */
  lemma FailedWriteIsRecorded(e: Endpoint, m: Message)
    requires e.ctl.terminal.None?
    ensures var e' := Write(e, DataFrame(m), false);
            && e'.ctl.down && e'.tx.written == e.tx.written
            && e'.ctl.terminal == Some(Of(if |m| > WireSize.DataFit(e.tx.limits.maxBody) then MessageTooLarge
                                          else ConnectionClosed))
  {
  }

  /** A message above the limit ends its stream and not the session. */
  lemma OversizedEndsTheStreamOnly(e: Endpoint, e': Endpoint, m: Message, takeCancel: bool)
    requires e.rx.reader == Serving(DataFrame(m)) && ServeStep(e, e', takeCancel) && |m| > e.s.maxBytes
    ensures e'.ctl == e.ctl && e'.s.inbound == e.s.inbound && e'.s.stage != Live
    ensures e.s.stage == Live ==> e'.s.finishErr == Some(Of(MessageTooLarge))
  {
  }
}
