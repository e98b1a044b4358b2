/**
 Message conservation between two conforming endpoints: whatever the interleaving, Recv
 returns a prefix of what Send accepted, and io.EOF means nothing is missing.

 The proof is local. `Sending` accounts for every accepted message on the sending endpoint,
 `Receiving` relates what the reader took from the wire to what Recv returned, and the wire
 only says that a reader takes a prefix of what its peer wrote.
 */
module StreamConservation {
  import opened Status
  import opened Stream
  import opened StreamPair

  // ------------------------------------------------------------- vocabulary

  function DataOf(frames: seq<Frame>): seq<Message> {
    if frames == [] then []
    else DataOf(frames[..|frames| - 1]) + Carried(frames[|frames| - 1])
  }

  function Carried(f: Frame): seq<Message> {
    if f.DataFrame? then [f.message] else []
  }

  function QueuedData(items: seq<Item>): seq<Message> {
    if items == [] then [] else ItemData(items[0]) + QueuedData(items[1..])
  }

  function ItemData(item: Item): seq<Message> {
    if item.DataItem? then [item.message] else []
  }

  function InPump(pump: Pump): seq<Message> {
    match pump
    case Writing(item) => ItemData(item)
    case Stopped(lost) => lost
    case _ => []
  }

  function InHand(reader: Reader): seq<Message> {
    if reader.Serving? then Carried(reader.frame) else []
  }

  ghost predicate NoData(items: seq<Item>) {
    forall i :: 0 <= i < |items| ==> !items[i].DataItem?
  }

  // ------------------------------------------------------------- invariants

  /** Nothing is queued behind the close marker, and no message follows the close frame. */
  ghost predicate CloseIsLast(pump: Pump, written: seq<Frame>, outbound: seq<Item>, sendClosed: bool) {
    && (forall i, j :: 0 <= i < j < |outbound| && outbound[i] == CloseItem ==> !outbound[j].DataItem?)
    && (CloseItem in outbound ==> sendClosed)
    && (pump == Writing(CloseItem) ==> sendClosed && NoData(outbound))
    && (CloseSendFrame in written ==> sendClosed && pump == Stopped([]) && NoData(outbound))
    && (forall i, j :: 0 <= i < j < |written| && written[i] == CloseSendFrame ==>
          !written[j].DataFrame?)
  }

  /** Every accepted message is on the wire, in the pump's hand, or still queued, in order. */
  ghost predicate Sending(pump: Pump, accepted: seq<Message>, written: seq<Frame>, outbound: seq<Item>,
                          sendClosed: bool) {
    && accepted == DataOf(written) + InPump(pump) + QueuedData(outbound)
    && CloseIsLast(pump, written, outbound, sendClosed)
  }

  /** Only the first frame of a log may open the stream. */
  ghost predicate OpensFirst(written: seq<Frame>) {
    forall k :: 0 < k < |written| ==> written[k] != OpenFrame
  }

  /** The stream is not in use yet: nothing was queued, taken or written. */
  predicate Untouched(e: Endpoint) {
    && e.tx.written == [] && e.s.outbound == [] && e.tx.closer == NotCalled
    && e.rx.processed == [] && e.rx.reader in {Ready, ReaderStopped}
    && e.ctl.handler == Absent
  }

  /** Who may have written what before the stream existed. */
  ghost predicate Opening(e: Endpoint) {
    && OpensFirst(e.tx.written)
    && (e.ctl.client ==>
          && e.ctl.handler == Absent && e.rx.reader != Acking && !e.rx.reader.Refusing?
          && AckFrame !in e.tx.written
          && (e.ctl.opener == NotOpened ==> e.tx.pump == NotStarted)
          && (e.ctl.opener in {NotOpened, Registered} ==> Untouched(e) && !e.tx.pump.Writing?)
          && (e.tx.written == [] ==> e.ctl.opener in {NotOpened, Registered} || e.ctl.down)
          && (e.tx.written != [] ==> e.tx.written[0] == OpenFrame))
    && (!e.ctl.client ==>
          && e.ctl.opener == NotOpened && !e.ctl.openPending
          && (e.tx.written != [] ==> e.tx.written[0] != OpenFrame)
          && (e.rx.processed == [] ==> Untouched(e) && e.tx.pump == NotStarted))
  }

  /** The reader still feeds the inbound queue. */
  predicate IntakeOpen(reader: Reader, registered: bool, inboundClosed: bool) {
    && !reader.ReaderStopped? && !reader.Oversized?
    && (registered || reader.Serving?)
    && !inboundClosed
  }

  /** What reached the inbound queue is a prefix of the data taken from the wire. */
  ghost predicate Intake(reader: Reader, delivered: seq<Message>, processed: seq<Frame>, open: bool) {
    && delivered <= DataOf(processed)
    && (open ==> delivered + InHand(reader) == DataOf(processed))
    && (reader.Serving? ==> processed != [] && processed[|processed| - 1] == reader.frame)
  }

  /** The half-close mark stands for a close frame, and for all the data in front of it. */
  ghost predicate EofMark(eofAt: int, delivered: seq<Message>, processed: seq<Frame>) {
    && 0 <= eofAt < |processed|
    && processed[eofAt] == CloseSendFrame
    && delivered == DataOf(processed[..eofAt])
  }

  ghost predicate Receiving(rx: Rx, registered: bool, inbound: seq<Message>, inboundClosed: bool,
                            inboundEOF: bool, stage: FinishStage)
  {
    && Intake(rx.reader, rx.received + inbound, rx.processed, IntakeOpen(rx.reader, registered, inboundClosed))
    && (inboundEOF ==> EofMark(rx.eofAt, rx.received + inbound, rx.processed))
    && (Eof in rx.ends ==> inboundEOF && inbound == [])
    && (rx.reader.Oversized? ==> stage != Live)
  }

  ghost predicate ReceivingIn(e: Endpoint) {
    Receiving(e.rx, e.ctl.registered, e.s.inbound, e.s.inboundClosed, e.s.inboundEOF, e.s.stage)
  }

  ghost predicate EndpointInv(e: Endpoint) {
    && Coherent(e.s)
    && SendingIn(e)
    && Opening(e)
    && ReceivingIn(e)
  }

  ghost predicate Inv(y: System) {
    && y.client.ctl.client && !y.server.ctl.client
    && EndpointInv(y.client) && EndpointInv(y.server)
    && y.client.rx.processed <= y.server.tx.written
    && y.server.rx.processed <= y.client.tx.written
  }

  // ------------------------------------------------------------ list lemmas

  lemma DataOfPush(frames: seq<Frame>, f: Frame)
    ensures DataOf(frames + [f]) == DataOf(frames) + Carried(f)
  {
    assert (frames + [f])[..|frames|] == frames;
  }

  lemma {:induction false} DataOfPrefix(a: seq<Frame>, b: seq<Frame>)
    requires a <= b
    ensures DataOf(a) <= DataOf(b)
    decreases |b|
  {
    if |a| < |b| {
      DataOfPrefix(a, b[..|b| - 1]);
    } else {
      assert a == b;
    }
  }

  lemma {:induction false} QueuedDataPush(items: seq<Item>, item: Item)
    ensures QueuedData(items + [item]) == QueuedData(items) + ItemData(item)
  {
    if items == [] {
      assert items + [item] == [item];
      assert [item][1..] == [];
    } else {
      QueuedDataPush(items[1..], item);
      assert (items + [item])[1..] == items[1..] + [item];
    }
  }

  lemma {:induction false} NoDataQueued(items: seq<Item>)
    requires NoData(items)
    ensures QueuedData(items) == []
  {
    if items != [] {
      NoDataQueued(items[1..]);
    }
  }

  // -------------------------------------------------- the steps keep Sending

  lemma ControlFrameKeepsSending(pump: Pump, accepted: seq<Message>, written: seq<Frame>, outbound: seq<Item>,
                                 sendClosed: bool, f: Frame)
    requires Sending(pump, accepted, written, outbound, sendClosed)
    requires !f.DataFrame? && f != CloseSendFrame
    ensures Sending(pump, accepted, written + [f], outbound, sendClosed)
  {
    DataOfPush(written, f);
  }

  lemma EnqueueDataKeepsSending(pump: Pump, accepted: seq<Message>, written: seq<Frame>, outbound: seq<Item>,
                                m: Message)
    requires Sending(pump, accepted, written, outbound, false)
    ensures Sending(pump, accepted + [m], written, outbound + [DataItem(m)], false)
  {
    QueuedDataPush(outbound, DataItem(m));
    EnqueueKeepsClose(pump, written, outbound, false, DataItem(m));
    hide CloseIsLast, DataOf, QueuedData, InPump;
    Regroup(DataOf(written) + InPump(pump), QueuedData(outbound), [m]);
  }

  lemma EnqueueMarkKeepsSending(pump: Pump, accepted: seq<Message>, written: seq<Frame>, outbound: seq<Item>,
                                sendClosed: bool, item: Item)
    requires Sending(pump, accepted, written, outbound, sendClosed)
    requires item == BarrierItem || (item == CloseItem && sendClosed)
    ensures Sending(pump, accepted, written, outbound + [item], sendClosed)
  {
    QueuedDataPush(outbound, item);
    EnqueueKeepsClose(pump, written, outbound, sendClosed, item);
    hide CloseIsLast, DataOf, QueuedData, InPump;
    Regroup(QueuedData(outbound), [], []);
  }

  lemma EnqueueKeepsClose(pump: Pump, written: seq<Frame>, outbound: seq<Item>, sendClosed: bool, item: Item)
    requires CloseIsLast(pump, written, outbound, sendClosed)
    requires item == BarrierItem || (item == CloseItem && sendClosed) || (item.DataItem? && !sendClosed)
    ensures CloseIsLast(pump, written, outbound + [item], sendClosed)
  {
  }

  lemma PumpTakeKeepsSending(accepted: seq<Message>, written: seq<Frame>, outbound: seq<Item>, sendClosed: bool)
    requires Sending(Waiting, accepted, written, outbound, sendClosed) && outbound != []
    ensures Sending(if outbound[0] == BarrierItem then Waiting else Writing(outbound[0]),
                    accepted, written, outbound[1..], sendClosed)
  {
    PumpTakeKeepsClose(written, outbound, sendClosed);
    hide CloseIsLast;
    Regroup(DataOf(written), ItemData(outbound[0]), QueuedData(outbound[1..]));
  }

  lemma Regroup(a: seq<Message>, b: seq<Message>, c: seq<Message>)
    ensures a + [] + (b + c) == a + b + c && a + b + [] + c == a + b + c && a + (b + c) == a + b + c && a + [] == a
  {
  }

  lemma PumpTakeKeepsClose(written: seq<Frame>, outbound: seq<Item>, sendClosed: bool)
    requires CloseIsLast(Waiting, written, outbound, sendClosed) && outbound != []
    ensures CloseIsLast(if outbound[0] == BarrierItem then Waiting else Writing(outbound[0]),
                        written, outbound[1..], sendClosed)
  {
    assert forall i :: 0 <= i < |outbound| - 1 ==> outbound[1..][i] == outbound[i + 1];
  }

  lemma DataWriteKeepsSending(m: Message, accepted: seq<Message>, written: seq<Frame>, outbound: seq<Item>,
                              sendClosed: bool)
    requires Sending(Writing(DataItem(m)), accepted, written, outbound, sendClosed)
    ensures Sending(Waiting, accepted, written + [DataFrame(m)], outbound, sendClosed)
    ensures Sending(Stopped([m]), accepted, written, outbound, sendClosed)
  {
    DataOfPush(written, DataFrame(m));
    DataWriteKeepsClose(m, written, outbound, sendClosed);
    hide CloseIsLast, DataOf, QueuedData;
    Regroup(DataOf(written), [m], QueuedData(outbound));
  }

  /** A pump with a message in its hand has not written the close frame. */
  lemma DataWriteKeepsClose(m: Message, written: seq<Frame>, outbound: seq<Item>, sendClosed: bool)
    requires CloseIsLast(Writing(DataItem(m)), written, outbound, sendClosed)
    ensures CloseIsLast(Waiting, written + [DataFrame(m)], outbound, sendClosed)
    ensures CloseIsLast(Stopped([m]), written, outbound, sendClosed)
  {
    assert CloseSendFrame !in written;
    assert CloseSendFrame !in written + [DataFrame(m)];
  }

  lemma CloseWriteKeepsSending(accepted: seq<Message>, written: seq<Frame>, outbound: seq<Item>, sendClosed: bool)
    requires Sending(Writing(CloseItem), accepted, written, outbound, sendClosed)
    ensures Sending(Stopped([]), accepted, written, outbound, sendClosed)
    ensures Sending(Stopped([]), accepted, written + [CloseSendFrame], outbound, sendClosed)
  {
    DataOfPush(written, CloseSendFrame);
    CloseWriteKeepsClose(written, outbound, sendClosed);
    hide CloseIsLast, DataOf, QueuedData;
    Regroup(DataOf(written), [], QueuedData(outbound));
  }

  lemma CloseWriteKeepsClose(written: seq<Frame>, outbound: seq<Item>, sendClosed: bool)
    requires CloseIsLast(Writing(CloseItem), written, outbound, sendClosed)
    ensures CloseIsLast(Stopped([]), written, outbound, sendClosed)
    ensures CloseIsLast(Stopped([]), written + [CloseSendFrame], outbound, sendClosed)
  {
    assert CloseSendFrame !in written;
  }

  ghost predicate SendingIn(e: Endpoint) {
    && Sending(e.tx.pump, e.tx.accepted, e.tx.written, e.s.outbound, e.s.sendClosed)
    && (e.tx.closer != NotCalled ==> e.s.sendClosed)
    && e.tx.pump != Writing(BarrierItem)
  }

  lemma IdlePumpKeepsSending(e: Endpoint)
    requires SendingIn(e) && (e.tx.pump == NotStarted || e.tx.pump == Waiting)
    ensures SendingIn(SetPump(e, Waiting)) && SendingIn(SetPump(e, Stopped([])))
  {
  }

  lemma WriteKeepsSending(e: Endpoint, f: Frame, ok: bool)
    requires SendingIn(e) && !f.DataFrame? && f != CloseSendFrame
    ensures SendingIn(Write(e, f, ok))
  {
    ControlFrameKeepsSending(e.tx.pump, e.tx.accepted, e.tx.written, e.s.outbound, e.s.sendClosed, f);
  }

  lemma OpenerKeepsSending(l: Label, e: Endpoint, e': Endpoint)
    requires SendingIn(e) && Opening(e) && OpenerStep(l, e, e')
    ensures SendingIn(e')
  {
    match l
    case OpenWrite(ok) => WriteKeepsSending(e, OpenFrame, ok);
    case OpenNotify(ok) => WriteKeepsSending(e, Notice(e.ctl), ok);
    case FollowNotify(ok) => WriteKeepsSending(e, Notice(e.ctl), ok);
    case _ =>
  }

  lemma HandlerKeepsSending(l: Label, e: Endpoint, e': Endpoint)
    requires SendingIn(e) && HandlerStep(l, e, e')
    ensures SendingIn(e')
  {
    match l
    case FlushQueue =>
      EnqueueMarkKeepsSending(e.tx.pump, e.tx.accepted, e.tx.written, e.s.outbound, e.s.sendClosed, BarrierItem);
    case HandlerReport(ok) => WriteKeepsSending(e, EndFrame(EndCode(e.ctl.handler.err)), ok);
    case _ =>
  }

  lemma SenderKeepsSending(l: Label, e: Endpoint, e': Endpoint)
    requires SendingIn(e) && SenderStep(l, e, e')
    ensures SendingIn(e')
  {
    match l
    case Send(m) =>
      if !e.s.sendClosed {
        EnqueueDataKeepsSending(e.tx.pump, e.tx.accepted, e.tx.written, e.s.outbound, m);
      }
    case CloseQueue =>
      EnqueueMarkKeepsSending(e.tx.pump, e.tx.accepted, e.tx.written, e.s.outbound, e.s.sendClosed, CloseItem);
    case _ =>
  }

  lemma PumpKeepsSending(l: Label, e: Endpoint, e': Endpoint)
    requires SendingIn(e) && PumpStep(l, e, e')
    ensures SendingIn(e')
  {
    hide Sending;
    match l
    case PumpTake => PumpTakeKeepsSending(e.tx.accepted, e.tx.written, e.s.outbound, e.s.sendClosed);
    case PumpWrite(ok) =>
      if e.tx.pump.item.DataItem? {
        DataWriteKeepsSending(e.tx.pump.item.message, e.tx.accepted, e.tx.written, e.s.outbound, e.s.sendClosed);
      } else {
        CloseWriteKeepsSending(e.tx.accepted, e.tx.written, e.s.outbound, e.s.sendClosed);
      }
    case _ => IdlePumpKeepsSending(e);
  }

  lemma IntakeKeepsSending(l: Label, e: Endpoint, p: Endpoint, e': Endpoint)
    requires SendingIn(e) && Opening(e) && IntakeStep(l, e, p, e')
    requires OpensOnce(e, p)
    ensures SendingIn(e')
  {
    hide Sending;
    if e.tx.pump == NotStarted {
      IdlePumpKeepsSending(e);
    }
  }

  lemma ReaderKeepsSending(l: Label, e: Endpoint, e': Endpoint)
    requires SendingIn(e) && ReaderStep(l, e, e')
    ensures SendingIn(e')
  {
    hide Sending;
    match l
    case AckWrite(ok) => WriteKeepsSending(e, AckFrame, ok);
    case RefuseWrite(ok) => WriteKeepsSending(e, EndFrame(e.rx.reader.code), ok);
    case OversizedWrite(ok) => WriteKeepsSending(e, EndFrame(MESSAGE_TOO_LARGE), ok);
    case _ =>
  }

  lemma ConsumerKeepsSending(l: Label, e: Endpoint, e': Endpoint)
    requires SendingIn(e) && ConsumerStep(l, e, e')
    ensures SendingIn(e')
  {
    hide Sending;
  }

  /** The frame that opens a served stream is the first frame its reader takes. */
  ghost predicate OpensOnce(e: Endpoint, p: Endpoint) {
    && e.rx.processed <= p.tx.written
    && OpensFirst(p.tx.written)
    && (e.ctl.client && e.tx.written == [] ==> p.tx.written == [])
    && (!e.ctl.client && p.tx.written != [] ==> p.tx.written[0] == OpenFrame)
  }

  // ---------------------------------------- the steps keep Coherent and Opening

  ghost predicate Shape(e: Endpoint) {
    Coherent(e.s) && Opening(e)
  }

  /** Logs only grow, and between reads the reader's log stands still. */
  ghost predicate Grows(e: Endpoint, e': Endpoint) {
    && e.tx.written <= e'.tx.written
    && e'.rx.processed == e.rx.processed
    && e'.ctl.client == e.ctl.client
    && (e'.rx.reader.Serving? ==> e'.rx.reader == e.rx.reader)
    && Stays(e, e')
  }

  /** An ended session writes nothing more, and a closed send side accepts nothing more. */
  ghost predicate Stays(e: Endpoint, e': Endpoint) {
    && (e.ctl.down ==> e'.ctl.down && e'.tx.written == e.tx.written)
    && (e.s.sendClosed ==> e'.s.sendClosed && e'.tx.accepted == e.tx.accepted)
    && e.tx.accepted <= e'.tx.accepted && e'.tx.limits == e.tx.limits
  }

  /** What a step does to the logs: the reader takes at most the next frame its peer wrote. */
  ghost predicate Logged(e: Endpoint, p: Endpoint, e': Endpoint) {
    && e.tx.written <= e'.tx.written && e.rx.processed <= e'.rx.processed <= p.tx.written
    && e'.ctl.client == e.ctl.client
    && (e'.rx.processed == e.rx.processed && e'.rx.reader.Serving? ==> e'.rx.reader == e.rx.reader)
    && Stays(e, e')
  }

  lemma OpenerKeepsCoherent(l: Label, e: Endpoint, e': Endpoint)
    requires Coherent(e.s) && OpenerStep(l, e, e')
    ensures Coherent(e'.s)
  {
  }

  lemma OpenerKeepsOpening(l: Label, e: Endpoint, e': Endpoint)
    requires Opening(e) && OpenerStep(l, e, e')
    ensures Opening(e')
  {
    hide FinishBegin;
  }

  lemma OpenerGrows(l: Label, e: Endpoint, e': Endpoint)
    requires OpenerStep(l, e, e')
    ensures Grows(e, e')
  {
  }

  lemma OpenerKeepsShape(l: Label, e: Endpoint, e': Endpoint)
    requires Shape(e) && OpenerStep(l, e, e')
    ensures Shape(e') && Grows(e, e')
  {
    hide OpenerStep, Coherent, Opening, Grows;
    OpenerKeepsCoherent(l, e, e');
    OpenerKeepsOpening(l, e, e');
    OpenerGrows(l, e, e');
  }

  lemma HandlerKeepsCoherent(l: Label, e: Endpoint, e': Endpoint)
    requires Coherent(e.s) && HandlerStep(l, e, e')
    ensures Coherent(e'.s)
  {
  }

  lemma HandlerKeepsOpening(l: Label, e: Endpoint, e': Endpoint)
    requires Opening(e) && HandlerStep(l, e, e')
    ensures Opening(e')
  {
    hide FinishBegin;
  }

  lemma HandlerGrows(l: Label, e: Endpoint, e': Endpoint)
    requires HandlerStep(l, e, e')
    ensures Grows(e, e')
  {
  }

  lemma HandlerKeepsShape(l: Label, e: Endpoint, e': Endpoint)
    requires Shape(e) && HandlerStep(l, e, e')
    ensures Shape(e') && Grows(e, e')
  {
    hide HandlerStep, Coherent, Opening, Grows;
    HandlerKeepsCoherent(l, e, e');
    HandlerKeepsOpening(l, e, e');
    HandlerGrows(l, e, e');
  }

  lemma SenderKeepsCoherent(l: Label, e: Endpoint, e': Endpoint)
    requires Coherent(e.s) && SenderStep(l, e, e')
    ensures Coherent(e'.s)
  {
  }

  lemma SenderKeepsOpening(l: Label, e: Endpoint, e': Endpoint)
    requires Opening(e) && SenderStep(l, e, e')
    ensures Opening(e')
  {
    hide FinishBegin;
  }

  lemma SenderGrows(l: Label, e: Endpoint, e': Endpoint)
    requires SenderStep(l, e, e')
    ensures Grows(e, e')
  {
  }

  lemma SenderKeepsShape(l: Label, e: Endpoint, e': Endpoint)
    requires Shape(e) && SenderStep(l, e, e')
    ensures Shape(e') && Grows(e, e')
  {
    hide SenderStep, Coherent, Opening, Grows;
    SenderKeepsCoherent(l, e, e');
    SenderKeepsOpening(l, e, e');
    SenderGrows(l, e, e');
  }

  lemma PumpKeepsCoherent(l: Label, e: Endpoint, e': Endpoint)
    requires Coherent(e.s) && PumpStep(l, e, e')
    ensures Coherent(e'.s)
  {
  }

  lemma PumpKeepsOpening(l: Label, e: Endpoint, e': Endpoint)
    requires Opening(e) && PumpStep(l, e, e')
    ensures Opening(e')
  {
    hide FinishBegin;
  }

  lemma PumpGrows(l: Label, e: Endpoint, e': Endpoint)
    requires PumpStep(l, e, e')
    ensures Grows(e, e')
  {
  }

  lemma PumpKeepsShape(l: Label, e: Endpoint, e': Endpoint)
    requires Shape(e) && PumpStep(l, e, e')
    ensures Shape(e') && Grows(e, e')
  {
    hide PumpStep, Coherent, Opening, Grows;
    PumpKeepsCoherent(l, e, e');
    PumpKeepsOpening(l, e, e');
    PumpGrows(l, e, e');
  }

  lemma ReadKeepsCoherent(refusal: StatusCode, e: Endpoint, p: Endpoint, e': Endpoint)
    requires Coherent(e.s) && IntakeStep(Read(refusal), e, p, e')
    ensures Coherent(e'.s)
  {
  }

  lemma ReadKeepsOpening(refusal: StatusCode, e: Endpoint, p: Endpoint, e': Endpoint)
    requires Opening(e) && OpensOnce(e, p) && IntakeStep(Read(refusal), e, p, e')
    ensures Opening(e')
  {
  }

  lemma ReadIsLogged(refusal: StatusCode, e: Endpoint, p: Endpoint, e': Endpoint)
    requires OpensOnce(e, p) && IntakeStep(Read(refusal), e, p, e')
    ensures Logged(e, p, e')
  {
  }

  lemma ReadKeepsShape(refusal: StatusCode, e: Endpoint, p: Endpoint, e': Endpoint)
    requires Shape(e) && OpensOnce(e, p) && IntakeStep(Read(refusal), e, p, e')
    ensures Shape(e')
    ensures Logged(e, p, e')
  {
    hide IntakeStep, Coherent, Opening, OpensOnce, Logged;
    ReadKeepsCoherent(refusal, e, p, e');
    ReadKeepsOpening(refusal, e, p, e');
    ReadIsLogged(refusal, e, p, e');
  }

  lemma EndSessionKeepsShape(e: Endpoint, cause: Option<Error>)
    requires Shape(e)
    ensures Shape(SetReader(EndSession(e, cause), ReaderStopped))
  {
  }

  lemma ServeKeepsShape(takeCancel: bool, e: Endpoint, p: Endpoint, e': Endpoint)
    requires Shape(e) && IntakeStep(Serve(takeCancel), e, p, e')
    ensures Shape(e') && Grows(e, e')
  {
    match e.rx.reader.frame
    case DataFrame(m) =>
      var r := DeliverTo(e.s, m, takeCancel, CtxErr(e.ctl)).1;
      if r.Failed? && r.err != Of(MessageTooLarge) {
        EndSessionKeepsShape(e, Some(r.err));
        hide Shape;
      }
    case _ =>
  }

  lemma ReaderKeepsCoherent(l: Label, e: Endpoint, e': Endpoint)
    requires Coherent(e.s) && ReaderStep(l, e, e')
    ensures Coherent(e'.s)
  {
  }

  lemma ReaderKeepsOpening(l: Label, e: Endpoint, e': Endpoint)
    requires Opening(e) && ReaderStep(l, e, e')
    ensures Opening(e')
  {
  }

  lemma ReaderGrows(l: Label, e: Endpoint, e': Endpoint)
    requires ReaderStep(l, e, e')
    ensures Grows(e, e')
  {
  }

  lemma ReaderKeepsShape(l: Label, e: Endpoint, e': Endpoint)
    requires Shape(e) && ReaderStep(l, e, e')
    ensures Shape(e') && Grows(e, e')
  {
    hide ReaderStep, Coherent, Opening, Grows;
    ReaderKeepsCoherent(l, e, e');
    ReaderKeepsOpening(l, e, e');
    ReaderGrows(l, e, e');
  }

  lemma ConsumerKeepsCoherent(l: Label, e: Endpoint, e': Endpoint)
    requires Coherent(e.s) && ConsumerStep(l, e, e')
    ensures Coherent(e'.s)
  {
  }

  lemma ConsumerKeepsOpening(l: Label, e: Endpoint, e': Endpoint)
    requires Opening(e) && ConsumerStep(l, e, e')
    ensures Opening(e')
  {
  }

  lemma ConsumerGrows(l: Label, e: Endpoint, e': Endpoint)
    requires ConsumerStep(l, e, e')
    ensures Grows(e, e')
  {
  }

  lemma ConsumerKeepsShape(l: Label, e: Endpoint, e': Endpoint)
    requires Shape(e) && ConsumerStep(l, e, e')
    ensures Shape(e') && Grows(e, e')
  {
    hide ConsumerStep, Coherent, Opening, Grows;
    ConsumerKeepsCoherent(l, e, e');
    ConsumerKeepsOpening(l, e, e');
    ConsumerGrows(l, e, e');
  }

  // ------------------------------------------------ the steps keep Receiving

  /** Releasing the stream, or closing and finishing its queue, takes nothing back. */
  lemma LessOpenKeepsReceiving(rx: Rx, registered: bool, registered': bool, inbound: seq<Message>, inboundClosed: bool,
                               inboundClosed': bool, inboundEOF: bool, stage: FinishStage, stage': FinishStage)
    requires Receiving(rx, registered, inbound, inboundClosed, inboundEOF, stage)
    requires (registered' ==> registered) && (inboundClosed ==> inboundClosed') && (stage != Live ==> stage' != Live)
    ensures Receiving(rx, registered', inbound, inboundClosed', inboundEOF, stage')
  {
    hide EofMark, DataOf;
  }

  /** What a step that only opens or ends things does to the receiving side. */
  predicate OnlyCloses(e: Endpoint, e': Endpoint) {
    && e'.rx == e.rx && e'.s.inbound == e.s.inbound && e'.s.inboundEOF == e.s.inboundEOF
    && (e'.ctl.registered ==> e.ctl.registered) && (e.s.inboundClosed ==> e'.s.inboundClosed)
    && (e.s.stage != Live ==> e'.s.stage != Live)
  }

  lemma OnlyClosesKeepsReceiving(e: Endpoint, e': Endpoint)
    requires ReceivingIn(e) && OnlyCloses(e, e')
    ensures ReceivingIn(e')
  {
    hide Receiving;
    LessOpenKeepsReceiving(e.rx, e.ctl.registered, e'.ctl.registered, e.s.inbound, e.s.inboundClosed,
                           e'.s.inboundClosed, e.s.inboundEOF, e.s.stage, e'.s.stage);
  }

  lemma OpenerKeepsReceiving(l: Label, e: Endpoint, e': Endpoint)
    requires Shape(e) && ReceivingIn(e) && OpenerStep(l, e, e')
    ensures ReceivingIn(e')
  {
    if l.OpenStart? {
      assert e.rx.processed == [] && e'.rx == e.rx && e'.s == e.s;
      hide OpenerStep;
    } else {
      OpenerOnlyCloses(l, e, e');
      hide OpenerStep;
      OnlyClosesKeepsReceiving(e, e');
    }
  }

  lemma OpenerOnlyCloses(l: Label, e: Endpoint, e': Endpoint)
    requires OpenerStep(l, e, e') && !l.OpenStart?
    ensures OnlyCloses(e, e')
  {
  }

  lemma HandlerKeepsReceiving(l: Label, e: Endpoint, e': Endpoint)
    requires Shape(e) && ReceivingIn(e) && HandlerStep(l, e, e')
    ensures ReceivingIn(e')
  {
    HandlerOnlyCloses(l, e, e');
    hide HandlerStep;
    OnlyClosesKeepsReceiving(e, e');
  }

  lemma HandlerOnlyCloses(l: Label, e: Endpoint, e': Endpoint)
    requires HandlerStep(l, e, e')
    ensures OnlyCloses(e, e')
  {
    hide Clean, StatusOf;
  }

  lemma SenderKeepsReceiving(l: Label, e: Endpoint, e': Endpoint)
    requires ReceivingIn(e) && SenderStep(l, e, e')
    ensures ReceivingIn(e')
  {
  }

  lemma PumpKeepsReceiving(l: Label, e: Endpoint, e': Endpoint)
    requires Shape(e) && ReceivingIn(e) && PumpStep(l, e, e')
    ensures ReceivingIn(e')
  {
    if l.PumpWrite? {
      EndSessionKeepsReceiving(e, Some(WriteError(e, FrameOf(e.tx.pump.item))));
    }
    hide Receiving;
  }

  lemma EndSessionKeepsReceiving(e: Endpoint, cause: Option<Error>)
    requires Coherent(e.s) && ReceivingIn(e)
    ensures ReceivingIn(EndSession(e, cause))
    ensures ReceivingIn(SetReader(EndSession(e, cause), ReaderStopped))
  {
  }

  /** One frame leaves the wire: it is put in the reader's hand, or it is not fed to the queue. */
  lemma TakeKeepsIntake(delivered: seq<Message>, processed: seq<Frame>, f: Frame, reader: Reader,
                        wasOpen: bool, open: bool)
    requires Intake(Ready, delivered, processed, wasOpen)
    requires reader == Serving(f) || (!reader.Serving? && (f.DataFrame? ==> !open))
    requires open ==> wasOpen || processed == []
    ensures Intake(reader, delivered, processed + [f], open)
  {
    DataOfPush(processed, f);
  }

  lemma TakeKeepsEofMark(eofAt: int, delivered: seq<Message>, processed: seq<Frame>, f: Frame)
    requires EofMark(eofAt, delivered, processed)
    ensures EofMark(eofAt, delivered, processed + [f])
  {
    assert (processed + [f])[..eofAt] == processed[..eofAt];
  }

  /** Taking a frame off the wire leaves the queue alone, and hands on only a stream's own frames. */
  lemma DispatchKeepsQueue(e: Endpoint, f: Frame, refusal: StatusCode)
    requires e.rx.reader == Ready && Opening(e)
    requires f == OpenFrame ==> e.rx.processed == []
    ensures var d := Dispatch(e, f, refusal);
            && d.rx == e.rx.(reader := d.rx.reader) && d.s.inbound == e.s.inbound && d.s.inboundEOF == e.s.inboundEOF
            && (e.s.inboundClosed ==> d.s.inboundClosed) && !d.rx.reader.Oversized?
            && (d.rx.reader == Serving(f) || !d.rx.reader.Serving?)
            && (f.DataFrame? && !d.rx.reader.Serving? ==> !IntakeOpen(d.rx.reader, d.ctl.registered, d.s.inboundClosed))
            && (IntakeOpen(d.rx.reader, d.ctl.registered, d.s.inboundClosed) ==>
                  IntakeOpen(Ready, e.ctl.registered, e.s.inboundClosed) || e.rx.processed == [])
  {
  }

  lemma ReadKeepsReceiving(e: Endpoint, p: Endpoint, e': Endpoint, refusal: StatusCode)
    requires Shape(e) && ReceivingIn(e) && OpensOnce(e, p) && IntakeStep(Read(refusal), e, p, e')
    ensures ReceivingIn(e')
  {
    hide Intake, EofMark, Coherent, Dispatch;
    var f := p.tx.written[|e.rx.processed|];
    var delivered := e.rx.received + e.s.inbound;
    DispatchKeepsQueue(e, f, refusal);
    hide Opening, IntakeOpen;
    TakeKeepsIntake(delivered, e.rx.processed, f, e'.rx.reader,
                    IntakeOpen(Ready, e.ctl.registered, e.s.inboundClosed),
                    IntakeOpen(e'.rx.reader, e'.ctl.registered, e'.s.inboundClosed));
    if e.s.inboundEOF {
      TakeKeepsEofMark(e.rx.eofAt, delivered, e.rx.processed, f);
    }
  }

  /** deliver appends the message in the reader's hand. */
  lemma DeliveredKeepsReceiving(e: Endpoint, m: Message)
    requires Coherent(e.s) && ReceivingIn(e) && e.rx.reader == Serving(DataFrame(m)) && !e.s.inboundClosed
    ensures ReceivingIn(SetReader(e.(s := e.s.(inbound := e.s.inbound + [m])), Ready))
  {
    assert e.rx.received + (e.s.inbound + [m]) == e.rx.received + e.s.inbound + [m];
  }

  lemma HalfCloseKeepsReceiving(e: Endpoint)
    requires Coherent(e.s) && ReceivingIn(e) && e.rx.reader == Serving(CloseSendFrame)
    ensures ReceivingIn(e.(s := HalfClose(e.s),
                           rx := e.rx.(reader := Ready,
                                       eofAt := if e.s.inboundClosed then e.rx.eofAt else |e.rx.processed| - 1)))
  {
    var last := |e.rx.processed| - 1;
    assert e.rx.processed == e.rx.processed[..last] + [CloseSendFrame];
    DataOfPush(e.rx.processed[..last], CloseSendFrame);
  }

  lemma ServeKeepsReceiving(e: Endpoint, p: Endpoint, e': Endpoint, takeCancel: bool)
    requires Shape(e) && ReceivingIn(e) && IntakeStep(Serve(takeCancel), e, p, e')
    ensures ReceivingIn(e')
  {
    match e.rx.reader.frame
    case DataFrame(m) => ServeDataKeepsReceiving(e, p, e', m, takeCancel);
    case CloseSendFrame =>
      HalfCloseKeepsReceiving(e);
      hide ReceivingIn;
    case _ =>
  }

  lemma ServeDataKeepsReceiving(e: Endpoint, p: Endpoint, e': Endpoint, m: Message, takeCancel: bool)
    requires Shape(e) && ReceivingIn(e) && IntakeStep(Serve(takeCancel), e, p, e') &&
             e.rx.reader == Serving(DataFrame(m))
    ensures ReceivingIn(e')
  {
    var r := DeliverTo(e.s, m, takeCancel, CtxErr(e.ctl)).1;
    if r == Delivered {
      DeliveredKeepsReceiving(e, m);
      hide ReceivingIn, Opening;
    } else if r != Failed(Of(MessageTooLarge)) {
      EndSessionKeepsReceiving(e, Some(r.err));
      hide ReceivingIn, Opening, EndSession;
    }
  }

  lemma ReaderKeepsReceiving(l: Label, e: Endpoint, e': Endpoint)
    requires Shape(e) && ReceivingIn(e) && ReaderStep(l, e, e')
    ensures ReceivingIn(e')
  {
  }

  lemma ConsumerKeepsReceiving(l: Label, e: Endpoint, e': Endpoint)
    requires Shape(e) && ReceivingIn(e) && ConsumerStep(l, e, e')
    ensures ReceivingIn(e')
  {
    if l.RecvQueue? && e.s.inbound != [] {
      assert e.rx.received + e.s.inbound == e.rx.received + [e.s.inbound[0]] + e.s.inbound[1..];
    }
  }

  // ------------------------------------------------------------ whole runs

  lemma StepKeepsEndpointInv(l: Label, e: Endpoint, p: Endpoint, e': Endpoint)
    requires EndpointInv(e) && OpensOnce(e, p) && Step(l, e, p, e')
    ensures EndpointInv(e')
    ensures Logged(e, p, e')
  {
    hide SendingIn, ReceivingIn, Coherent, Opening, OpensFirst;
    hide OpenerStep, HandlerStep, SenderStep, PumpStep, IntakeStep, ReaderStep, ConsumerStep;
    if OpenerStep(l, e, e') {
      OpenerKeepsSending(l, e, e');
      OpenerKeepsShape(l, e, e');
      OpenerKeepsReceiving(l, e, e');
    } else if HandlerStep(l, e, e') {
      HandlerKeepsSending(l, e, e');
      HandlerKeepsShape(l, e, e');
      HandlerKeepsReceiving(l, e, e');
    } else if SenderStep(l, e, e') {
      SenderKeepsSending(l, e, e');
      SenderKeepsShape(l, e, e');
      SenderKeepsReceiving(l, e, e');
    } else if PumpStep(l, e, e') {
      PumpKeepsSending(l, e, e');
      PumpKeepsShape(l, e, e');
      PumpKeepsReceiving(l, e, e');
    } else if IntakeStep(l, e, p, e') {
      IntakeKeepsEndpointInv(l, e, p, e');
    } else if ReaderStep(l, e, e') {
      ReaderKeepsSending(l, e, e');
      ReaderKeepsShape(l, e, e');
      ReaderKeepsReceiving(l, e, e');
    } else {
      ConsumerKeepsSending(l, e, e');
      ConsumerKeepsShape(l, e, e');
      ConsumerKeepsReceiving(l, e, e');
    }
  }

  lemma IntakeKeepsEndpointInv(l: Label, e: Endpoint, p: Endpoint, e': Endpoint)
    requires EndpointInv(e) && OpensOnce(e, p) && IntakeStep(l, e, p, e')
    ensures EndpointInv(e')
    ensures Logged(e, p, e')
  {
    hide SendingIn, ReceivingIn, Coherent, Opening, OpensFirst;
    IntakeKeepsSending(l, e, p, e');
    if l.Read? {
      ReadKeepsShape(l.refusal, e, p, e');
      ReadKeepsReceiving(e, p, e', l.refusal);
    } else {
      ServeKeepsShape(l.takeCancel, e, p, e');
      ServeKeepsReceiving(e, p, e', l.takeCancel);
    }
  }

  lemma NextKeepsInv(y: System, y': System, side: Side, l: Label)
    requires Inv(y) && Next(y, y', side, l)
    ensures Inv(y')
  {
    hide Step, SendingIn, ReceivingIn, Coherent;
    if side == ClientSide {
      StepKeepsEndpointInv(l, y.client, y.server, y'.client);
    } else {
      StepKeepsEndpointInv(l, y.server, y.client, y'.server);
    }
  }

  lemma {:induction false} RunKeepsInv(run: seq<System>, moves: seq<Move>)
    requires IsRun(run, moves) && Inv(run[0])
    ensures Inv(run[|run| - 1])
    decreases |moves|
  {
    hide Inv, Next;
    if moves != [] {
      var n := |moves| - 1;
      RunKeepsInv(run[..n + 1], moves[..n]);
      NextKeepsInv(run[n], run[n + 1], moves[n].side, moves[n].step);
    }
  }

  lemma ReachableKeepsInv(y: System)
    requires Reachable(y)
    ensures Inv(y)
  {
    hide Inv, Next, Init;
    var y0 :| Init(y0) && Reaches(y0, y);
    var run, moves :| IsRun(run, moves) && run[0] == y0 && run[|run| - 1] == y;
    InitHasInv(y0);
    RunKeepsInv(run, moves);
  }

  lemma InitHasInv(y: System)
    requires Init(y)
    ensures Inv(y)
  {
  }

  // ---------------------------------------------------------- the theorem

  /** No data follows the close frame, so the data in front of it is all of it. */
  lemma {:induction false} NothingAfterClose(frames: seq<Frame>, k: nat)
    requires k < |frames| && frames[k] == CloseSendFrame
    requires forall i, j :: 0 <= i < j < |frames| && frames[i] == CloseSendFrame ==> !frames[j].DataFrame?
    ensures DataOf(frames[..k]) == DataOf(frames)
    decreases |frames|
  {
    var n := |frames| - 1;
    if k < n {
      NothingAfterClose(frames[..n], k);
      assert frames[..n][..k] == frames[..k];
    }
  }

  /** What one endpoint's Recv returned, against what the other endpoint's Send accepted. */
  ghost predicate Conserved(tx: Endpoint, rx: Endpoint) {
    && rx.rx.received <= tx.tx.accepted
    && (Eof in rx.rx.ends ==> tx.s.sendClosed && rx.rx.received == tx.tx.accepted)
  }

  /** Every accepted message was written once the close frame was. */
  lemma CloseMeansAllWritten(tx: Endpoint, k: nat)
    requires SendingIn(tx) && k < |tx.tx.written| && tx.tx.written[k] == CloseSendFrame
    ensures tx.s.sendClosed && DataOf(tx.tx.written[..k]) == tx.tx.accepted
  {
    NothingAfterClose(tx.tx.written, k);
    NoDataQueued(tx.s.outbound);
  }

  lemma WrittenIsAccepted(tx: Endpoint)
    requires SendingIn(tx)
    ensures DataOf(tx.tx.written) <= tx.tx.accepted
  {
  }

  lemma DirectionConserved(tx: Endpoint, rx: Endpoint)
    requires SendingIn(tx) && ReceivingIn(rx) && rx.rx.processed <= tx.tx.written
    ensures Conserved(tx, rx)
  {
    DataOfPrefix(rx.rx.processed, tx.tx.written);
    WrittenIsAccepted(tx);
    if Eof in rx.rx.ends {
      var k := rx.rx.eofAt;
      assert rx.rx.processed[..k] == tx.tx.written[..k];
      CloseMeansAllWritten(tx, k);
    }
    hide SendingIn;
  }

  /**
   In every reachable state of two conforming endpoints, in both directions: Recv has
   returned a prefix of the messages Send accepted; and if Recv ever returned io.EOF, the
   sender had closed its send side and not one accepted message is missing.
   */
  lemma MessagesAreConserved(y: System)
    requires Reachable(y)
    ensures Conserved(y.client, y.server) && Conserved(y.server, y.client)
  {
    ReachableKeepsInv(y);
    DirectionConserved(y.client, y.server);
    DirectionConserved(y.server, y.client);
  }
}
