/**
 The serving side of calls, under any inbound frames: every frame written in answer to the peer
 is explained by what this endpoint took from the peer and what its handlers and its admission
 decisions did, and no inbound call runs a handler twice.
 */
module CallServing {
  import opened Status
  import opened Session
  import opened Engine
  import opened IdSpace

  // ------------------------------------------------------------ explanations

  ghost predicate HasRun(runs: seq<Run>, t: Ticket, outcome: HandlerOutcome) {
    exists k :: 0 <= k < |runs| && runs[k].ticket == t && runs[k].outcome == outcome
  }

  /** The error with which the request at position t was refused or its handler failed. */
  ghost predicate FailedWith(v: Serving, t: Ticket, err: Error) {
    (t in v.refusals && v.refusals[t] == err) || (t in v.tickets && HasRun(v.runs, t, Erred(err)))
  }

  ghost predicate Returns(v: Serving, id: Id, payload: Bytes) {
    exists t :: t in v.tickets && v.tickets[t].id == id && HasRun(v.runs, t, Returned(payload))
  }

  ghost predicate Fails(v: Serving, consumed: seq<Frame>, id: Id, body: FailureBody) {
    exists t: Ticket, err ::
      t < |consumed| && IsOpen(consumed[t]) && consumed[t].id == id && FailedWith(v, t, err) &&
      body == EndBody(StatusOf(Some(err)))
  }

  /** The stream was admitted, and the frames written before acknowledge it. */
  ghost predicate Acknowledged(v: Serving, before: seq<Frame>, id: Id) {
    id in v.served && StreamAck(id) in before
  }

  /** Why this endpoint wrote a frame after the frames `before`. */
  ghost predicate Explained(role: Role, v: Serving, consumed: seq<Frame>, before: seq<Frame>, f: Frame) {
    match f
    case CallResult(id, result) => result.Some? && Returns(v, id, result.value)
    case StreamEnd(id, body) => Owns(role, id) || Acknowledged(v, before, id) || Fails(v, consumed, id, body)
    case StreamAck(id) => id in v.served
    case Data(id) => Owns(role, id) || Acknowledged(v, before, id)
    case CloseSend(id) => Owns(role, id) || Acknowledged(v, before, id)
    case _ => true
  }

  ghost predicate AllExplained(role: Role, v: Serving, consumed: seq<Frame>, emitted: seq<Frame>) {
    forall i :: 0 <= i < |emitted| ==> Explained(role, v, consumed, emitted[..i], emitted[i])
  }

  /** Handlers run with the ticket's call and the session's identity, once per ticket. */
  ghost predicate RunsOnce(remote: Bytes, v: Serving) {
    && (forall k :: 0 <= k < |v.runs| ==>
          && v.runs[k].ticket in v.tickets && !v.tickets[v.runs[k].ticket].phase.Running?
          && v.runs[k].call == v.tickets[v.runs[k].ticket].call && v.runs[k].from == remote)
    && (forall j, k :: 0 <= j < k < |v.runs| ==> v.runs[j].ticket != v.runs[k].ticket)
    && (forall t :: t in v.tickets && v.tickets[t].phase.Ran? ==> HasRun(v.runs, t, v.tickets[t].phase.outcome))
  }

  /** The request decodes and names a method. */
  predicate Named(f: Frame) {
    f.OpenStream? && f.name.Some? && f.name.value != []
  }

  /** Admitted streams were asked for, by name. */
  ghost predicate Asked(served: set<Id>, consumed: seq<Frame>) {
    forall id :: id in served ==>
      exists t :: 0 <= t < |consumed| && consumed[t].OpenStream? && consumed[t].id == id && Named(consumed[t])
  }

  /** What the reader is about to write is explained. */
  ghost predicate ReaderExplained(reader: Reader, v: Serving, consumed: seq<Frame>) {
    && (reader.Refusing? ==>
          consumed != [] && var t: nat := |consumed| - 1;
              t in v.refusals && reader.code == StatusOf(Some(v.refusals[t])))
    && (reader.Acking? ==> reader.id in v.served)
  }

  ghost predicate ServingInv(e: Engine) {
    && AllExplained(e.role, e.serving, e.net.consumed, e.net.emitted)
    && RunsOnce(e.remote, e.serving)
    && Asked(e.serving.served, e.net.consumed)
    && ReaderExplained(e.reader, e.serving, e.net.consumed)
  }

  // ------------------------------------------------------------ growth

  /** Nothing that explains a frame is ever withdrawn. */
  ghost predicate Grows(v: Serving, c: seq<Frame>, v': Serving, c': seq<Frame>) {
    && (forall t :: t in v.tickets ==> t in v'.tickets && v'.tickets[t].id == v.tickets[t].id)
    && (forall t :: t in v.refusals ==> t in v'.refusals && v'.refusals[t] == v.refusals[t])
    && v.served <= v'.served && v.runs <= v'.runs && c <= c'
  }

  lemma GrowthKeepsRuns(runs: seq<Run>, runs': seq<Run>, t: Ticket, outcome: HandlerOutcome)
    requires HasRun(runs, t, outcome) && runs <= runs'
    ensures HasRun(runs', t, outcome)
  {
    var k :| 0 <= k < |runs| && runs[k].ticket == t && runs[k].outcome == outcome;
    assert runs'[k] == runs[k];
  }

  lemma GrowthKeepsExplained(role: Role, v: Serving, c: seq<Frame>, v': Serving, c': seq<Frame>,
                             before: seq<Frame>, f: Frame)
    requires Explained(role, v, c, before, f) && Grows(v, c, v', c')
    ensures Explained(role, v', c', before, f)
  {
    hide HasRun, EndBody, StatusOf, Owns;
    if f.CallResult? {
      var t :| t in v.tickets && v.tickets[t].id == f.id && HasRun(v.runs, t, Returned(f.result.value));
      GrowthKeepsRuns(v.runs, v'.runs, t, Returned(f.result.value));
    } else if f.StreamEnd? && Fails(v, c, f.id, f.body) {
      var t: Ticket, err :| t < |c| && IsOpen(c[t]) && c[t].id == f.id && FailedWith(v, t, err) &&
                            f.body == EndBody(StatusOf(Some(err)));
      if t in v.tickets && HasRun(v.runs, t, Erred(err)) { GrowthKeepsRuns(v.runs, v'.runs, t, Erred(err)); }
      assert c'[t] == c[t] && FailedWith(v', t, err);
    }
  }

  lemma GrowthKeepsAllExplained(role: Role, v: Serving, c: seq<Frame>, v': Serving, c': seq<Frame>, emitted: seq<Frame>)
    requires AllExplained(role, v, c, emitted) && Grows(v, c, v', c')
    ensures AllExplained(role, v', c', emitted)
  {
    hide Explained, Grows;
    forall i | 0 <= i < |emitted| ensures Explained(role, v', c', emitted[..i], emitted[i]) {
      GrowthKeepsExplained(role, v, c, v', c', emitted[..i], emitted[i]);
    }
  }

  /** Writing one more explained frame. */
  lemma EmitKeepsExplained(role: Role, v: Serving, c: seq<Frame>, emitted: seq<Frame>, f: Frame)
    requires AllExplained(role, v, c, emitted) && Explained(role, v, c, emitted, f)
    ensures AllExplained(role, v, c, emitted + [f])
  {
    hide Explained;
    var longer := emitted + [f];
    forall i | 0 <= i < |longer| ensures Explained(role, v, c, longer[..i], longer[i]) {
      assert longer[..i] == emitted[..i];
      if i == |emitted| { assert emitted[..i] == emitted; }
    }
  }

  lemma LongerKeepsAsked(served: set<Id>, c: seq<Frame>, f: Frame)
    requires Asked(served, c)
    ensures Asked(served, c + [f])
  {
    forall id | id in served
      ensures exists t ::
                0 <= t < |c + [f]| && (c + [f])[t].OpenStream? && (c + [f])[t].id == id && Named((c + [f])[t])
    {
      var t :| 0 <= t < |c| && c[t].OpenStream? && c[t].id == id && Named(c[t]);
      assert (c + [f])[t] == c[t];
    }
  }

  /** Tickets that only move between phases other than running a handler keep their runs. */
  lemma PhasesKeepRuns(remote: Bytes, v: Serving, v': Serving)
    requires RunsOnce(remote, v) && SameTickets(v.tickets, v'.tickets) && v'.runs == v.runs
    requires forall t :: t in v.tickets && v'.tickets[t].phase != v.tickets[t].phase ==>
               !v'.tickets[t].phase.Running? && !v'.tickets[t].phase.Ran?
    ensures RunsOnce(remote, v')
  {
    hide HasRun;
  }

  // ------------------------------------------------------------ steps

  lemma CallerKeepsServing(l: Label, e: Engine, e': Engine)
    requires ServingInv(e) && IdInv(e) && CallerStep(l, e, e')
    ensures ServingInv(e')
  {
    if l.WriteOpen? && l.ok {
      EmitKeepsExplained(e.role, e.serving, e.net.consumed, e.net.emitted,
                         OpenFrameOf(l.id, e.callers.requests[l.id].kind));
    }
    if l.Notify? && l.ok {
      KnownIdsAreOwned(e.role, e.callers.issued, e.callers.requests, l.id);
      EmitKeepsExplained(e.role, e.serving, e.net.consumed, e.net.emitted, StreamEnd(l.id, EndBody(l.code)));
    }
    hide AllExplained, RunsOnce, Asked, ReaderExplained, IdInv, AllocatedId;
  }

  lemma CancelKeepsServing(e: Engine, v': Serving, c': seq<Frame>, t: Ticket)
    requires ServingInv(e) && v' == CancelTicket(e.serving, t) && e.net.consumed <= c'
    ensures Grows(e.serving, e.net.consumed, v', c') && RunsOnce(e.remote, v')
  {
    CancelKeepsTickets(e.serving, t);
    PhasesKeepRuns(e.remote, e.serving, v');
  }

  lemma EndCancelKeepsServing(l: Label, e: Engine, e': Engine)
    requires ServingInv(e) && EnderStep(l, e, e') && l.EndCancel?
    ensures ServingInv(e')
  {
    hide AllExplained, Asked;
    CancelKeepsServing(e, e'.serving, e'.net.consumed, l.ticket);
    hide RunsOnce;
    GrowthKeepsAllExplained(e.role, e.serving, e.net.consumed, e'.serving, e'.net.consumed, e.net.emitted);
    hide Grows;
  }

  lemma EnderKeepsServing(l: Label, e: Engine, e': Engine)
    requires ServingInv(e) && EnderStep(l, e, e')
    ensures ServingInv(e')
  {
    hide AllExplained, RunsOnce, Asked, ReaderExplained;
    if l.EndCancel? {
      hide ServingInv, EnderStep;
      EndCancelKeepsServing(l, e, e');
    }
  }

  lemma ConsumeKeepsServing(f: Frame, e: Engine, e': Engine)
    requires ServingInv(e) && ReaderStep(Consume(f), e, e')
    ensures ServingInv(e')
  {
    DispatchShrinks(e, f);
    DispatchScopes(e, f);
    assert e'.serving == e.serving || exists t :: e'.serving == CancelTicket(e.serving, t);
    hide Dispatch, ReaderScope;
    if t :| e'.serving == CancelTicket(e.serving, t) {
      CancelKeepsServing(e, e'.serving, e'.net.consumed, t);
    }
    hide CancelTicket;
    GrowthKeepsAllExplained(e.role, e.serving, e.net.consumed, e'.serving, e'.net.consumed, e.net.emitted);
    LongerKeepsAsked(e.serving.served, e.net.consumed, f);
    hide AllExplained, RunsOnce, Asked, Grows;
  }

  /** A new ticket has not run, and a new refusal or admitted stream concerns no ticket. */
  lemma DecidingKeepsRuns(remote: Bytes, v: Serving, v': Serving, t: Ticket)
    requires RunsOnce(remote, v) && v'.runs == v.runs && t !in v.tickets
    requires v'.tickets == v.tickets ||
             (t in v'.tickets && v'.tickets == v.tickets[t := v'.tickets[t]] && v'.tickets[t].phase == Running)
    ensures RunsOnce(remote, v')
  {
    hide HasRun;
  }

  /** The ticket of the request being decided is new. */
  lemma DecidingIsNew(e: Engine)
    requires IdInv(e) && e.reader == Deciding
    ensures e.net.consumed != []
    ensures var t: Ticket := |e.net.consumed| - 1; t !in e.serving.tickets && t !in e.serving.refusals
  {
    hide KnownIds, OpensOnce, Filed, Inbound, Owns;
  }

  lemma AdmitKeepsServing(l: Label, e: Engine, e': Engine)
    requires ServingInv(e) && IdInv(e) && ReaderStep(l, e, e') && l.AdmitCall?
    ensures ServingInv(e')
  {
    hide IdInv, AllExplained, Asked, RunsOnce;
    DecidingIsNew(e);
    DecidingKeepsRuns(e.remote, e.serving, e'.serving, |e.net.consumed| - 1);
    GrowthKeepsAllExplained(e.role, e.serving, e.net.consumed, e'.serving, e'.net.consumed, e.net.emitted);
    hide Grows;
  }

  lemma RefuseKeepsServing(l: Label, e: Engine, e': Engine)
    requires ServingInv(e) && IdInv(e) && ReaderStep(l, e, e') && l.Refuse?
    ensures ServingInv(e')
  {
    DecidingIsNew(e);
    hide IdInv, RefusalFits, AllExplained, Asked, RunsOnce, StatusOf;
    DecidingKeepsRuns(e.remote, e.serving, e'.serving, |e.net.consumed| - 1);
    GrowthKeepsAllExplained(e.role, e.serving, e.net.consumed, e'.serving, e'.net.consumed, e.net.emitted);
    hide Grows;
  }

  lemma AdmitStreamKeepsServing(e: Engine, e': Engine)
    requires ServingInv(e) && IdInv(e) && ReaderStep(AdmitStream, e, e')
    ensures ServingInv(e')
  {
    DecidingIsNew(e);
    hide IdInv, AllExplained, RunsOnce;
    DecidingKeepsRuns(e.remote, e.serving, e'.serving, |e.net.consumed| - 1);
    GrowthKeepsAllExplained(e.role, e.serving, e.net.consumed, e'.serving, e'.net.consumed, e.net.emitted);
    hide Grows;
  }

  lemma RefusalIsExplained(e: Engine)
    requires ServingInv(e) && IdInv(e) && e.reader.Refusing?
    ensures Explained(e.role, e.serving, e.net.consumed, e.net.emitted,
                      StreamEnd(e.reader.id, EndBody(e.reader.code)))
  {
    hide KnownIds, Filed, Inbound, OpensOnce, Ticketed, AllExplained, RunsOnce, Asked, StatusOf, EndBody, Owns;
    var t: Ticket := |e.net.consumed| - 1;
    assert IsOpen(e.net.consumed[t]) && e.net.consumed[t].id == e.reader.id &&
           FailedWith(e.serving, t, e.serving.refusals[t]);
    assert Fails(e.serving, e.net.consumed, e.reader.id, EndBody(e.reader.code));
  }

  lemma RefuseWriteKeepsServing(l: Label, e: Engine, e': Engine)
    requires ServingInv(e) && IdInv(e) && ReaderStep(l, e, e') && l.RefuseWrite?
    ensures ServingInv(e')
  {
    RefusalIsExplained(e);
    hide IdInv, AllExplained, RunsOnce, Asked, Explained, EndBody;
    if l.ok {
      EmitKeepsExplained(e.role, e.serving, e.net.consumed, e.net.emitted,
                         StreamEnd(e.reader.id, EndBody(e.reader.code)));
    }
  }

  lemma AnswerKeepsServing(l: Label, e: Engine, e': Engine)
    requires ServingInv(e) && ReaderStep(l, e, e')
    requires l.SettleSend? || l.AckWrite? || l.ReadFail?
    ensures ServingInv(e')
  {
    hide AllExplained, RunsOnce, Asked;
    if l.AckWrite? && l.ok {
      EmitKeepsExplained(e.role, e.serving, e.net.consumed, e.net.emitted, StreamAck(e.reader.id));
    }
    hide Explained, Send;
  }

  lemma RunKeepsRunsOnce(remote: Bytes, v: Serving, v': Serving, t: Ticket, outcome: HandlerOutcome)
    requires RunsOnce(remote, v) && TicketIn(v, t, Running)
    requires v' == SetServe(v, t, Ran(outcome)).(runs := v.runs + [Run(t, v.tickets[t].call, remote, outcome)])
    ensures RunsOnce(remote, v')
  {
    assert v'.runs[|v.runs|].ticket == t && v'.runs[|v.runs|].outcome == outcome;
    forall u | u in v.tickets && v.tickets[u].phase.Ran? ensures HasRun(v'.runs, u, v.tickets[u].phase.outcome) {
      GrowthKeepsRuns(v.runs, v'.runs, u, v.tickets[u].phase.outcome);
    }
    assert HasRun(v'.runs, t, outcome);
    hide HasRun;
  }

  lemma ReplyIsExplained(e: Engine, t: Ticket)
    requires ServingInv(e) && IdInv(e) && t in e.serving.tickets && e.serving.tickets[t].phase.Ran?
    ensures Explained(e.role, e.serving, e.net.consumed, e.net.emitted,
                      ReplyFrame(e.serving.tickets[t].id, e.serving.tickets[t].phase.outcome))
  {
    var s := e.serving.tickets[t];
    hide KnownIds, OpensOnce, Owns, Filed, Inbound, HasRun;
    if s.phase.outcome.Erred? {
      assert FailedWith(e.serving, t, s.phase.outcome.err);
      assert e.net.consumed[t] == OpenCall(s.id, Some(s.call));
    }
  }

  lemma RunHandlerKeepsServing(l: Label, e: Engine, e': Engine)
    requires ServingInv(e) && ServingStep(l, e, e') && l.RunHandler?
    ensures ServingInv(e')
  {
    RunKeepsRunsOnce(e.remote, e.serving, e'.serving, l.ticket, l.outcome);
    GrowthKeepsAllExplained(e.role, e.serving, e.net.consumed, e'.serving, e.net.consumed, e.net.emitted);
    hide AllExplained, RunsOnce, Asked, Grows;
  }

  lemma EmitStreamKeepsServing(l: Label, e: Engine, e': Engine)
    requires ServingInv(e) && IdInv(e) && ServingStep(l, e, e') && (l.EmitStream? || l.DropStream?)
    ensures ServingInv(e')
  {
    if l.EmitStream? {
      if l.frame.id in e.callers.requests {
        KnownIdsAreOwned(e.role, e.callers.issued, e.callers.requests, l.frame.id);
      }
      EmitKeepsExplained(e.role, e.serving, e.net.consumed, e.net.emitted, l.frame);
    }
    hide AllExplained, RunsOnce, Asked, IdInv, Owns;
  }

  lemma ReplyKeepsServing(l: Label, e: Engine, e': Engine)
    requires ServingInv(e) && IdInv(e) && ServingStep(l, e, e')
    requires l.Reply? || l.CancelContext? || l.ReleaseInflight?
    ensures ServingInv(e')
  {
    hide IdInv, AllExplained, Asked, Explained;
    var v, c := e.serving, e.net.consumed;
    PhasesKeepRuns(e.remote, v, e'.serving);
    hide RunsOnce;
    if l.Reply? && l.ok {
      ReplyIsExplained(e, l.ticket);
      EmitKeepsExplained(e.role, v, c, e.net.emitted,
                         ReplyFrame(v.tickets[l.ticket].id, v.tickets[l.ticket].phase.outcome));
    }
    GrowthKeepsAllExplained(e.role, v, c, e'.serving, c, e'.net.emitted);
    hide Grows, ReplyFrame;
  }

  lemma StepKeepsServing(l: Label, e: Engine, e': Engine)
    requires ServingInv(e) && IdInv(e) && Step(l, e, e')
    ensures ServingInv(e')
  {
    hide ServingInv, IdInv;
    if CallerStep(l, e, e') { CallerKeepsServing(l, e, e'); }
    else if EnderStep(l, e, e') { EnderKeepsServing(l, e, e'); }
    else if ReaderStep(l, e, e') {
      if l.Consume? { ConsumeKeepsServing(l.frame, e, e'); }
      else if l.AdmitStream? { AdmitStreamKeepsServing(e, e'); }
      else if l.AdmitCall? { AdmitKeepsServing(l, e, e'); }
      else if l.Refuse? { RefuseKeepsServing(l, e, e'); }
      else if l.RefuseWrite? { RefuseWriteKeepsServing(l, e, e'); }
      else { AnswerKeepsServing(l, e, e'); }
    }
    else if l.RunHandler? { RunHandlerKeepsServing(l, e, e'); }
    else if l.EmitStream? || l.DropStream? { EmitStreamKeepsServing(l, e, e'); }
    else { ReplyKeepsServing(l, e, e'); }
  }

  // ------------------------------------------------------------ requests that can only be refused

  /** A request whose body does not decode. */
  predicate Undecoded(f: Frame) {
    (f.OpenCall? && f.request.None?) || (f.OpenStream? && f.name.None?)
  }

  /** A request that names no method. */
  predicate Nameless(f: Frame) {
    (f.OpenCall? && f.request.Some? && f.request.value.name == []) || (f.OpenStream? && f.name == Some([]))
  }

  ghost predicate RefusedAsItIs(v: Serving, consumed: seq<Frame>) {
    && (forall t :: t in v.tickets ==> v.tickets[t].call.name != [])
    && (forall t :: t in v.refusals ==>
          && t < |consumed|
          && (Undecoded(consumed[t]) ==> v.refusals[t] == Of(InvalidRequest))
          && (Nameless(consumed[t]) ==> v.refusals[t] == Of(MethodNotFound)))
  }

  lemma StepRefusesAsItIs(l: Label, e: Engine, e': Engine)
    requires RefusedAsItIs(e.serving, e.net.consumed) && Step(l, e, e')
    ensures RefusedAsItIs(e'.serving, e'.net.consumed)
  {
    hide CallerStep, EnderStep, ReaderStep, ServingStep;
    if CallerStep(l, e, e') { CallerRefusesAsItIs(l, e, e'); }
    else if EnderStep(l, e, e') { EnderRefusesAsItIs(l, e, e'); }
    else if ReaderStep(l, e, e') { ReaderRefusesAsItIs(l, e, e'); }
    else { ServingRefusesAsItIs(l, e, e'); }
  }

  lemma CallerRefusesAsItIs(l: Label, e: Engine, e': Engine)
    requires CallerStep(l, e, e')
    ensures e'.serving == e.serving && e'.net.consumed == e.net.consumed
  {
    hide AllocatedId, OpenFrameOf;
  }

  lemma EnderRefusesAsItIs(l: Label, e: Engine, e': Engine)
    requires RefusedAsItIs(e.serving, e.net.consumed) && EnderStep(l, e, e')
    ensures RefusedAsItIs(e'.serving, e'.net.consumed)
  {
    hide Undecoded, Nameless, Swap, Send;
  }

  lemma ReaderRefusesAsItIs(l: Label, e: Engine, e': Engine)
    requires RefusedAsItIs(e.serving, e.net.consumed) && ReaderStep(l, e, e')
    ensures RefusedAsItIs(e'.serving, e'.net.consumed)
  {
    if l.Consume? {
      DispatchOnlyCancels(e, l.frame);
      hide Dispatch, Undecoded, Nameless;
    } else if l.Refuse? {
      RefuseRefusesAsItIs(l, e, e');
    } else {
      hide Undecoded, Nameless, Dispatch, Send, RefusalFits;
    }
  }

  lemma RefuseRefusesAsItIs(l: Label, e: Engine, e': Engine)
    requires RefusedAsItIs(e.serving, e.net.consumed) && ReaderStep(l, e, e') && l.Refuse?
    ensures RefusedAsItIs(e'.serving, e'.net.consumed)
  {
    var t := |e.net.consumed| - 1;
    var f := e.net.consumed[t];
    assert Undecoded(f) ==> l.err == Of(InvalidRequest);
    assert Nameless(f) ==> l.err == Of(MethodNotFound);
    hide Undecoded, Nameless, RefusalFits, StatusOf;
  }

  lemma DispatchOnlyCancels(e: Engine, f: Frame)
    ensures var d := Dispatch(e, f);
            d.serving.refusals == e.serving.refusals && SameTickets(e.serving.tickets, d.serving.tickets)
  {
    hide SettleCall, SettleOpen, Owns;
  }

  lemma ServingRefusesAsItIs(l: Label, e: Engine, e': Engine)
    requires RefusedAsItIs(e.serving, e.net.consumed) && ServingStep(l, e, e')
    ensures RefusedAsItIs(e'.serving, e'.net.consumed)
  {
    hide Undecoded, Nameless, ReplyFrame;
  }

  lemma {:induction false} RunRefusesAsItIs(run: seq<Engine>, labels: seq<Label>, n: nat)
    requires IsRun(run, labels) && n < |run|
    ensures RefusedAsItIs(run[n].serving, run[n].net.consumed)
    decreases n
  {
    hide Step;
    if n > 0 {
      hide RefusedAsItIs, Init;
      assert Step(labels[n - 1], run[n - 1], run[n - 1 + 1]);
      RunRefusesAsItIs(run, labels, n - 1);
      StepRefusesAsItIs(labels[n - 1], run[n - 1], run[n]);
    }
  }

  /**
   Whatever the peer sends: a request that does not decode is refused as invalid and one without a
   name as not found; neither is ever given to a handler.
   */
  lemma BadRequestsAreRefused(e: Engine, t: Ticket)
    requires Reachable(e) && e.callers.issued <= ID_PERIOD && t < |e.net.consumed|
    requires Undecoded(e.net.consumed[t]) || Nameless(e.net.consumed[t])
    ensures t !in e.serving.tickets
    ensures t in e.serving.refusals ==>
              e.serving.refusals[t] == Of(if Undecoded(e.net.consumed[t]) then InvalidRequest else MethodNotFound)
  {
    hide Step;
    var run, labels :| IsRun(run, labels) && run[|run| - 1] == e;
    RunRefusesAsItIs(run, labels, |run| - 1);
    RunKeepsIds(run, labels, |run| - 1);
    hide Filed, Inbound, OpensOnce, ReaderScope, KnownIds;
  }
}
