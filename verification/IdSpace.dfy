/**
 The identifier space of one endpoint, under any sequence of inbound frames: who may hold which
 identifier, that no identifier is opened twice on the wire, and that a frame touches only the
 state of its own identifier.
 */
module IdSpace {
  import opened Status
  import opened Session
  import opened Engine

  // -------------------------------------------------------- allocated identifiers

  /** Every request has an identifier this endpoint allocated. */
  ghost predicate KnownIds(role: Role, issued: nat, requests: map<Id, Request>) {
    forall id :: id in requests ==> exists n: nat :: n < issued && AllocatedId(role, n) == id
  }

  lemma NextIdIsFresh(role: Role, issued: nat, requests: map<Id, Request>)
    requires KnownIds(role, issued, requests) && issued < ID_PERIOD
    ensures AllocatedId(role, issued) !in requests
  {
    hide AllocatedId;
    var id := AllocatedId(role, issued);
    if id in requests {
      var n: nat :| n < issued && AllocatedId(role, n) == id;
      AllocationsCollideIffPeriodApart(role, n, issued);
      assert false;
    }
  }

  lemma KnownIdsAreOwned(role: Role, issued: nat, requests: map<Id, Request>, id: Id)
    requires KnownIds(role, issued, requests) && id in requests
    ensures Owns(role, id)
  {
    hide AllocatedId, Owns;
    var n: nat :| n < issued && AllocatedId(role, n) == id;
    AllocationsCollideIffPeriodApart(role, n, n);
  }

  lemma UpdateKeepsKnownIds(role: Role, issued: nat, issued': nat, requests: map<Id, Request>, id: Id, r: Request)
    requires KnownIds(role, issued, requests) && issued <= issued'
    requires id in requests || (issued < issued' && id == AllocatedId(role, issued))
    ensures KnownIds(role, issued', requests[id := r])
  {
    var requests' := requests[id := r];
    forall x | x in requests'
      ensures exists n: nat :: n < issued' && AllocatedId(role, n) == x
    {
      if x in requests {
        var n: nat :| n < issued && AllocatedId(role, n) == x;
        assert n < issued';
      }
    }
  }

  // ------------------------------------------------------------ the invariant

  predicate IsCall(requests: map<Id, Request>, id: Id) {
    id in requests && requests[id].kind.CallKind?
  }

  predicate IsStream(requests: map<Id, Request>, id: Id) {
    id in requests && requests[id].kind.StreamKind?
  }

  /** Pending calls are call requests, pending opens stream requests, live streams opened here or admitted. */
  ghost predicate Filed(calls: set<Id>, opens: set<Id>, streams: set<Id>, served: set<Id>, requests: map<Id, Request>) {
    && (forall id :: id in calls ==> IsCall(requests, id))
    && (forall id :: id in opens ==> IsStream(requests, id))
    && (forall id :: id in streams ==> IsStream(requests, id) || id in served)
  }

  /** An identifier only the peer may allocate. */
  predicate Foreign(role: Role, id: Id) {
    id != 0 && !Owns(role, id)
  }

  /** Inbound calls and admitted streams carry the peer's identifiers. */
  ghost predicate Inbound(role: Role, inflight: map<Id, Ticket>, tickets: map<Ticket, Serve>, served: set<Id>) {
    && (forall id :: id in inflight ==> Foreign(role, id) && inflight[id] in tickets && tickets[inflight[id]].id == id)
    && (forall t :: t in tickets ==> Foreign(role, tickets[t].id))
    && (forall id :: id in served ==> Foreign(role, id))
  }

  predicate IsOpen(f: Frame) {
    f.OpenCall? || f.OpenStream?
  }

  /** Open frames written so far: each for a request past its write, with its content, and never twice. */
  ghost predicate OpensOnce(requests: map<Id, Request>, emitted: seq<Frame>) {
    && (forall i :: 0 <= i < |emitted| && IsOpen(emitted[i]) ==>
          && emitted[i].id in requests
          && !requests[emitted[i].id].phase.Allocated? && !requests[emitted[i].id].phase.Registered?
          && emitted[i] == OpenFrameOf(emitted[i].id, requests[emitted[i].id].kind))
    && (forall i, j :: 0 <= i < j < |emitted| && IsOpen(emitted[i]) && IsOpen(emitted[j]) ==>
        emitted[i].id != emitted[j].id)
  }

  /** While the reader handles a frame it works for that frame's identifier, the peer's if it opens. */
  predicate ReaderScope(role: Role, reader: Reader, consumed: seq<Frame>) {
    reader.Settling? || reader.Deciding? || reader.Acking? || reader.Refusing? ==>
      && consumed != [] && !consumed[|consumed| - 1].CloseSession?
      && var f := consumed[|consumed| - 1];
         && (reader.Deciding? || reader.id == f.id)
         && (reader.Settling? || (IsOpen(f) && Foreign(role, f.id)))
         && (reader.Acking? ==> f.OpenStream?)
  }

  /** How many frames are decided: all that were taken, but the one being decided. */
  function Decided(reader: Reader, consumed: seq<Frame>): int {
    if reader.Deciding? then |consumed| - 1 else |consumed|
  }

  /** A ticket is the position of the request it serves; a request has a ticket or a refusal, not both. */
  ghost predicate Ticketed(tickets: map<Ticket, Serve>, refusals: map<Ticket, Error>, decided: int,
                           consumed: seq<Frame>) {
    && decided <= |consumed|
    && (forall t :: t in tickets ==> t < decided && consumed[t] == OpenCall(tickets[t].id, Some(tickets[t].call)))
    && (forall t :: t in refusals ==> t < decided && IsOpen(consumed[t]) && t !in tickets)
  }

  ghost predicate IdInv(e: Engine) {
    && KnownIds(e.role, e.callers.issued, e.callers.requests)
    && Filed(e.reg.calls, e.reg.opens, e.reg.streams, e.serving.served, e.callers.requests)
    && Inbound(e.role, e.reg.inflight, e.serving.tickets, e.serving.served)
    && OpensOnce(e.callers.requests, e.net.emitted)
    && ReaderScope(e.role, e.reader, e.net.consumed)
    && Ticketed(e.serving.tickets, e.serving.refusals, Decided(e.reader, e.net.consumed), e.net.consumed)
  }

  // ------------------------------------------------------------ callers

  /** A request moves on, or a fresh one is added. */
  lemma UpdateKeepsFiled(calls: set<Id>, opens: set<Id>, streams: set<Id>, served: set<Id>,
                         requests: map<Id, Request>, id: Id, r: Request)
    requires Filed(calls, opens, streams, served, requests)
    requires id in requests ==> r.kind == requests[id].kind
    ensures Filed(calls, opens, streams, served, requests[id := r])
  {
    var requests' := requests[id := r];
    assert forall x :: IsCall(requests, x) ==> IsCall(requests', x);
    assert forall x :: IsStream(requests, x) ==> IsStream(requests', x);
    hide IsCall, IsStream;
  }

  lemma UpdateKeepsOpensOnce(requests: map<Id, Request>, emitted: seq<Frame>, id: Id, r: Request)
    requires OpensOnce(requests, emitted)
    requires id in requests ==> r.kind == requests[id].kind
    requires r.phase == Allocated || r.phase == Registered ==>
               id !in requests || requests[id].phase == Allocated || requests[id].phase == Registered
    ensures OpensOnce(requests[id := r], emitted)
  {
    hide OpenFrameOf;
  }

  lemma EmitKeepsOpensOnce(requests: map<Id, Request>, emitted: seq<Frame>, f: Frame)
    requires OpensOnce(requests, emitted)
    requires !IsOpen(f)
    ensures OpensOnce(requests, emitted + [f])
  {
    hide OpenFrameOf;
  }

  lemma OpenKeepsOpensOnce(requests: map<Id, Request>, emitted: seq<Frame>, id: Id, r: Request)
    requires OpensOnce(requests, emitted)
    requires id in requests && requests[id].phase == Registered && r == requests[id].(phase := Waiting)
    ensures OpensOnce(requests[id := r], emitted + [OpenFrameOf(id, r.kind)])
  {
    UpdateKeepsOpensOnce(requests, emitted, id, r);
    assert OpenFrameOf(id, r.kind).id == id;
    hide OpenFrameOf;
  }

  lemma CallerKeepsIds(l: Label, e: Engine, e': Engine)
    requires IdInv(e) && CallerStep(l, e, e') && e'.callers.issued <= ID_PERIOD
    ensures IdInv(e')
  {
    var c, g := e.callers, e.reg;
    var id := if l.Start? then AllocatedId(e.role, c.issued) else l.id;
    var r := e'.callers.requests[id];
    if l.Start? { NextIdIsFresh(e.role, c.issued, c.requests); }
    UpdateKeepsKnownIds(e.role, c.issued, e'.callers.issued, c.requests, id, r);
    UpdateKeepsFiled(g.calls, g.opens, g.streams, e.serving.served, c.requests, id, r);
    if l.WriteOpen? && l.ok {
      OpenKeepsOpensOnce(c.requests, e.net.emitted, id, r);
    } else {
      UpdateKeepsOpensOnce(c.requests, e.net.emitted, id, r);
      if l.Notify? && l.ok {
        EmitKeepsOpensOnce(e'.callers.requests, e.net.emitted, StreamEnd(id, EndBody(l.code)));
      }
    }
    hide KnownIds, OpensOnce, Inbound, ReaderScope, AllocatedId, OpenFrameOf, Ticketed;
  }

  // ------------------------------------------------------------ end

  /** The same tickets, perhaps further on, and fewer registrations. */
  predicate SameTickets(tickets: map<Ticket, Serve>, tickets': map<Ticket, Serve>) {
    tickets'.Keys == tickets.Keys &&
    forall t :: t in tickets ==> tickets'[t].id == tickets[t].id && tickets'[t].call == tickets[t].call
  }

  lemma SameTicketsKeepInbound(role: Role, inflight: map<Id, Ticket>, inflight': map<Id, Ticket>,
                               tickets: map<Ticket, Serve>, tickets': map<Ticket, Serve>, served: set<Id>)
    requires Inbound(role, inflight, tickets, served) && SameTickets(tickets, tickets')
    requires forall id :: id in inflight' ==> id in inflight && inflight'[id] == inflight[id]
    ensures Inbound(role, inflight', tickets', served)
  {
    hide Owns;
  }

  lemma SameTicketsKeepTicketed(tickets: map<Ticket, Serve>, tickets': map<Ticket, Serve>, refusals: map<Ticket, Error>,
                                decided: int, consumed: seq<Frame>)
    requires Ticketed(tickets, refusals, decided, consumed) && SameTickets(tickets, tickets')
    ensures Ticketed(tickets', refusals, decided, consumed)
  {
  }

  lemma LongerKeepsTicketed(tickets: map<Ticket, Serve>, refusals: map<Ticket, Error>, decided: int, decided': int,
                            consumed: seq<Frame>, f: Frame)
    requires Ticketed(tickets, refusals, decided, consumed) && decided <= decided' <= |consumed| + 1
    ensures Ticketed(tickets, refusals, decided', consumed + [f])
  {
  }

  lemma CancelKeepsTickets(v: Serving, t: Ticket)
    ensures SameTickets(v.tickets, CancelTicket(v, t).tickets)
    ensures CancelTicket(v, t) == v.(tickets := CancelTicket(v, t).tickets)
  {
  }

  lemma EnderKeepsIds(l: Label, e: Engine, e': Engine)
    requires IdInv(e) && EnderStep(l, e, e')
    ensures IdInv(e')
  {
    if l.EndCancel? { CancelKeepsTickets(e.serving, l.ticket); }
    assert SameTickets(e.serving.tickets, e'.serving.tickets);
    SameTicketsKeepInbound(e.role, e.reg.inflight, e'.reg.inflight, e.serving.tickets, e'.serving.tickets,
                           e.serving.served);
    SameTicketsKeepTicketed(e.serving.tickets, e'.serving.tickets, e.serving.refusals,
                            Decided(e.reader, e.net.consumed), e.net.consumed);
    hide KnownIds, OpensOnce, ReaderScope, CancelTicket, Ticketed, Inbound, SameTickets;
  }

  // ------------------------------------------------------------ reader

  /** dispatch only takes things out of the registries and at most cancels one ticket. */
  lemma DispatchShrinks(e: Engine, f: Frame)
    ensures var d := Dispatch(e, f);
            && d.reg.calls <= e.reg.calls && d.reg.opens <= e.reg.opens && d.reg.streams <= e.reg.streams
            && (forall id :: id in d.reg.inflight ==> id in e.reg.inflight && d.reg.inflight[id] == e.reg.inflight[id])
            && d.serving == e.serving.(tickets := d.serving.tickets)
            && SameTickets(e.serving.tickets, d.serving.tickets)
            && d == e.(reg := d.reg, serving := d.serving, reader := d.reader)
  {
    DispatchTakesOut(e, f);
    DispatchKeepsTickets(e, f);
    hide Dispatch, SameTickets;
  }

  lemma DispatchTakesOut(e: Engine, f: Frame)
    ensures var d := Dispatch(e, f);
            && d.reg.calls <= e.reg.calls && d.reg.opens <= e.reg.opens && d.reg.streams <= e.reg.streams
            && (forall id :: id in d.reg.inflight ==> id in e.reg.inflight && d.reg.inflight[id] == e.reg.inflight[id])
            && d == e.(reg := d.reg, serving := d.serving, reader := d.reader)
  {
    hide CancelTicket, Owns, SettleCall, SettleOpen;
  }

  lemma DispatchKeepsTickets(e: Engine, f: Frame)
    ensures var d := Dispatch(e, f);
            d.serving == e.serving.(tickets := d.serving.tickets) && SameTickets(e.serving.tickets, d.serving.tickets)
  {
    if !f.CloseSession? && f.id in e.reg.inflight {
      CancelKeepsTickets(e.serving, e.reg.inflight[f.id]);
    }
    assert SameTickets(e.serving.tickets, e.serving.tickets);
    hide CancelTicket, Owns, SettleCall, SettleOpen, SameTickets, Remove;
  }

  lemma DispatchScopes(e: Engine, f: Frame)
    requires e.reader == Idle
    ensures ReaderScope(e.role, Dispatch(e, f).reader, e.net.consumed + [f])
    ensures !Dispatch(e, f).reader.Acking? && !Dispatch(e, f).reader.Refusing?
  {
    hide CancelTicket, Owns, SettleCall, SettleOpen;
  }

  lemma ConsumeKeepsIds(f: Frame, e: Engine, e': Engine)
    requires IdInv(e) && ReaderStep(Consume(f), e, e')
    ensures IdInv(e')
  {
    DispatchShrinks(e, f);
    DispatchScopes(e, f);
    hide Dispatch, KnownIds, OpensOnce, ReaderScope, SameTickets;
    var v, v', seen := e.serving, e'.serving, e.net.consumed;
    SameTicketsKeepInbound(e.role, e.reg.inflight, e'.reg.inflight, v.tickets, v'.tickets, v.served);
    SameTicketsKeepTicketed(v.tickets, v'.tickets, v.refusals, |seen|, seen);
    LongerKeepsTicketed(v'.tickets, v'.refusals, |seen|, Decided(e'.reader, e'.net.consumed), seen, f);
    hide Ticketed, Inbound;
  }

  lemma AdmitKeepsInbound(role: Role, inflight: map<Id, Ticket>, tickets: map<Ticket, Serve>, served: set<Id>,
                          t: Ticket, s: Serve)
    requires Inbound(role, inflight, tickets, served) && Foreign(role, s.id) && t !in tickets
    ensures Inbound(role, inflight[s.id := t], tickets[t := s], served)
  {
    hide Owns;
  }

  lemma AdmitKeepsTicketed(tickets: map<Ticket, Serve>, refusals: map<Ticket, Error>, t: Ticket, consumed: seq<Frame>,
                           s: Serve)
    requires Ticketed(tickets, refusals, t, consumed) && t < |consumed| && consumed[t] == OpenCall(s.id, Some(s.call))
    ensures Ticketed(tickets[t := s], refusals, t + 1, consumed) && t !in tickets
  {
  }

  lemma AdmitCallKeepsIds(e: Engine, e': Engine)
    requires IdInv(e) && ReaderStep(AdmitCall, e, e')
    ensures IdInv(e')
  {
    var v, t: Ticket := e.serving, |e.net.consumed| - 1;
    AdmitKeepsTicketed(v.tickets, v.refusals, t, e.net.consumed, e'.serving.tickets[t]);
    AdmitKeepsInbound(e.role, e.reg.inflight, v.tickets, v.served, t, e'.serving.tickets[t]);
    hide KnownIds, OpensOnce, Owns, Ticketed, Inbound, Filed;
  }

  lemma AdmitStreamKeepsIds(e: Engine, e': Engine)
    requires IdInv(e) && ReaderStep(AdmitStream, e, e')
    ensures IdInv(e')
  {
    hide KnownIds, OpensOnce, Owns;
  }

  lemma RefuseKeepsIds(l: Label, e: Engine, e': Engine)
    requires IdInv(e) && ReaderStep(l, e, e') && l.Refuse?
    ensures IdInv(e')
  {
    hide KnownIds, OpensOnce, Owns, Filed, Inbound, RefusalFits, StatusOf;
  }

  lemma AnswerKeepsIds(l: Label, e: Engine, e': Engine)
    requires IdInv(e) && ReaderStep(l, e, e') && !l.Consume? && !l.Refuse? && !l.AdmitCall? && !l.AdmitStream?
    ensures IdInv(e')
  {
    if l.RefuseWrite? && l.ok {
      EmitKeepsOpensOnce(e.callers.requests, e.net.emitted, StreamEnd(e.reader.id, EndBody(e.reader.code)));
    }
    if l.AckWrite? && l.ok {
      EmitKeepsOpensOnce(e.callers.requests, e.net.emitted, StreamAck(e.reader.id));
    }
    hide KnownIds, OpensOnce, Owns, Ticketed, Inbound;
  }

  lemma ReaderKeepsIds(l: Label, e: Engine, e': Engine)
    requires IdInv(e) && ReaderStep(l, e, e')
    ensures IdInv(e')
  {
    hide IdInv;
    if l.Consume? { ConsumeKeepsIds(l.frame, e, e'); }
    else if l.Refuse? { RefuseKeepsIds(l, e, e'); }
    else if l.AdmitCall? { AdmitCallKeepsIds(e, e'); }
    else if l.AdmitStream? { AdmitStreamKeepsIds(e, e'); }
    else { AnswerKeepsIds(l, e, e'); }
  }

  // ------------------------------------------------------------ serving goroutines

  lemma ServingKeepsIds(l: Label, e: Engine, e': Engine)
    requires IdInv(e) && ServingStep(l, e, e')
    ensures IdInv(e')
  {
    if l.Reply? && l.ok {
      EmitKeepsOpensOnce(e.callers.requests, e.net.emitted,
                         ReplyFrame(e.serving.tickets[l.ticket].id, e.serving.tickets[l.ticket].phase.outcome));
    }
    if l.EmitStream? { EmitKeepsOpensOnce(e.callers.requests, e.net.emitted, l.frame); }
    ServingKeepsTickets(l, e, e');
    hide KnownIds, OpensOnce, ReaderScope, Ticketed, Inbound, SameTickets;
    SameTicketsKeepInbound(e.role, e.reg.inflight, e'.reg.inflight, e.serving.tickets, e'.serving.tickets,
                           e.serving.served);
    SameTicketsKeepTicketed(e.serving.tickets, e'.serving.tickets, e.serving.refusals,
                            Decided(e.reader, e.net.consumed), e.net.consumed);
  }

  lemma ServingKeepsTickets(l: Label, e: Engine, e': Engine)
    requires ServingStep(l, e, e')
    ensures SameTickets(e.serving.tickets, e'.serving.tickets)
  {
    hide ReplyFrame;
  }

  // ------------------------------------------------------------ every run

  lemma StepKeepsIds(l: Label, e: Engine, e': Engine)
    requires IdInv(e) && Step(l, e, e') && e'.callers.issued <= ID_PERIOD
    ensures IdInv(e')
  {
    hide IdInv;
    if CallerStep(l, e, e') { CallerKeepsIds(l, e, e'); }
    else if EnderStep(l, e, e') { EnderKeepsIds(l, e, e'); }
    else if ReaderStep(l, e, e') { ReaderKeepsIds(l, e, e'); }
    else { ServingKeepsIds(l, e, e'); }
  }

  /** Identifiers and frames are only ever added, and only Consume takes a frame. */
  ghost predicate KeepsLogs(l: Label, e: Engine, e': Engine) {
    && e.callers.issued <= e'.callers.issued && e'.role == e.role && e'.remote == e.remote
    && e.net.emitted <= e'.net.emitted
    && e'.net.consumed == if l.Consume? then e.net.consumed + [l.frame] else e.net.consumed
  }

  lemma CallerKeepsLogs(l: Label, e: Engine, e': Engine)
    requires CallerStep(l, e, e')
    ensures KeepsLogs(l, e, e')
  {
    hide AllocatedId, OpenFrameOf;
  }

  lemma ReaderKeepsLogs(l: Label, e: Engine, e': Engine)
    requires ReaderStep(l, e, e')
    ensures KeepsLogs(l, e, e')
  {
    if l.Consume? { DispatchTakesOut(e, l.frame); }
    hide Dispatch, RefusalFits, StatusOf;
  }

  lemma EnderKeepsLogs(l: Label, e: Engine, e': Engine)
    requires EnderStep(l, e, e') || ServingStep(l, e, e')
    ensures KeepsLogs(l, e, e')
  {
    hide Swap, CancelTicket, ReplyFrame;
  }

  lemma StepIssues(l: Label, e: Engine, e': Engine)
    requires Step(l, e, e')
    ensures KeepsLogs(l, e, e')
  {
    hide KeepsLogs, CallerStep, EnderStep, ReaderStep, ServingStep;
    if CallerStep(l, e, e') { CallerKeepsLogs(l, e, e'); }
    else if ReaderStep(l, e, e') { ReaderKeepsLogs(l, e, e'); }
    else { EnderKeepsLogs(l, e, e'); }
  }

  lemma NewEngineHasIds(e: Engine)
    requires Init(e)
    ensures IdInv(e)
  {
  }

  lemma {:induction false} RunKeepsIds(run: seq<Engine>, labels: seq<Label>, n: nat)
    requires IsRun(run, labels) && n < |run| && run[n].callers.issued <= ID_PERIOD
    ensures IdInv(run[n])
    decreases n
  {
    hide IdInv, Step, Init;
    if n == 0 {
      NewEngineHasIds(run[0]);
    } else {
      assert Step(labels[n - 1], run[n - 1], run[n - 1 + 1]);
      StepIssues(labels[n - 1], run[n - 1], run[n]);
      RunKeepsIds(run, labels, n - 1);
      StepKeepsIds(labels[n - 1], run[n - 1], run[n]);
    }
  }

  // ------------------------------------------------------------ theorems

  /** No identifier is opened twice, whatever the peer sends. */
  ghost predicate IdsAreSafe(e: Engine) {
    && (forall id :: id in e.reg.calls + e.reg.opens ==> Owns(e.role, id))
    && e.reg.calls !! e.reg.opens
    && e.reg.calls !! e.reg.streams
    && (forall id :: id in e.reg.inflight ==> Foreign(e.role, id))
    && (forall i, j :: 0 <= i < j < |e.net.emitted| && IsOpen(e.net.emitted[i]) && IsOpen(e.net.emitted[j]) ==>
          e.net.emitted[i].id != e.net.emitted[j].id)
  }

  lemma IdInvIsSafe(e: Engine)
    requires IdInv(e)
    ensures IdsAreSafe(e)
  {
    forall id | id in e.callers.requests ensures Owns(e.role, id) {
      KnownIdsAreOwned(e.role, e.callers.issued, e.callers.requests, id);
    }
    hide Owns, KnownIds, ReaderScope;
  }

  /** Holds for every endpoint that has allocated fewer identifiers than the counter can tell apart. */
  lemma ReachableIdsAreSafe(e: Engine)
    requires Reachable(e) && e.callers.issued <= ID_PERIOD
    ensures IdsAreSafe(e)
  {
    var run, labels :| IsRun(run, labels) && run[|run| - 1] == e;
    RunKeepsIds(run, labels, |run| - 1);
    hide IdsAreSafe, IdInv;
    IdInvIsSafe(e);
  }

  /** What the session holds for one identifier: registrations, inbound calls, and its outcome channel. */
  ghost predicate SameFor(k: Id, e: Engine, e': Engine) {
    && (k in e.reg.calls <==> k in e'.reg.calls)
    && (k in e.reg.opens <==> k in e'.reg.opens)
    && (k in e.reg.streams <==> k in e'.reg.streams)
    && (k in e.reg.inflight <==> k in e'.reg.inflight)
    && (k in e.reg.inflight ==> e.reg.inflight[k] == e'.reg.inflight[k])
    && (k in e.serving.served <==> k in e'.serving.served)
    && (forall t :: t in e.serving.tickets && e.serving.tickets[t].id == k ==>
          t in e'.serving.tickets && e'.serving.tickets[t] == e.serving.tickets[t])
    && SentOn(e.callers.sent, k) == SentOn(e'.callers.sent, k)
    && e'.callers.requests == e.callers.requests
  }

  lemma DispatchIsLocal(e: Engine, e': Engine, f: Frame, k: Id)
    requires IdInv(e) && ReaderStep(Consume(f), e, e')
    requires f.CloseSession? || k != f.id
    ensures SameFor(k, e, e') && e'.enders == e.enders
    ensures f.CloseSession? ==> e'.reader.Failing?
  {
    DispatchTakesOut(e, f);
    DispatchKeepsOthersRegistered(e, f, k);
    assert Inbound(e.role, e.reg.inflight, e.serving.tickets, e.serving.served) by {
      hide Inbound, KnownIds, Filed, OpensOnce, Ticketed;
    }
    DispatchKeepsOthersTickets(e, f, k);
    hide IdInv, Dispatch;
  }

  lemma DispatchKeepsOthersRegistered(e: Engine, f: Frame, k: Id)
    requires f.CloseSession? || k != f.id
    ensures var d := Dispatch(e, f);
            && (k in e.reg.calls <==> k in d.reg.calls) && (k in e.reg.opens <==> k in d.reg.opens)
            && (k in e.reg.streams <==> k in d.reg.streams) && (k in e.reg.inflight <==> k in d.reg.inflight)
            && (f.CloseSession? ==> d.reader.Failing?)
  {
    hide CancelTicket, Owns, SettleCall, SettleOpen;
  }

  lemma DispatchKeepsOthersTickets(e: Engine, f: Frame, k: Id)
    requires Inbound(e.role, e.reg.inflight, e.serving.tickets, e.serving.served) && (f.CloseSession? || k != f.id)
    ensures var d := Dispatch(e, f);
            && d.serving.served == e.serving.served
            && forall t :: t in e.serving.tickets && e.serving.tickets[t].id == k ==>
                 t in d.serving.tickets && d.serving.tickets[t] == e.serving.tickets[t]
  {
    hide Owns, SettleCall, SettleOpen, Foreign;
  }

  lemma AnswerIsLocal(l: Label, e: Engine, e': Engine, f: Frame, k: Id)
    requires IdInv(e) && ReaderStep(l, e, e') && !l.Consume? && !l.ReadFail?
    requires LastFrame(e.net) == Some(f) && (f.CloseSession? || k != f.id)
    ensures SameFor(k, e, e') && e'.enders == e.enders
  {
    hide KnownIds, OpensOnce, Owns, Filed, Inbound, RefusalFits;
  }

  /**
   Everything the reader does for a frame, from taking it to answering it, changes nothing of any
   other identifier and no caller's request, or else it is the step that ends the session.
   */
  lemma FramesAreLocal(l: Label, e: Engine, e': Engine, f: Frame, k: Id)
    requires Reachable(e) && e.callers.issued <= ID_PERIOD
    requires ReaderStep(l, e, e') && LastFrame(e'.net) == Some(f) && (f.CloseSession? || k != f.id)
    ensures (SameFor(k, e, e') && e'.enders == e.enders) || (l.ReadFail? && e'.reader == Halted)
  {
    var run, labels :| IsRun(run, labels) && run[|run| - 1] == e;
    RunKeepsIds(run, labels, |run| - 1);
    hide IdInv, SameFor, Dispatch;
    if l.Consume? {
      DispatchIsLocal(e, e', l.frame, k);
    } else if !l.ReadFail? {
      AnswerIsLocal(l, e, e', f, k);
    }
  }
}
