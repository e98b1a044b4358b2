/**
 Cancelling an inbound call: once the reader has taken StreamEnd for a call from a peer that
 never reuses an identifier, the context that call runs under is cancelled, whatever its
 goroutine and `end` were doing meanwhile; and no other call's context is.
 */
module Cancellation {
  import opened Status
  import opened Session
  import opened Engine
  import opened IdSpace
  import opened CallServing

  /** The peer opens each identifier at most once. */
  ghost predicate OpensDistinct(frames: seq<Frame>) {
    forall i, j :: 0 <= i < j < |frames| && IsOpen(frames[i]) && IsOpen(frames[j]) ==> frames[i].id != frames[j].id
  }

  /** A call that nobody has cancelled can be found under its identifier. */
  ghost predicate Tracked(ended: bool, inflight: map<Id, Ticket>, tickets: map<Ticket, Serve>) {
    forall t :: t in tickets ==>
      && (ended || tickets[t].cancelled || (tickets[t].id in inflight && inflight[tickets[t].id] == t))
      && (tickets[t].phase.Cancelled? || tickets[t].phase.Released? ==> tickets[t].cancelled)
  }

  /** A call whose end the reader has taken is cancelled, by itself or with the whole session. */
  ghost predicate Reached(ended: bool, tickets: map<Ticket, Serve>, consumed: seq<Frame>) {
    forall n, t :: 0 <= n < |consumed| && consumed[n].StreamEnd? &&
                   t < n && t in tickets && tickets[t].id == consumed[n].id ==>
      ended || tickets[t].cancelled
  }

  ghost predicate CancelInv(e: Engine) {
    && (e.enders != map[] ==> e.net.cancelled)
    && (OpensDistinct(e.net.consumed) ==>
          && Tracked(e.net.cancelled, e.reg.inflight, e.serving.tickets)
          && Reached(e.net.cancelled, e.serving.tickets, e.net.consumed))
  }

  lemma OpenedOnce(frames: seq<Frame>, i: nat, j: nat)
    requires OpensDistinct(frames) && i < |frames| && j < |frames| && IsOpen(frames[i]) && IsOpen(frames[j])
    requires frames[i].id == frames[j].id
    ensures i == j
  {
  }

  lemma TicketsAreDistinct(e: Engine, t: Ticket, u: Ticket)
    requires IdInv(e) && OpensDistinct(e.net.consumed)
    requires t in e.serving.tickets && u in e.serving.tickets && e.serving.tickets[t].id == e.serving.tickets[u].id
    ensures t == u
  {
    hide KnownIds, OpensOnce, Inbound, ReaderScope, Filed;
    assert IsOpen(e.net.consumed[t]) && IsOpen(e.net.consumed[u]);
  }

  /** The identifier of an inbound call names nothing else here. */
  lemma TicketIdIsOnlyInflight(e: Engine, t: Ticket)
    requires IdInv(e) && ServingInv(e) && OpensDistinct(e.net.consumed) && t in e.serving.tickets
    ensures var id := e.serving.tickets[t].id;
            id != 0 && !Owns(e.role, id) && id !in e.reg.calls && id !in e.reg.opens && id !in e.reg.streams
  {
    hide AllExplained, RunsOnce, ReaderExplained, OpensOnce, ReaderScope;
    var id := e.serving.tickets[t].id;
    if id in e.callers.requests {
      KnownIdsAreOwned(e.role, e.callers.issued, e.callers.requests, id);
      assert false;
    }
    if id in e.serving.served {
      var s :| 0 <= s < |e.net.consumed| && e.net.consumed[s].OpenStream? && e.net.consumed[s].id == id;
      OpenedOnce(e.net.consumed, s, t);
      assert false;
    }
  }

  // ------------------------------------------------------------ steps

  /** More calls cancelled and fewer registrations of calls that are. */
  lemma CancellingKeeps(ended: bool, ended': bool, inflight: map<Id, Ticket>, inflight': map<Id, Ticket>,
                        tickets: map<Ticket, Serve>, tickets': map<Ticket, Serve>, consumed: seq<Frame>)
    requires Tracked(ended, inflight, tickets) && Reached(ended, tickets, consumed)
    requires SameTickets(tickets, tickets') && (ended ==> ended')
    requires forall t :: t in tickets ==>
               && (tickets[t].cancelled ==> tickets'[t].cancelled)
               && (tickets'[t].phase == tickets[t].phase || tickets'[t].cancelled
                   || !(tickets'[t].phase.Cancelled? || tickets'[t].phase.Released?))
    requires forall t :: t in tickets && tickets[t].id in inflight && inflight[tickets[t].id] == t ==>
               || ended' || tickets'[t].cancelled
               || (tickets[t].id in inflight' && inflight'[tickets[t].id] == t)
    ensures Tracked(ended', inflight', tickets') && Reached(ended', tickets', consumed)
  {
    SameTicketIds(tickets, tickets');
    hide SameTickets;
  }

  lemma SameTicketIds(tickets: map<Ticket, Serve>, tickets': map<Ticket, Serve>)
    requires SameTickets(tickets, tickets')
    ensures forall t :: t in tickets' <==> t in tickets
    ensures forall t :: t in tickets ==> tickets'[t].id == tickets[t].id
  {
  }

  lemma EnderKeepsCancel(l: Label, e: Engine, e': Engine)
    requires CancelInv(e) && EnderStep(l, e, e')
    ensures CancelInv(e')
  {
    if l.EndCancel? { CancelKeepsTickets(e.serving, l.ticket); }
    if OpensDistinct(e.net.consumed) {
      CancellingKeeps(e.net.cancelled, e'.net.cancelled, e.reg.inflight, e'.reg.inflight,
                      e.serving.tickets, e'.serving.tickets, e.net.consumed);
    }
    hide Tracked, Reached, OpensDistinct, SameTickets;
  }

  lemma DispatchCancels(e: Engine, f: Frame)
    requires f.StreamEnd? && f.id != 0 && f.id !in e.reg.calls && f.id !in e.reg.opens && f.id !in e.reg.streams
    ensures Dispatch(e, f) ==
            if f.id in e.reg.inflight then
              e.(serving := CancelTicket(e.serving, e.reg.inflight[f.id]),
                 reg := e.reg.(inflight := Remove(e.reg.inflight, f.id)))
            else e
  {
  }

  /** A dispatched frame drops no registration but that of the call it cancels. */
  lemma DispatchCancelsWhatItDrops(e: Engine, f: Frame, t: Ticket)
    requires t in e.serving.tickets && e.serving.tickets[t].id in e.reg.inflight &&
             e.reg.inflight[e.serving.tickets[t].id] == t
    ensures var d := Dispatch(e, f);
            && t in d.serving.tickets
            && (d.serving.tickets[t].cancelled
                || (e.serving.tickets[t].id in d.reg.inflight && d.reg.inflight[e.serving.tickets[t].id] == t))
  {
    hide SettleCall, SettleOpen, Owns;
  }

  lemma DispatchKeepsPhases(e: Engine, f: Frame)
    ensures var d := Dispatch(e, f);
            forall t :: t in e.serving.tickets ==>
              && t in d.serving.tickets && d.serving.tickets[t].phase == e.serving.tickets[t].phase
              && (e.serving.tickets[t].cancelled ==> d.serving.tickets[t].cancelled)
  {
    hide SettleCall, SettleOpen, Owns;
  }

  lemma EndReachesItsCall(e: Engine, f: Frame, t: Ticket)
    requires IdInv(e) && ServingInv(e) && OpensDistinct(e.net.consumed)
    requires Tracked(e.net.cancelled, e.reg.inflight, e.serving.tickets)
    requires f.StreamEnd? && t in e.serving.tickets && e.serving.tickets[t].id == f.id
    ensures e.net.cancelled || (t in Dispatch(e, f).serving.tickets && Dispatch(e, f).serving.tickets[t].cancelled)
  {
    TicketIdIsOnlyInflight(e, t);
    DispatchCancels(e, f);
    hide IdInv, ServingInv, OpensDistinct, Dispatch;
  }

  lemma LongerStaysDistinct(frames: seq<Frame>, f: Frame)
    requires OpensDistinct(frames + [f])
    ensures OpensDistinct(frames)
  {
    var longer := frames + [f];
    assert forall i :: 0 <= i < |frames| ==> longer[i] == frames[i];
  }

  lemma LongerKeepsReached(ended: bool, tickets: map<Ticket, Serve>, c: seq<Frame>, f: Frame)
    requires Reached(ended, tickets, c)
    requires forall t :: f.StreamEnd? && t in tickets && tickets[t].id == f.id ==> ended || tickets[t].cancelled
    ensures Reached(ended, tickets, c + [f])
  {
  }

  lemma DispatchKeepsTracked(e: Engine, f: Frame)
    requires Tracked(e.net.cancelled, e.reg.inflight, e.serving.tickets)
    requires Reached(e.net.cancelled, e.serving.tickets, e.net.consumed)
    ensures var d := Dispatch(e, f);
            && Tracked(e.net.cancelled, d.reg.inflight, d.serving.tickets)
            && Reached(e.net.cancelled, d.serving.tickets, e.net.consumed)
  {
    var d, v := Dispatch(e, f), e.serving;
    DispatchShrinks(e, f);
    DispatchKeepsPhases(e, f);
    hide Dispatch, Tracked, Reached;
    forall t | t in v.tickets && v.tickets[t].id in e.reg.inflight && e.reg.inflight[v.tickets[t].id] == t
      ensures d.serving.tickets[t].cancelled ||
              (v.tickets[t].id in d.reg.inflight && d.reg.inflight[v.tickets[t].id] == t)
    {
      DispatchCancelsWhatItDrops(e, f, t);
    }
    CancellingKeeps(e.net.cancelled, e.net.cancelled, e.reg.inflight, d.reg.inflight, v.tickets, d.serving.tickets,
                    e.net.consumed);
  }

  lemma ConsumeKeepsCancel(f: Frame, e: Engine, e': Engine)
    requires CancelInv(e) && IdInv(e) && ServingInv(e) && ReaderStep(Consume(f), e, e')
    ensures CancelInv(e')
  {
    var v, v', c := e.serving, e'.serving, e.net.consumed;
    DispatchShrinks(e, f);
    SameTicketIds(v.tickets, v'.tickets);
    hide Dispatch, OpensDistinct, IdInv, ServingInv, Tracked, Reached, SameTickets;
    if OpensDistinct(c + [f]) {
      LongerStaysDistinct(c, f);
      DispatchKeepsTracked(e, f);
      forall t | f.StreamEnd? && t in v'.tickets && v'.tickets[t].id == f.id
        ensures e.net.cancelled || v'.tickets[t].cancelled
      {
        EndReachesItsCall(e, f, t);
      }
      LongerKeepsReached(e.net.cancelled, v'.tickets, c, f);
    }
  }

  lemma AdmitKeepsTracked(ended: bool, inflight: map<Id, Ticket>, tickets: map<Ticket, Serve>, consumed: seq<Frame>,
                          t: Ticket, s: Serve)
    requires Tracked(ended, inflight, tickets) && Reached(ended, tickets, consumed)
    requires t + 1 == |consumed| && s.phase == Running && forall u :: u in tickets ==> tickets[u].id != s.id
    ensures Tracked(ended, inflight[s.id := t], tickets[t := s]) && Reached(ended, tickets[t := s], consumed)
  {
  }

  lemma AdmitKeepsCancel(e: Engine, e': Engine)
    requires CancelInv(e) && IdInv(e) && ReaderStep(AdmitCall, e, e')
    ensures CancelInv(e')
  {
    var v, c, t: Ticket := e.serving, e.net.consumed, |e.net.consumed| - 1;
    AdmitKeepsTicketed(v.tickets, v.refusals, t, c, e'.serving.tickets[t]);
    if OpensDistinct(c) {
      hide OpensDistinct, Tracked, Reached;
      forall u | u in v.tickets ensures v.tickets[u].id != e'.serving.tickets[t].id {
        assert c[u] == OpenCall(v.tickets[u].id, Some(v.tickets[u].call)) && u < t;
        if v.tickets[u].id == e'.serving.tickets[t].id { OpenedOnce(c, u, t); assert false; }
      }
      hide IdInv;
      AdmitKeepsTracked(e.net.cancelled, e.reg.inflight, v.tickets, c, t, e'.serving.tickets[t]);
    }
    hide IdInv, OpensDistinct, Tracked, Reached;
  }

  lemma ReleaseKeepsTracked(ended: bool, inflight: map<Id, Ticket>, tickets: map<Ticket, Serve>, consumed: seq<Frame>,
                            t: Ticket, x: Serve)
    requires Tracked(ended, inflight, tickets) && Reached(ended, tickets, consumed)
    requires t in tickets && tickets[t].phase == Cancelled && x == tickets[t].(phase := Released)
    requires forall u :: u in tickets && tickets[u].id == x.id ==> u == t
    ensures Tracked(ended, Remove(inflight, x.id), tickets[t := x]) && Reached(ended, tickets[t := x], consumed)
  {
  }

  lemma ReleaseKeepsCancel(l: Label, e: Engine, e': Engine)
    requires CancelInv(e) && IdInv(e) && ServingStep(l, e, e') && l.ReleaseInflight?
    ensures CancelInv(e')
  {
    hide IdInv, OpensDistinct, Reached, Tracked;
    var v, t := e.serving, l.ticket;
    if OpensDistinct(e.net.consumed) {
      forall u | u in v.tickets && v.tickets[u].id == v.tickets[t].id ensures u == t {
        TicketsAreDistinct(e, t, u);
      }
      ReleaseKeepsTracked(e.net.cancelled, e.reg.inflight, v.tickets, e.net.consumed, t, e'.serving.tickets[t]);
    }
  }

  lemma ServingKeepsCancel(l: Label, e: Engine, e': Engine)
    requires CancelInv(e) && ServingStep(l, e, e') && !l.ReleaseInflight?
    ensures CancelInv(e')
  {
    if OpensDistinct(e.net.consumed) {
      CancellingKeeps(e.net.cancelled, e'.net.cancelled, e.reg.inflight, e'.reg.inflight,
                      e.serving.tickets, e'.serving.tickets, e.net.consumed);
    }
    hide OpensDistinct, Reached, Tracked;
  }

  lemma OtherKeepsCancel(l: Label, e: Engine, e': Engine)
    requires CancelInv(e) && (CallerStep(l, e, e') || (ReaderStep(l, e, e') && !l.Consume? && !l.AdmitCall?))
    ensures CancelInv(e')
  {
    hide OpensDistinct, AllocatedId, RefusalFits;
    if OpensDistinct(e.net.consumed) {
      CancellingKeeps(e.net.cancelled, e'.net.cancelled, e.reg.inflight, e'.reg.inflight,
                      e.serving.tickets, e'.serving.tickets, e.net.consumed);
    }
    hide Reached, Tracked;
  }

  lemma StepKeepsCancel(l: Label, e: Engine, e': Engine)
    requires CancelInv(e) && IdInv(e) && ServingInv(e) && Step(l, e, e')
    ensures CancelInv(e')
  {
    hide CancelInv, IdInv, ServingInv;
    if EnderStep(l, e, e') { EnderKeepsCancel(l, e, e'); }
    else if l.Consume? { ConsumeKeepsCancel(l.frame, e, e'); }
    else if l.AdmitCall? { AdmitKeepsCancel(e, e'); }
    else if l.ReleaseInflight? { ReleaseKeepsCancel(l, e, e'); }
    else if ServingStep(l, e, e') { ServingKeepsCancel(l, e, e'); }
    else { OtherKeepsCancel(l, e, e'); }
  }

  // ------------------------------------------------------------ exactness

  /** A dispatched frame cancels no call but one of its own identifier, and never the session. */
  lemma DispatchCancelsOnlyItsTarget(e: Engine, e': Engine, f: Frame, t: Ticket)
    requires IdInv(e) && ReaderStep(Consume(f), e, e')
    requires t in e.serving.tickets && !e.serving.tickets[t].cancelled
    ensures t in e'.serving.tickets && e'.net.cancelled == e.net.cancelled
    ensures e'.serving.tickets[t].cancelled ==> f.StreamEnd? && f.id == e.serving.tickets[t].id
  {
    hide KnownIds, OpensOnce, Filed, Ticketed, ReaderScope, SettleCall, SettleOpen, Owns;
  }
}
