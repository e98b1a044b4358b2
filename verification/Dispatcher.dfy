/**
 dispatch and dispatchScoped as the code runs them, on the session object: each lookup takes the
 lock on its own. The step system uses the function this method is proved against.
 */
module Dispatcher {
  import opened Status
  import opened Session
  import opened Engine
  import opened CallSettling

  /** The reader settles the request with what the frame tells, and fails exactly on one that completes nothing. */
  ghost predicate Settles(kind: Kind, f: Frame, next: Reader) {
    && f != CloseSession && next.Settling? && next.id == f.id
    && Told(kind, f, next.outcome) && (next.fails <==> !Completes(kind, f))
  }

  lemma DispatchSettles(e: Engine, f: Frame, kind: Kind)
    requires f != CloseSession && f.id != 0 && !f.OpenCall? && !f.OpenStream? && e.reader == Idle
    ensures kind.CallKind? && f.id in e.reg.calls ==> Settles(kind, f, Dispatch(e, f).reader)
    ensures kind.StreamKind? && f.id !in e.reg.calls && f.id in e.reg.opens ==>
              Settles(kind, f, Dispatch(e, f).reader)
  {
    MeaningIsTold(kind, f);
    if f.StreamEnd? { OnlyOkDecodesToSuccess(f.body); }
    hide Told, Conveys, Err, OnlyIs;
  }

  /** Routes one frame; gives what the reader does next and the inbound call to cancel, if any. */
  method DispatchFrame(session: SessionObject, f: Frame, ghost e: Engine) returns (next: Reader, target: Option<Ticket>)
    requires e.role == session.role && e.reg == session.State() && e.reader == Idle
    modifies session`calls, session`opens, session`streams, session`inflight
    ensures var d := Dispatch(e, f);
            && d.reg == session.State() && d.reader == next
            && d.serving == if target.Some? then CancelTicket(e.serving, target.value) else e.serving
    ensures var before, after := old(session.State()), session.State();
            if f == CloseSession then after == before && next == Failing(Of(EndOfFile)) && target == None
            else if f.id == 0 then after == before && next == Failing(Of(ProtocolViolation)) && target == None
            else if f.OpenCall? || f.OpenStream? then
              && after == before && target == None
              && next == if Owns(session.role, f.id) then Failing(Of(ProtocolViolation)) else Deciding
            else if f.id in before.calls then
              && after == before.(calls := before.calls - {f.id}) && target == None
              && forall kind: Kind :: kind.CallKind? ==> Settles(kind, f, next)
            else if f.id in before.opens then
              && after == before.(opens := before.opens - {f.id}) && target == None
              && forall kind: Kind :: kind.StreamKind? ==> Settles(kind, f, next)
            else if f.StreamEnd? && f.id in before.streams then
              after == before.(streams := before.streams - {f.id}) && next == Idle && target == None
            else if f.StreamEnd? && f.id in before.inflight then
              && after == before.(inflight := before.inflight - {f.id}) && next == Idle
              && target == Some(before.inflight[f.id])
            else after == before && next == Idle && target == None
  {
    hide Settles;
    next, target := Idle, None;
    if f.CloseSession? { return Failing(Of(EndOfFile)), None; }
    if f.id == 0 { return Failing(Of(ProtocolViolation)), None; }
    if f.OpenCall? || f.OpenStream? {
      next := if Owns(session.role, f.id) then Failing(Of(ProtocolViolation)) else Deciding;
      return;
    }
    forall kind: Kind
      ensures kind.CallKind? && f.id in e.reg.calls ==> Settles(kind, f, Dispatch(e, f).reader)
      ensures kind.StreamKind? && f.id !in e.reg.calls && f.id in e.reg.opens ==>
                Settles(kind, f, Dispatch(e, f).reader)
    {
      DispatchSettles(e, f, kind);
    }
    var pending := session.TakeCall(f.id);
    if pending {
      var (outcome, fails) := SettleCall(f);
      return Settling(f.id, outcome, fails), None;
    }
    var accepted := session.TakeOpen(f.id);
    if accepted {
      var (outcome, fails) := SettleOpen(f);
      return Settling(f.id, outcome, fails), None;
    }
    assert session.State() == e.reg;
    if f.StreamEnd? {
      var live := session.TakeStream(f.id);
      if !live {
        target := session.CancelInflight(f.id);
      }
    }
  }
}
