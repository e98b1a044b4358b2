/**
 No waiter is stranded and none is settled twice, whatever the interleaving of callers, the
 reader and any number of concurrent `end` invocations, and whatever frames arrive.
 */
module Waiters {
  import opened Status
  import opened Session
  import opened Engine
  import opened IdSpace

  // ------------------------------------------------------------ ownership

  predicate Started(requests: map<Id, Request>, id: Id) {
    id in requests && requests[id].phase != Allocated
  }

  /** A waiter that exists and has not been sent anything. */
  predicate Unsettled(requests: map<Id, Request>, sent: map<Id, seq<Settlement>>, id: Id) {
    Started(requests, id) && SentOn(sent, id) == []
  }

  ghost predicate AllUnsettled(ids: set<Id>, requests: map<Id, Request>, sent: map<Id, seq<Settlement>>) {
    forall id :: id in ids ==> Unsettled(requests, sent, id)
  }

  /**
   Each waiter has at most one owner: a registry, the reader's hand, or one invocation of end;
   and while it has an owner nothing was sent to it.
   */
  ghost predicate Owned(pending: set<Id>, hand: set<Id>, enders: map<nat, Ender>,
                        requests: map<Id, Request>, sent: map<Id, seq<Settlement>>)
  {
    && pending !! hand
    && (forall t :: t in enders ==> Held(enders[t]) !! pending && Held(enders[t]) !! hand)
    && (forall t, u :: t in enders && u in enders && t != u ==> Held(enders[t]) !! Held(enders[u]))
    && AllUnsettled(pending, requests, sent) && AllUnsettled(hand, requests, sent)
    && (forall t :: t in enders ==> AllUnsettled(Held(enders[t]), requests, sent))
    && (forall id :: SentOn(sent, id) != [] ==> Started(requests, id) && |SentOn(sent, id)| == 1)
  }

  function Pending(r: Registry): set<Id> {
    r.calls + r.opens
  }

  ghost predicate OwnedIn(e: Engine) {
    Owned(Pending(e.reg), InHand(e.reader), e.enders, e.callers.requests, e.callers.sent)
  }

  /** A waiter that registered and has not left is owned or settled. */
  ghost predicate Covered(id: Id, pending: set<Id>, hand: set<Id>, enders: map<nat, Ender>,
                          sent: map<Id, seq<Settlement>>)
  {
    id in pending || id in hand || SentOn(sent, id) != [] || exists t :: t in enders && id in Held(enders[t])
  }

  ghost predicate AllCovered(pending: set<Id>, hand: set<Id>, enders: map<nat, Ender>,
                             requests: map<Id, Request>, sent: map<Id, seq<Settlement>>)
  {
    forall id :: id in requests && (requests[id].phase == Registered || requests[id].phase == Waiting) ==>
      Covered(id, pending, hand, enders, sent)
  }

  ghost predicate CoveredIn(e: Engine) {
    AllCovered(Pending(e.reg), InHand(e.reader), e.enders, e.callers.requests, e.callers.sent)
  }

  /** An invocation of end that has closed the transport and not swapped the registries yet. */
  ghost predicate SwapComing(enders: map<nat, Ender>) {
    exists t :: t in enders && enders[t].EndClosed?
  }

  /** Close comes before swap: behind a closed transport, a written waiter is about to be collected. */
  ghost predicate ClosedMeansCollected(closed: bool, pending: set<Id>, enders: map<nat, Ender>,
                                       requests: map<Id, Request>)
  {
    closed ==>
      || SwapComing(enders)
      || forall id :: id in pending && id in requests ==> requests[id].phase != Waiting
  }

  ghost predicate CollectedIn(e: Engine) {
    ClosedMeansCollected(e.net.closed, Pending(e.reg), e.enders, e.callers.requests)
  }

  /** Every waiter settled by end is told the one recorded cause. */
  ghost predicate OneCause(ended: bool, terminal: Option<Error>, enders: map<nat, Ender>,
                           sent: map<Id, seq<Settlement>>)
  {
    && (ended <==> terminal.Some?)
    && (forall t :: t in enders && enders[t].EndSettling? ==> terminal == Some(enders[t].failure))
    && (forall id, i :: id in sent && 0 <= i < |sent[id]| && sent[id][i].source.FromEnd? ==>
          terminal.Some? && sent[id][i].outcome == Failed(terminal.value))
  }

  ghost predicate CauseIn(e: Engine) {
    OneCause(e.reg.ended, e.reg.terminal, e.enders, e.callers.sent)
  }

  ghost predicate WaiterInv(e: Engine) {
    && KnownIds(e.role, e.callers.issued, e.callers.requests)
    && OwnedIn(e) && CoveredIn(e) && CollectedIn(e) && CauseIn(e)
  }

  // ------------------------------------------------------------ callers

  lemma UpdateKeepsOwned(pending: set<Id>, hand: set<Id>, enders: map<nat, Ender>,
                         requests: map<Id, Request>, sent: map<Id, seq<Settlement>>, id: Id, r: Request)
    requires Owned(pending, hand, enders, requests, sent)
    requires r.phase != Allocated || id !in requests
    ensures Owned(pending, hand, enders, requests[id := r], sent)
  {
    var requests' := requests[id := r];
    assert forall x :: Started(requests, x) ==> Started(requests', x);
  }

  lemma UpdateKeepsCovered(pending: set<Id>, hand: set<Id>, enders: map<nat, Ender>,
                           requests: map<Id, Request>, sent: map<Id, seq<Settlement>>, id: Id, r: Request)
    requires AllCovered(pending, hand, enders, requests, sent)
    requires r.phase == Registered || r.phase == Waiting ==> Covered(id, pending, hand, enders, sent)
    ensures AllCovered(pending, hand, enders, requests[id := r], sent)
  {
    hide Covered;
  }

  lemma UpdateKeepsCollected(closed: bool, pending: set<Id>, enders: map<nat, Ender>, requests: map<Id, Request>,
                             id: Id, r: Request)
    requires ClosedMeansCollected(closed, pending, enders, requests)
    requires r.phase == Waiting ==> !closed
    ensures ClosedMeansCollected(closed, pending, enders, requests[id := r])
  {
    hide SwapComing;
  }

  lemma RegisterKeepsOwned(pending: set<Id>, hand: set<Id>, enders: map<nat, Ender>,
                           requests: map<Id, Request>, sent: map<Id, seq<Settlement>>, id: Id, r: Request)
    requires Owned(pending, hand, enders, requests, sent)
    requires id in requests && requests[id].phase == Allocated && r.phase == Registered
    ensures Owned(pending + {id}, hand, enders, requests[id := r], sent)
    ensures id !in pending
  {
    UpdateKeepsOwned(pending, hand, enders, requests, sent, id, r);
    assert !Started(requests, id);
  }

  /** Fewer pending waiters are still owned at most once. */
  lemma ForgetKeepsOwned(pending: set<Id>, pending': set<Id>, hand: set<Id>, enders: map<nat, Ender>,
                         requests: map<Id, Request>, sent: map<Id, seq<Settlement>>)
    requires Owned(pending, hand, enders, requests, sent) && pending' <= pending
    ensures Owned(pending', hand, enders, requests, sent)
  {
  }

  /** A request's goroutine moves on; `r` is its next value. */
  lemma MoveKeepsWaiters(e: Engine, e': Engine, id: Id, r: Request)
    requires WaiterInv(e) && Started(e.callers.requests, id)
    requires e'.callers == e.callers.(requests := e.callers.requests[id := r])
    requires e'.role == e.role && e'.reg == e.reg && e'.reader == e.reader && e'.enders == e.enders
    requires e'.net.closed == e.net.closed
    requires r.phase != Allocated && r.phase != Registered
    requires r.phase == Waiting ==> e.callers.requests[id].phase == Registered && !e.net.closed
    ensures WaiterInv(e')
  {
    var c := e.callers;
    UpdateKeepsKnownIds(e.role, c.issued, c.issued, c.requests, id, r);
    UpdateKeepsOwned(Pending(e.reg), InHand(e.reader), e.enders, c.requests, c.sent, id, r);
    UpdateKeepsCovered(Pending(e.reg), InHand(e.reader), e.enders, c.requests, c.sent, id, r);
    UpdateKeepsCollected(e.net.closed, Pending(e.reg), e.enders, c.requests, id, r);
    hide KnownIds, Owned, AllCovered, ClosedMeansCollected, OneCause;
  }

  lemma StartKeepsWaiters(e: Engine, e': Engine, kind: Kind)
    requires WaiterInv(e) && CallerStep(Start(kind), e, e') && e.callers.issued < ID_PERIOD
    ensures WaiterInv(e')
  {
    var c, r := e.callers, Request(kind, Allocated, None);
    var id := AllocatedId(e.role, c.issued);
    NextIdIsFresh(e.role, c.issued, c.requests);
    UpdateKeepsKnownIds(e.role, c.issued, c.issued + 1, c.requests, id, r);
    UpdateKeepsOwned(Pending(e.reg), InHand(e.reader), e.enders, c.requests, c.sent, id, r);
    UpdateKeepsCovered(Pending(e.reg), InHand(e.reader), e.enders, c.requests, c.sent, id, r);
    UpdateKeepsCollected(e.net.closed, Pending(e.reg), e.enders, c.requests, id, r);
    hide KnownIds, Owned, AllCovered, ClosedMeansCollected, OneCause, AllocatedId;
  }

  lemma RegisterKeepsWaiters(e: Engine, e': Engine, id: Id)
    requires WaiterInv(e) && CallerStep(Register(id), e, e')
    ensures WaiterInv(e')
  {
    var c, r := e.callers, e'.callers.requests[id];
    var before, after := Pending(e.reg), Pending(e'.reg);
    assert after == before + {id};
    UpdateKeepsKnownIds(e.role, c.issued, c.issued, c.requests, id, r);
    RegisterKeepsOwned(before, InHand(e.reader), e.enders, c.requests, c.sent, id, r);
    assert AllCovered(after, InHand(e.reader), e.enders, c.requests, c.sent);
    UpdateKeepsCovered(after, InHand(e.reader), e.enders, c.requests, c.sent, id, r);
    assert ClosedMeansCollected(e.net.closed, after, e.enders, c.requests);
    UpdateKeepsCollected(e.net.closed, after, e.enders, c.requests, id, r);
    hide KnownIds, Owned, AllCovered, ClosedMeansCollected, OneCause;
  }

  lemma LeaveKeepsWaiters(e: Engine, e': Engine, id: Id)
    requires WaiterInv(e) && CallerStep(Leave(id), e, e')
    ensures WaiterInv(e')
  {
    var c, r := e.callers, e'.callers.requests[id];
    var before, after := Pending(e.reg), Pending(e'.reg);
    assert after == before - {id};
    UpdateKeepsKnownIds(e.role, c.issued, c.issued, c.requests, id, r);
    UpdateKeepsOwned(before, InHand(e.reader), e.enders, c.requests, c.sent, id, r);
    ForgetKeepsOwned(before, after, InHand(e.reader), e.enders, c.requests[id := r], c.sent);
    assert AllCovered(after, InHand(e.reader), e.enders, c.requests[id := r], c.sent);
    UpdateKeepsCollected(e.net.closed, before, e.enders, c.requests, id, r);
    assert ClosedMeansCollected(e.net.closed, after, e.enders, c.requests[id := r]);
    hide KnownIds, Owned, AllCovered, ClosedMeansCollected, OneCause;
  }

  lemma CallerKeepsWaiters(l: Label, e: Engine, e': Engine)
    requires WaiterInv(e) && CallerStep(l, e, e') && e'.callers.issued <= ID_PERIOD
    ensures WaiterInv(e')
  {
    hide WaiterInv;
    match l
    case Start(kind) => StartKeepsWaiters(e, e', kind);
    case RegisterStream(_) => NeutralKeepsWaiters(e, e');
    case Register(id) => RegisterKeepsWaiters(e, e', id);
    case WriteOpen(id, ok) => MoveKeepsWaiters(e, e', id, e'.callers.requests[id]);
    case Receive(id) => MoveKeepsWaiters(e, e', id, e'.callers.requests[id]);
    case GiveUp(id) => MoveKeepsWaiters(e, e', id, e'.callers.requests[id]);
    case Notify(id, code, ok) => MoveKeepsWaiters(e, e', id, e'.callers.requests[id]);
    case Leave(id) => LeaveKeepsWaiters(e, e', id);
    case _ =>
  }

  // ---------------------------------------------------------------- end

  /** An invocation of end that holds no waiter may come, move on or go. */
  lemma SameHeldKeepsWaiting(pending: set<Id>, hand: set<Id>, enders: map<nat, Ender>, enders': map<nat, Ender>,
                             requests: map<Id, Request>, sent: map<Id, seq<Settlement>>)
    requires Owned(pending, hand, enders, requests, sent) && AllCovered(pending, hand, enders, requests, sent)
    requires forall t :: t in enders' && Held(enders'[t]) != {} ==> t in enders && Held(enders'[t]) == Held(enders[t])
    requires forall t :: t in enders && Held(enders[t]) != {} ==> t in enders' && Held(enders'[t]) == Held(enders[t])
    ensures Owned(pending, hand, enders', requests, sent) && AllCovered(pending, hand, enders', requests, sent)
  {
    forall x | x in requests && (requests[x].phase == Registered || requests[x].phase == Waiting)
      ensures Covered(x, pending, hand, enders', sent)
    {
      assert Covered(x, pending, hand, enders, sent);
      if t :| t in enders && x in Held(enders[t]) {
        assert t in enders' && x in Held(enders'[t]);
      }
    }
  }

  lemma SameSwapsKeepCollected(enders: map<nat, Ender>, enders': map<nat, Ender>)
    requires forall t :: t in enders && enders[t].EndClosed? ==> t in enders' && enders'[t].EndClosed?
    ensures SwapComing(enders) ==> SwapComing(enders')
  {
  }

  lemma EndStartKeepsWaiters(e: Engine, e': Engine, tid: nat, cause: Option<Error>)
    requires WaiterInv(e) && tid !in e.enders
    requires e'.enders == e.enders[tid := EndCancelled(cause)] && InHand(e'.reader) == InHand(e.reader)
    requires e'.role == e.role && e'.reg == e.reg && e'.callers == e.callers && e'.net.closed == e.net.closed
    ensures WaiterInv(e')
  {
    SameSwapsKeepCollected(e.enders, e'.enders);
    SameHeldKeepsWaiting(Pending(e.reg), InHand(e.reader), e.enders, e'.enders, e.callers.requests, e.callers.sent);
    hide KnownIds, Owned, AllCovered, SwapComing;
  }

  lemma EndCloseKeepsWaiters(e: Engine, e': Engine, tid: nat)
    requires WaiterInv(e) && EnderStep(EndClose(tid), e, e')
    ensures WaiterInv(e')
  {
    assert e'.enders[tid].EndClosed?;
    assert SwapComing(e'.enders);
    SameHeldKeepsWaiting(Pending(e.reg), InHand(e.reader), e.enders, e'.enders, e.callers.requests, e.callers.sent);
    hide KnownIds, Owned, AllCovered, SwapComing;
  }

  /** An invocation of end with nothing left to settle may go, or cancel a call's context. */
  lemma SettledEnderKeepsWaiters(l: Label, e: Engine, e': Engine)
    requires WaiterInv(e) && EnderStep(l, e, e') && (l.EndCancel? || l.EndDone?)
    ensures WaiterInv(e')
  {
    SameSwapsKeepCollected(e.enders, e'.enders);
    SameHeldKeepsWaiting(Pending(e.reg), InHand(e.reader), e.enders, e'.enders, e.callers.requests, e.callers.sent);
    hide KnownIds, Owned, AllCovered, SwapComing;
  }

  /** The swap hands every pending waiter to this invocation, which records the first cause. */
  lemma EndSwapKeepsWaiters(e: Engine, e': Engine, tid: nat)
    requires WaiterInv(e) && EnderStep(EndSwap(tid), e, e')
    ensures WaiterInv(e')
  {
    assert Pending(e'.reg) == {};
    SwapKeepsWaiting(Pending(e.reg), InHand(e.reader), e.enders, tid, e'.enders[tid], e.callers.requests,
                     e.callers.sent);
    assert CauseIn(e') by { hide Owned, AllCovered, ClosedMeansCollected, KnownIds; }
    hide KnownIds, Owned, AllCovered, OneCause, Swap;
  }

  lemma SwapKeepsWaiting(pending: set<Id>, hand: set<Id>, enders: map<nat, Ender>, tid: nat, x: Ender,
                         requests: map<Id, Request>, sent: map<Id, seq<Settlement>>)
    requires Owned(pending, hand, enders, requests, sent) && AllCovered(pending, hand, enders, requests, sent)
    requires tid in enders && Held(enders[tid]) == {} && Held(x) == pending
    ensures Owned({}, hand, enders[tid := x], requests, sent) && AllCovered({}, hand, enders[tid := x], requests, sent)
  {
    var enders' := enders[tid := x];
    forall id | id in requests && (requests[id].phase == Registered || requests[id].phase == Waiting)
      ensures Covered(id, {}, hand, enders', sent)
    {
      assert Covered(id, pending, hand, enders, sent);
      if id in pending {
        assert tid in enders' && id in Held(enders'[tid]);
      } else if t :| t in enders && id in Held(enders[t]) {
        assert t in enders' && id in Held(enders'[t]);
      }
    }
  }

  /** Sending a value to a waiter that has none, and giving up its ownership. */
  lemma SendKeepsOwned(pending: set<Id>, hand: set<Id>, hand': set<Id>, enders: map<nat, Ender>,
                       enders': map<nat, Ender>,
                       requests: map<Id, Request>, sent: map<Id, seq<Settlement>>, id: Id, value: Settlement)
    requires Owned(pending, hand, enders, requests, sent) && Unsettled(requests, sent, id)
    requires hand' <= hand && enders'.Keys <= enders.Keys
    requires forall t :: t in enders' ==> Held(enders'[t]) <= Held(enders[t])
    requires id !in pending && id !in hand' && forall t :: t in enders' ==> id !in Held(enders'[t])
    ensures Owned(pending, hand', enders', requests, Send(sent, id, value))
  {
    var sent' := Send(sent, id, value);
    assert forall x :: x != id ==> SentOn(sent', x) == SentOn(sent, x);
    assert forall x :: x != id && Unsettled(requests, sent, x) ==> Unsettled(requests, sent', x);
  }

  lemma SendKeepsCovered(pending: set<Id>, hand: set<Id>, hand': set<Id>, enders: map<nat, Ender>,
                         enders': map<nat, Ender>,
                         requests: map<Id, Request>, sent: map<Id, seq<Settlement>>, id: Id, value: Settlement)
    requires AllCovered(pending, hand, enders, requests, sent)
    requires hand - {id} <= hand' && enders'.Keys == enders.Keys
    requires forall t :: t in enders' ==> Held(enders[t]) - {id} <= Held(enders'[t])
    ensures AllCovered(pending, hand', enders', requests, Send(sent, id, value))
  {
    var sent' := Send(sent, id, value);
    forall x | x in requests && (requests[x].phase == Registered || requests[x].phase == Waiting)
      ensures Covered(x, pending, hand', enders', sent')
    {
      assert Covered(x, pending, hand, enders, sent);
      if x != id {
        assert SentOn(sent', x) == SentOn(sent, x);
        if t :| t in enders && x in Held(enders[t]) {
          assert x in Held(enders'[t]);
        }
      }
    }
  }

  /** An invocation of end gives up one waiter. */
  lemma SettlingGivesUp(pending: set<Id>, hand: set<Id>, enders: map<nat, Ender>, tid: nat, id: Id,
                        requests: map<Id, Request>, sent: map<Id, seq<Settlement>>)
    requires Owned(pending, hand, enders, requests, sent)
    requires tid in enders && enders[tid].EndSettling? && id in enders[tid].waiters
    ensures Unsettled(requests, sent, id) && id !in pending && id !in hand
    ensures var enders' := enders[tid := enders[tid].(waiters := enders[tid].waiters - {id})];
            && (forall t :: t in enders' ==> Held(enders'[t]) <= Held(enders[t]) && id !in Held(enders'[t]))
            && (forall t :: t in enders' ==> Held(enders[t]) - {id} <= Held(enders'[t]))
            && (SwapComing(enders) ==> SwapComing(enders'))
  {
    assert id in Held(enders[tid]) && AllUnsettled(Held(enders[tid]), requests, sent);
    var enders' := enders[tid := enders[tid].(waiters := enders[tid].waiters - {id})];
    SameSwapsKeepCollected(enders, enders');
    hide SwapComing;
  }

  lemma EndSettleKeepsWaiters(e: Engine, e': Engine, tid: nat, id: Id)
    requires WaiterInv(e) && EnderStep(EndSettle(tid, id), e, e')
    ensures WaiterInv(e')
  {
    var c, p, h := e.callers, Pending(e.reg), InHand(e.reader);
    var value := Settlement(Failed(e.enders[tid].failure), FromEnd);
    SettlingGivesUp(p, h, e.enders, tid, id, c.requests, c.sent);
    hide Owned, AllCovered, KnownIds, SwapComing;
    SendKeepsOwned(p, h, h, e.enders, e'.enders, c.requests, c.sent, id, value);
    SendKeepsCovered(p, h, h, e.enders, e'.enders, c.requests, c.sent, id, value);
    SendKeepsCause(e.reg.ended, e.reg.terminal, e.enders, c.sent, id, value);
    assert CauseIn(e') by { hide ClosedMeansCollected, Send; }
    hide OneCause, Send;
  }

  lemma SendKeepsCause(ended: bool, terminal: Option<Error>, enders: map<nat, Ender>,
                       sent: map<Id, seq<Settlement>>, id: Id, value: Settlement)
    requires OneCause(ended, terminal, enders, sent)
    requires value.source.FromEnd? ==> terminal.Some? && value.outcome == Failed(terminal.value)
    ensures OneCause(ended, terminal, enders, Send(sent, id, value))
  {
    var sent': map<Id, seq<Settlement>> := Send(sent, id, value);
    forall x: Id, i: int | x in sent' && 0 <= i < |sent'[x]| && sent'[x][i].source.FromEnd?
      ensures terminal.Some? && sent'[x][i].outcome == Failed(terminal.value)
    {
      if x == id && i == |SentOn(sent, id)| {
        assert sent'[x][i] == value;
      } else {
        assert x in sent && sent'[x][i] == sent[x][i];
      }
    }
  }

  /** A step that leaves the callers alone and moves no waiter. */
  lemma NeutralKeepsWaiters(e: Engine, e': Engine)
    requires WaiterInv(e) && e'.role == e.role && e'.callers == e.callers
    requires Pending(e'.reg) == Pending(e.reg) && InHand(e'.reader) == InHand(e.reader)
    requires e'.enders == e.enders && e'.net.closed == e.net.closed
    requires e'.reg.ended == e.reg.ended && e'.reg.terminal == e.reg.terminal
    ensures WaiterInv(e')
  {
    hide KnownIds, Owned, AllCovered, ClosedMeansCollected, OneCause;
  }

  lemma EnderKeepsWaiters(l: Label, e: Engine, e': Engine)
    requires WaiterInv(e) && EnderStep(l, e, e')
    ensures WaiterInv(e')
  {
    hide WaiterInv;
    match l
    case EndStart(tid, cause) => EndStartKeepsWaiters(e, e', tid, cause);
    case EndClose(tid) => EndCloseKeepsWaiters(e, e', tid);
    case EndSwap(tid) => EndSwapKeepsWaiters(e, e', tid);
    case EndSettle(tid, id) => EndSettleKeepsWaiters(e, e', tid, id);
    case EndCancel(_, _) => SettledEnderKeepsWaiters(l, e, e');
    case EndDone(_) => SettledEnderKeepsWaiters(l, e, e');
    case _ =>
  }

  // ---------------------------------------------------------------- reader

  /** dispatch takes a waiter out of its registry and into the reader's hand. */
  lemma TakeKeepsWaiters(e: Engine, e': Engine, id: Id)
    requires WaiterInv(e) && e.reader == Idle && id in Pending(e.reg)
    requires e'.role == e.role && e'.callers == e.callers && e'.enders == e.enders && e'.net.closed == e.net.closed
    requires e'.reg.ended == e.reg.ended && e'.reg.terminal == e.reg.terminal
    requires Pending(e'.reg) == Pending(e.reg) - {id} && InHand(e'.reader) == {id}
    ensures WaiterInv(e')
  {
    var c := e.callers;
    assert AllUnsettled({id}, c.requests, c.sent);
    assert AllCovered(Pending(e'.reg), {id}, e.enders, c.requests, c.sent) by {
      assert forall x :: Covered(x, Pending(e.reg), {}, e.enders, c.sent) ==>
                         Covered(x, Pending(e'.reg), {id}, e.enders, c.sent);
    }
    hide KnownIds, OneCause, AllCovered;
  }

  lemma ConsumeKeepsWaiters(e: Engine, e': Engine, f: Frame)
    requires WaiterInv(e) && ReaderStep(Consume(f), e, e') && e.reg.calls !! e.reg.opens
    ensures WaiterInv(e')
  {
    hide WaiterInv, SettleCall, SettleOpen, Owns;
    if e'.reader.Settling? {
      assert Pending(e'.reg) == Pending(e.reg) - {f.id};
      TakeKeepsWaiters(e, e', f.id);
    } else {
      NeutralKeepsWaiters(e, e');
    }
  }

  lemma SettleSendKeepsWaiters(e: Engine, e': Engine)
    requires WaiterInv(e) && ReaderStep(SettleSend, e, e')
    ensures WaiterInv(e')
  {
    var c, p := e.callers, Pending(e.reg);
    var id, value := e.reader.id, Settlement(e.reader.outcome, FromFrame(|e.net.consumed| - 1));
    assert id in InHand(e.reader) && AllUnsettled(InHand(e.reader), c.requests, c.sent);
    assert forall t :: t in e.enders ==> id !in Held(e.enders[t]);
    SendKeepsOwned(p, {id}, {}, e.enders, e.enders, c.requests, c.sent, id, value);
    SendKeepsCovered(p, {id}, {}, e.enders, e.enders, c.requests, c.sent, id, value);
    SendKeepsCause(e.reg.ended, e.reg.terminal, e.enders, c.sent, id, value);
    hide KnownIds, Owned, AllCovered, OneCause, ClosedMeansCollected;
  }

  lemma ReaderKeepsWaiters(l: Label, e: Engine, e': Engine)
    requires WaiterInv(e) && ReaderStep(l, e, e') && e.reg.calls !! e.reg.opens
    ensures WaiterInv(e')
  {
    hide WaiterInv;
    match l
    case Consume(f) => ConsumeKeepsWaiters(e, e', f);
    case SettleSend => SettleSendKeepsWaiters(e, e');
    case ReadFail(tid, err) => EndStartKeepsWaiters(e, e', tid, Some(err));
    case _ => NeutralKeepsWaiters(e, e');
  }

  lemma ServingKeepsWaiters(l: Label, e: Engine, e': Engine)
    requires WaiterInv(e) && ServingStep(l, e, e')
    ensures WaiterInv(e')
  {
    hide WaiterInv;
    NeutralKeepsWaiters(e, e');
  }

  // ------------------------------------------------------------ every run

  lemma StepKeepsWaiters(l: Label, e: Engine, e': Engine)
    requires WaiterInv(e) && IdInv(e) && Step(l, e, e') && e'.callers.issued <= ID_PERIOD
    ensures WaiterInv(e')
  {
    IdInvIsSafe(e);
    hide WaiterInv, IdInv;
    if CallerStep(l, e, e') { CallerKeepsWaiters(l, e, e'); }
    else if EnderStep(l, e, e') { EnderKeepsWaiters(l, e, e'); }
    else if ReaderStep(l, e, e') { ReaderKeepsWaiters(l, e, e'); }
    else { ServingKeepsWaiters(l, e, e'); }
  }

  lemma NewEngineHasNoWaiters(e: Engine)
    requires Init(e)
    ensures WaiterInv(e)
  {
  }

  lemma {:induction false} RunKeepsWaiters(run: seq<Engine>, labels: seq<Label>, n: nat)
    requires IsRun(run, labels) && n < |run| && run[n].callers.issued <= ID_PERIOD
    ensures WaiterInv(run[n])
    decreases n
  {
    hide WaiterInv, IdInv, Step, Init;
    if n == 0 {
      NewEngineHasNoWaiters(run[0]);
    } else {
      assert Step(labels[n - 1], run[n - 1], run[n - 1 + 1]);
      StepIssues(labels[n - 1], run[n - 1], run[n]);
      RunKeepsWaiters(run, labels, n - 1);
      RunKeepsIds(run, labels, n - 1);
      StepKeepsWaiters(labels[n - 1], run[n - 1], run[n]);
    }
  }

  lemma ReachableKeepsWaiters(e: Engine)
    requires Reachable(e) && e.callers.issued <= ID_PERIOD
    ensures WaiterInv(e)
  {
    hide WaiterInv;
    var run, labels :| IsRun(run, labels) && run[|run| - 1] == e;
    RunKeepsWaiters(run, labels, |run| - 1);
  }

  // ------------------------------------------------------------ theorems

  /** Over a whole run an outcome channel receives at most one value. */
  lemma SettledAtMostOnce(e: Engine, id: Id)
    requires Reachable(e) && e.callers.issued <= ID_PERIOD
    ensures |SentOn(e.callers.sent, id)| <= 1
  {
    ReachableKeepsWaiters(e);
  }

  /** No invocation of end is under way, and the reader has no value in its hand. */
  predicate Quiescent(e: Engine) {
    e.net.closed && e.enders == map[] && !e.reader.Settling?
  }

  /**
   Once the transport is closed and every `end` has returned, a caller still waiting for an
   answer has one: a registration that raced with `end` was either collected by it, or its open
   frame met the closed transport.
   */
  lemma NoWaiterIsStranded(e: Engine, id: Id)
    requires Reachable(e) && e.callers.issued <= ID_PERIOD && Quiescent(e)
    requires InPhase(e.callers, id, Waiting)
    ensures |SentOn(e.callers.sent, id)| == 1
  {
    ReachableKeepsWaiters(e);
    hide KnownIds, OneCause;
    assert Covered(id, Pending(e.reg), {}, map[], e.callers.sent);
    assert !SwapComing(e.enders);
  }

  /** All waiters that `end` settles are told the same cause, which is the recorded one. */
  lemma EndTellsOneCause(e: Engine, a: Id, b: Id, x: Settlement, y: Settlement)
    requires Reachable(e) && e.callers.issued <= ID_PERIOD
    requires x in SentOn(e.callers.sent, a) && x.source.FromEnd?
    requires y in SentOn(e.callers.sent, b) && y.source.FromEnd?
    ensures e.reg.terminal.Some? && x.outcome == y.outcome == Failed(e.reg.terminal.value)
  {
    ReachableKeepsWaiters(e);
    hide KnownIds, Owned, AllCovered, ClosedMeansCollected;
  }

  lemma StepKeepsTerminal(l: Label, e: Engine, e': Engine)
    requires Step(l, e, e') && CauseIn(e)
    ensures e.reg.terminal.Some? ==> e'.reg.terminal == e.reg.terminal
  {
    hide CallerStep, EnderStep, ReaderStep, ServingStep;
    if EnderStep(l, e, e') { EnderKeepsTerminal(l, e, e'); }
    else if ReaderStep(l, e, e') { ReaderKeepsTerminal(l, e, e'); }
    else { OthersKeepTerminal(l, e, e'); }
  }

  lemma EnderKeepsTerminal(l: Label, e: Engine, e': Engine)
    requires EnderStep(l, e, e') && CauseIn(e)
    ensures e.reg.terminal.Some? ==> e'.reg.terminal == e.reg.terminal
  {
    hide CancelTicket, TerminalOf;
  }

  lemma ReaderKeepsTerminal(l: Label, e: Engine, e': Engine)
    requires ReaderStep(l, e, e')
    ensures e'.reg.terminal == e.reg.terminal
  {
    if l.Consume? { DispatchKeepsTerminal(e, l.frame); }
    hide Dispatch, RefusalFits;
  }

  lemma OthersKeepTerminal(l: Label, e: Engine, e': Engine)
    requires CallerStep(l, e, e') || ServingStep(l, e, e')
    ensures e'.reg.terminal == e.reg.terminal
  {
    hide AllocatedId, OpenFrameOf, ReplyFrame;
  }

  lemma DispatchKeepsTerminal(e: Engine, f: Frame)
    ensures Dispatch(e, f).reg.terminal == e.reg.terminal && Dispatch(e, f).reg.ended == e.reg.ended
  {
    hide CancelTicket, SettleCall, SettleOpen, Owns;
  }

  /** The first cause is the only one: later invocations of end never replace it. */
  lemma {:induction false} FirstCauseIsKept(run: seq<Engine>, labels: seq<Label>, m: nat, n: nat)
    requires IsRun(run, labels) && m <= n < |run| && run[n].callers.issued <= ID_PERIOD
    requires run[m].reg.terminal.Some?
    ensures run[n].reg.terminal == run[m].reg.terminal
    decreases n
  {
    hide Step, Init;
    if m < n {
      assert Step(labels[n - 1], run[n - 1], run[n - 1 + 1]);
      StepIssues(labels[n - 1], run[n - 1], run[n]);
      RunKeepsWaiters(run, labels, n - 1);
      FirstCauseIsKept(run, labels, m, n - 1);
      hide KnownIds, Owned, AllCovered, ClosedMeansCollected, OneCause;
      StepKeepsTerminal(labels[n - 1], run[n - 1], run[n]);
    }
  }

  // ------------------------------------------------------------ which cause it is

  /** The step begins the invocation `tid` of end, with this cause. */
  predicate Begins(l: Label, tid: nat, cause: Option<Error>) {
    l == EndStart(tid, cause) || (l.ReadFail? && l.tid == tid && cause == Some(l.err))
  }

  /** The invocation is under way and has not taken the lock. */
  predicate Carries(e: Engine, tid: nat, cause: Option<Error>) {
    tid in e.enders && (e.enders[tid] == EndCancelled(cause) || e.enders[tid] == EndClosed(cause))
  }

  lemma BeginsCarries(l: Label, e: Engine, e': Engine, tid: nat, cause: Option<Error>)
    requires Step(l, e, e') && Begins(l, tid, cause)
    ensures Carries(e', tid, cause)
  {
    hide Dispatch;
  }

  lemma StepCarries(l: Label, e: Engine, e': Engine, tid: nat, cause: Option<Error>)
    requires Step(l, e, e') && Carries(e, tid, cause) && l != EndSwap(tid)
    ensures Carries(e', tid, cause)
  {
    hide CallerStep, EnderStep, ReaderStep, ServingStep;
    if EnderStep(l, e, e') { EnderCarries(l, e, e', tid, cause); }
    else if ReaderStep(l, e, e') { ReaderCarries(l, e, e', tid, cause); }
    else { OthersKeepEnders(l, e, e'); }
  }

  lemma EnderCarries(l: Label, e: Engine, e': Engine, tid: nat, cause: Option<Error>)
    requires EnderStep(l, e, e') && Carries(e, tid, cause) && l != EndSwap(tid)
    ensures Carries(e', tid, cause)
  {
    hide CancelTicket, Swap, Send;
  }

  lemma ReaderCarries(l: Label, e: Engine, e': Engine, tid: nat, cause: Option<Error>)
    requires ReaderStep(l, e, e') && Carries(e, tid, cause)
    ensures Carries(e', tid, cause)
  {
    if l.Consume? { DispatchKeepsEnders(e, l.frame); }
    hide Dispatch, RefusalFits;
  }

  lemma DispatchKeepsEnders(e: Engine, f: Frame)
    ensures Dispatch(e, f).enders == e.enders
  {
    hide CancelTicket, SettleCall, SettleOpen, Owns;
  }

  lemma OthersKeepEnders(l: Label, e: Engine, e': Engine)
    requires CallerStep(l, e, e') || ServingStep(l, e, e')
    ensures e'.enders == e.enders
  {
    hide AllocatedId, OpenFrameOf, ReplyFrame;
  }

  /** An invocation keeps its cause until it takes the lock. */
  lemma {:induction false} RunCarries(run: seq<Engine>, labels: seq<Label>, i: nat, n: nat,
                                      tid: nat, cause: Option<Error>)
    requires IsRun(run, labels) && i < n < |run| && Begins(labels[i], tid, cause)
    requires forall j :: i < j < n ==> labels[j] != EndSwap(tid)
    ensures Carries(run[n], tid, cause)
    decreases n
  {
    hide Step, Init, Carries, Begins;
    assert Step(labels[n - 1], run[n - 1], run[n - 1 + 1]);
    if i == n - 1 {
      BeginsCarries(labels[i], run[i], run[n], tid, cause);
    } else {
      RunCarries(run, labels, i, n - 1, tid, cause);
      StepCarries(labels[n - 1], run[n - 1], run[n], tid, cause);
    }
  }

  lemma OnlySwapEnds(l: Label, e: Engine, e': Engine)
    requires Step(l, e, e') && !l.EndSwap? && !e.reg.ended
    ensures !e'.reg.ended
  {
    hide CallerStep, EnderStep, ReaderStep, ServingStep;
    if EnderStep(l, e, e') { EnderEndsNothing(l, e, e'); }
    else if ReaderStep(l, e, e') { ReaderEndsNothing(l, e, e'); }
    else { OthersEndNothing(l, e, e'); }
  }

  lemma EnderEndsNothing(l: Label, e: Engine, e': Engine)
    requires EnderStep(l, e, e') && !l.EndSwap?
    ensures e'.reg.ended == e.reg.ended
  {
    hide CancelTicket, Send;
  }

  lemma ReaderEndsNothing(l: Label, e: Engine, e': Engine)
    requires ReaderStep(l, e, e')
    ensures e'.reg.ended == e.reg.ended
  {
    if l.Consume? { DispatchKeepsTerminal(e, l.frame); }
    hide Dispatch, RefusalFits;
  }

  lemma OthersEndNothing(l: Label, e: Engine, e': Engine)
    requires CallerStep(l, e, e') || ServingStep(l, e, e')
    ensures e'.reg.ended == e.reg.ended
  {
    hide AllocatedId, OpenFrameOf, ReplyFrame;
  }

  lemma {:induction false} NotEndedBeforeSwap(run: seq<Engine>, labels: seq<Label>, n: nat)
    requires IsRun(run, labels) && n < |run| && forall j :: 0 <= j < n ==> !labels[j].EndSwap?
    ensures !run[n].reg.ended
    decreases n
  {
    hide Step;
    if n > 0 {
      assert Step(labels[n - 1], run[n - 1], run[n - 1 + 1]);
      NotEndedBeforeSwap(run, labels, n - 1);
      OnlySwapEnds(labels[n - 1], run[n - 1], run[n]);
    }
  }

  /** The error a session that ends with a cause is recorded to have ended with. */
  ghost predicate EndedBy(terminal: Option<Error>, cause: Option<Error>) {
    && (cause.Some? && !Is(cause.value, EndOfFile) ==> terminal == cause)
    && (cause.None? || Is(cause.value, EndOfFile) ==> terminal == Some(Of(ConnectionClosed)))
  }

  lemma SwapRecords(e: Engine, e': Engine, tid: nat, cause: Option<Error>)
    requires Step(EndSwap(tid), e, e') && Carries(e, tid, cause) && !e.reg.ended
    ensures EndedBy(e'.reg.terminal, cause)
  {
  }

  /**
   The cause of the invocation of end that takes the lock first is the session's: an error as it is,
   an orderly or missing one as a closed connection. From then on it is what every later request is
   refused with, and what every waiter that end settles is told.
   */
  lemma FirstCauseIsTold(run: seq<Engine>, labels: seq<Label>, i: nat, k: nat, n: nat, tid: nat, cause: Option<Error>)
    requires IsRun(run, labels) && i < k < n < |run| && run[n].callers.issued <= ID_PERIOD
    requires Begins(labels[i], tid, cause) && labels[k] == EndSwap(tid)
    requires forall j :: 0 <= j < k ==> !labels[j].EndSwap?
    ensures run[n].reg.ended && EndedBy(run[n].reg.terminal, cause)
    ensures forall id, x :: x in SentOn(run[n].callers.sent, id) && x.source.FromEnd? ==>
              x.outcome.Failed? && EndedBy(Some(x.outcome.err), cause)
  {
    hide Begins, Carries, Init, Step, EndedBy;
    RunCarries(run, labels, i, k, tid, cause);
    NotEndedBeforeSwap(run, labels, k);
    assert Step(labels[k], run[k], run[k + 1]);
    SwapRecords(run[k], run[k + 1], tid, cause);
    EndedByIsSome(run[k + 1].reg.terminal, cause);
    FirstCauseIsKept(run, labels, k + 1, n);
    RunKeepsWaiters(run, labels, n);
    hide KnownIds, Owned, AllCovered, ClosedMeansCollected;
  }

  lemma EndedByIsSome(terminal: Option<Error>, cause: Option<Error>)
    requires EndedBy(terminal, cause)
    ensures terminal.Some?
  {
  }
}
