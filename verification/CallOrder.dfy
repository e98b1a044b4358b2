/**
 The order in which an endpoint writes the frames of its own calls: the cancellation of a call
 follows the request it cancels.
 */
module CallOrder {
  import opened Status
  import opened Session
  import opened Engine
  import opened IdSpace

  /** The status of a cancelled context or of one whose deadline passed. */
  predicate GivesUp(body: FailureBody) {
    body == Code(10) || body == Code(9)
  }

  ghost predicate OpenedIn(frames: seq<Frame>, id: Id) {
    exists j :: 0 <= j < |frames| && IsOpen(frames[j]) && frames[j].id == id
  }

  /** A terminal frame for an own call comes after that call's request, and says why the caller gave up. */
  ghost predicate EndsFollow(role: Role, requests: map<Id, Request>, emitted: seq<Frame>) {
    forall i :: 0 <= i < |emitted| && emitted[i].StreamEnd? && Owns(role, emitted[i].id) ==>
      && emitted[i].id in requests
      && (requests[emitted[i].id].kind.CallKind? ==>
            OpenedIn(emitted[..i], emitted[i].id) && GivesUp(emitted[i].body))
  }

  /** A caller that waits, or gives up waiting, has written its request. */
  ghost predicate WaitersOpened(requests: map<Id, Request>, emitted: seq<Frame>) {
    forall id :: id in requests && (requests[id].phase.Waiting? || requests[id].phase.Notifying?) ==>
      OpenedIn(emitted, id)
  }

  ghost predicate OrderInv(e: Engine) {
    EndsFollow(e.role, e.callers.requests, e.net.emitted) && WaitersOpened(e.callers.requests, e.net.emitted)
  }

  lemma LongerStaysOpened(frames: seq<Frame>, f: Frame, id: Id)
    requires OpenedIn(frames, id)
    ensures OpenedIn(frames + [f], id)
  {
    var j :| 0 <= j < |frames| && IsOpen(frames[j]) && frames[j].id == id;
    assert (frames + [f])[j] == frames[j];
  }

  lemma EmitKeepsEndsFollow(role: Role, requests: map<Id, Request>, emitted: seq<Frame>, f: Frame)
    requires EndsFollow(role, requests, emitted)
    requires f.StreamEnd? && Owns(role, f.id) ==>
               f.id in requests && (requests[f.id].kind.CallKind? ==> OpenedIn(emitted, f.id) && GivesUp(f.body))
    ensures EndsFollow(role, requests, emitted + [f])
  {
    hide OpenedIn, Owns;
    var longer := emitted + [f];
    forall i | 0 <= i < |longer| && longer[i].StreamEnd? && Owns(role, longer[i].id)
      ensures longer[i].id in requests
      ensures requests[longer[i].id].kind.CallKind? ==>
                OpenedIn(longer[..i], longer[i].id) && GivesUp(longer[i].body)
    {
      assert longer[..i] == emitted[..i];
      if i == |emitted| { assert emitted[..i] == emitted; }
    }
  }

  lemma EmitKeepsWaitersOpened(requests: map<Id, Request>, emitted: seq<Frame>, f: Frame)
    requires WaitersOpened(requests, emitted)
    ensures WaitersOpened(requests, emitted + [f])
  {
    hide OpenedIn;
    forall id | id in requests && (requests[id].phase.Waiting? || requests[id].phase.Notifying?)
      ensures OpenedIn(emitted + [f], id)
    {
      LongerStaysOpened(emitted, f, id);
    }
  }

  lemma EmitKeepsOrder(e: Engine, e': Engine, f: Frame)
    requires OrderInv(e) && e'.role == e.role && e'.callers == e.callers && e'.net.emitted == e.net.emitted + [f]
    requires f.StreamEnd? && Owns(e.role, f.id) ==>
               && f.id in e.callers.requests
               && (e.callers.requests[f.id].kind.CallKind? ==> OpenedIn(e.net.emitted, f.id) && GivesUp(f.body))
    ensures OrderInv(e')
  {
    EmitKeepsEndsFollow(e.role, e.callers.requests, e.net.emitted, f);
    EmitKeepsWaitersOpened(e.callers.requests, e.net.emitted, f);
    hide EndsFollow, WaitersOpened, OpenedIn;
  }

  lemma UpdateKeepsOrder(role: Role, requests: map<Id, Request>, emitted: seq<Frame>, id: Id, r: Request)
    requires EndsFollow(role, requests, emitted) && WaitersOpened(requests, emitted)
    requires id in requests ==> r.kind == requests[id].kind
    requires r.phase.Waiting? || r.phase.Notifying? ==> OpenedIn(emitted, id)
    ensures EndsFollow(role, requests[id := r], emitted) && WaitersOpened(requests[id := r], emitted)
  {
    hide OpenedIn, Owns;
  }

  lemma WriteOpenKeepsOrder(e: Engine, e': Engine, id: Id, ok: bool)
    requires OrderInv(e) && CallerStep(WriteOpen(id, ok), e, e')
    ensures OrderInv(e')
  {
    var c := e.callers;
    if ok {
      var f := OpenFrameOf(id, c.requests[id].kind);
      EmitKeepsEndsFollow(e.role, c.requests, e.net.emitted, f);
      EmitKeepsWaitersOpened(c.requests, e.net.emitted, f);
      assert e'.net.emitted[|e.net.emitted|] == f;
      assert OpenedIn(e'.net.emitted, id);
    }
    UpdateKeepsOrder(e.role, c.requests, e'.net.emitted, id, e'.callers.requests[id]);
    hide EndsFollow, WaitersOpened, OpenedIn;
  }

  lemma NotifyKeepsOrder(e: Engine, e': Engine, id: Id, code: StatusCode, ok: bool)
    requires OrderInv(e) && CallerStep(Notify(id, code, ok), e, e')
    ensures OrderInv(e')
  {
    var c := e.callers;
    assert OpenedIn(e.net.emitted, id);
    if ok {
      var f := StreamEnd(id, EndBody(code));
      EmitKeepsEndsFollow(e.role, c.requests, e.net.emitted, f);
      EmitKeepsWaitersOpened(c.requests, e.net.emitted, f);
    }
    UpdateKeepsOrder(e.role, c.requests, e'.net.emitted, id, e'.callers.requests[id]);
    hide EndsFollow, WaitersOpened, OpenedIn;
  }

  lemma CallerKeepsOrder(l: Label, e: Engine, e': Engine)
    requires OrderInv(e) && IdInv(e) && CallerStep(l, e, e') && e'.callers.issued <= ID_PERIOD
    ensures OrderInv(e')
  {
    if l.WriteOpen? {
      WriteOpenKeepsOrder(e, e', l.id, l.ok);
    } else if l.Notify? {
      NotifyKeepsOrder(e, e', l.id, l.code, l.ok);
    } else {
      var c := e.callers;
      if l.Start? { NextIdIsFresh(e.role, c.issued, c.requests); }
      hide IdInv, AllocatedId, EndsFollow, OpenedIn;
      var id := if l.Start? then AllocatedId(e.role, c.issued) else l.id;
      UpdateKeepsOrder(e.role, c.requests, e.net.emitted, id, e'.callers.requests[id]);
      hide WaitersOpened;
    }
  }

  lemma ReaderKeepsOrder(l: Label, e: Engine, e': Engine)
    requires OrderInv(e) && IdInv(e) && ReaderStep(l, e, e')
    ensures OrderInv(e')
  {
    hide EndsFollow, WaitersOpened, KnownIds, Filed, Inbound, Ticketed, OpensOnce, OpenedIn;
    if l.RefuseWrite? && l.ok {
      EmitKeepsOrder(e, e', StreamEnd(e.reader.id, EndBody(e.reader.code)));
    } else if l.AckWrite? && l.ok {
      EmitKeepsOrder(e, e', StreamAck(e.reader.id));
    } else if l.Consume? {
      DispatchShrinks(e, l.frame);
    }
    hide Dispatch, Owns, ReaderScope;
  }

  lemma ServingKeepsOrder(l: Label, e: Engine, e': Engine)
    requires OrderInv(e) && IdInv(e) && ServingStep(l, e, e')
    ensures OrderInv(e')
  {
    hide EndsFollow, WaitersOpened, KnownIds, Filed, Ticketed, OpensOnce, OpenedIn, ReaderScope;
    if l.EmitStream? {
      EmitKeepsOrder(e, e', l.frame);
    } else if l.Reply? && l.ok {
      EmitKeepsOrder(e, e', ReplyFrame(e.serving.tickets[l.ticket].id, e.serving.tickets[l.ticket].phase.outcome));
    }
    hide Owns;
  }

  lemma StepKeepsOrder(l: Label, e: Engine, e': Engine)
    requires OrderInv(e) && IdInv(e) && Step(l, e, e') && e'.callers.issued <= ID_PERIOD
    ensures OrderInv(e')
  {
    hide IdInv, EndsFollow, WaitersOpened;
    if CallerStep(l, e, e') { CallerKeepsOrder(l, e, e'); }
    else if ReaderStep(l, e, e') { ReaderKeepsOrder(l, e, e'); }
    else if ServingStep(l, e, e') { ServingKeepsOrder(l, e, e'); }
  }
}
