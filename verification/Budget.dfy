/**
 Slot accounting across any number of sessions that share one router, and the in-process
 callers beside them: dispatch.go takes a session's gate, asks the router, serves, and gives
 both back; handlers and authorizers may refuse, fail or panic at any point.
 */
module Budget {
  import opened Status
  import opened Router

  type SessionId = nat
  type Ticket = nat

  /** Whose slots: the router's, or one session's gate. */
  datatype Holder = RouterSlots(kind: Work) | SessionGate(session: SessionId, kind: Work)

  /**
   Where one request is. Acking and AckFailing are streams whose acknowledgement is being
   written or has failed; Leaked is such a stream after its session's gate was released.
   */
  datatype Stage = Gated | Unwinding | Acking | AckFailing | Serving | Leaked | Done

  datatype Item = Item(kind: Work, owner: Option<SessionId>, stage: Stage)

  /** The gates, the requests, and the sessions that have ended. */
  datatype Books = Books(
    maxMessageBytes: nat,
    gates: map<Holder, Gate>,
    items: map<Ticket, Item>,
    ended: set<SessionId>)

  datatype Label =
    | OpenSession(session: SessionId, calls: nat, streams: nat)
    | TakeGate(ticket: Ticket, session: SessionId, kind: Work)
    | Prepare(ticket: Ticket, request: Request)
    | Invoke(ticket: Ticket, kind: Work, request: Request)
    | Acknowledge(ticket: Ticket, ok: bool)
    | Return(ticket: Ticket, end: HandlerEnd)
    | ReleaseGate(ticket: Ticket)

  predicate InStage(b: Books, t: Ticket, stage: Stage) {
    t in b.items && b.items[t].stage == stage
  }

  function Move(b: Books, t: Ticket, stage: Stage): Books
    requires t in b.items
  {
    b.(items := b.items[t := b.items[t].(stage := stage)])
  }

  function SetGate(b: Books, h: Holder, g: Gate): Books {
    b.(gates := b.gates[h := g])
  }

  /** A failed write ends its session: the transport is closed and its reader takes nothing more. */
  function EndSession(b: Books, owner: Option<SessionId>): Books {
    if owner.Some? then b.(ended := b.ended + {owner.value}) else b
  }

  /** The request takes a router slot, or not. */
  predicate LetIn(b: Books, kind: Work, q: Request) {
    RouterSlots(kind) in b.gates && Admitted(kind, q, b.maxMessageBytes, b.gates[RouterSlots(kind)])
  }

  /** The session's single reader is not in the middle of admitting or acknowledging a request. */
  ghost predicate ReaderFree(b: Books, s: SessionId) {
    forall t :: t in b.items && b.items[t].owner == Some(s) ==>
      b.items[t].stage != Gated && b.items[t].stage != Acking && b.items[t].stage != AckFailing
  }

  function TakeSlot(b: Books, kind: Work): Books
    requires RouterSlots(kind) in b.gates && Acquire(b.gates[RouterSlots(kind)]).Some?
  {
    SetGate(b, RouterSlots(kind), Acquire(b.gates[RouterSlots(kind)]).value)
  }

  ghost predicate Step(l: Label, b: Books, b': Books) {
    match l
    case OpenSession(s, calls, streams) =>
      && SessionGate(s, CallWork) !in b.gates && SessionGate(s, StreamWork) !in b.gates
      && b' == SetGate(SetGate(b, SessionGate(s, CallWork), Gate(calls, 0)),
                       SessionGate(s, StreamWork), Gate(streams, 0))
    case TakeGate(t, s, kind) =>
      var h := SessionGate(s, kind);
      && t !in b.items && s !in b.ended && ReaderFree(b, s) && h in b.gates && Acquire(b.gates[h]).Some?
      && b' == SetGate(b, h, Acquire(b.gates[h]).value).(items := b.items[t := Item(kind, Some(s), Gated)])
    case Prepare(t, q) =>
      && InStage(b, t, Gated)
      && var kind := b.items[t].kind;
         b' == if LetIn(b, kind, q) then Move(TakeSlot(b, kind), t, if kind == CallWork then Serving else Acking)
               else Move(b, t, Unwinding)
    case Invoke(t, kind, q) =>
      && t !in b.items
      && b' == if LetIn(b, kind, q) then TakeSlot(b, kind).(items := b.items[t := Item(kind, None, Serving)]) else b
    case Acknowledge(t, ok) =>
      && InStage(b, t, Acking)
      && b' == if ok then Move(b, t, Serving) else EndSession(Move(b, t, AckFailing), b.items[t].owner)
    case Return(t, _) =>
      && InStage(b, t, Serving)
      && var h := RouterSlots(b.items[t].kind);
         && h in b.gates
         && b' == Move(SetGate(b, h, Release(b.gates[h])), t, if b.items[t].owner.None? then Done else Unwinding)
    case ReleaseGate(t) =>
      && (InStage(b, t, Unwinding) || InStage(b, t, AckFailing)) && b.items[t].owner.Some?
      && var h := SessionGate(b.items[t].owner.value, b.items[t].kind);
         && h in b.gates
         && b' == Move(SetGate(b, h, Release(b.gates[h])), t, if InStage(b, t, Unwinding) then Done else Leaked)
  }

  ghost predicate Init(b: Books) {
    && b.items == map[] && b.ended == {}
    && b.gates.Keys == {RouterSlots(CallWork), RouterSlots(StreamWork)}
    && b.gates[RouterSlots(CallWork)].used == 0 && b.gates[RouterSlots(StreamWork)].used == 0
  }

  ghost predicate IsRun(run: seq<Books>, labels: seq<Label>) {
    && |run| == |labels| + 1 && Init(run[0])
    && forall i :: 0 <= i < |labels| ==> Step(labels[i], run[i], run[i + 1])
  }

  ghost predicate Reachable(b: Books) {
    exists run, labels :: IsRun(run, labels) && run[|run| - 1] == b
  }

  // ------------------------------------------------------------ accounting

  /** What a request holds. */
  predicate Holds(x: Item, h: Holder) {
    match h
    case RouterSlots(kind) =>
      x.kind == kind && (x.stage == Acking || x.stage == AckFailing || x.stage == Serving || x.stage == Leaked)
    case SessionGate(s, kind) =>
      x.kind == kind && x.owner == Some(s) && x.stage != Leaked && x.stage != Done
  }

  ghost function Holders(items: map<Ticket, Item>, h: Holder): set<Ticket> {
    set t | t in items && Holds(items[t], h)
  }

  /** Every gate counts exactly the requests that hold it, and stays within its capacity. */
  ghost predicate Balanced(gates: map<Holder, Gate>, items: map<Ticket, Item>) {
    && (forall h :: h in gates ==> gates[h].used == |Holders(items, h)| && gates[h].used <= gates[h].capacity)
    && (forall t, h :: t in items && Holds(items[t], h) ==> h in gates)
  }

  /** Its acknowledgement has failed. */
  predicate Failed(x: Item) {
    x.stage == AckFailing || x.stage == Leaked
  }

  /** Only streams are ever acknowledged, and only requests that came over a session hold a gate. */
  ghost predicate Sensible(items: map<Ticket, Item>) {
    forall t :: t in items ==>
      && (items[t].stage == Acking || Failed(items[t]) ==> items[t].kind == StreamWork)
      && (items[t].owner.None? ==> items[t].stage == Serving || items[t].stage == Done)
  }

  ghost predicate Inv(b: Books) {
    && RouterSlots(CallWork) in b.gates && RouterSlots(StreamWork) in b.gates
    && Balanced(b.gates, b.items) && Sensible(b.items)
  }

  /** Moving one request changes each count by what that request alone gained or lost. */
  lemma HoldersAfter(items: map<Ticket, Item>, t: Ticket, x: Item, h: Holder)
    ensures |Holders(items[t := x], h)| ==
            |Holders(items, h)| - (if t in items && Holds(items[t], h) then 1 else 0) + (if Holds(x, h) then 1 else 0)
  {
    var before, after := Holders(items, h), Holders(items[t := x], h);
    var others := before - {t};
    assert after == if Holds(x, h) then others + {t} else others;
    assert before == if t in items && Holds(items[t], h) then others + {t} else others;
  }

  predicate Held(items: map<Ticket, Item>, t: Ticket, h: Holder) {
    t in items && Holds(items[t], h)
  }

  /** A request that takes one slot. */
  lemma GainKeepsBalance(gates: map<Holder, Gate>, items: map<Ticket, Item>, t: Ticket, x: Item, h: Holder)
    requires Balanced(gates, items) && h in gates && Acquire(gates[h]).Some?
    requires !Held(items, t, h) && forall g :: Holds(x, g) <==> g == h || Held(items, t, g)
    ensures Balanced(gates[h := Acquire(gates[h]).value], items[t := x])
  {
    forall g | g in gates ensures |Holders(items[t := x], g)| == |Holders(items, g)| + if g == h then 1 else 0 {
      HoldersAfter(items, t, x, g);
    }
    hide Holders, Holds;
  }

  /** A request that gives one slot back. */
  lemma LossKeepsBalance(gates: map<Holder, Gate>, items: map<Ticket, Item>, t: Ticket, x: Item, h: Holder)
    requires Balanced(gates, items) && h in gates
    requires Held(items, t, h) && forall g :: Holds(x, g) <==> g != h && Held(items, t, g)
    ensures Balanced(gates[h := Release(gates[h])], items[t := x])
  {
    assert t in Holders(items, h);
    forall g | g in gates ensures |Holders(items[t := x], g)| == |Holders(items, g)| - if g == h then 1 else 0 {
      HoldersAfter(items, t, x, g);
    }
    hide Holders, Holds;
  }

  /** A request that moves on with what it has. */
  lemma MoveKeepsBalance(gates: map<Holder, Gate>, items: map<Ticket, Item>, t: Ticket, x: Item)
    requires Balanced(gates, items)
    requires forall g :: Holds(x, g) <==> Held(items, t, g)
    ensures Balanced(gates, items[t := x])
  {
    forall g | g in gates ensures |Holders(items[t := x], g)| == |Holders(items, g)| {
      HoldersAfter(items, t, x, g);
    }
    hide Holders, Holds;
  }

  lemma OpenKeepsBalance(b: Books, b': Books, s: SessionId, calls: nat, streams: nat)
    requires Inv(b) && Step(OpenSession(s, calls, streams), b, b')
    ensures Inv(b')
  {
    forall h | h in b'.gates && h !in b.gates ensures Holders(b.items, h) == {} {
      if t :| t in Holders(b.items, h) { assert false; }
    }
    hide Holds;
  }

  lemma TakeGateKeepsInv(l: Label, b: Books, b': Books)
    requires Inv(b) && l.TakeGate? && Step(l, b, b')
    ensures Inv(b')
  {
    GainKeepsBalance(b.gates, b.items, l.ticket, b'.items[l.ticket], SessionGate(l.session, l.kind));
    hide Balanced;
  }

  lemma PrepareKeepsInv(l: Label, b: Books, b': Books)
    requires Inv(b) && l.Prepare? && Step(l, b, b')
    ensures Inv(b')
  {
    if LetIn(b, b.items[l.ticket].kind, l.request) {
      AdmittedKeepsInv(l, b, b');
    } else {
      MoveKeepsBalance(b.gates, b.items, l.ticket, b'.items[l.ticket]);
      hide Balanced, Holds;
    }
  }

  lemma AdmittedKeepsInv(l: Label, b: Books, b': Books)
    requires Inv(b) && l.Prepare? && Step(l, b, b') && LetIn(b, b.items[l.ticket].kind, l.request)
    ensures Inv(b')
  {
    GainKeepsBalance(b.gates, b.items, l.ticket, b'.items[l.ticket], RouterSlots(b.items[l.ticket].kind));
    hide Balanced, Holds;
  }

  lemma InvokeKeepsInv(l: Label, b: Books, b': Books)
    requires Inv(b) && l.Invoke? && Step(l, b, b')
    ensures Inv(b')
  {
    if LetIn(b, l.kind, l.request) {
      GainKeepsBalance(b.gates, b.items, l.ticket, b'.items[l.ticket], RouterSlots(l.kind));
    }
    hide Balanced, Holds;
  }

  lemma ReturnKeepsInv(l: Label, b: Books, b': Books)
    requires Inv(b) && l.Return? && Step(l, b, b')
    ensures Inv(b')
  {
    LossKeepsBalance(b.gates, b.items, l.ticket, b'.items[l.ticket], RouterSlots(b.items[l.ticket].kind));
    hide Balanced, Holds;
  }

  lemma ReleaseKeepsInv(l: Label, b: Books, b': Books)
    requires Inv(b) && l.ReleaseGate? && Step(l, b, b')
    ensures Inv(b')
  {
    var x := b.items[l.ticket];
    LossKeepsBalance(b.gates, b.items, l.ticket, b'.items[l.ticket], SessionGate(x.owner.value, x.kind));
    hide Balanced, Holds;
  }

  lemma AcknowledgeKeepsInv(l: Label, b: Books, b': Books)
    requires Inv(b) && l.Acknowledge? && Step(l, b, b')
    ensures Inv(b')
  {
    MoveKeepsBalance(b.gates, b.items, l.ticket, b'.items[l.ticket]);
    hide Balanced;
  }

  lemma StepKeepsInv(l: Label, b: Books, b': Books)
    requires Inv(b) && Step(l, b, b')
    ensures Inv(b')
  {
    hide Inv, Step;
    match l
    case OpenSession(s, calls, streams) => OpenKeepsBalance(b, b', s, calls, streams);
    case TakeGate(_, _, _) => TakeGateKeepsInv(l, b, b');
    case Prepare(_, _) => PrepareKeepsInv(l, b, b');
    case Invoke(_, _, _) => InvokeKeepsInv(l, b, b');
    case Acknowledge(_, _) => AcknowledgeKeepsInv(l, b, b');
    case Return(_, _) => ReturnKeepsInv(l, b, b');
    case ReleaseGate(_) => ReleaseKeepsInv(l, b, b');
  }

  lemma {:induction false} RunKeepsInv(run: seq<Books>, labels: seq<Label>, n: nat)
    requires IsRun(run, labels) && n < |run|
    ensures Inv(run[n])
    decreases n
  {
    if n > 0 {
      assert Step(labels[n - 1], run[n - 1], run[n - 1 + 1]);
      hide Inv, Step, Init;
      RunKeepsInv(run, labels, n - 1);
      StepKeepsInv(labels[n - 1], run[n - 1], run[n]);
    }
  }

  lemma ReachableKeepsInv(b: Books)
    requires Reachable(b)
    ensures Inv(b)
  {
    var run, labels :| IsRun(run, labels) && run[|run| - 1] == b;
    RunKeepsInv(run, labels, |run| - 1);
    hide Inv;
  }

  // ------------------------------------------------------------ one reader for each session

  /** The reader of its session is busy with the request, or ended with it. */
  predicate Occupies(x: Item) {
    x.owner.Some? && (x.stage == Gated || x.stage == Acking || Failed(x))
  }

  /** A session's reader admits one request at a time, and none after a failed acknowledgement. */
  ghost predicate Serial(b: Books) {
    && (forall t, u :: t in b.items && u in b.items && t != u && Occupies(b.items[t]) && Occupies(b.items[u]) ==>
          b.items[t].owner != b.items[u].owner)
    && (forall t :: t in b.items && Failed(b.items[t]) ==> b.items[t].owner.Some? && b.items[t].owner.value in b.ended)
  }

  lemma StepKeepsSerial(l: Label, b: Books, b': Books)
    requires Serial(b) && Sensible(b.items) && Step(l, b, b')
    ensures Serial(b')
  {
    if l.TakeGate? {
      hide Admitted;
    } else if l.Acknowledge? {
      AcknowledgeKeepsSerial(l, b, b');
    } else {
      MoveOnKeepsSerial(l, b, b');
    }
  }

  lemma AcknowledgeKeepsSerial(l: Label, b: Books, b': Books)
    requires Serial(b) && Sensible(b.items) && Step(l, b, b') && l.Acknowledge?
    ensures Serial(b')
  {
  }

  lemma MoveOnKeepsSerial(l: Label, b: Books, b': Books)
    requires Serial(b) && Sensible(b.items) && Step(l, b, b') && !l.TakeGate? && !l.Acknowledge?
    ensures Serial(b')
  {
    hide Serial;
    if l.Prepare? || l.Return? || l.ReleaseGate? || (l.Invoke? && b'.items != b.items) {
      OneMoveKeepsSerial(b, b', l.ticket, b'.items[l.ticket]);
    } else {
      SameItemsKeepSerial(b, b');
    }
  }

  lemma OneMoveKeepsSerial(b: Books, b': Books, t: Ticket, x: Item)
    requires Serial(b) && b'.items == b.items[t := x] && b'.ended == b.ended
    requires Occupies(x) ==> t in b.items && Occupies(b.items[t]) && b.items[t].owner == x.owner
    requires Failed(x) ==> t in b.items && Failed(b.items[t]) && b.items[t].owner == x.owner
    ensures Serial(b')
  {
    hide Occupies, Failed;
  }

  lemma SameItemsKeepSerial(b: Books, b': Books)
    requires Serial(b) && b'.items == b.items && b'.ended == b.ended
    ensures Serial(b')
  {
  }

  lemma {:induction false} RunKeepsSerial(run: seq<Books>, labels: seq<Label>, n: nat)
    requires IsRun(run, labels) && n < |run|
    ensures Serial(run[n])
    decreases n
  {
    hide Step;
    if n > 0 {
      assert Step(labels[n - 1], run[n - 1], run[n - 1 + 1]);
      hide Init, Serial;
      RunKeepsSerial(run, labels, n - 1);
      RunKeepsInv(run, labels, n - 1);
      hide Balanced, Sensible;
      StepKeepsSerial(labels[n - 1], run[n - 1], run[n]);
    }
  }

  /** A session loses at most one slot: it ends with the first acknowledgement that fails, and takes nothing more. */
  lemma OneLossForEachSession(b: Books, t: Ticket, u: Ticket)
    requires Reachable(b) && t in LeakedStreams(b.items) && u in LeakedStreams(b.items) && t != u
    ensures b.items[t].owner.Some? && b.items[t].owner.value in b.ended && b.items[t].owner != b.items[u].owner
  {
    hide Step;
    var run, labels :| IsRun(run, labels) && run[|run| - 1] == b;
    RunKeepsSerial(run, labels, |run| - 1);
  }

  /** And after that the session takes no gate any more. */
  lemma EndedSessionTakesNothing(b: Books, b': Books, t: Ticket, kind: Work, u: Ticket)
    requires Reachable(b) && t in LeakedStreams(b.items)
    ensures b.items[t].owner.Some? && !Step(TakeGate(u, b.items[t].owner.value, kind), b, b')
  {
    var run, labels :| IsRun(run, labels) && run[|run| - 1] == b by { hide Step; }
    RunKeepsSerial(run, labels, |run| - 1);
    hide Reachable, IsRun;
  }

  // ------------------------------------------------------------ theorems

  /** Requests the router admitted whose handler has not returned. */
  ghost function InProgress(b: Books, kind: Work): set<Ticket> {
    set t | t in b.items && b.items[t].kind == kind && b.items[t].stage == Serving
  }

  /** Streams the router admitted whose acknowledgement is outstanding or failed. */
  ghost function NeverServed(b: Books): set<Ticket> {
    set t | t in b.items && b.items[t].kind == StreamWork &&
            (b.items[t].stage == Acking || b.items[t].stage == AckFailing || b.items[t].stage == Leaked)
  }

  lemma CallHolders(b: Books)
    requires Sensible(b.items)
    ensures Holders(b.items, RouterSlots(CallWork)) == InProgress(b, CallWork)
  {
  }

  lemma StreamHolders(b: Books)
    ensures |Holders(b.items, RouterSlots(StreamWork))| == |InProgress(b, StreamWork)| + |NeverServed(b)|
  {
    assert Holders(b.items, RouterSlots(StreamWork)) == InProgress(b, StreamWork) + NeverServed(b);
    assert InProgress(b, StreamWork) !! NeverServed(b);
  }

  /**
   Call slots in use are exactly the admitted calls that have not returned; stream slots are the
   streams being served and, beside them, those whose acknowledgement is pending or has failed.
   No limit is ever exceeded.
   */
  lemma SlotsAreExact(b: Books)
    requires Reachable(b)
    ensures RouterSlots(CallWork) in b.gates && RouterSlots(StreamWork) in b.gates
    ensures b.gates[RouterSlots(CallWork)].used == |InProgress(b, CallWork)| <= b.gates[RouterSlots(CallWork)].capacity
    ensures b.gates[RouterSlots(StreamWork)].used == |InProgress(b, StreamWork)| + |NeverServed(b)|
            <= b.gates[RouterSlots(StreamWork)].capacity
    ensures forall s: SessionId, kind :: SessionGate(s, kind) in b.gates ==>
              b.gates[SessionGate(s, kind)].used <= b.gates[SessionGate(s, kind)].capacity
  {
    hide Reachable;
    ReachableKeepsInv(b);
    CallHolders(b);
    StreamHolders(b);
    hide Holders, InProgress, NeverServed, Sensible;
  }

  /** A session's gate counts the requests of that session that are not finished with it. */
  lemma GatesAreExact(b: Books, s: SessionId, kind: Work)
    requires Reachable(b) && SessionGate(s, kind) in b.gates
    ensures b.gates[SessionGate(s, kind)].used ==
            |set t | t in b.items && b.items[t].kind == kind && b.items[t].owner == Some(s)
                     && b.items[t].stage != Leaked && b.items[t].stage != Done|
  {
    ReachableKeepsInv(b);
    assert Holders(b.items, SessionGate(s, kind)) ==
           set t | t in b.items && b.items[t].kind == kind && b.items[t].owner == Some(s)
                   && b.items[t].stage != Leaked && b.items[t].stage != Done;
  }

  /** A release never finds its channel empty: it always gives back what was taken. */
  lemma ReleaseNeverFindsNothing(l: Label, b: Books, b': Books)
    requires Reachable(b) && Step(l, b, b')
    ensures l.Return? ==>
              var h := RouterSlots(b.items[l.ticket].kind);
              b.gates[h].used > 0 && b'.gates[h].used == b.gates[h].used - 1
    ensures l.ReleaseGate? ==>
              var h := SessionGate(b.items[l.ticket].owner.value, b.items[l.ticket].kind);
              b.gates[h].used > 0 && b'.gates[h].used == b.gates[h].used - 1
  {
    ReachableKeepsInv(b);
    if l.Return? {
      assert l.ticket in Holders(b.items, RouterSlots(b.items[l.ticket].kind));
    }
    if l.ReleaseGate? {
      assert l.ticket in Holders(b.items, SessionGate(b.items[l.ticket].owner.value, b.items[l.ticket].kind));
    }
  }

  /** When every request is over, nothing is held but the slots of streams that were never served. */
  lemma NothingIsHeldAtRest(b: Books)
    requires Reachable(b) && forall t :: t in b.items ==> b.items[t].stage == Done || b.items[t].stage == Leaked
    ensures RouterSlots(CallWork) in b.gates && b.gates[RouterSlots(CallWork)].used == 0
    ensures RouterSlots(StreamWork) in b.gates && b.gates[RouterSlots(StreamWork)].used == |NeverServed(b)|
    ensures forall s: SessionId, kind :: SessionGate(s, kind) in b.gates ==> b.gates[SessionGate(s, kind)].used == 0
  {
    SlotsAreExact(b);
    assert InProgress(b, CallWork) == {} && InProgress(b, StreamWork) == {};
    forall s: SessionId, kind | SessionGate(s, kind) in b.gates ensures b.gates[SessionGate(s, kind)].used == 0 {
      GatesAreExact(b, s, kind);
      assert (set t | t in b.items && b.items[t].kind == kind && b.items[t].owner == Some(s)
                      && b.items[t].stage != Leaked && b.items[t].stage != Done) == {};
    }
  }

  /** The streams whose acknowledgement has failed. */
  ghost function LeakedStreams(items: map<Ticket, Item>): set<Ticket> {
    set t | t in items && Failed(items[t])
  }

  lemma StepKeepsLeaks(l: Label, b: Books, b': Books)
    requires Step(l, b, b')
    ensures LeakedStreams(b.items) <= LeakedStreams(b'.items)
  {
  }

  lemma StepKeepsCapacities(l: Label, b: Books, b': Books)
    requires Step(l, b, b')
    ensures b.gates.Keys <= b'.gates.Keys
    ensures forall h :: h in b.gates ==> b'.gates[h].capacity == b.gates[h].capacity
  {
  }

  lemma {:induction false} LeaksStay(run: seq<Books>, labels: seq<Label>, m: nat, n: nat)
    requires IsRun(run, labels) && m <= n < |run|
    ensures LeakedStreams(run[m].items) <= LeakedStreams(run[n].items)
    ensures run[m].gates.Keys <= run[n].gates.Keys
    ensures forall h :: h in run[m].gates ==> run[n].gates[h].capacity == run[m].gates[h].capacity
    decreases n
  {
    hide LeakedStreams, Init, Step;
    if m < n {
      assert Step(labels[n - 1], run[n - 1], run[n - 1 + 1]);
      LeaksStay(run, labels, m, n - 1);
      StepKeepsLeaks(labels[n - 1], run[n - 1], run[n]);
      StepKeepsCapacities(labels[n - 1], run[n - 1], run[n]);
    }
  }

  lemma LeakedHoldSlots(b: Books)
    requires Inv(b)
    ensures LeakedStreams(b.items) <= Holders(b.items, RouterSlots(StreamWork))
  {
    hide Balanced;
  }

  /** A slot lost to a failed acknowledgement is lost for good: it stays in use in every later state. */
  lemma LeaksAreForever(run: seq<Books>, labels: seq<Label>, m: nat, n: nat)
    requires IsRun(run, labels) && m <= n < |run|
    ensures RouterSlots(StreamWork) in run[n].gates
    ensures run[n].gates[RouterSlots(StreamWork)].used >= |LeakedStreams(run[m].items)|
  {
    RunKeepsInv(run, labels, n);
    LeaksStay(run, labels, m, n);
    LeakedHoldSlots(run[n]);
    hide IsRun, LeakedStreams, Holders;
    SubsetIsSmaller(LeakedStreams(run[m].items), Holders(run[n].items, RouterSlots(StreamWork)));
  }

  /** Once as many acknowledgements have failed as there are stream slots, no stream is served again. */
  lemma ExhaustedForGood(run: seq<Books>, labels: seq<Label>, m: nat, n: nat, q: Request)
    requires IsRun(run, labels) && m <= n < |run| && RouterSlots(StreamWork) in run[m].gates
    requires |LeakedStreams(run[m].items)| == run[m].gates[RouterSlots(StreamWork)].capacity
    ensures !LetIn(run[n], StreamWork, q)
  {
    LeaksAreForever(run, labels, m, n);
    LeaksStay(run, labels, m, n);
    hide IsRun, LeakedStreams;
  }

  lemma SubsetIsSmaller(a: set<Ticket>, b: set<Ticket>)
    requires a <= b
    ensures |a| <= |b|
  {
    assert b == a + (b - a);
  }

  // ------------------------------------------------------------ every budget can be lost

  lemma ReachableByStep(b: Books, b': Books, l: Label)
    requires Reachable(b) && Step(l, b, b')
    ensures Reachable(b')
  {
    hide Step, Init;
    var run, labels :| IsRun(run, labels) && run[|run| - 1] == b;
    assert IsRun(run + [b'], labels + [l]);
  }

  /** `lost` sessions, each ended by the failed acknowledgement of its one stream. */
  function AfterLosses(maxMessageBytes: nat, calls: nat, streams: nat, lost: nat): Books {
    Books(maxMessageBytes,
          LostGates(lost)[RouterSlots(CallWork) := Gate(calls, 0)][RouterSlots(StreamWork) := Gate(streams, lost)],
          LostItems(lost), LostSessions(lost))
  }

  function LostGates(lost: nat): map<Holder, Gate> {
    if lost == 0 then map[]
    else LostGates(lost - 1)[SessionGate(lost - 1, CallWork) := Gate(1, 0)]
                            [SessionGate(lost - 1, StreamWork) := Gate(1, 0)]
  }

  function LostItems(lost: nat): map<Ticket, Item> {
    if lost == 0 then map[] else LostItems(lost - 1)[lost - 1 := Item(StreamWork, Some(lost - 1), Leaked)]
  }

  function LostSessions(lost: nat): set<SessionId> {
    if lost == 0 then {} else LostSessions(lost - 1) + {lost - 1}
  }

  /** Nothing of a session that is still to come is there yet. */
  lemma {:induction false} LossesAreEarlier(lost: nat)
    ensures forall t: Ticket :: t in LostItems(lost) <==> t < lost
    ensures forall t: Ticket :: t in LostItems(lost) ==> LostItems(lost)[t] == Item(StreamWork, Some(t), Leaked)
    ensures forall s: SessionId :: s in LostSessions(lost) ==> s < lost
    ensures forall s: SessionId, kind :: SessionGate(s, kind) in LostGates(lost) ==> s < lost
  {
    if lost > 0 { LossesAreEarlier(lost - 1); }
  }

  lemma NoLossYet(maxMessageBytes: nat, calls: nat, streams: nat)
    ensures Reachable(AfterLosses(maxMessageBytes, calls, streams, 0))
  {
    var b := AfterLosses(maxMessageBytes, calls, streams, 0);
    var run, labels: seq<Label> := [b], [];
    assert b.gates.Keys == {RouterSlots(CallWork), RouterSlots(StreamWork)};
    assert IsRun(run, labels) && run[|run| - 1] == b;
  }

  /** A new session opens, its stream is admitted, and the acknowledgement fails. */
  lemma OneMoreLoss(maxMessageBytes: nat, calls: nat, streams: nat, lost: nat)
    requires lost < streams && Reachable(AfterLosses(maxMessageBytes, calls, streams, lost))
    ensures Reachable(AfterLosses(maxMessageBytes, calls, streams, lost + 1))
  {
    hide Reachable;
    LossesAreEarlier(lost);
    var b := AfterLosses(maxMessageBytes, calls, streams, lost);
    var b1 := SessionOpens(b, lost);
    var b2 := StreamIsAdmitted(b1, lost);
    var b3 := AcknowledgementFails(b2, lost);
    GatesAfterLoss(calls, streams, lost);
    assert b3 == AfterLosses(maxMessageBytes, calls, streams, lost + 1);
  }

  lemma SessionOpens(b: Books, s: SessionId) returns (z: Books)
    requires Reachable(b) && SessionGate(s, CallWork) !in b.gates && SessionGate(s, StreamWork) !in b.gates
    ensures Reachable(z)
    ensures z == b.(gates := b.gates[SessionGate(s, CallWork) := Gate(1, 0)][SessionGate(s, StreamWork) := Gate(1, 0)])
  {
    z := SetGate(SetGate(b, SessionGate(s, CallWork), Gate(1, 0)), SessionGate(s, StreamWork), Gate(1, 0));
    assert Step(OpenSession(s, 1, 1), b, z);
    hide Step, Reachable;
    ReachableByStep(b, z, OpenSession(s, 1, 1));
  }

  /** What the gates come to after one more session has come and gone. */
  lemma GatesAfterLoss(calls: nat, streams: nat, lost: nat)
    ensures var own, slots := SessionGate(lost, StreamWork), RouterSlots(StreamWork);
            var gates := LostGates(lost)[RouterSlots(CallWork) := Gate(calls, 0)][slots := Gate(streams, lost)];
            gates[SessionGate(lost, CallWork) := Gate(1, 0)][own := Gate(1, 0)][own := Gate(1, 1)]
                 [slots := Gate(streams, lost + 1)][own := Gate(1, 0)]
            == LostGates(lost + 1)[RouterSlots(CallWork) := Gate(calls, 0)][slots := Gate(streams, lost + 1)]
  {
  }

  /** The session's gate and a router slot are taken. */
  lemma StreamIsAdmitted(b: Books, t: Ticket) returns (z: Books)
    requires Reachable(b) && t !in b.items && t !in b.ended && ReaderFree(b, t)
    requires SessionGate(t, StreamWork) in b.gates && b.gates[SessionGate(t, StreamWork)] == Gate(1, 0)
    requires RouterSlots(StreamWork) in b.gates
    requires b.gates[RouterSlots(StreamWork)].used < b.gates[RouterSlots(StreamWork)].capacity
    ensures Reachable(z) && z.maxMessageBytes == b.maxMessageBytes && z.ended == b.ended
    ensures var r := b.gates[RouterSlots(StreamWork)];
            z.gates == b.gates[SessionGate(t, StreamWork) := Gate(1, 1)]
                              [RouterSlots(StreamWork) := r.(used := r.used + 1)]
    ensures z.items == b.items[t := Item(StreamWork, Some(t), Acking)]
  {
    hide Reachable;
    var q := Request(true, 0, true, None, Allow);
    var r := b.gates[RouterSlots(StreamWork)];
    var b1 := SetGate(b, SessionGate(t, StreamWork), Gate(1, 1)).(
      items := b.items[t := Item(StreamWork, Some(t), Gated)]);
    assert Step(TakeGate(t, t, StreamWork), b, b1);
    z := Move(SetGate(b1, RouterSlots(StreamWork), r.(used := r.used + 1)), t, Acking);
    assert Step(Prepare(t, q), b1, z);
    hide Step;
    ReachableByStep(b, b1, TakeGate(t, t, StreamWork));
    ReachableByStep(b1, z, Prepare(t, q));
  }

  /** The acknowledgement fails and ends its session; the gate is given back, the router slot is not. */
  lemma AcknowledgementFails(b: Books, t: Ticket) returns (z: Books)
    requires Reachable(b) && t in b.items && b.items[t] == Item(StreamWork, Some(t), Acking)
    requires SessionGate(t, StreamWork) in b.gates && b.gates[SessionGate(t, StreamWork)] == Gate(1, 1)
    ensures Reachable(z) && z.maxMessageBytes == b.maxMessageBytes && z.ended == b.ended + {t}
    ensures z.gates == b.gates[SessionGate(t, StreamWork) := Gate(1, 0)]
    ensures z.items == b.items[t := Item(StreamWork, Some(t), Leaked)]
  {
    hide Reachable;
    var b1 := EndSession(Move(b, t, AckFailing), Some(t));
    assert Step(Acknowledge(t, false), b, b1);
    z := Move(SetGate(b1, SessionGate(t, StreamWork), Gate(1, 0)), t, Leaked);
    assert Step(ReleaseGate(t), b1, z);
    hide Step;
    ReachableByStep(b, b1, Acknowledge(t, false));
    ReachableByStep(b1, z, ReleaseGate(t));
  }

  lemma OneMoreLeak(lost: nat)
    ensures |LeakedStreams(LostItems(lost + 1))| == |LeakedStreams(LostItems(lost))| + 1
  {
    LossesAreEarlier(lost);
    assert LeakedStreams(LostItems(lost + 1)) == LeakedStreams(LostItems(lost)) + {lost};
    assert lost !in LeakedStreams(LostItems(lost));
  }

  lemma {:induction false} LossesAdd(maxMessageBytes: nat, calls: nat, streams: nat, lost: nat)
    requires lost <= streams
    ensures Reachable(AfterLosses(maxMessageBytes, calls, streams, lost))
    ensures |LeakedStreams(AfterLosses(maxMessageBytes, calls, streams, lost).items)| == lost
  {
    if lost == 0 {
      NoLossYet(maxMessageBytes, calls, streams);
      assert LeakedStreams(AfterLosses(maxMessageBytes, calls, streams, 0).items) == {};
    } else {
      hide Reachable;
      LossesAdd(maxMessageBytes, calls, streams, lost - 1);
      OneMoreLoss(maxMessageBytes, calls, streams, lost - 1);
      OneMoreLeak(lost - 1);
      hide LeakedStreams, LostItems;
    }
  }

  /**
   Whatever the limits, failed acknowledgements can use up the whole stream budget: a reachable
   state in which every slot is lost, each on a session of its own that has ended since, and no
   stream is being served. No stream is admitted from there on, by ExhaustedForGood.
   */
  lemma EveryBudgetCanBeLost(maxMessageBytes: nat, calls: nat, streams: nat, q: Request) returns (b: Books)
    ensures Reachable(b) && b.maxMessageBytes == maxMessageBytes
    ensures RouterSlots(StreamWork) in b.gates && b.gates[RouterSlots(StreamWork)] == Gate(streams, streams)
    ensures |LeakedStreams(b.items)| == streams && InProgress(b, StreamWork) == {} && !LetIn(b, StreamWork, q)
    ensures forall t, u :: t in b.items && u in b.items && t != u ==> b.items[t].owner != b.items[u].owner
  {
    LossesAdd(maxMessageBytes, calls, streams, streams);
    LossesAreEarlier(streams);
    b := AfterLosses(maxMessageBytes, calls, streams, streams);
    hide Reachable;
  }
}
