/**
 The revocation manager among its connections: TrackConnection, Apply, Close, expiry callbacks
 and the Close of each connection, in any interleaving, under one clock that never goes back.

 A stopped timer is not taken out of `callbacks`: Stop may come too late, and a callback of an
 old generation must then be harmless.
 */
module Fencing {
  import opened Status
  import opened Codec
  import opened Canonical
  import opened TrustRoots
  import opened CheckpointDigest
  import opened Revocation
  import opened RevocationManager
  import opened RevocationHistory
  import opened RevocationRules

  /**
   The connections: what each one presented when it was tracked, those handed to a fence that has
   not called Close on them yet, those whose Close has begun, and how often each transport was closed.
   */
  datatype Connections = Connections(
    presented: map<Conn, seq<Chain>>,
    fencing: set<Conn>,
    begun: set<Conn>,
    closes: map<Conn, nat>)

  datatype World = World(m: Manager, clock: Time, callbacks: set<Timer>, conns: Connections)

  datatype Label =
    | Tick(now: Time)
    | Track(conn: Conn, chains: seq<Chain>)
    | Apply(bundle: Bundle)
    | CloseManager
    | Fire(timer: Timer)
    | CloseByUser(conn: Conn)
    | CloseByFence(conn: Conn)
    | Forget(conn: Conn)

  function Scheduled(m: Manager): set<Timer> {
    if m.timer.Some? then {m.timer.value} else {}
  }

  /** The lock is released and what is no longer active goes to a fence. */
  function HandOver(c: Connections, before: set<Conn>, after: set<Conn>): Connections {
    c.(fencing := c.fencing + (before - after))
  }

  /** once.Do around the transport's Close. */
  function BeginClose(c: Connections, conn: Conn): Connections {
    if conn in c.begun || conn !in c.closes then c
    else c.(begun := c.begun + {conn}, closes := c.closes[conn := c.closes[conn] + 1])
  }

  ghost predicate Step(l: Label, w: World, w': World) {
    match l
    case Tick(now) => now >= w.clock && w' == w.(clock := now)
    case Track(conn, chains) =>
      && conn !in w.conns.presented
      && w' == if AdmittedBy(w.m, chains, w.clock)
               then w.(m := w.m.(active := w.m.active + {conn}),
                       conns := w.conns.(presented := w.conns.presented[conn := chains],
                                         closes := w.conns.closes[conn := 0]))
               else w
    case Apply(bundle) =>
      var m' := AfterApply(w.m, bundle, w.clock);
      w' == w.(m := m', callbacks := w.callbacks + Scheduled(m'), conns := HandOver(w.conns, w.m.active, m'.active))
    case CloseManager =>
      w' == w.(m := AfterClose(w.m), conns := HandOver(w.conns, w.m.active, {}))
    case Fire(t) =>
      && t in w.callbacks && t.deadline <= w.clock
      && var m' := AfterExpiry(w.m, t.generation);
         w' == w.(m := m', callbacks := w.callbacks - {t}, conns := HandOver(w.conns, w.m.active, m'.active))
    case CloseByUser(conn) => conn in w.conns.presented && w' == w.(conns := BeginClose(w.conns, conn))
    case CloseByFence(conn) =>
      && conn in w.conns.fencing
      && w' == w.(conns := BeginClose(w.conns, conn).(fencing := w.conns.fencing - {conn}))
    case Forget(conn) =>
      && conn in w.conns.begun
      && w' == w.(m := w.m.(active := w.m.active - {conn}))
  }

  ghost predicate Init(w: World, roots: seq<Root>, stored: Option<Checkpoint>) {
    && Startable(roots, stored) && w.m == Fresh(roots, stored) && w.clock >= 0
    && w.callbacks == Scheduled(w.m) && w.conns == Connections(map[], {}, {}, map[])
  }

  ghost predicate IsRun(run: seq<World>, labels: seq<Label>, roots: seq<Root>, stored: Option<Checkpoint>) {
    && |run| == |labels| + 1 && Init(run[0], roots, stored)
    && forall i :: 0 <= i < |labels| ==> Step(labels[i], run[i], run[i + 1])
  }

  // ------------------------------------------------------------ connections

  /** Every active connection presented chains that are covered and unrevoked under the current checkpoint. */
  ghost predicate ActiveAreClear(active: set<Conn>, issuers: seq<IssuerState>, presented: map<Conn, seq<Chain>>) {
    forall c :: c in active ==> c in presented && AllClear(issuers, presented[c])
  }

  /** Every connection ever tracked is active, in a fence's hands, or closing; its transport closes at most once. */
  ghost predicate Accounted(active: set<Conn>, c: Connections) {
    && c.closes.Keys == c.presented.Keys
    && c.fencing <= c.presented.Keys && c.begun <= c.presented.Keys && c.fencing !! active
    && (forall x :: x in c.presented ==> x in active || x in c.fencing || x in c.begun)
    && (forall x :: x in c.closes ==> c.closes[x] == if x in c.begun then 1 else 0)
  }

  // ------------------------------------------------------------ timers

  /** The current timer is pending at the earliest expiry, or it has fired and nothing is active. */
  ghost predicate TimerSound(m: Manager, clock: Time, callbacks: set<Timer>) {
    && (forall t :: t in callbacks ==> t.generation <= m.generation)
    && (forall t :: t in callbacks && t.generation == m.generation ==> m.timer == Some(t))
    && (m.timer.Some? ==>
          && m.timer.value in callbacks && !m.closed && m.checkpoint.issuers != []
          && m.timer.value == Timer(m.generation, Earliest(m.checkpoint.issuers)))
    && (m.timer.None? ==>
          m.active == {} && (m.closed || m.checkpoint.issuers == [] || Earliest(m.checkpoint.issuers) <= clock))
  }

  ghost predicate Inv(w: World) {
    && Sound(w.m) && w.clock >= 0
    && ActiveAreClear(w.m.active, w.m.checkpoint.issuers, w.conns.presented)
    && Accounted(w.m.active, w.conns)
    && TimerSound(w.m, w.clock, w.callbacks)
  }

  lemma SoundEarliest(m: Manager)
    requires Sound(m) && m.checkpoint.issuers != []
    ensures Earliest(m.checkpoint.issuers) != 0
    ensures forall i :: 0 <= i < |m.checkpoint.issuers| ==>
                        Earliest(m.checkpoint.issuers) <= m.checkpoint.issuers[i].nextUpdate
    ensures exists i :: 0 <= i < |m.checkpoint.issuers| &&
                        Earliest(m.checkpoint.issuers) == m.checkpoint.issuers[i].nextUpdate
  {
    var issuers := m.checkpoint.issuers;
    assert forall i :: 0 <= i < |issuers| ==> issuers[i].nextUpdate != 0 by {
      forall i | 0 <= i < |issuers| ensures issuers[i].nextUpdate != 0 { assert RestorableState(issuers[i]); }
      hide WellFormedState, BundleHash;
    }
    hide CheckpointValid, CoversRoots, Sound;
    EarliestIsMinimum(issuers);
  }

  /** After the current CRLs expire nothing is admitted. */
  lemma ExpiredAdmitsNothing(m: Manager, chains: seq<Chain>, now: Time)
    requires Sound(m) && m.checkpoint.issuers != [] && Earliest(m.checkpoint.issuers) <= now
    ensures !AdmittedBy(m, chains, now)
  {
    SoundEarliest(m);
    hide Sound, AllClear;
  }

  // ------------------------------------------------------------ steps

  lemma TrackKeepsInv(w: World, w': World, conn: Conn, chains: seq<Chain>)
    requires Inv(w) && Step(Track(conn, chains), w, w')
    ensures Inv(w')
  {
    if w' != w && w.m.timer.None? && w.m.checkpoint.issuers != [] && !w.m.closed {
      ExpiredAdmitsNothing(w.m, chains, w.clock);
      assert false;
    }
    hide CheckpointValid, CoversRoots, AllClear, Earliest;
  }

  lemma HandOverKeepsAccounts(active: set<Conn>, active': set<Conn>, c: Connections)
    requires Accounted(active, c) && active' <= active
    requires forall x :: x in active ==> x in c.presented
    ensures Accounted(active', HandOver(c, active, active'))
  {
  }

  /** A change of checkpoint: nothing is active and a new generation is scheduled. */
  lemma InstallKeepsInv(w: World, w': World, bundle: Bundle)
    requires Inv(w) && Step(Apply(bundle), w, w') && w'.m != w.m
    ensures Inv(w')
  {
    ApplyKeepsSound(w.m, bundle, w.clock);
    InstallFacts(w.m, bundle, w.clock);
    HandOverKeepsAccounts(w.m.active, {}, w.conns);
    hide AfterApply, Accounted;
    SoundEarliest(w'.m);
    hide Sound, Earliest;
    InstalledTimerIsSound(w.m, w'.m, w.clock, w.callbacks);
  }

  /** What a changed bundle leaves behind. */
  lemma InstallFacts(m: Manager, bundle: Bundle, now: Time)
    requires AfterApply(m, bundle, now) != m && now >= 0
    ensures var m' := AfterApply(m, bundle, now);
            m'.checkpoint.issuers != [] && !m'.closed &&
            m' == Reschedule(m.(active := {}, bundleHash := m'.bundleHash, checkpoint := m'.checkpoint),
                             m'.checkpoint.issuers)
  {
    NextIsValid(m, bundle, now);
    hide Acceptable, NextCheckpoint, Earliest, CheckpointValid, CoversRoots;
  }

  lemma InstalledTimerIsSound(m: Manager, m': Manager, clock: Time, callbacks: set<Timer>)
    requires TimerSound(m, clock, callbacks) && m'.generation == m.generation + 1 && !m'.closed && m'.active == {}
    requires m'.checkpoint.issuers != []
    requires m'.timer == Some(Timer(m'.generation, Earliest(m'.checkpoint.issuers)))
    ensures TimerSound(m', clock, callbacks + Scheduled(m'))
  {
    hide Earliest;
  }

  lemma ApplyKeepsInv(w: World, w': World, bundle: Bundle)
    requires Inv(w) && Step(Apply(bundle), w, w')
    ensures Inv(w')
  {
    if w'.m != w.m {
      InstallKeepsInv(w, w', bundle);
    } else {
      assert Scheduled(w.m) <= w.callbacks;
      assert w'.conns == w.conns;
    }
    hide AfterApply, Sound, ActiveAreClear, Accounted;
  }

  lemma CloseKeepsInv(w: World, w': World)
    requires Inv(w) && Step(CloseManager, w, w')
    ensures Inv(w')
  {
    HandOverKeepsAccounts(w.m.active, {}, w.conns);
    hide CheckpointValid, CoversRoots, AllClear, Earliest, Accounted;
  }

  lemma FireKeepsInv(w: World, w': World, t: Timer)
    requires Inv(w) && Step(Fire(t), w, w')
    ensures Inv(w')
  {
    HandOverKeepsAccounts(w.m.active, w'.m.active, w.conns);
    hide CheckpointValid, CoversRoots, AllClear, Earliest, Accounted;
  }

  lemma CloseConnKeepsInv(l: Label, w: World, w': World)
    requires Inv(w) && Step(l, w, w') && (l.CloseByUser? || l.CloseByFence? || l.Forget? || l.Tick?)
    ensures Inv(w')
  {
    hide CheckpointValid, CoversRoots, AllClear, Earliest;
  }

  lemma StepKeepsInv(l: Label, w: World, w': World)
    requires Inv(w) && Step(l, w, w')
    ensures Inv(w')
  {
    hide Inv, Step;
    match l
    case Track(conn, chains) => TrackKeepsInv(w, w', conn, chains);
    case Apply(bundle) => ApplyKeepsInv(w, w', bundle);
    case CloseManager => CloseKeepsInv(w, w');
    case Fire(t) => FireKeepsInv(w, w', t);
    case _ => CloseConnKeepsInv(l, w, w');
  }

  lemma InitHasInv(w: World, roots: seq<Root>, stored: Option<Checkpoint>)
    requires Init(w, roots, stored)
    ensures Inv(w)
  {
    FreshIsSound(roots, stored);
    if w.m.checkpoint.issuers != [] { SoundEarliest(w.m); }
    hide Sound, Startable, RootsDigest, SortBy, BundleHash;
  }

  lemma {:induction false} RunKeepsInv(run: seq<World>, labels: seq<Label>, roots: seq<Root>,
                                       stored: Option<Checkpoint>, n: nat)
    requires IsRun(run, labels, roots, stored) && n < |run|
    ensures Inv(run[n])
    decreases n
  {
    hide Inv, Step, Init;
    if n == 0 {
      InitHasInv(run[0], roots, stored);
    } else {
      assert Step(labels[n - 1], run[n - 1], run[n - 1 + 1]);
      RunKeepsInv(run, labels, roots, stored, n - 1);
      StepKeepsInv(labels[n - 1], run[n - 1], run[n]);
    }
  }

  // ------------------------------------------------------------ theorems: fencing

  /**
   In every reachable state each active connection's chains are fully covered and unrevoked under
   the current checkpoint; every connection ever tracked is active, handed to a fence, or closing;
   and no transport is closed twice.
   */
  lemma ConnectionsAreFenced(run: seq<World>, labels: seq<Label>, roots: seq<Root>, stored: Option<Checkpoint>,
                             n: nat, c: Conn)
    requires IsRun(run, labels, roots, stored) && n < |run| && c in run[n].conns.presented
    ensures c in run[n].m.active ==> AllClear(run[n].m.checkpoint.issuers, run[n].conns.presented[c])
    ensures c in run[n].m.active || c in run[n].conns.fencing || c in run[n].conns.begun
    ensures !(c in run[n].m.active && c in run[n].conns.fencing)
    ensures c in run[n].conns.closes && run[n].conns.closes[c] == if c in run[n].conns.begun then 1 else 0
  {
    RunKeepsInv(run, labels, roots, stored, n);
    hide IsRun, Sound, TimerSound, AllClear;
  }

  /** When the fences have done their work, every connection that is no longer active has been closed once. */
  lemma FencedIsClosed(run: seq<World>, labels: seq<Label>, roots: seq<Root>, stored: Option<Checkpoint>, n: nat,
                       c: Conn)
    requires IsRun(run, labels, roots, stored) && n < |run| && run[n].conns.fencing == {}
    requires c in run[n].conns.presented && c !in run[n].m.active
    ensures c in run[n].conns.closes && run[n].conns.closes[c] == 1
  {
    ConnectionsAreFenced(run, labels, roots, stored, n, c);
    hide IsRun;
  }

  /** A connection that has left the active set never comes back. */
  lemma {:induction false} NeverActiveAgain(run: seq<World>, labels: seq<Label>, roots: seq<Root>,
                                            stored: Option<Checkpoint>, m: nat, n: nat, c: Conn)
    requires IsRun(run, labels, roots, stored) && m <= n < |run|
    requires c in run[m].conns.presented && c !in run[m].m.active
    ensures c in run[n].conns.presented && c !in run[n].m.active
    decreases n
  {
    hide Init;
    if m < n {
      assert Step(labels[n - 1], run[n - 1], run[n - 1 + 1]);
      NeverActiveAgain(run, labels, roots, stored, m, n - 1, c);
      hide AcceptedBy, AdmittedBy, NextCheckpoint, Earliest;
    }
  }

  // ------------------------------------------------------------ theorems: expiry

  /** While anything is active exactly one callback of the current generation is pending, at the earliest expiry. */
  lemma TimerIsPending(run: seq<World>, labels: seq<Label>, roots: seq<Root>, stored: Option<Checkpoint>, n: nat)
    requires IsRun(run, labels, roots, stored) && n < |run| && run[n].m.active != {}
    ensures var m := run[n].m;
            exists t ::
              && t in run[n].callbacks && t.generation == m.generation
              && (forall u :: u in run[n].callbacks && u.generation == m.generation ==> u == t)
              && (forall i :: 0 <= i < |m.checkpoint.issuers| ==> t.deadline <= m.checkpoint.issuers[i].nextUpdate)
              && (exists i :: 0 <= i < |m.checkpoint.issuers| && t.deadline == m.checkpoint.issuers[i].nextUpdate)
  {
    RunKeepsInv(run, labels, roots, stored, n);
    var m := run[n].m;
    assert m.timer.Some?;
    SoundEarliest(m);
    hide IsRun, Sound, ActiveAreClear, Accounted, Earliest;
    var t := m.timer.value;
    assert t in run[n].callbacks;
  }

  /**
   A callback acts exactly when it is of the current generation: then it is the pending timer, the
   earliest CRL has expired, and everything active goes to a fence. A stale one changes nothing.
   */
  lemma CallbackActsIffCurrent(run: seq<World>, labels: seq<Label>, roots: seq<Root>, stored: Option<Checkpoint>,
                               n: nat)
    requires IsRun(run, labels, roots, stored) && n < |labels| && labels[n].Fire?
    ensures var w, w', t := run[n], run[n + 1], labels[n].timer;
            if t.generation != w.m.generation then w' == w.(callbacks := w.callbacks - {t})
            else
              && w.m.timer == Some(t) && w'.m == w.m.(active := {}, timer := None)
              && w'.conns == w.conns.(fencing := w.conns.fencing + w.m.active)
              && exists i :: 0 <= i < |w.m.checkpoint.issuers| && w.m.checkpoint.issuers[i].nextUpdate <= w.clock
  {
    RunKeepsInv(run, labels, roots, stored, n);
    var w, w', t := run[n], run[n + 1], labels[n].timer;
    assert Step(labels[n], w, w');
    hide IsRun, Sound, ActiveAreClear, Accounted, Earliest;
    if t.generation == w.m.generation {
      SoundEarliest(w.m);
    } else {
      assert w.conns.fencing + (w.m.active - w.m.active) == w.conns.fencing;
    }
  }

  /** Installing a checkpoint always changes it: its digest is another one. */
  lemma InstallChangesCheckpoint(m: Manager, bundle: Bundle, now: Time)
    requires Sound(m) && now >= 0 && AfterApply(m, bundle, now).checkpoint == m.checkpoint
    ensures AfterApply(m, bundle, now) == m
  {
    if AcceptedBy(m, bundle, now) { NextIsValid(m, bundle, now); }
    hide AcceptedBy, CheckpointValid, CoversRoots, Earliest, BundleHash, SortBy;
  }

  /** Nothing is admitted while no timer is pending. */
  lemma NoTimerAdmitsNothing(w: World, chains: seq<Chain>)
    requires Inv(w) && w.m.timer.None?
    ensures !AdmittedBy(w.m, chains, w.clock)
  {
    hide ActiveAreClear, Accounted, AllClear, Earliest;
    if !w.m.closed && w.m.checkpoint.issuers != [] {
      ExpiredAdmitsNothing(w.m, chains, w.clock);
    }
  }

  lemma StepKeepsFired(l: Label, w: World, w': World)
    requires Inv(w) && Step(l, w, w') && w.m.timer.None? && w'.m.checkpoint == w.m.checkpoint
    ensures w'.m.timer.None? && w'.m.active == {}
  {
    if l.Track? { NoTimerAdmitsNothing(w, l.chains); }
    if l.Apply? { InstallChangesCheckpoint(w.m, l.bundle, w.clock); }
    hide Sound, ActiveAreClear, Accounted, AfterApply, AdmittedBy, Earliest;
  }

  /**
   After the current callback has fired nothing is active, whatever is tracked, applied, fired or
   closed, until a bundle changes the checkpoint.
   */
  lemma {:induction false} NothingActiveAfterExpiry(run: seq<World>, labels: seq<Label>, roots: seq<Root>,
                                                    stored: Option<Checkpoint>, m: nat, n: nat)
    requires IsRun(run, labels, roots, stored) && m < n < |run|
    requires labels[m].Fire? && labels[m].timer.generation == run[m].m.generation
    requires forall j :: m <= j < n ==> run[j + 1].m.checkpoint == run[j].m.checkpoint
    ensures run[n].m.timer.None? && run[n].m.active == {}
    decreases n
  {
    hide Inv, Step, Init;
    assert Step(labels[n - 1], run[n - 1], run[n - 1 + 1]);
    assert run[n - 1 + 1].m.checkpoint == run[n - 1].m.checkpoint;
    RunKeepsInv(run, labels, roots, stored, n - 1);
    if m + 1 == n {
      FiredIsEmpty(labels[m], run[m], run[n]);
    } else {
      NothingActiveAfterExpiry(run, labels, roots, stored, m, n - 1);
      StepKeepsFired(labels[n - 1], run[n - 1], run[n]);
    }
  }

  lemma FiredIsEmpty(l: Label, w: World, w': World)
    requires l.Fire? && Step(l, w, w') && l.timer.generation == w.m.generation
    ensures w'.m.timer.None? && w'.m.active == {}
  {
  }

  /** The checkpoint changes only when a bundle that means other revocations is applied to an open manager. */
  lemma OnlyChangedBundlesChangeTheCheckpoint(run: seq<World>, labels: seq<Label>, roots: seq<Root>,
                                              stored: Option<Checkpoint>, n: nat)
    requires IsRun(run, labels, roots, stored) && n < |labels| && run[n + 1].m.checkpoint != run[n].m.checkpoint
    ensures labels[n].Apply? && !run[n].m.closed && AcceptedBy(run[n].m, labels[n].bundle, run[n].clock)
    ensures !SameRevocations(run[n + 1].m.checkpoint.issuers, run[n].m.checkpoint.issuers)
  {
    RunKeepsInv(run, labels, roots, stored, n);
    var l, w, w' := labels[n], run[n], run[n + 1];
    assert Step(l, w, w');
    hide IsRun, ActiveAreClear, Accounted, TimerSound, Earliest, AdmittedBy, Acceptable, SameRevocations;
    assert l.Apply?;
    NextIsValid(w.m, l.bundle, w.clock);
    if w.m.checkpoint.issuers != [] {
      FencesIffChanged(w.m, l.bundle, w.clock);
    } else {
      EmptyMeansOther(w'.m.checkpoint.issuers);
    }
  }

  lemma EmptyMeansOther(issuers: seq<IssuerState>)
    requires issuers != []
    ensures !SameRevocations(issuers, [])
  {
    assert issuers[0] in issuers;
  }

  // ------------------------------------------------------------ theorems: history

  lemma StepIsLater(l: Label, w: World, w': World)
    requires Inv(w) && Step(l, w, w')
    ensures Later(w.m.checkpoint.issuers, w'.m.checkpoint.issuers)
    ensures w'.m.roots == w.m.roots && w'.m.rootDigest == w.m.rootDigest
  {
    if l.Apply? { ApplyIsLater(w.m, l.bundle, w.clock); }
    else { ApplyNothing(w.m); }
    hide Later, Sound, ActiveAreClear, Accounted, TimerSound, AcceptedBy, AdmittedBy, Earliest;
  }

  lemma ApplyNothing(m: Manager)
    requires Sound(m)
    ensures Later(m.checkpoint.issuers, m.checkpoint.issuers)
  {
    if m.checkpoint.issuers != [] { ValidIsLaterThanItself(m.checkpoint); }
    hide CheckpointValid, CoversRoots;
  }

  /** Over any run CRL numbers never decrease, revoked sets only grow and the issuers stay the same. */
  lemma {:induction false} HistoryIsMonotone(run: seq<World>, labels: seq<Label>, roots: seq<Root>,
                                             stored: Option<Checkpoint>, m: nat, n: nat)
    requires IsRun(run, labels, roots, stored) && m <= n < |run|
    ensures Later(run[m].m.checkpoint.issuers, run[n].m.checkpoint.issuers)
    ensures run[n].m.roots == run[m].m.roots && run[n].m.rootDigest == run[m].m.rootDigest
    decreases n
  {
    hide Later, Step, Init;
    RunKeepsInv(run, labels, roots, stored, n);
    if m == n {
      hide Sound;
      ApplyNothing(run[n].m);
    } else {
      hide Inv;
      assert Step(labels[n - 1], run[n - 1], run[n - 1 + 1]);
      RunKeepsInv(run, labels, roots, stored, n - 1);
      HistoryIsMonotone(run, labels, roots, stored, m, n - 1);
      StepIsLater(labels[n - 1], run[n - 1], run[n]);
      LaterIsTransitive(run[m].m.checkpoint.issuers, run[n - 1].m.checkpoint.issuers, run[n].m.checkpoint.issuers);
    }
  }

  /** A chain refused as revoked is refused for ever, and no active connection presented one ever revoked. */
  lemma RevokedForEver(run: seq<World>, labels: seq<Label>, roots: seq<Root>, stored: Option<Checkpoint>,
                       m: nat, n: nat, chains: seq<Chain>, now: Time)
    requires IsRun(run, labels, roots, stored) && m <= n < |run| && Revoked(run[m].m.checkpoint.issuers, chains)
    ensures !AdmittedBy(run[n].m, chains, now)
    ensures forall c :: c in run[n].m.active ==>
              c in run[n].conns.presented && !Revoked(run[m].m.checkpoint.issuers, run[n].conns.presented[c])
  {
    HistoryIsMonotone(run, labels, roots, stored, m, n);
    RunKeepsInv(run, labels, roots, stored, n);
    hide IsRun, Sound, Accounted, TimerSound, Later, AllClear, Current, Revoked;
    var a, b := run[m].m.checkpoint.issuers, run[n].m.checkpoint.issuers;
    forall x | Revoked(a, x) ensures !AllClear(b, x) {
      RevokedStaysRevoked(a, b, x);
      RevokedIsNotClear(b, x);
    }
  }

  /** At any point after a first bundle, a restart from the stored checkpoint decides every chain and bundle alike. */
  lemma RestartAnywhere(run: seq<World>, labels: seq<Label>, roots: seq<Root>, stored: Option<Checkpoint>,
                        n: nat, chains: seq<Chain>, bundle: Bundle, now: Time)
    requires IsRun(run, labels, roots, stored) && n < |run|
    requires run[n].m.checkpoint.issuers != []
    ensures Startable(roots, Some(run[n].m.checkpoint))
    ensures var restored, running := Fresh(roots, Some(run[n].m.checkpoint)), run[n].m.(closed := false);
            && AdmittedBy(restored, chains, now) == AdmittedBy(running, chains, now)
            && AcceptedBy(restored, bundle, now) == AcceptedBy(running, bundle, now)
  {
    HistoryIsMonotone(run, labels, roots, stored, 0, n);
    RunKeepsInv(run, labels, roots, stored, n);
    assert BuiltFrom(run[n].m, roots) by {
      hide Later, Inv, Step, RootsDigest, SortBy, Earliest, CheckpointValid, CoversRoots, BundleHash;
    }
    hide IsRun, Later, Sound, BuiltFrom, Startable, Acceptable, Admits;
    RestartDecidesAlike(run[n].m, roots, chains, bundle, now);
  }

  // ------------------------------------------------------------ theorems: where the states come from

  /** Whenever the checkpoint changes, a lawful bundle was applied to an open manager and is what is stored. */
  lemma ChangesAreLawful(run: seq<World>, labels: seq<Label>, roots: seq<Root>, stored: Option<Checkpoint>, n: nat)
    requires IsRun(run, labels, roots, stored) && n < |labels| && run[n + 1].m.checkpoint != run[n].m.checkpoint
    ensures labels[n].Apply? && Lawful(run[n].m, labels[n].bundle, run[n].clock)
    ensures StoredAs(labels[n].bundle, run[n + 1].m.checkpoint)
  {
    hide Init, Lawful, StoredAs, AcceptedBy, SameRevocations;
    OnlyChangedBundlesChangeTheCheckpoint(run, labels, roots, stored, n);
    assert Step(labels[n], run[n], run[n + 1]);
    hide IsRun;
    AppliedIsStored(labels[n], run[n], run[n + 1]);
  }

  lemma AppliedIsStored(l: Label, w: World, w': World)
    requires Step(l, w, w') && l.Apply? && AcceptedBy(w.m, l.bundle, w.clock) && w'.m.checkpoint != w.m.checkpoint
    ensures Lawful(w.m, l.bundle, w.clock) && StoredAs(l.bundle, w'.m.checkpoint)
  {
    hide Lawful, StoredAs, AcceptedBy, NextCheckpoint, Earliest, AdmittedBy, HandOver, Scheduled;
    AcceptedIffLawful(w.m, l.bundle, w.clock);
    NextStores(w.m, l.bundle, w.clock);
  }

  /** The state was restored at the start, or stored from a record that was genuine when its bundle was applied. */
  ghost predicate Sourced(run: seq<World>, labels: seq<Label>, stored: Option<Checkpoint>, n: nat, s: IssuerState)
    requires n <= |labels| < |run|
  {
    || (stored.Some? && s in stored.value.issuers)
    || exists j, r :: 0 <= j < n && labels[j].Apply? && r in labels[j].bundle.records && Records(s, r) &&
                      Trustworthy(r, run[j].clock) && Readable(r.crl.entries)
  }

  lemma StoredIsSourced(run: seq<World>, labels: seq<Label>, stored: Option<Checkpoint>, n: nat, s: IssuerState)
    requires n < |labels| < |run| && labels[n].Apply? && Lawful(run[n].m, labels[n].bundle, run[n].clock)
    requires StoredAs(labels[n].bundle, run[n + 1].m.checkpoint) && s in run[n + 1].m.checkpoint.issuers
    ensures Sourced(run, labels, stored, n + 1, s)
  {
    hide Trustworthy, Readable, Records, Lawful, StoredAs;
    var r := StoredFrom(labels[n].bundle, run[n + 1].m.checkpoint, s);
    LawfulIsTrustworthy(run[n].m, labels[n].bundle, run[n].clock, r);
  }

  /**
   In every reachable state each issuer's state comes from the checkpoint the manager was started
   with, or from a CRL that was signed by its issuer, trusted and current when its bundle was applied,
   and lists exactly the serial numbers revoked.
   */
  lemma {:induction false} StatesAreSourced(run: seq<World>, labels: seq<Label>, roots: seq<Root>,
                                            stored: Option<Checkpoint>, n: nat, s: IssuerState)
    requires IsRun(run, labels, roots, stored) && n < |run| && s in run[n].m.checkpoint.issuers
    ensures Sourced(run, labels, stored, n, s)
    decreases n
  {
    if n == 0 {
      hide Startable, Step, SortBy, RootsDigest, BundleHash, Earliest;
    } else {
      hide Init, Step, Sourced, Lawful, StoredAs;
      if run[n - 1 + 1].m.checkpoint != run[n - 1].m.checkpoint {
        ChangesAreLawful(run, labels, roots, stored, n - 1);
        StoredIsSourced(run, labels, stored, n - 1, s);
      } else {
        StatesAreSourced(run, labels, roots, stored, n - 1, s);
        SourcedStays(run, labels, stored, n - 1, s);
      }
    }
  }

  lemma SourcedStays(run: seq<World>, labels: seq<Label>, stored: Option<Checkpoint>, n: nat, s: IssuerState)
    requires n < |labels| < |run| && Sourced(run, labels, stored, n, s)
    ensures Sourced(run, labels, stored, n + 1, s)
  {
    hide Trustworthy, Readable, Records;
  }
}
