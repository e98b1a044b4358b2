/**
 The revocation manager object: its fields under the lock, and each method as one critical
 section. Closing what a method hands to the fence happens after the lock is released and is
 modelled where the connections are.
 */
module RevocationManager {
  import opened Status
  import opened Codec
  import opened Canonical
  import opened TrustRoots
  import opened CheckpointDigest
  import opened Revocation

  type Conn = nat

  /** A pending expiry callback: the generation it was scheduled under and when it is due. */
  datatype Timer = Timer(generation: nat, deadline: Time)

  datatype Manager = Manager(
    roots: seq<Hash>,
    rootDigest: Digest,
    checkpoint: Checkpoint,
    bundleHash: Digest,
    generation: nat,
    timer: Option<Timer>,
    closed: bool,
    active: set<Conn>)

  // ------------------------------------------------------------ the expiry timer

  /** The loop of scheduleExpiryLocked, in which a zero time means that none was found yet. */
  function Earliest(issuers: seq<IssuerState>): Time {
    if issuers == [] then 0
    else
      var before, last := Earliest(issuers[..|issuers| - 1]), issuers[|issuers| - 1].nextUpdate;
      if before == 0 || last < before then last else before
  }

  lemma {:induction false} EarliestIsMinimum(issuers: seq<IssuerState>)
    requires issuers != [] && forall i :: 0 <= i < |issuers| ==> issuers[i].nextUpdate != 0
    ensures Earliest(issuers) != 0
    ensures forall i :: 0 <= i < |issuers| ==> Earliest(issuers) <= issuers[i].nextUpdate
    ensures exists i :: 0 <= i < |issuers| && Earliest(issuers) == issuers[i].nextUpdate
  {
    var n := |issuers| - 1;
    var init := issuers[..n];
    if init != [] {
      EarliestIsMinimum(init);
      var i :| 0 <= i < |init| && Earliest(init) == init[i].nextUpdate;
      assert issuers[i] == init[i];
      assert forall k :: 0 <= k < n ==> issuers[k] == init[k];
    }
    assert issuers[n].nextUpdate == issuers[|issuers| - 1].nextUpdate;
  }

  function Reschedule(m: Manager, issuers: seq<IssuerState>): Manager {
    m.(generation := m.generation + 1,
       timer := if Earliest(issuers) == 0 then None else Some(Timer(m.generation + 1, Earliest(issuers))))
  }

  // ------------------------------------------------------------ critical sections

  function Install(m: Manager, next: Checkpoint): Manager {
    Reschedule(m.(active := {}, bundleHash := next.digest, checkpoint := next), next.issuers)
  }

  ghost predicate AcceptedBy(m: Manager, bundle: Bundle, now: Time) {
    !m.closed && Acceptable(m.roots, m.rootDigest, m.checkpoint.issuers, bundle, now)
  }

  /** Apply: a refused bundle and an exact repeat change nothing. */
  ghost function AfterApply(m: Manager, bundle: Bundle, now: Time): Manager {
    var next := NextCheckpoint(m.rootDigest, bundle.records);
    if AcceptedBy(m, bundle, now) && next.digest != m.bundleHash then Install(m, next) else m
  }

  ghost predicate AdmittedBy(m: Manager, chains: seq<Chain>, now: Time) {
    Admits(m.closed, m.bundleHash, m.checkpoint.issuers, chains, now)
  }

  function AfterClose(m: Manager): Manager {
    m.(closed := true, generation := m.generation + 1, timer := None, active := {})
  }

  /** The expiry callback: only the current generation acts. */
  function AfterExpiry(m: Manager, generation: nat): Manager {
    if generation != m.generation then m else m.(active := {}, timer := None)
  }

  /** NewRevocationManager on a startable configuration. */
  ghost function Fresh(roots: seq<Root>, stored: Option<Checkpoint>): Manager
    requires RootsDigest(Ders(roots)).Some?
  {
    var m := Manager(Hashes(SortBy(Der, roots)), RootsDigest(Ders(roots)).value, NO_CHECKPOINT, Missing, 0, None,
                     false, {});
    if stored.None? then m
    else Reschedule(m.(checkpoint := stored.value, bundleHash := BundleHash(stored.value.issuers)),
                    stored.value.issuers)
  }

  class ManagerObject {
    const roots: seq<Hash>
    const rootDigest: Digest
    var checkpoint: Checkpoint
    var bundleHash: Digest
    var timerGeneration: nat
    var expiryTimer: Option<Timer>
    var closed: bool
    var active: set<Conn>

    ghost function State(): Manager
      reads this
    {
      Manager(roots, rootDigest, checkpoint, bundleHash, timerGeneration, expiryTimer, closed, active)
    }

    constructor (roots: seq<Hash>, rootDigest: Digest)
      ensures State() == Manager(roots, rootDigest, NO_CHECKPOINT, Missing, 0, None, false, {})
    {
      this.roots, this.rootDigest := roots, rootDigest;
      checkpoint, bundleHash := NO_CHECKPOINT, Missing;
      timerGeneration, expiryTimer, closed, active := 0, None, false, {};
    }

    method ScheduleExpiry(issuers: seq<IssuerState>)
      modifies this`timerGeneration, this`expiryTimer
      ensures State() == Reschedule(old(State()), issuers)
    {
      timerGeneration := timerGeneration + 1;
      expiryTimer := None;
      var earliest: Time := 0;
      var i := 0;
      while i < |issuers|
        invariant i <= |issuers| && earliest == Earliest(issuers[..i])
      {
        assert issuers[..i + 1][..i] == issuers[..i];
        if earliest == 0 || issuers[i].nextUpdate < earliest { earliest := issuers[i].nextUpdate; }
        i := i + 1;
      }
      assert issuers[..i] == issuers;
      if earliest == 0 { return; }
      expiryTimer := Some(Timer(timerGeneration, earliest));
    }

    /** Apply: gives the checkpoint now in force, or nothing, and what is to be fenced. */
    method Apply(bundle: Bundle, now: Time) returns (result: Option<Checkpoint>, fenced: set<Conn>)
      modifies this`checkpoint, this`bundleHash, this`timerGeneration, this`expiryTimer, this`active
      ensures State() == AfterApply(old(State()), bundle, now)
      ensures result == if AcceptedBy(old(State()), bundle, now) then Some(checkpoint) else None
      ensures fenced == old(active) - active
    {
      if closed { return None, {}; }
      var next := Validate(roots, rootDigest, checkpoint.issuers, bundle, now);
      if next.None? { return None, {}; }
      if next.value.digest == bundleHash { return Some(checkpoint), {}; }
      fenced := active;
      active := {};
      bundleHash, checkpoint := next.value.digest, next.value;
      ScheduleExpiry(next.value.issuers);
      result := Some(next.value);
    }

    /** TrackConnection: the chain is checked and the connection registered under one lock. */
    method TrackConnection(conn: Conn, chains: seq<Chain>, now: Time) returns (ok: bool)
      modifies this`active
      ensures ok <==> AdmittedBy(old(State()), chains, now)
      ensures State() == if ok then old(State()).(active := old(active) + {conn}) else old(State())
    {
      ok := Verify(closed, bundleHash, checkpoint.issuers, chains, now);
      if ok { active := active + {conn}; }
    }

    method Close() returns (fenced: set<Conn>)
      modifies this`closed, this`timerGeneration, this`expiryTimer, this`active
      ensures State() == AfterClose(old(State())) && fenced == old(active)
    {
      closed := true;
      timerGeneration := timerGeneration + 1;
      expiryTimer := None;
      fenced := active;
      active := {};
    }

    /** The callback of a timer scheduled under `generation`. */
    method Expire(generation: nat) returns (fenced: set<Conn>)
      modifies this`expiryTimer, this`active
      ensures State() == AfterExpiry(old(State()), generation)
      ensures fenced == if generation == old(timerGeneration) then old(active) else {}
    {
      if generation != timerGeneration { return {}; }
      fenced := active;
      active := {};
      expiryTimer := None;
    }

    /** The part of trackedConnection.Close under the lock. */
    method Forget(conn: Conn)
      modifies this`active
      ensures State() == old(State()).(active := old(active) - {conn})
    {
      active := active - {conn};
    }
  }

  /** NewRevocationManager: null stands for its error return. */
  method NewRevocationManager(roots: seq<Root>, stored: Option<Checkpoint>) returns (m: ManagerObject?)
    ensures m != null <==> Startable(roots, stored)
    ensures m != null ==> fresh(m) && m.State() == Fresh(roots, stored)
  {
    var digest := CanonicalTrustRootsDigest(Ders(roots));
    if digest.None? { return null; }
    var i := 0;
    while i < |roots|
      invariant i <= |roots| && forall k :: 0 <= k < i ==> roots[k].valid
    {
      if !roots[i].valid { return null; }
      i := i + 1;
    }
    var canonical := Hashes(SortBy(Der, roots));
    m := new ManagerObject(canonical, digest.value);
    if stored.Some? {
      var c := stored.value;
      if c.trustRoots != digest.value { return null; }
      var valid := CheckCheckpoint(c);
      if !valid { return null; }
      if c.issuers != [] {
        var covered := Cover(c.issuers, canonical);
        if !covered { return null; }
      }
      m.checkpoint := c;
      m.bundleHash := BundleHash(c.issuers);
      m.ScheduleExpiry(c.issuers);
    }
  }

  /** The nested loop that looks for every root among the stored issuers. */
  method Cover(issuers: seq<IssuerState>, roots: seq<Hash>) returns (ok: bool)
    ensures ok <==> CoversRoots(issuers, roots)
  {
    var i := 0;
    while i < |roots|
      invariant i <= |roots| && forall k :: 0 <= k < i ==> exists s :: s in issuers && s.issuer == roots[k]
    {
      var covered, j := false, 0;
      while j < |issuers| && !covered
        invariant j <= |issuers|
        invariant covered ==> exists s :: s in issuers && s.issuer == roots[i]
        invariant !covered ==> forall k :: 0 <= k < j ==> issuers[k].issuer != roots[i]
      {
        if issuers[j].issuer == roots[i] {
          assert issuers[j] in issuers;
          covered := true;
        }
        j := j + 1;
      }
      if !covered {
        assert roots[i] in roots;
        return false;
      }
      i := i + 1;
    }
    ok := true;
  }
}
