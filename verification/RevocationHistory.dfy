/**
 What a whole history of accepted bundles keeps: CRL numbers never go back, revoked sets only
 grow, the set of issuers is fixed by the first bundle, an exact repeat changes nothing, and a
 restart from the stored checkpoint decides everything alike.
 */
module RevocationHistory {
  import opened Status
  import opened Codec
  import opened Canonical
  import opened TrustRoots
  import opened CheckpointDigest
  import opened Revocation
  import opened RevocationManager

  // ------------------------------------------------------------ the index

  lemma {:induction false} IndexIsSound(issuers: seq<IssuerState>)
    ensures forall k :: k in Index(issuers) ==> Index(issuers)[k] in issuers && Index(issuers)[k].issuer == k
    ensures forall s :: s in issuers ==> s.issuer in Index(issuers)
  {
    if issuers != [] {
      var n := |issuers| - 1;
      IndexIsSound(issuers[..n]);
      assert issuers == issuers[..n] + [issuers[n]];
    }
  }

  lemma IndexFinds(issuers: seq<IssuerState>, s: IssuerState)
    requires DistinctIssuers(issuers) && s in issuers
    ensures s.issuer in Index(issuers) && Index(issuers)[s.issuer] == s
  {
    IndexIsSound(issuers);
    hide Index;
  }

  // ------------------------------------------------------------ accepted bundles

  lemma StatesAreWellFormed(records: seq<Record>, now: Time)
    requires SoundRecords(records, now) && now >= 0
    ensures WellFormedIssuers(StatesOf(records))
    ensures forall s :: s in StatesOf(records) ==> RestorableState(s)
  {
    var states := StatesOf(records);
    forall s | s in states ensures RestorableState(s) {
      var i :| 0 <= i < |states| && states[i] == s;
      StateIsRestorable(records[i], now);
    }
    forall i, j | 0 <= i < j < |states| ensures states[i].issuer != states[j].issuer {
      assert IssuersOf(records)[i] != IssuersOf(records)[j];
    }
    hide WellFormedState, StateOf;
  }

  lemma StateIsRestorable(r: Record, now: Time)
    requires SoundRecord(r, now) && now >= 0
    ensures RestorableState(StateOf(r))
  {
    var serials := Serials(r.crl.entries);
    SortTextsKeeps(serials);
    forall x | x in SortTexts(serials) ensures IsSerial(x) {
      assert x in Elements(SortTexts(serials));
      var i :| 0 <= i < |serials| && serials[i] == x;
      assert SoundEntry(r.crl.entries[i]);
      SerialTextIsSerial(r.crl.entries[i].serial.value);
    }
  }

  /** The issuers of the next checkpoint: sorted, well formed, and exactly the states of the records. */
  lemma NextIssuers(records: seq<Record>, now: Time)
    requires SoundRecords(records, now) && now >= 0
    ensures var issuers := SortBy(Issuer, StatesOf(records));
            && WellFormedIssuers(issuers) && (forall s :: s in issuers ==> RestorableState(s))
            && (forall s :: s in issuers <==> s in StatesOf(records))
            && |issuers| == |records|
  {
    StatesAreWellFormed(records, now);
    SortedIssuersKeep(StatesOf(records));
    SortKeepsElements(Issuer, StatesOf(records));
    assert |SortBy(Issuer, StatesOf(records))| == |multiset(SortBy(Issuer, StatesOf(records)))| ==
           |multiset(StatesOf(records))|;
    hide SortBy, SoundRecords, WellFormedIssuers, RestorableState;
  }

  lemma NextFinds(records: seq<Record>, now: Time, i: nat)
    requires SoundRecords(records, now) && now >= 0 && i < |records|
    ensures var index := Index(SortBy(Issuer, StatesOf(records)));
            records[i].issuer in index && index[records[i].issuer] == StateOf(records[i])
  {
    NextIssuers(records, now);
    var issuers := SortBy(Issuer, StatesOf(records));
    assert StatesOf(records)[i] in StatesOf(records);
    hide SortBy, SoundRecords, WellFormedState, RestorableState;
    IndexFinds(issuers, StateOf(records[i]));
  }

  lemma NextHasOnly(records: seq<Record>, now: Time, k: Text)
    requires SoundRecords(records, now) && now >= 0 && k in Index(SortBy(Issuer, StatesOf(records)))
    ensures k in IssuersOf(records)
  {
    NextIssuers(records, now);
    var issuers := SortBy(Issuer, StatesOf(records));
    IndexIsSound(issuers);
    hide SortBy, SoundRecords, WellFormedIssuers, RestorableState;
    var i :| 0 <= i < |records| && StatesOf(records)[i] == Index(issuers)[k];
    assert IssuersOf(records)[i] == k;
  }

  // ------------------------------------------------------------ the invariant of a manager

  /** A checkpoint in force is valid, its digest is the manager's, and it covers the roots. */
  ghost predicate Sound(m: Manager) {
    && (m.checkpoint.issuers == [] || m.bundleHash == m.checkpoint.digest)
    && (m.checkpoint.issuers != [] ==>
          && CheckpointValid(m.checkpoint) && m.checkpoint.trustRoots == m.rootDigest
          && CoversRoots(m.checkpoint.issuers, m.roots))
  }

  lemma FreshIsSound(roots: seq<Root>, stored: Option<Checkpoint>)
    requires Startable(roots, stored)
    ensures Sound(Fresh(roots, stored))
  {
    hide BundleHash, Earliest;
  }

  lemma NextIsValid(m: Manager, bundle: Bundle, now: Time)
    requires AcceptedBy(m, bundle, now) && now >= 0
    ensures var next := NextCheckpoint(m.rootDigest, bundle.records);
            next.issuers != [] && CheckpointValid(next) && CoversRoots(next.issuers, m.roots)
  {
    var next := NextCheckpoint(m.rootDigest, bundle.records);
    NextIssuers(bundle.records, now);
    forall h | h in m.roots ensures exists s :: s in next.issuers && s.issuer == h {
      var i :| 0 <= i < |bundle.records| && IssuersOf(bundle.records)[i] == h;
      assert StatesOf(bundle.records)[i] in next.issuers;
    }
    hide SortBy, SoundRecords, BundleHash, RestorableState, WellFormedState;
  }

  lemma ApplyKeepsSound(m: Manager, bundle: Bundle, now: Time)
    requires Sound(m) && now >= 0
    ensures Sound(AfterApply(m, bundle, now))
  {
    hide CheckpointValid, CoversRoots, Acceptable, Earliest;
    if AcceptedBy(m, bundle, now) { NextIsValid(m, bundle, now); }
  }

  // ------------------------------------------------------------ monotonicity

  /** No issuer of `a` is lost, forgets a serial or goes back to a lower CRL number; none is added to some. */
  ghost predicate Later(a: seq<IssuerState>, b: seq<IssuerState>) {
    && (forall k :: k in Index(a) ==>
          && k in Index(b) && Elements(Index(a)[k].revoked) <= Elements(Index(b)[k].revoked)
          && Index(a)[k].number.Some? && Index(b)[k].number.Some?
          && Index(a)[k].number.value <= Index(b)[k].number.value)
    && (a != [] ==> b != [] && forall k :: k in Index(b) ==> k in Index(a))
  }

  lemma LaterIsTransitive(a: seq<IssuerState>, b: seq<IssuerState>, c: seq<IssuerState>)
    requires Later(a, b) && Later(b, c)
    ensures Later(a, c)
  {
    hide Index;
  }

  lemma ValidIsLaterThanItself(c: Checkpoint)
    requires CheckpointValid(c)
    ensures Later(c.issuers, c.issuers)
  {
    IndexIsSound(c.issuers);
    hide Index, BundleHash, WellFormedState;
    forall k | k in Index(c.issuers) ensures Index(c.issuers)[k].number.Some? {
      var i :| 0 <= i < |c.issuers| && c.issuers[i] == Index(c.issuers)[k];
      assert RestorableState(c.issuers[i]);
    }
  }

  /** As many distinct names as issuers, and every issuer named: then every name is an issuer. */
  lemma NoNewIssuer(issuers: seq<IssuerState>, names: seq<Text>, k: Text)
    requires DistinctIssuers(issuers) && Distinct(names) && |names| == |issuers|
    requires forall x :: x in Index(issuers) ==> x in names
    requires k in names
    ensures k in Index(issuers)
  {
    IndexIsSound(issuers);
    var keys := Keys(issuers);
    DistinctSize(keys);
    DistinctSize(names);
    assert forall i :: 0 <= i < |issuers| ==> issuers[i] in issuers;
    assert Elements(keys) <= Elements(names);
    SubsetOfSameSize(Elements(keys), Elements(names));
    var i :| 0 <= i < |keys| && keys[i] == k by { assert k in Elements(names); }
    assert issuers[i].issuer == k;
    hide Index;
  }

  lemma {:induction false} DistinctSize<T(!new)>(s: seq<T>)
    requires Distinct(s)
    ensures |Elements(s)| == |s|
  {
    if s != [] {
      DistinctSize(s[1..]);
      assert Elements(s) == {s[0]} + Elements(s[1..]);
      assert s[0] !in Elements(s[1..]);
    }
  }

  lemma SubsetOfSameSize<T>(a: set<T>, b: set<T>)
    requires a <= b && |a| == |b|
    ensures a == b
  {
    assert |b - a| == |b| - |a|;
  }

  lemma AcceptedIsLater(m: Manager, bundle: Bundle, now: Time)
    requires Sound(m) && AcceptedBy(m, bundle, now) && now >= 0
    ensures Later(m.checkpoint.issuers, NextCheckpoint(m.rootDigest, bundle.records).issuers)
  {
    var a, records := m.checkpoint.issuers, bundle.records;
    var b := SortBy(Issuer, StatesOf(records));
    forall k | k in Index(a)
      ensures k in Index(b) && Elements(Index(a)[k].revoked) <= Elements(Index(b)[k].revoked)
      ensures Index(a)[k].number.Some? && Index(b)[k].number.Some? &&
              Index(a)[k].number.value <= Index(b)[k].number.value
    {
      IssuerAdvances(m, bundle, now, k);
    }
    if a != [] {
      NextIsValid(m, bundle, now);
      forall k | k in Index(b) ensures k in Index(a) {
        NextHasOnly(records, now, k);
        hide SoundRecord, Advances, Index;
        NoNewIssuer(a, IssuersOf(records), k);
      }
    }
    hide Sound, AcceptedBy, Index, SortBy;
  }

  lemma IssuerAdvances(m: Manager, bundle: Bundle, now: Time, k: Text)
    requires AcceptedBy(m, bundle, now) && now >= 0 && k in Index(m.checkpoint.issuers)
    ensures var before, after := Index(m.checkpoint.issuers), Index(SortBy(Issuer, StatesOf(bundle.records)));
            && k in after && Elements(before[k].revoked) <= Elements(after[k].revoked)
            && before[k].number.Some? && after[k].number.Some? && before[k].number.value <= after[k].number.value
  {
    var records := bundle.records;
    var i :| 0 <= i < |records| && IssuersOf(records)[i] == k;
    NextFinds(records, now, i);
    assert SoundRecord(records[i], now) && Advances(Index(m.checkpoint.issuers), records[i]);
    SortTextsKeeps(Serials(records[i].crl.entries));
    hide Index, SortBy, SortTexts, SoundRecords;
  }

  lemma ApplyIsLater(m: Manager, bundle: Bundle, now: Time)
    requires Sound(m) && now >= 0
    ensures Later(m.checkpoint.issuers, AfterApply(m, bundle, now).checkpoint.issuers)
  {
    if AcceptedBy(m, bundle, now) { AcceptedIsLater(m, bundle, now); }
    if m.checkpoint.issuers != [] { ValidIsLaterThanItself(m.checkpoint); }
    hide Later, AcceptedBy, CheckpointValid, CoversRoots;
  }

  // ------------------------------------------------------------ revoked for ever

  /** A chain is refused as revoked: some certificate is on the list of its issuer. */
  ghost predicate Revoked(issuers: seq<IssuerState>, chains: seq<Chain>) {
    exists c: Chain, i: nat :: c in chains && i < |c| && LinkRevoked(Index(issuers), c, i)
  }

  predicate LinkRevoked(index: map<Text, IssuerState>, chain: Chain, i: nat)
    requires i < |chain|
  {
    var k := Signer(chain, i);
    k in index && SerialText(chain[i].serial) in index[k].revoked
  }

  lemma RevokedStaysRevoked(a: seq<IssuerState>, b: seq<IssuerState>, chains: seq<Chain>)
    requires Later(a, b) && Revoked(a, chains)
    ensures Revoked(b, chains)
  {
    hide Index;
    var c: Chain, i: nat :| c in chains && i < |c| && LinkRevoked(Index(a), c, i);
    var k := Signer(c, i);
    assert SerialText(c[i].serial) in Elements(Index(a)[k].revoked);
    assert SerialText(c[i].serial) in Elements(Index(b)[k].revoked);
    assert LinkRevoked(Index(b), c, i);
  }

  lemma RevokedIsNotClear(issuers: seq<IssuerState>, chains: seq<Chain>)
    requires Revoked(issuers, chains)
    ensures !AllClear(issuers, chains)
  {
    hide Index;
    var c: Chain, i: nat :| c in chains && i < |c| && LinkRevoked(Index(issuers), c, i);
    assert !LinkClear(Index(issuers), c, i);
    var j :| 0 <= j < |chains| && chains[j] == c;
    assert !ChainClear(Index(issuers), chains[j]);
  }

  /** A chain is clear exactly when it is covered everywhere and revoked nowhere. */
  lemma ClearIffCoveredAndNotRevoked(index: map<Text, IssuerState>, chain: Chain)
    ensures ChainClear(index, chain) <==>
            && chain != []
            && (forall i :: 0 <= i < |chain| ==> Signer(chain, i) in index)
            && (forall i :: 0 <= i < |chain| ==> !LinkRevoked(index, chain, i))
  {
    assert forall i :: 0 <= i < |chain| ==>
             (LinkClear(index, chain, i) <==> Signer(chain, i) in index && !LinkRevoked(index, chain, i));
    hide Signer, LinkClear, LinkRevoked;
  }

  // ------------------------------------------------------------ repeats

  lemma SameStates(a: seq<Record>, b: seq<Record>, s: IssuerState)
    requires multiset(a) == multiset(b) && s in StatesOf(a)
    ensures s in StatesOf(b)
  {
    var i :| 0 <= i < |a| && StatesOf(a)[i] == s;
    SameElements(a, b, a[i]);
    var j :| 0 <= j < |b| && b[j] == a[i];
    assert StatesOf(b)[j] == s;
  }

  lemma PermutedDigest(a: seq<Record>, b: seq<Record>, now: Time, now': Time)
    requires multiset(a) == multiset(b) && SoundRecords(a, now) && SoundRecords(b, now') && now >= 0 && now' >= 0
    ensures BundleHash(SortBy(Issuer, StatesOf(a))) == BundleHash(SortBy(Issuer, StatesOf(b)))
  {
    var x, y := SortBy(Issuer, StatesOf(a)), SortBy(Issuer, StatesOf(b));
    NextIssuers(a, now);
    NextIssuers(b, now');
    forall s ensures s in x <==> s in y {
      if s in x { SameStates(a, b, s); }
      if s in y { SameStates(b, a, s); }
    }
    hide SoundRecords, SortBy, BundleHash, RestorableState, WellFormedIssuers, StatesOf;
    assert SameRevocations(x, y) by {
      forall s ensures SameMeaning(s, s) {}
    }
    DigestIsExact(x, y);
  }

  /** Applying the accepted bundle again, in any order and at any time, changes nothing and fences nobody. */
  lemma RepeatChangesNothing(m: Manager, bundle: Bundle, again: Bundle, now: Time, now': Time)
    requires AcceptedBy(m, bundle, now) && multiset(again.records) == multiset(bundle.records) && now >= 0 && now' >= 0
    ensures var m' := AfterApply(m, bundle, now); AfterApply(m', again, now') == m'
  {
    var m' := AfterApply(m, bundle, now);
    if AcceptedBy(m', again, now') {
      PermutedDigest(bundle.records, again.records, now, now');
    }
    hide Acceptable, Earliest, BundleHash, SortBy;
  }

  lemma RepeatAdvances(records: seq<Record>, r: Record, now: Time)
    requires SoundRecords(records, now) && r in records && now >= 0
    ensures Advances(Index(SortBy(Issuer, StatesOf(records))), r)
  {
    var i :| 0 <= i < |records| && records[i] == r;
    NextFinds(records, now, i);
    assert SoundRecord(records[i], now);
    SortTextsKeeps(Serials(r.crl.entries));
    hide Index, SortBy, SortTexts, SoundRecords;
  }

  /** And while its CRLs are current the repeat is accepted, not refused. */
  lemma RepeatIsAccepted(m: Manager, bundle: Bundle, again: Bundle, now: Time, now': Time)
    requires AcceptedBy(m, bundle, now) && multiset(again.records) == multiset(bundle.records) && now >= 0
    requires again.trustRoots == bundle.trustRoots && SoundRecords(again.records, now')
    requires NextCheckpoint(m.rootDigest, bundle.records).digest != m.bundleHash
    ensures AcceptedBy(AfterApply(m, bundle, now), again, now')
  {
    var m', a, b := AfterApply(m, bundle, now), bundle.records, again.records;
    var issuers := SortBy(Issuer, StatesOf(a));
    assert m'.checkpoint.issuers == issuers && m'.roots == m.roots && m'.rootDigest == m.rootDigest && !m'.closed;
    assert |a| == |multiset(a)| == |b|;
    NextIssuers(a, now);
    forall k ensures k in IssuersOf(a) ==> k in IssuersOf(b) {
      if k in IssuersOf(a) { SameNames(a, b, k); }
    }
    forall i | 0 <= i < |b| ensures Advances(Index(issuers), b[i]) {
      SameElements(b, a, b[i]);
      RepeatAdvances(a, b[i], now);
    }
    forall k | k in Index(issuers) ensures k in IssuersOf(b) {
      NextHasOnly(a, now, k);
    }
    hide SoundRecords, Advances, Index, Earliest, BundleHash, SortBy, IssuersOf, WellFormedIssuers, RestorableState;
  }

  lemma SameNames(a: seq<Record>, b: seq<Record>, k: Text)
    requires multiset(a) == multiset(b) && k in IssuersOf(a)
    ensures k in IssuersOf(b)
  {
    var i :| 0 <= i < |a| && IssuersOf(a)[i] == k;
    SameElements(a, b, a[i]);
    var j :| 0 <= j < |b| && b[j] == a[i];
    assert IssuersOf(b)[j] == k;
  }

  /** An accepted bundle fences the active connections exactly when it changes what is revoked or by which CRL. */
  lemma FencesIffChanged(m: Manager, bundle: Bundle, now: Time)
    requires Sound(m) && AcceptedBy(m, bundle, now) && now >= 0 && m.checkpoint.issuers != []
    ensures AfterApply(m, bundle, now) == m <==>
            SameRevocations(NextCheckpoint(m.rootDigest, bundle.records).issuers, m.checkpoint.issuers)
  {
    var next := NextCheckpoint(m.rootDigest, bundle.records);
    NextIsValid(m, bundle, now);
    ValidIsWellFormed(m.checkpoint);
    ValidIsWellFormed(next);
    hide AcceptedBy, Earliest, BundleHash, SortBy, CheckpointValid, SameRevocations, WellFormedIssuers, CoversRoots;
    DigestIsExact(next.issuers, m.checkpoint.issuers);
    ValidHasItsDigest(next);
    ValidHasItsDigest(m.checkpoint);
  }

  lemma ValidIsWellFormed(c: Checkpoint)
    requires CheckpointValid(c)
    ensures WellFormedIssuers(c.issuers)
  {
    hide WellFormedState, BundleHash;
    forall s | s in c.issuers ensures WellFormedState(s) {
      var i :| 0 <= i < |c.issuers| && c.issuers[i] == s;
      assert RestorableState(c.issuers[i]);
    }
  }

  lemma ValidHasItsDigest(c: Checkpoint)
    requires CheckpointValid(c) && c.issuers != []
    ensures c.digest == BundleHash(c.issuers)
  {
  }

  // ------------------------------------------------------------ restart

  /** The configuration a manager was built from. */
  ghost predicate BuiltFrom(m: Manager, roots: seq<Root>) {
    && RootsDigest(Ders(roots)) == Some(m.rootDigest) && m.roots == Hashes(SortBy(Der, roots))
    && forall i :: 0 <= i < |roots| ==> roots[i].valid
  }

  /**
   After at least one accepted bundle, a restart from the stored checkpoint succeeds, and the
   restored manager admits the same chains and accepts the same bundles at every time as the
   manager did until it was closed.
   */
  lemma RestartDecidesAlike(m: Manager, roots: seq<Root>, chains: seq<Chain>, bundle: Bundle, now: Time)
    requires Sound(m) && BuiltFrom(m, roots) && m.checkpoint.issuers != []
    ensures Startable(roots, Some(m.checkpoint))
    ensures var restored, running := Fresh(roots, Some(m.checkpoint)), m.(closed := false);
            && AdmittedBy(restored, chains, now) == AdmittedBy(running, chains, now)
            && AcceptedBy(restored, bundle, now) == AcceptedBy(running, bundle, now)
            && restored.checkpoint == m.checkpoint && restored.bundleHash == m.bundleHash
  {
    ValidHasItsDigest(m.checkpoint);
    hide CheckpointValid, CoversRoots, RootsDigest, SortBy, BundleHash, Earliest, Acceptable, Admits;
  }

  /** Before the first bundle there is nothing to restore: the empty checkpoint names no root set. */
  lemma NothingToRestoreAtFirst(roots: seq<Root>)
    requires Startable(roots, None)
    ensures !Startable(roots, Some(Fresh(roots, None).checkpoint))
  {
  }
}
