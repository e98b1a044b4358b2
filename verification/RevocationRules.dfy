/**
 The rules of the revocation manager, field by field: which bundle it accepts, what the accepted
 bundle is stored as, which chains it admits and which configuration it starts from. Each is stated
 over the records themselves and proved equivalent to what the loops of Revocation decide.
 */
module RevocationRules {
  import opened Status
  import opened Codec
  import opened Canonical
  import opened TrustRoots
  import opened CheckpointDigest
  import opened Revocation
  import opened RevocationManager

  // ------------------------------------------------------------ the state that counts

  /** The state at `k` is the one that counts for its issuer: no later one has the same issuer. */
  predicate Counts(issuers: seq<IssuerState>, k: nat) {
    k < |issuers| && forall j :: k < j < |issuers| ==> issuers[j].issuer != issuers[k].issuer
  }

  lemma {:induction false} IndexHolds(issuers: seq<IssuerState>, k: nat)
    requires Counts(issuers, k)
    ensures issuers[k].issuer in Index(issuers) && Index(issuers)[issuers[k].issuer] == issuers[k]
  {
    var n := |issuers| - 1;
    if k < n {
      assert Counts(issuers[..n], k);
      IndexHolds(issuers[..n], k);
    }
  }

  lemma {:induction false} IndexedCounts(issuers: seq<IssuerState>, x: Text) returns (k: nat)
    requires x in Index(issuers)
    ensures Counts(issuers, k) && issuers[k].issuer == x && Index(issuers)[x] == issuers[k]
  {
    var n := |issuers| - 1;
    if issuers[n].issuer == x {
      k := n;
    } else {
      k := IndexedCounts(issuers[..n], x);
      assert forall j :: k < j < n ==> issuers[j] == issuers[..n][j];
    }
  }

  // ------------------------------------------------------------ accepted bundles

  /** The issuer is an authority under the roots, and its CRL is signed by it, current and understood. */
  predicate Trustworthy(r: Record, now: Time) {
    && r.isAuthority && r.trusted
    && r.crl.genuine && r.crl.keyMatches && r.crl.supported
    && r.crl.number.Some? && r.crl.number.value >= 0
    && now < r.crl.nextUpdate && r.crl.thisUpdate <= now + 60_000_000_000 && r.crl.thisUpdate <= r.crl.nextUpdate
  }

  /** Every entry is understood and has a serial number that is not negative; no number comes twice. */
  ghost predicate Readable(entries: seq<Entry>) {
    && (forall i :: 0 <= i < |entries| ==>
          entries[i].supported && entries[i].serial.Some? && entries[i].serial.value >= 0)
    && (forall i, j :: 0 <= i < j < |entries| ==> entries[i].serial != entries[j].serial)
  }

  /** The CRL lists the serial number with this decimal text. */
  ghost predicate Lists(entries: seq<Entry>, text: Text) {
    exists i :: 0 <= i < |entries| && entries[i].serial.Some? && SerialText(entries[i].serial.value) == text
  }

  /** The record may follow the issuer's state: no rollback, no other CRL of the same number, nothing unrevoked. */
  ghost predicate Follows(r: Record, s: IssuerState) {
    && s.number.Some? && r.crl.number.Some? && s.number.value <= r.crl.number.value
    && (s.number.value == r.crl.number.value ==> s.crl == r.crl.hash)
    && (forall text :: text in s.revoked ==> Lists(r.crl.entries, text))
  }

  lemma ReadableIsSound(entries: seq<Entry>)
    ensures SoundEntries(entries) <==> Readable(entries)
  {
    var texts := Serials(entries);
    if forall i :: 0 <= i < |entries| ==> SoundEntry(entries[i]) {
      assert forall i :: 0 <= i < |entries| ==> texts[i] == Decimal(entries[i].serial.value);
      forall i, j | 0 <= i < j < |entries| && texts[i] == texts[j]
        ensures entries[i].serial == entries[j].serial
      {
        DecimalIsInjective(entries[i].serial.value, entries[j].serial.value);
      }
      hide Decimal;
    }
  }

  lemma ListsIsElement(entries: seq<Entry>, text: Text)
    requires forall i :: 0 <= i < |entries| ==> entries[i].serial.Some?
    ensures text in Elements(Serials(entries)) <==> Lists(entries, text)
  {
    var texts := Serials(entries);
    if text in Elements(texts) {
      var i :| 0 <= i < |texts| && texts[i] == text;
      assert texts[i] == SerialText(entries[i].serial.value);
    }
    if Lists(entries, text) {
      var i :| 0 <= i < |entries| && entries[i].serial.Some? && SerialText(entries[i].serial.value) == text;
      assert texts[i] == text;
    }
    hide SerialText;
  }

  lemma SoundIsTrustworthy(r: Record, now: Time)
    ensures SoundRecord(r, now) <==> Trustworthy(r, now) && Readable(r.crl.entries)
  {
    ReadableIsSound(r.crl.entries);
    hide SoundEntries, Readable;
  }

  lemma AdvancesIsFollows(issuers: seq<IssuerState>, r: Record)
    requires r.crl.number.Some? && Readable(r.crl.entries)
    ensures Advances(Index(issuers), r) <==>
            forall k: nat :: Counts(issuers, k) && issuers[k].issuer == r.issuer ==> Follows(r, issuers[k])
  {
    forall text ensures text in Elements(Serials(r.crl.entries)) <==> Lists(r.crl.entries, text) {
      ListsIsElement(r.crl.entries, text);
    }
    hide Lists, Readable, Serials;
    if r.issuer in Index(issuers) {
      var k := IndexedCounts(issuers, r.issuer);
      hide Index;
      assert forall j: nat :: Counts(issuers, j) && issuers[j].issuer == r.issuer ==> j == k;
      assert Advances(Index(issuers), r) <==> Follows(r, issuers[k]);
    } else {
      forall k: nat | Counts(issuers, k) ensures issuers[k].issuer in Index(issuers) { IndexHolds(issuers, k); }
    }
  }

  /** What Apply requires of a bundle. */
  ghost predicate Lawful(m: Manager, bundle: Bundle, now: Time) {
    var records, issuers := bundle.records, m.checkpoint.issuers;
    && !m.closed && bundle.trustRoots == m.rootDigest && records != []
    && (forall i :: 0 <= i < |records| ==> Trustworthy(records[i], now) && Readable(records[i].crl.entries))
    && (forall i, j :: 0 <= i < j < |records| ==> records[i].issuer != records[j].issuer)
    && (forall h :: h in m.roots ==> exists i :: 0 <= i < |records| && records[i].issuer == h)
    && (forall k: nat, i :: Counts(issuers, k) && 0 <= i < |records| && records[i].issuer == issuers[k].issuer ==>
          Follows(records[i], issuers[k]))
    && (forall k: nat :: Counts(issuers, k) ==>
          exists i :: 0 <= i < |records| && records[i].issuer == issuers[k].issuer)
    && (issuers != [] ==> |records| == |issuers|)
  }

  lemma NamesAreIssuers(records: seq<Record>)
    ensures forall x :: x in IssuersOf(records) <==> exists i :: 0 <= i < |records| && records[i].issuer == x
    ensures Distinct(IssuersOf(records)) <==>
            forall i, j :: 0 <= i < j < |records| ==> records[i].issuer != records[j].issuer
  {
    var names := IssuersOf(records);
    assert |names| == |records| && forall i :: 0 <= i < |records| ==> names[i] == records[i].issuer;
    forall x: Text | exists i :: 0 <= i < |records| && records[i].issuer == x ensures x in names {
      var i :| 0 <= i < |records| && records[i].issuer == x;
      assert names[i] == x;
    }
  }

  lemma IndexIsCounted(issuers: seq<IssuerState>, names: seq<Text>)
    ensures (forall x :: x in Index(issuers) ==> x in names) <==>
            (forall k: nat :: Counts(issuers, k) ==> issuers[k].issuer in names)
  {
    forall k: nat | Counts(issuers, k) ensures issuers[k].issuer in Index(issuers) { IndexHolds(issuers, k); }
    if forall k: nat :: Counts(issuers, k) ==> issuers[k].issuer in names {
      forall x | x in Index(issuers) ensures x in names { var k := IndexedCounts(issuers, x); }
    }
  }

  /** Apply accepts exactly the lawful bundles, for every manager, bundle and time. */
  lemma AcceptedIffLawful(m: Manager, bundle: Bundle, now: Time)
    ensures AcceptedBy(m, bundle, now) <==> Lawful(m, bundle, now)
  {
    var records, issuers := bundle.records, m.checkpoint.issuers;
    var names := IssuersOf(records);
    NamesAreIssuers(records);
    IndexIsCounted(issuers, names);
    forall i | 0 <= i < |records|
      ensures SoundRecord(records[i], now) <==> Trustworthy(records[i], now) && Readable(records[i].crl.entries)
      ensures SoundRecord(records[i], now) ==>
                (Advances(Index(issuers), records[i]) <==>
                 forall k: nat :: Counts(issuers, k) && issuers[k].issuer == records[i].issuer ==>
                   Follows(records[i], issuers[k]))
    {
      SoundIsTrustworthy(records[i], now);
      hide SoundRecord, Readable;
      if Trustworthy(records[i], now) && Readable(records[i].crl.entries) { AdvancesIsFollows(issuers, records[i]); }
    }
    hide SoundRecord, Trustworthy, Readable, Advances, Follows, Counts, Index, IssuersOf, Distinct;
  }

  // ------------------------------------------------------------ what is stored

  /** The state says what the record says: its CRL, and exactly the serial numbers the CRL lists. */
  ghost predicate Records(s: IssuerState, r: Record) {
    && s.issuer == r.issuer && s.number == r.crl.number && s.crl == r.crl.hash && s.nextUpdate == r.crl.nextUpdate
    && (forall text :: text in s.revoked <==> Lists(r.crl.entries, text))
    && SortedBy(Itself, s.revoked)
  }

  lemma StateRecords(r: Record)
    requires Readable(r.crl.entries)
    ensures Records(StateOf(r), r)
  {
    var texts := Serials(r.crl.entries);
    var sorted := SortTexts(texts);
    SortKeepsElements(Itself, texts);
    SortSorts(Itself, texts);
    forall text ensures text in sorted <==> Lists(r.crl.entries, text) {
      ListsIsElement(r.crl.entries, text);
      if text in sorted { SameElements(sorted, texts, text); }
      if text in texts { SameElements(texts, sorted, text); }
      assert text in texts <==> text in Elements(texts);
    }
    hide Lists, Readable, Serials, SortTexts;
  }

  /** What an accepted bundle is stored as: one state for each record, in issuer order, and their digest. */
  ghost predicate StoredAs(bundle: Bundle, c: Checkpoint) {
    && c.trustRoots == bundle.trustRoots && c.digest == BundleHash(c.issuers)
    && |c.issuers| == |bundle.records| && SortedBy(Issuer, c.issuers)
    && (forall s :: s in c.issuers ==> exists r :: r in bundle.records && Records(s, r))
    && (forall r :: r in bundle.records ==> exists s :: s in c.issuers && Records(s, r))
  }

  lemma NextStores(m: Manager, bundle: Bundle, now: Time)
    requires AcceptedBy(m, bundle, now)
    ensures StoredAs(bundle, NextCheckpoint(m.rootDigest, bundle.records))
  {
    AcceptedIffLawful(m, bundle, now);
    var records, states := bundle.records, StatesOf(bundle.records);
    assert |states| == |records| && forall i :: 0 <= i < |records| ==> states[i] == StateOf(records[i]);
    var sorted := SortBy(Issuer, states);
    SortKeepsElements(Issuer, states);
    SortSorts(Issuer, states);
    assert |sorted| == |multiset(sorted)| == |multiset(states)| == |states|;
    hide StatesOf, StateOf, SortBy, Acceptable, AcceptedBy;
    forall i | 0 <= i < |records| ensures Records(states[i], records[i]) { StateRecords(records[i]); }
    hide Records, Lawful;
    forall s | s in sorted ensures exists r :: r in records && Records(s, r) {
      SameElements(sorted, states, s);
      var i :| 0 <= i < |states| && states[i] == s;
      assert records[i] in records;
    }
    forall r | r in records ensures exists s :: s in sorted && Records(s, r) {
      var i :| 0 <= i < |records| && records[i] == r;
      SameElements(states, sorted, states[i]);
    }
  }

  lemma StoredFrom(bundle: Bundle, c: Checkpoint, s: IssuerState) returns (r: Record)
    requires StoredAs(bundle, c) && s in c.issuers
    ensures r in bundle.records && Records(s, r)
  {
    hide Records;
    r :| r in bundle.records && Records(s, r);
  }

  lemma LawfulIsTrustworthy(m: Manager, bundle: Bundle, now: Time, r: Record)
    requires Lawful(m, bundle, now) && r in bundle.records
    ensures Trustworthy(r, now) && Readable(r.crl.entries)
  {
    hide Trustworthy, Readable, Follows, Counts;
  }

  // ------------------------------------------------------------ admitted chains

  /** The CRL that counts for the issuer does not list the serial number. */
  ghost predicate Cleared(issuers: seq<IssuerState>, issuer: Hash, serial: int) {
    exists k: nat :: Counts(issuers, k) && issuers[k].issuer == issuer && SerialText(serial) !in issuers[k].revoked
  }

  /** Every certificate is cleared by the one that follows it, and the last by itself. */
  ghost predicate ChainCleared(issuers: seq<IssuerState>, chain: Chain) {
    && chain != []
    && (forall i :: 0 <= i < |chain| - 1 ==> Cleared(issuers, chain[i + 1].hash, chain[i].serial))
    && Cleared(issuers, chain[|chain| - 1].hash, chain[|chain| - 1].serial)
  }

  lemma ClearIsCleared(issuers: seq<IssuerState>, issuer: Hash, serial: int)
    ensures Cleared(issuers, issuer, serial) <==>
            issuer in Index(issuers) && SerialText(serial) !in Index(issuers)[issuer].revoked
  {
    if issuer in Index(issuers) {
      var k := IndexedCounts(issuers, issuer);
    }
    if Cleared(issuers, issuer, serial) {
      var k: nat :| Counts(issuers, k) && issuers[k].issuer == issuer && SerialText(serial) !in issuers[k].revoked;
      IndexHolds(issuers, k);
    }
    hide SerialText, Index;
  }

  lemma ChainClearIsCleared(issuers: seq<IssuerState>, chain: Chain)
    ensures ChainClear(Index(issuers), chain) <==> ChainCleared(issuers, chain)
  {
    var last := |chain| - 1;
    forall i | 0 <= i < |chain|
      ensures LinkClear(Index(issuers), chain, i) <==>
              Cleared(issuers, chain[if i < last then i + 1 else i].hash, chain[i].serial)
    {
      ClearIsCleared(issuers, chain[if i < last then i + 1 else i].hash, chain[i].serial);
    }
    hide LinkClear, Cleared;
  }

  /** Who is admitted: an open manager with a bundle, every CRL current, and every chain presented cleared. */
  lemma AdmittedIffCleared(m: Manager, chains: seq<Chain>, now: Time)
    ensures AdmittedBy(m, chains, now) <==>
            && !m.closed && m.bundleHash != Missing && m.checkpoint.issuers != []
            && (forall s :: s in m.checkpoint.issuers ==> now < s.nextUpdate)
            && chains != [] && (forall chain :: chain in chains ==> ChainCleared(m.checkpoint.issuers, chain))
  {
    forall chain ensures ChainClear(Index(m.checkpoint.issuers), chain) <==> ChainCleared(m.checkpoint.issuers, chain) {
      ChainClearIsCleared(m.checkpoint.issuers, chain);
    }
    hide ChainClear, ChainCleared, Index;
  }

  // ------------------------------------------------------------ stored checkpoints

  /** A text of 64 hexadecimal digits. */
  predicate Hex64(t: Text) {
    |t| == 64 && forall i :: 0 <= i < 64 ==> (48 <= t[i] < 58 || 65 <= t[i] < 71 || 97 <= t[i] < 103)
  }

  /** The digest is that of its states, each an issuer of its own with a CRL, a number, a time and distinct serials. */
  ghost predicate Intact(c: Checkpoint) {
    && (c.issuers == [] ==> c.digest == Missing)
    && (c.issuers != [] ==> c.digest == BundleHash(c.issuers))
    && (forall s :: s in c.issuers ==>
          && Hex64(s.issuer) && Hex64(s.crl) && s.number.Some? && s.number.value >= 0 && s.nextUpdate != 0
          && (forall i, j :: 0 <= i < j < |s.revoked| ==> s.revoked[i] != s.revoked[j])
          && (forall text :: text in s.revoked ==> ReadInt(text).Some? && ReadInt(text).value >= 0))
    && (forall i, j :: 0 <= i < j < |c.issuers| ==> c.issuers[i].issuer != c.issuers[j].issuer)
  }

  lemma ValidIsIntact(c: Checkpoint)
    ensures CheckpointValid(c) <==> Intact(c)
  {
    forall text ensures IsSerial(text) <==> ReadInt(text).Some? && ReadInt(text).value >= 0 {
      SerialIsNonNegative(text);
    }
    hide ReadInt, IsSerial, BundleHash;
  }

  /**
   When a manager starts: on distinct roots, at least one, each a valid authority, and either
   without a stored checkpoint or with an intact one of these roots that leaves out none of them.
   */
  lemma StartsIff(roots: seq<Root>, stored: Option<Checkpoint>)
    ensures Startable(roots, stored) <==>
            && roots != [] && (forall i, j :: 0 <= i < j < |roots| ==> roots[i].der != roots[j].der)
            && (forall r :: r in roots ==> r.valid)
            && (stored.Some? ==>
                  && Some(stored.value.trustRoots) == RootsDigest(Ders(roots)) && Intact(stored.value)
                  && (stored.value.issuers != [] ==>
                        forall r :: r in roots ==> exists s :: s in stored.value.issuers && s.issuer == r.hash))
  {
    DersAreDistinct(roots);
    if stored.Some? {
      ValidIsIntact(stored.value);
      CoveredRoots(stored.value.issuers, roots);
    }
    hide CheckpointValid, Intact, SortTexts, Concat, Ders, Hashes, SortBy, CoversRoots, Distinct;
  }

  lemma DersAreDistinct(roots: seq<Root>)
    ensures Distinct(Ders(roots)) <==> forall i, j :: 0 <= i < j < |roots| ==> roots[i].der != roots[j].der
    ensures Ders(roots) == [] <==> roots == []
  {
    var ders := Ders(roots);
    assert |ders| == |roots| && forall i :: 0 <= i < |roots| ==> ders[i] == roots[i].der;
  }

  lemma CoveredRoots(issuers: seq<IssuerState>, roots: seq<Root>)
    ensures CoversRoots(issuers, Hashes(SortBy(Der, roots))) <==>
            forall r :: r in roots ==> exists s :: s in issuers && s.issuer == r.hash
  {
    var hashes := Hashes(SortBy(Der, roots));
    HashesAreOfRoots(roots);
    hide Hashes, SortBy;
    if CoversRoots(issuers, hashes) {
      forall r | r in roots ensures exists s :: s in issuers && s.issuer == r.hash { assert r.hash in hashes; }
    }
  }

  lemma HashesAreOfRoots(roots: seq<Root>)
    ensures forall h: Hash :: h in Hashes(SortBy(Der, roots)) <==> exists r :: r in roots && r.hash == h
  {
    var sorted := SortBy(Der, roots);
    SortKeepsElements(Der, roots);
    forall h: Hash ensures h in Hashes(sorted) <==> exists r :: r in roots && r.hash == h {
      if h in Hashes(sorted) {
        var i :| 0 <= i < |sorted| && Hashes(sorted)[i] == h;
        SameElements(sorted, roots, sorted[i]);
      }
      if r :| r in roots && r.hash == h {
        SameElements(roots, sorted, r);
        var i :| 0 <= i < |sorted| && sorted[i] == r;
        assert Hashes(sorted)[i] == h;
      }
    }
  }

  /** The manager a start leaves: its roots, the stored checkpoint, nothing active, and a timer at the first expiry. */
  lemma FreshIsRestored(roots: seq<Root>, stored: Option<Checkpoint>)
    requires Startable(roots, stored)
    ensures var m := Fresh(roots, stored);
            && (forall h: Hash :: h in m.roots <==> exists r :: r in roots && r.hash == h)
            && Some(m.rootDigest) == RootsDigest(Ders(roots)) && !m.closed && m.active == {}
            && m.checkpoint == (if stored.Some? then stored.value else Checkpoint(Missing, Missing, []))
            && m.bundleHash == (if stored.Some? then BundleHash(stored.value.issuers) else Missing)
            && (m.timer.None? <==> m.checkpoint.issuers == [])
            && (m.timer.Some? ==>
                  && m.timer.value.generation == m.generation
                  && (forall s :: s in m.checkpoint.issuers ==> m.timer.value.deadline <= s.nextUpdate)
                  && exists s :: s in m.checkpoint.issuers && m.timer.value.deadline == s.nextUpdate)
  {
    HashesAreOfRoots(roots);
    if stored.Some? && stored.value.issuers != [] {
      var issuers := stored.value.issuers;
      ValidIsIntact(stored.value);
      forall i | 0 <= i < |issuers| ensures issuers[i].nextUpdate != 0 { assert issuers[i] in issuers; }
      EarliestIsMinimum(issuers);
      var i :| 0 <= i < |issuers| && Earliest(issuers) == issuers[i].nextUpdate;
      assert issuers[i] in issuers;
    }
    hide Hashes, SortBy, RootsDigest, CheckpointValid, BundleHash;
  }
}
