/**
 What infrastructure/peer/security/revocation.go accepts: a bundle of parsed CRLs against the
 current checkpoint, a certificate chain against the current CRLs, and a stored checkpoint on
 restart. Certificates and CRLs arrive parsed: signature checking, chain building and extension
 parsing are the flags of the records. Each method reads the clock once.
 */
module Revocation {
  import opened Status
  import opened Codec
  import opened Canonical
  import opened TrustRoots
  import opened CheckpointDigest

  /** The hex SHA-256 of something that was hashed. */
  type Hash = t: Text | IsHash(t) witness seq(64, _ => 48)

  /** time.Minute; times are in nanoseconds. */
  const MINUTE: Time := 60_000_000_000

  // ------------------------------------------------------------ serial numbers

  function Decimal(n: nat): Text {
    if n < 10 then [48 + n] else Decimal(n / 10) + [48 + n % 10]
  }

  /** big.Int.String. */
  function SerialText(n: int): Text {
    if n < 0 then [45] + Decimal(-n) else Decimal(n)
  }

  lemma {:induction false} DecimalIsDigits(n: nat)
    ensures Decimal(n) != [] && forall i :: 0 <= i < |Decimal(n)| ==> IsDigit(Decimal(n)[i])
  {
    if n >= 10 { DecimalIsDigits(n / 10); }
  }

  lemma DecimalLength(n: nat)
    ensures |Decimal(n)| == 1 <==> n < 10
  {
    DecimalIsDigits(n / 10);
  }

  lemma {:induction false} DecimalIsInjective(m: nat, n: nat)
    requires Decimal(m) == Decimal(n)
    ensures m == n
  {
    DecimalLength(m);
    DecimalLength(n);
    if m >= 10 {
      var k := |Decimal(m)| - 1;
      assert Decimal(m)[..k] == Decimal(m / 10) && Decimal(n)[..k] == Decimal(n / 10);
      assert Decimal(m)[k] == 48 + m % 10 && Decimal(n)[k] == 48 + n % 10;
      DecimalIsInjective(m / 10, n / 10);
    }
  }

  // ------------------------------------------------------------ reading numbers back

  /** The number a list of decimal digits stands for. */
  function DigitsValue(t: Text): nat
    requires t == [] || AllDigits(t)
  {
    if t == [] then 0
    else
      assert IsDigit(t[|t| - 1]);
      var last: int := t[|t| - 1];
      10 * DigitsValue(t[..|t| - 1]) + last - 48
  }

  /** big.Int.SetString in base 10: an optional sign and at least one digit. */
  function ReadInt(t: Text): Option<int> {
    if !AllDigits(Unsigned(t)) then None
    else
      var n: int := DigitsValue(Unsigned(t));
      Some(if t != [] && t[0] == 45 then -n else n)
  }

  lemma {:induction false} DecimalReadsBack(n: nat)
    ensures AllDigits(Decimal(n)) && DigitsValue(Decimal(n)) == n
  {
    DecimalIsDigits(n);
    var t := Decimal(n);
    if n >= 10 {
      DecimalReadsBack(n / 10);
      assert t[..|t| - 1] == Decimal(n / 10);
    } else {
      assert t[..0] == [] && DigitsValue([]) == 0;
    }
  }

  /** The text of a number reads back as the number. */
  lemma SerialTextReadsBack(n: int)
    ensures ReadInt(SerialText(n)) == Some(n)
  {
    var m: nat := if n < 0 then -n else n;
    DecimalReadsBack(m);
    assert IsDigit(Decimal(m)[0]);
    if n < 0 { assert ([45] + Decimal(m))[1..] == Decimal(m); }
    hide Decimal, DigitsValue;
  }

  /** A sign in front is read, either one; no other byte than a digit is, and nothing reads as no number. */
  lemma SignsAreRead(n: nat, t: Text)
    ensures ReadInt([43] + Decimal(n)) == Some(n) && ReadInt([45] + Decimal(n)) == Some(0 - n as int)
    ensures ReadInt(t).Some? ==>
              && t != [] && (48 <= t[0] < 58 || (|t| > 1 && t[0] in {43, 45}))
              && forall i :: 1 <= i < |t| ==> 48 <= t[i] < 58
  {
    DecimalReadsBack(n);
    assert ([43] + Decimal(n))[1..] == Decimal(n) && ([45] + Decimal(n))[1..] == Decimal(n);
    if ReadInt(t).Some? {
      forall i | 1 <= i < |t| ensures IsDigit(t[i]) {
        if Unsigned(t) == t { assert IsDigit(Unsigned(t)[i]); } else { assert IsDigit(Unsigned(t)[i - 1]); }
      }
      if Unsigned(t) == t { assert IsDigit(Unsigned(t)[0]); }
    }
    hide Decimal, DigitsValue;
  }

  lemma {:induction false} ZeroIsZeros(t: Text)
    requires t == [] || AllDigits(t)
    ensures DigitsValue(t) == 0 <==> AllZeros(t)
  {
    if t != [] {
      ZeroIsZeros(t[..|t| - 1]);
      assert forall i :: 0 <= i < |t| - 1 ==> t[..|t| - 1][i] == t[i];
      assert IsDigit(t[|t| - 1]);
    }
  }

  /** A stored serial is accepted exactly when it reads as a number that is not negative. */
  lemma SerialIsNonNegative(t: Text)
    ensures IsSerial(t) <==> ReadInt(t).Some? && ReadInt(t).value >= 0
  {
    if AllDigits(Unsigned(t)) { ZeroIsZeros(Unsigned(t)); }
    hide DigitsValue, AllDigits, Unsigned, AllZeros;
  }

  lemma SerialTextIsSerial(n: nat)
    ensures IsSerial(SerialText(n))
  {
    DecimalIsDigits(n);
    assert IsDigit(Decimal(n)[0]);
  }

  // ------------------------------------------------------------ bundles

  datatype Entry = Entry(serial: Option<int>, supported: bool)

  /** A parsed CRL; `genuine` means that it parses, that the issuer signed it and that the names agree. */
  datatype Crl = Crl(hash: Hash, genuine: bool, number: Option<int>, thisUpdate: Time, nextUpdate: Time,
                     keyMatches: bool, supported: bool, entries: seq<Entry>)

  /** An issuer's record; `trusted` means that a chain leads from it to the roots through the bundle's issuers. */
  datatype Record = Record(issuer: Hash, isAuthority: bool, trusted: bool, crl: Crl)

  datatype Bundle = Bundle(trustRoots: Digest, records: seq<Record>)

  datatype Checkpoint = Checkpoint(trustRoots: Digest, digest: Digest, issuers: seq<IssuerState>)

  const NO_CHECKPOINT: Checkpoint := Checkpoint(Missing, Missing, [])

  predicate CurrentCrl(c: Crl, now: Time) {
    && c.genuine && c.number.Some? && c.number.value >= 0
    && c.nextUpdate > now && c.thisUpdate <= now + MINUTE && c.thisUpdate <= c.nextUpdate
    && c.keyMatches && c.supported
  }

  function SerialOf(e: Entry): Text {
    if e.serial.Some? then SerialText(e.serial.value) else []
  }

  function Serials(entries: seq<Entry>): seq<Text> {
    seq(|entries|, i requires 0 <= i < |entries| => SerialOf(entries[i]))
  }

  predicate SoundEntry(e: Entry) {
    e.supported && e.serial.Some? && e.serial.value >= 0
  }

  ghost predicate SoundEntries(entries: seq<Entry>) {
    (forall i :: 0 <= i < |entries| ==> SoundEntry(entries[i])) && Distinct(Serials(entries))
  }

  ghost predicate SoundRecord(r: Record, now: Time) {
    r.isAuthority && r.trusted && CurrentCrl(r.crl, now) && SoundEntries(r.crl.entries)
  }

  function IssuersOf(records: seq<Record>): seq<Text> {
    seq(|records|, i requires 0 <= i < |records| => records[i].issuer)
  }

  ghost predicate SoundRecords(records: seq<Record>, now: Time) {
    Distinct(IssuersOf(records)) && forall i :: 0 <= i < |records| ==> SoundRecord(records[i], now)
  }

  /** The states by issuer, as the loops over a checkpoint build them: the last of an issuer counts. */
  function Index(issuers: seq<IssuerState>): map<Text, IssuerState> {
    if issuers == [] then map[]
    else
      var last := issuers[|issuers| - 1];
      Index(issuers[..|issuers| - 1])[last.issuer := last]
  }

  /** A CRL that may replace the issuer's previous state: no rollback, no equivocation, no forgotten serial. */
  ghost predicate Advances(index: map<Text, IssuerState>, r: Record) {
    r.issuer in index && r.crl.number.Some? ==>
      var before := index[r.issuer];
      && before.number.Some? && before.number.value <= r.crl.number.value
      && (before.number.value == r.crl.number.value ==> before.crl == r.crl.hash)
      && Elements(before.revoked) <= Elements(Serials(r.crl.entries))
  }

  /** What validateLocked accepts. */
  ghost predicate Acceptable(roots: seq<Hash>, rootDigest: Digest, issuers: seq<IssuerState>, bundle: Bundle,
                             now: Time) {
    var names := IssuersOf(bundle.records);
    && bundle.trustRoots == rootDigest && bundle.records != [] && SoundRecords(bundle.records, now)
    && (forall h :: h in roots ==> h in names)
    && (forall i :: 0 <= i < |bundle.records| ==> Advances(Index(issuers), bundle.records[i]))
    && (forall k :: k in Index(issuers) ==> k in names)
    && (issuers != [] ==> |bundle.records| == |issuers|)
  }

  function StateOf(r: Record): IssuerState {
    IssuerState(r.issuer, r.crl.number, r.crl.hash, r.crl.nextUpdate, SortTexts(Serials(r.crl.entries)))
  }

  function StatesOf(records: seq<Record>): seq<IssuerState> {
    seq(|records|, i requires 0 <= i < |records| => StateOf(records[i]))
  }

  /** The checkpoint an acceptable bundle leads to. */
  function NextCheckpoint(rootDigest: Digest, records: seq<Record>): Checkpoint {
    var issuers := SortBy(Issuer, StatesOf(records));
    Checkpoint(rootDigest, BundleHash(issuers), issuers)
  }

  // ------------------------------------------------------------ chains

  datatype Cert = Cert(hash: Hash, serial: int)

  type Chain = seq<Cert>

  /** Who answers for a certificate: the next one in the chain, and the last one for itself. */
  function Signer(chain: Chain, i: nat): Hash
    requires i < |chain|
  {
    chain[if i + 1 < |chain| then i + 1 else i].hash
  }

  /** Every certificate is covered by the CRL of its issuer, and the root by its own, and not revoked. */
  predicate ChainClear(index: map<Text, IssuerState>, chain: Chain) {
    chain != [] && forall i :: 0 <= i < |chain| ==> LinkClear(index, chain, i)
  }

  predicate LinkClear(index: map<Text, IssuerState>, chain: Chain, i: nat)
    requires i < |chain|
  {
    var k := Signer(chain, i);
    k in index && SerialText(chain[i].serial) !in index[k].revoked
  }

  ghost predicate Current(issuers: seq<IssuerState>, now: Time) {
    issuers != [] && forall i :: 0 <= i < |issuers| ==> issuers[i].nextUpdate > now
  }

  ghost predicate AllClear(issuers: seq<IssuerState>, chains: seq<Chain>) {
    chains != [] && forall i :: 0 <= i < |chains| ==> ChainClear(Index(issuers), chains[i])
  }

  /** What verifyLocked admits. */
  ghost predicate Admits(closed: bool, bundleHash: Digest, issuers: seq<IssuerState>, chains: seq<Chain>, now: Time) {
    !closed && bundleHash != Missing && Current(issuers, now) && AllClear(issuers, chains)
  }

  // ------------------------------------------------------------ stored checkpoints

  ghost predicate RestorableState(s: IssuerState) {
    WellFormedState(s) && s.number.Some? && s.number.value >= 0 && s.nextUpdate != 0
  }

  /** What validateCheckpoint accepts. */
  ghost predicate CheckpointValid(c: Checkpoint) {
    if c.issuers == [] then c.digest == Missing
    else
      && c.digest == BundleHash(c.issuers) && DistinctIssuers(c.issuers)
      && forall i :: 0 <= i < |c.issuers| ==> RestorableState(c.issuers[i])
  }

  datatype Root = Root(der: Text, hash: Hash, valid: bool)

  function Der(r: Root): Text { r.der }

  function Ders(roots: seq<Root>): seq<Text> {
    seq(|roots|, i requires 0 <= i < |roots| => roots[i].der)
  }

  function Hashes(roots: seq<Root>): seq<Hash> {
    seq(|roots|, i requires 0 <= i < |roots| => roots[i].hash)
  }

  ghost predicate CoversRoots(issuers: seq<IssuerState>, roots: seq<Hash>) {
    forall h :: h in roots ==> exists s :: s in issuers && s.issuer == h
  }

  /** When NewRevocationManager succeeds. */
  ghost predicate Startable(roots: seq<Root>, stored: Option<Checkpoint>) {
    && RootsDigest(Ders(roots)).Some? && (forall i :: 0 <= i < |roots| ==> roots[i].valid)
    && (stored.Some? ==>
          && stored.value.trustRoots == RootsDigest(Ders(roots)).value && CheckpointValid(stored.value)
          && (stored.value.issuers != [] ==> CoversRoots(stored.value.issuers, Hashes(SortBy(Der, roots)))))
  }

  // ------------------------------------------------------------ the loops

  /** The inner loop over a CRL's entries. */
  method CheckEntries(entries: seq<Entry>) returns (revoked: Option<set<Text>>)
    ensures revoked.Some? <==> SoundEntries(entries)
    ensures revoked.Some? ==> revoked.value == Elements(Serials(entries))
  {
    ghost var all: seq<Text> := Serials(entries);
    assert |all| == |entries|;
    hide Serials, SerialOf, Distinct, Elements;
    NothingSeen(all);
    var found: set<Text> := {};
    var i := 0;
    while i < |entries|
      invariant i <= |entries| == |all| && found == Elements(all[..i]) && Distinct(all[..i])
      invariant forall k :: 0 <= k < i ==> SoundEntry(entries[k])
    {
      if !entries[i].supported { return None; }
      if entries[i].serial.None? || entries[i].serial.value < 0 { return None; }
      var serial := SerialText(entries[i].serial.value);
      SerialAt(entries, i);
      if serial in found {
        SeenTwice(all, i);
        return None;
      }
      NewElement(all, i);
      found := found + {serial};
      i := i + 1;
    }
    assert all[..i] == all;
    revoked := Some(found);
  }

  lemma SerialAt(entries: seq<Entry>, i: nat)
    requires i < |entries| && entries[i].serial.Some?
    ensures |Serials(entries)| == |entries| && Serials(entries)[i] == SerialText(entries[i].serial.value)
  {
  }

  lemma NothingSeen<T(!new)>(all: seq<T>)
    ensures Elements(all[..0]) == {} && Distinct(all[..0])
  {
  }

  lemma SeenTwice<T(!new)>(all: seq<T>, i: nat)
    requires i < |all| && all[i] in Elements(all[..i])
    ensures !Distinct(all)
  {
    var k :| 0 <= k < i && all[..i][k] == all[i];
    assert all[k] == all[i];
  }

  lemma NewElement(all: seq<Text>, i: nat)
    requires i < |all| && Distinct(all[..i]) && all[i] !in Elements(all[..i])
    ensures Distinct(all[..i + 1]) && Elements(all[..i + 1]) == Elements(all[..i]) + {all[i]}
  {
    var longer := all[..i + 1];
    assert longer == all[..i] + [all[i]];
    forall a, b | 0 <= a < b < |longer| ensures longer[a] != longer[b] {
      assert all[..i][a] in all[..i];
    }
  }

  /** The first loop of validateLocked: authorities, each once. */
  method CheckIssuers(records: seq<Record>) returns (ok: bool)
    ensures ok <==> (forall i :: 0 <= i < |records| ==> records[i].isAuthority) && Distinct(IssuersOf(records))
  {
    var seen: set<Text> := {};
    var i := 0;
    while i < |records|
      invariant i <= |records| && seen == Elements(IssuersOf(records)[..i])
      invariant forall k :: 0 <= k < i ==> records[k].isAuthority
      invariant Distinct(IssuersOf(records)[..i])
    {
      ghost var all: seq<Text> := IssuersOf(records);
      if !records[i].isAuthority { return false; }
      if records[i].issuer in seen {
        ghost var name: Text := records[i].issuer;
        ghost var k :| 0 <= k < i && all[..i][k] == name;
        assert all[k] == all[i];
        return false;
      }
      NewElement(all, i);
      seen := seen + {records[i].issuer};
      i := i + 1;
    }
    assert IssuersOf(records)[..i] == IssuersOf(records);
    ok := true;
  }

  /** The second loop: trust, the CRL itself and its entries; gives the revoked set of each record. */
  method CheckRecords(records: seq<Record>, now: Time) returns (revoked: Option<seq<set<Text>>>)
    ensures revoked.Some? <==> SoundRecords(records, now)
    ensures revoked.Some? ==> |revoked.value| == |records|
    ensures revoked.Some? ==>
              forall i :: 0 <= i < |records| ==> revoked.value[i] == Elements(Serials(records[i].crl.entries))
  {
    var ok := CheckIssuers(records);
    if !ok { return None; }
    var sets: seq<set<Text>> := [];
    var i := 0;
    while i < |records|
      invariant i <= |records| && |sets| == i
      invariant forall k :: 0 <= k < i ==> SoundRecord(records[k], now)
      invariant forall k :: 0 <= k < i ==> sets[k] == Elements(Serials(records[k].crl.entries))
    {
      if !records[i].trusted || !CurrentCrl(records[i].crl, now) {
        assert !SoundRecord(records[i], now);
        return None;
      }
      var found := CheckEntries(records[i].crl.entries);
      if found.None? {
        assert !SoundRecord(records[i], now);
        return None;
      }
      sets := sets + [found.value];
      i := i + 1;
    }
    revoked := Some(sets);
  }

  /** Collecting a set into a list and sorting it: whatever the order of the map, the list is the same. */
  method Sorted(s: set<Text>, ghost elements: seq<Text>) returns (r: seq<Text>)
    requires Distinct(elements) && Elements(elements) == s
    ensures r == SortTexts(elements)
  {
    var list: seq<Text> := [];
    var left := s;
    while left != {}
      invariant left <= s && Distinct(list) && Elements(list) == s - left
      decreases left
    {
      var x :| x in left;
      assert x !in list by { assert x !in Elements(list); }
      assert Elements(list + [x]) == Elements(list) + {x};
      list := list + [x];
      left := left - {x};
    }
    SortedTextsAreTheSet(elements, list);
    r := SortTexts(list);
  }

  lemma {:induction false} IndexGrows(issuers: seq<IssuerState>, i: nat)
    requires i < |issuers|
    ensures Index(issuers[..i + 1]) == Index(issuers[..i])[issuers[i].issuer := issuers[i]]
  {
    assert issuers[..i + 1][..i] == issuers[..i];
  }

  method BuildIndex(issuers: seq<IssuerState>) returns (index: map<Text, IssuerState>)
    ensures index == Index(issuers)
  {
    index := map[];
    var i := 0;
    while i < |issuers|
      invariant i <= |issuers| && index == Index(issuers[..i])
    {
      IndexGrows(issuers, i);
      index := index[issuers[i].issuer := issuers[i]];
      i := i + 1;
    }
    assert issuers[..i] == issuers;
  }

  /** One record against the issuer's previous state; the prior serials are looked up one by one. */
  method CheckAdvance(index: map<Text, IssuerState>, r: Record, revoked: set<Text>) returns (ok: bool)
    requires revoked == Elements(Serials(r.crl.entries)) && r.crl.number.Some?
    ensures ok <==> Advances(index, r)
  {
    if r.issuer !in index { return true; }
    var before := index[r.issuer];
    if before.number.None? { return false; }
    if r.crl.number.value < before.number.value { return false; }
    if r.crl.number.value == before.number.value && r.crl.hash != before.crl { return false; }
    var i := 0;
    while i < |before.revoked|
      invariant i <= |before.revoked| && forall k :: 0 <= k < i ==> before.revoked[k] in revoked
    {
      if before.revoked[i] !in revoked {
        assert before.revoked[i] in Elements(before.revoked);
        return false;
      }
      i := i + 1;
    }
    ok := true;
  }

  ghost predicate AllAdvance(index: map<Text, IssuerState>, records: seq<Record>) {
    && (forall i :: 0 <= i < |records| ==> Advances(index, records[i]))
    && (forall k :: k in index ==> k in IssuersOf(records))
  }

  /** The last loop of validateLocked: the new states, and the previous issuers that are left over. */
  method BuildStates(issuers: seq<IssuerState>, records: seq<Record>, revoked: seq<set<Text>>, ghost now: Time)
      returns (states: Option<seq<IssuerState>>)
    requires SoundRecords(records, now) && |revoked| == |records|
    requires forall i :: 0 <= i < |records| ==> revoked[i] == Elements(Serials(records[i].crl.entries))
    ensures states.Some? <==> AllAdvance(Index(issuers), records)
    ensures states.Some? ==> states.value == StatesOf(records)
  {
    var index := BuildIndex(issuers);
    var remaining := index;
    var list: seq<IssuerState> := [];
    var i := 0;
    while i < |records|
      invariant i <= |records| && list == StatesOf(records)[..i]
      invariant remaining == index - Elements(IssuersOf(records)[..i])
      invariant forall k :: 0 <= k < i ==> Advances(index, records[k])
    {
      var r := records[i];
      NotSeenBefore(records, i);
      assert SoundRecord(r, now);
      assert r.issuer in remaining <==> r.issuer in index;
      assert Advances(remaining, r) <==> Advances(index, r);
      var ok := CheckAdvance(remaining, r, revoked[i]);
      if !ok { return None; }
      var seed := if r.issuer in remaining then Elements(remaining[r.issuer].revoked) else {};
      assert seed + revoked[i] == Elements(Serials(r.crl.entries));
      var serials := Sorted(seed + revoked[i], Serials(r.crl.entries));
      list := list + [IssuerState(r.issuer, r.crl.number, r.crl.hash, r.crl.nextUpdate, serials)];
      remaining := remaining - {r.issuer};
      i := i + 1;
    }
    assert IssuersOf(records)[..i] == IssuersOf(records) && StatesOf(records)[..i] == StatesOf(records);
    if remaining != map[] {
      ghost var k :| k in remaining;
      assert k in index && k !in Elements(IssuersOf(records));
      return None;
    }
    forall k | k in index ensures k in IssuersOf(records) {
      assert k !in remaining;
      assert k in Elements(IssuersOf(records));
    }
    states := Some(list);
  }

  lemma NotSeenBefore(records: seq<Record>, i: nat)
    requires i < |records| && Distinct(IssuersOf(records))
    ensures records[i].issuer !in Elements(IssuersOf(records)[..i])
    ensures Elements(IssuersOf(records)[..i + 1]) == Elements(IssuersOf(records)[..i]) + {records[i].issuer}
    ensures StatesOf(records)[..i + 1] == StatesOf(records)[..i] + [StateOf(records[i])]
  {
    var all := IssuersOf(records);
    assert all[..i + 1] == all[..i] + [all[i]];
    forall x | x in all[..i] ensures x != records[i].issuer {
      var k :| 0 <= k < i && all[..i][k] == x;
      assert all[k] == x;
    }
  }

  /** validateLocked: the next checkpoint, exactly for an acceptable bundle. */
  method Validate(roots: seq<Hash>, rootDigest: Digest, issuers: seq<IssuerState>, bundle: Bundle, now: Time)
      returns (next: Option<Checkpoint>)
    ensures next.Some? <==> Acceptable(roots, rootDigest, issuers, bundle, now)
    ensures next.Some? ==> next.value == NextCheckpoint(rootDigest, bundle.records)
  {
    if bundle.trustRoots != rootDigest || bundle.records == [] { return None; }
    var revoked := CheckRecords(bundle.records, now);
    if revoked.None? { return None; }
    var names := IssuersOf(bundle.records);
    var i := 0;
    while i < |roots|
      invariant i <= |roots| && forall k :: 0 <= k < i ==> roots[k] in names
    {
      if roots[i] !in names {
        assert roots[i] in roots;
        return None;
      }
      i := i + 1;
    }
    var states := BuildStates(issuers, bundle.records, revoked.value, now);
    if states.None? { return None; }
    if issuers != [] && |states.value| != |issuers| { return None; }
    var sorted := SortBy(Issuer, states.value);
    next := Some(Checkpoint(rootDigest, BundleHash(sorted), sorted));
    hide SoundRecords, Advances, Index, BundleHash, SortBy;
  }

  /** verifyLocked. */
  method Verify(closed: bool, bundleHash: Digest, issuers: seq<IssuerState>, chains: seq<Chain>, now: Time)
    returns (ok: bool)
    ensures ok <==> Admits(closed, bundleHash, issuers, chains, now)
  {
    if closed || chains == [] || bundleHash == Missing || issuers == [] { return false; }
    var i := 0;
    while i < |issuers|
      invariant i <= |issuers| && forall k :: 0 <= k < i ==> issuers[k].nextUpdate > now
    {
      if issuers[i].nextUpdate <= now { return false; }
      i := i + 1;
    }
    var index := BuildIndex(issuers);
    i := 0;
    while i < |chains|
      invariant i <= |chains| && forall k :: 0 <= k < i ==> ChainClear(index, chains[k])
    {
      var clear := VerifyOne(index, chains[i]);
      if !clear { return false; }
      i := i + 1;
    }
    ok := true;
  }

  /** The inner loops of verifyLocked: each certificate against its issuer's CRL, the root against its own. */
  method VerifyOne(index: map<Text, IssuerState>, chain: Chain) returns (ok: bool)
    ensures ok <==> ChainClear(index, chain)
  {
    if chain == [] { return false; }
    var i := 0;
    while i + 1 < |chain|
      invariant i < |chain| && forall k :: 0 <= k < i ==> LinkClear(index, chain, k)
    {
      if chain[i + 1].hash !in index || SerialText(chain[i].serial) in index[chain[i + 1].hash].revoked {
        assert !LinkClear(index, chain, i);
        return false;
      }
      i := i + 1;
    }
    var root := chain[|chain| - 1];
    assert LinkClear(index, chain, i) <==> root.hash in index && SerialText(root.serial) !in index[root.hash].revoked;
    if root.hash !in index { return false; }
    ok := SerialText(root.serial) !in index[root.hash].revoked;
  }

  /** The inner loop of validateCheckpoint over the stored serials. */
  method CheckSerials(revoked: seq<Text>) returns (ok: bool)
    ensures ok <==> Distinct(revoked) && forall x :: x in revoked ==> IsSerial(x)
  {
    var seen: set<Text> := {};
    var i := 0;
    while i < |revoked|
      invariant i <= |revoked| && seen == Elements(revoked[..i]) && Distinct(revoked[..i])
      invariant forall k :: 0 <= k < i ==> IsSerial(revoked[k])
    {
      if !IsSerial(revoked[i]) { return false; }
      if revoked[i] in seen {
        ghost var k :| 0 <= k < i && revoked[..i][k] == revoked[i];
        assert revoked[k] == revoked[i];
        return false;
      }
      NewElement(revoked, i);
      seen := seen + {revoked[i]};
      i := i + 1;
    }
    assert revoked[..i] == revoked;
    ok := true;
  }

  /** validateCheckpoint. */
  method CheckCheckpoint(c: Checkpoint) returns (ok: bool)
    ensures ok <==> CheckpointValid(c)
  {
    if c.issuers == [] { return c.digest == Missing; }
    if c.digest != BundleHash(c.issuers) { return false; }
    var seen: set<Text> := {};
    var i := 0;
    while i < |c.issuers|
      invariant i <= |c.issuers| && seen == Elements(Keys(c.issuers)[..i]) && Distinct(Keys(c.issuers)[..i])
      invariant forall k :: 0 <= k < i ==> RestorableState(c.issuers[k])
    {
      var s := c.issuers[i];
      if !IsHash(s.issuer) || !IsHash(s.crl) || s.number.None? || s.number.value < 0 || s.nextUpdate == 0 {
        assert !RestorableState(s);
        return false;
      }
      if s.issuer in seen {
        ghost var k :| 0 <= k < i && Keys(c.issuers)[..i][k] == s.issuer;
        assert c.issuers[k].issuer == c.issuers[i].issuer;
        return false;
      }
      NewElement(Keys(c.issuers), i);
      seen := seen + {s.issuer};
      var sound := CheckSerials(s.revoked);
      if !sound {
        assert !RestorableState(s);
        return false;
      }
      i := i + 1;
    }
    assert Keys(c.issuers)[..i] == Keys(c.issuers);
    forall a, b | 0 <= a < b < |c.issuers| ensures c.issuers[a].issuer != c.issuers[b].issuer {
      assert Keys(c.issuers)[a] != Keys(c.issuers)[b];
    }
    ok := true;
  }
}
