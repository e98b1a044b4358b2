/**
 checkpointBundleHash of infrastructure/peer/security/revocation.go: the canonical serialisation
 of a checkpoint, and what its digest does and does not determine.
 */
module CheckpointDigest {
  import opened Status
  import opened Codec
  import opened Canonical
  import opened TrustRoots

  type Time = int

  /**
   The durable state of one issuer. `number` is the number its decimal text stands for, if it
   stands for one. A zero time is the absent time.
   */
  datatype IssuerState = IssuerState(issuer: Text, number: Option<int>, crl: Text, nextUpdate: Time, revoked: seq<Text>)

  predicate IsHexDigit(b: byte) {
    48 <= b <= 57 || 65 <= b <= 70 || 97 <= b <= 102
  }

  /** A hex text of 32 bytes. */
  predicate IsHash(t: Text) {
    |t| == 64 && forall i :: 0 <= i < |t| ==> IsHexDigit(t[i])
  }

  predicate IsDigit(b: byte) {
    48 <= b <= 57
  }

  predicate AllDigits(t: Text) {
    t != [] && forall i :: 0 <= i < |t| ==> IsDigit(t[i])
  }

  /** The text without its sign, if it has one. */
  function Unsigned(t: Text): Text {
    if t != [] && (t[0] == 43 || t[0] == 45) then t[1..] else t
  }

  predicate AllZeros(t: Text) {
    forall i :: 0 <= i < |t| ==> t[i] == 48
  }

  /** A decimal text of a number that is not negative: an optional sign and digits. */
  predicate IsSerial(t: Text) {
    AllDigits(Unsigned(t)) && (t != [] && t[0] == 45 ==> AllZeros(Unsigned(t)))
  }

  function Issuer(s: IssuerState): Text { s.issuer }

  // ------------------------------------------------------------ the canonical bytes

  function SerialBytes(serials: seq<Text>): Text {
    if serials == [] then [] else serials[0] + [0] + SerialBytes(serials[1..])
  }

  /** One issuer's part: two fixed-length hashes, the sorted serials each closed by 0, and 0xff. */
  function Line(s: IssuerState): Text {
    s.issuer + s.crl + SerialBytes(SortTexts(s.revoked)) + [0xff]
  }

  function Lines(issuers: seq<IssuerState>): Text {
    if issuers == [] then [] else Line(issuers[0]) + Lines(issuers[1..])
  }

  function Preimage(issuers: seq<IssuerState>): Text {
    Lines(SortBy(Issuer, issuers))
  }

  function BundleHash(issuers: seq<IssuerState>): Digest {
    Sha256(Preimage(issuers))
  }

  // ------------------------------------------------------------ what it stands for

  ghost predicate WellFormedState(s: IssuerState) {
    IsHash(s.issuer) && IsHash(s.crl) && Distinct(s.revoked) && forall x :: x in s.revoked ==> IsSerial(x)
  }

  ghost predicate DistinctIssuers(issuers: seq<IssuerState>) {
    forall i, j :: 0 <= i < j < |issuers| ==> issuers[i].issuer != issuers[j].issuer
  }

  ghost predicate WellFormedIssuers(issuers: seq<IssuerState>) {
    DistinctIssuers(issuers) && forall s :: s in issuers ==> WellFormedState(s)
  }

  /** Two states that mean the same: the same CRL and the same revoked serials. */
  predicate SameMeaning(a: IssuerState, b: IssuerState) {
    a.issuer == b.issuer && a.crl == b.crl && Elements(a.revoked) == Elements(b.revoked)
  }

  /** The same map from issuer to CRL hash and revoked set. */
  ghost predicate SameRevocations(a: seq<IssuerState>, b: seq<IssuerState>) {
    && (forall x :: x in a ==> exists y :: y in b && SameMeaning(x, y))
    && (forall y :: y in b ==> exists x :: x in a && SameMeaning(x, y))
  }

  // ------------------------------------------------------------ decoding

  lemma SerialIsPlain(t: Text)
    requires IsSerial(t)
    ensures forall i :: 0 <= i < |t| ==> t[i] != 0 && t[i] != 0xff
  {
    if t[0] == 43 || t[0] == 45 {
      forall i | 1 <= i < |t| ensures IsDigit(t[i]) { assert t[i] == t[1..][i - 1]; }
    } else {
      forall i | 0 <= i < |t| ensures t[i] != 0 && t[i] != 0xff { assert IsDigit(t[i]); }
    }
  }

  /** The first serial ends at the first zero byte. */
  lemma FirstSerialIsDecodable(x: Text, y: Text, a: Text, b: Text)
    requires IsSerial(x) && IsSerial(y) && x + [0] + a == y + [0] + b
    ensures x == y && a == b
  {
    SerialIsPlain(x);
    SerialIsPlain(y);
    var s := x + [0] + a;
    assert s[|x|] == 0 && s[|y|] == 0;
    assert forall i :: 0 <= i < |x| ==> s[i] == x[i];
    assert forall i :: 0 <= i < |y| ==> s[i] == y[i];
    assert |x| == |y|;
    assert x == s[..|x|] == y;
    assert a == s[|x| + 1..] == b;
  }

  /** The list is empty exactly when its closing byte comes first. */
  lemma FirstByteTells(a: seq<Text>, p: Text)
    requires forall x :: x in a ==> IsSerial(x)
    ensures (SerialBytes(a) + [0xff] + p)[0] == 0xff <==> a == []
  {
    if a != [] {
      SerialIsPlain(a[0]);
      assert (SerialBytes(a) + [0xff] + p)[0] == a[0][0];
    }
  }

  /** A list of serials followed by 0xff can be read back. */
  lemma {:induction false} SerialsAreDecodable(a: seq<Text>, b: seq<Text>, p: Text, q: Text)
    requires (forall x :: x in a ==> IsSerial(x)) && (forall x :: x in b ==> IsSerial(x))
    requires SerialBytes(a) + [0xff] + p == SerialBytes(b) + [0xff] + q
    ensures a == b && p == q
  {
    var s := SerialBytes(a) + [0xff] + p;
    hide IsSerial;
    FirstByteTells(a, p);
    FirstByteTells(b, q);
    if a == [] {
      assert p == s[1..] == q;
    } else {
      var p', q' := SerialBytes(a[1..]) + [0xff] + p, SerialBytes(b[1..]) + [0xff] + q;
      assert s == a[0] + [0] + p' && s == b[0] + [0] + q';
      FirstSerialIsDecodable(a[0], b[0], p', q');
      SerialsAreDecodable(a[1..], b[1..], p, q);
      assert a == [a[0]] + a[1..] && b == [b[0]] + b[1..];
    }
  }

  lemma FixedFieldsAreDecodable(i: Text, c: Text, t: Text, i': Text, c': Text, t': Text)
    requires |i| == |i'| && |c| == |c'| && i + c + t == i' + c' + t'
    ensures i == i' && c == c' && t == t'
  {
    var s, s' := i + c + t, i' + c' + t';
    var m, n := |i|, |i| + |c|;
    assert i == s[..m] && i' == s'[..m];
    assert c == s[m..n] && c' == s'[m..n];
    assert t == s[n..] && t' == s'[n..];
  }

  lemma LineIsDecodable(a: IssuerState, b: IssuerState, p: Text, q: Text)
    requires WellFormedState(a) && WellFormedState(b) && Line(a) + p == Line(b) + q
    ensures SameMeaning(a, b) && p == q
  {
    var x, y := SortTexts(a.revoked), SortTexts(b.revoked);
    SortTextsKeeps(a.revoked);
    SortTextsKeeps(b.revoked);
    var s, t := SerialBytes(x) + [0xff] + p, SerialBytes(y) + [0xff] + q;
    assert Line(a) + p == a.issuer + a.crl + s && Line(b) + q == b.issuer + b.crl + t;
    hide Line, SerialBytes;
    FixedFieldsAreDecodable(a.issuer, a.crl, s, b.issuer, b.crl, t);
    forall t | t in x ensures IsSerial(t) { assert t in Elements(x); }
    forall t | t in y ensures IsSerial(t) { assert t in Elements(y); }
    hide IsSerial, IsHash;
    SerialsAreDecodable(x, y, p, q);
  }

  lemma {:induction false} LinesAreDecodable(a: seq<IssuerState>, b: seq<IssuerState>)
    requires (forall s :: s in a ==> WellFormedState(s)) && (forall s :: s in b ==> WellFormedState(s))
    requires Lines(a) == Lines(b)
    ensures |a| == |b| && forall i :: 0 <= i < |a| ==> SameMeaning(a[i], b[i])
  {
    hide WellFormedState, SameMeaning, Line;
    if a == [] || b == [] {
      if a != [] { LineIsNonempty(a[0]); }
      if b != [] { LineIsNonempty(b[0]); }
    } else {
      LineIsDecodable(a[0], b[0], Lines(a[1..]), Lines(b[1..]));
      LinesAreDecodable(a[1..], b[1..]);
      assert forall i :: 1 <= i < |a| ==> a[i] == a[1..][i - 1] && b[i] == b[1..][i - 1];
    }
  }

  lemma LineIsNonempty(s: IssuerState)
    ensures |Line(s)| > 0
  {
  }

  // ------------------------------------------------------------ exactness

  lemma SortedIssuersKeep(issuers: seq<IssuerState>)
    requires WellFormedIssuers(issuers)
    ensures var sorted := SortBy(Issuer, issuers);
            WellFormedIssuers(sorted) && (forall s :: s in sorted <==> s in issuers)
  {
    var sorted := SortBy(Issuer, issuers);
    SortKeepsElements(Issuer, issuers);
    forall s ensures s in sorted <==> s in issuers {
      if s in sorted { SameElements(sorted, issuers, s); }
      if s in issuers { SameElements(issuers, sorted, s); }
    }
    assert Distinct(issuers);
    PermutationKeepsDistinct(issuers, sorted);
    forall i, j | 0 <= i < j < |sorted| ensures sorted[i].issuer != sorted[j].issuer {
      assert sorted[i] in issuers && sorted[j] in issuers && sorted[i] != sorted[j];
    }
    hide WellFormedState;
  }

  function Keys(issuers: seq<IssuerState>): seq<Text> {
    seq(|issuers|, i requires 0 <= i < |issuers| => issuers[i].issuer)
  }

  lemma SortedKeys(issuers: seq<IssuerState>)
    requires WellFormedIssuers(issuers)
    ensures var keys := Keys(SortBy(Issuer, issuers));
            && SortedBy(Itself, keys) && Distinct(keys)
            && (forall k :: k in keys <==> exists s :: s in issuers && s.issuer == k)
  {
    var sorted := SortBy(Issuer, issuers);
    SortedIssuersKeep(issuers);
    SortSorts(Issuer, issuers);
    var keys := Keys(sorted);
    assert forall i, j :: 0 <= i <= j < |sorted| ==> LessEq(Issuer(sorted[i]), Issuer(sorted[j]));
    forall k ensures k in keys <==> exists s :: s in issuers && s.issuer == k {
      if k in keys {
        var i :| 0 <= i < |keys| && keys[i] == k;
        assert sorted[i] in issuers;
      }
      if s :| s in issuers && s.issuer == k {
        var i :| 0 <= i < |sorted| && sorted[i] == s;
        assert keys[i] == k;
      }
    }
    hide WellFormedState, LessEq;
  }

  lemma SameKeys(a: seq<IssuerState>, b: seq<IssuerState>)
    requires WellFormedIssuers(a) && WellFormedIssuers(b) && SameRevocations(a, b)
    ensures Keys(SortBy(Issuer, a)) == Keys(SortBy(Issuer, b))
  {
    var x, y := Keys(SortBy(Issuer, a)), Keys(SortBy(Issuer, b));
    SortedKeys(a);
    SortedKeys(b);
    hide WellFormedIssuers, SortBy;
    forall k ensures k in x <==> k in y {
      if k in x {
        var s :| s in a && s.issuer == k;
        var t :| t in b && SameMeaning(s, t);
      }
      if k in y {
        var s :| s in b && s.issuer == k;
        var t :| t in a && SameMeaning(t, s);
      }
    }
    assert Elements(x) == Elements(y);
    DistinctSameElements(x, y);
    SortedIsUnique(Itself, x, y);
  }

  lemma SameMeaningSameLine(a: IssuerState, b: IssuerState)
    requires WellFormedState(a) && WellFormedState(b) && SameMeaning(a, b)
    ensures Line(a) == Line(b)
  {
    SortedTextsAreTheSet(a.revoked, b.revoked);
  }

  lemma {:induction false} SameLines(a: seq<IssuerState>, b: seq<IssuerState>)
    requires |a| == |b| && forall i :: 0 <= i < |a| ==> Line(a[i]) == Line(b[i])
    ensures Lines(a) == Lines(b)
  {
    hide Line;
    if a != [] { SameLines(a[1..], b[1..]); }
  }

  /** In well-formed lists, equal keys are the same issuer. */
  lemma KeyDecides(a: seq<IssuerState>, x: IssuerState, y: IssuerState)
    requires WellFormedIssuers(a) && x in a && y in a && x.issuer == y.issuer
    ensures x == y
  {
    hide WellFormedState;
  }

  lemma SameRevocationsSamePreimage(a: seq<IssuerState>, b: seq<IssuerState>)
    requires WellFormedIssuers(a) && WellFormedIssuers(b) && SameRevocations(a, b)
    ensures Preimage(a) == Preimage(b)
  {
    var x, y := SortBy(Issuer, a), SortBy(Issuer, b);
    SameKeys(a, b);
    SortedIssuersKeep(a);
    SortedIssuersKeep(b);
    assert |x| == |Keys(x)| == |Keys(y)| == |y|;
    hide SortBy;
    forall i | 0 <= i < |x| ensures Line(x[i]) == Line(y[i]) {
      assert Keys(x)[i] == Keys(y)[i];
      assert x[i] in a && y[i] in b;
      var t :| t in b && SameMeaning(x[i], t);
      KeyDecides(b, t, y[i]);
      SameMeaningSameLine(x[i], y[i]);
      hide WellFormedState, Line;
    }
    SameLines(x, y);
  }

  lemma SamePreimageSameRevocations(a: seq<IssuerState>, b: seq<IssuerState>)
    requires WellFormedIssuers(a) && WellFormedIssuers(b) && Preimage(a) == Preimage(b)
    ensures SameRevocations(a, b)
  {
    var x, y := SortBy(Issuer, a), SortBy(Issuer, b);
    SortedIssuersKeep(a);
    SortedIssuersKeep(b);
    LinesAreDecodable(x, y);
    hide WellFormedState, SortBy, SameMeaning;
    forall s | s in a ensures exists t :: t in b && SameMeaning(s, t) {
      var i :| 0 <= i < |x| && x[i] == s;
      assert y[i] in b && SameMeaning(s, y[i]);
    }
    forall t | t in b ensures exists s :: s in a && SameMeaning(s, t) {
      var i :| 0 <= i < |y| && y[i] == t;
      assert x[i] in a && SameMeaning(x[i], t);
    }
  }

  /** Equal digests hold exactly when the maps from issuer to CRL hash and revoked set are equal. */
  lemma DigestIsExact(a: seq<IssuerState>, b: seq<IssuerState>)
    requires WellFormedIssuers(a) && WellFormedIssuers(b)
    ensures BundleHash(a) == BundleHash(b) <==> SameRevocations(a, b)
  {
    if BundleHash(a) == BundleHash(b) { SamePreimageSameRevocations(a, b); }
    if SameRevocations(a, b) { SameRevocationsSamePreimage(a, b); }
    hide WellFormedIssuers, SameRevocations, Preimage;
  }

  /** Reordering the issuers, or the serials of an issuer, does not change the digest. */
  lemma DigestForgetsOrder(a: seq<IssuerState>, b: seq<IssuerState>)
    requires WellFormedIssuers(a) && multiset(a) == multiset(b)
    ensures BundleHash(a) == BundleHash(b)
  {
    assert KeyedBy(Issuer, a) by {
      forall x, y | x in a && y in a && Issuer(x) == Issuer(y) ensures x == y { KeyDecides(a, x, y); }
    }
    SortForgetsOrder(Issuer, a, b);
  }

  predicate SameText(x: IssuerState, y: IssuerState) {
    x.issuer == y.issuer && x.crl == y.crl && x.revoked == y.revoked
  }

  /** Two lists that agree on issuers, CRLs and serials, whatever their numbers and expiry. */
  ghost predicate SameTexts(a: seq<IssuerState>, b: seq<IssuerState>) {
    |a| == |b| && forall i :: 0 <= i < |a| ==> SameText(a[i], b[i])
  }

  lemma {:induction false} InsertKeepsSameTexts(x: IssuerState, y: IssuerState, a: seq<IssuerState>,
                                                b: seq<IssuerState>)
    requires SameText(x, y) && SameTexts(a, b)
    ensures SameTexts(Insert(Issuer, x, a), Insert(Issuer, y, b))
  {
    hide LessEq;
    if a == [] || LessEq(x.issuer, a[0].issuer) {
      assert a != [] ==> SameText(a[0], b[0]);
      assert Insert(Issuer, x, a) == [x] + a && Insert(Issuer, y, b) == [y] + b;
    } else {
      assert SameText(a[0], b[0]);
      InsertKeepsSameTexts(x, y, a[1..], b[1..]);
      assert Insert(Issuer, x, a) == [a[0]] + Insert(Issuer, x, a[1..]);
      assert Insert(Issuer, y, b) == [b[0]] + Insert(Issuer, y, b[1..]);
      hide SameText;
    }
  }

  lemma {:induction false} SortKeepsSameTexts(a: seq<IssuerState>, b: seq<IssuerState>)
    requires SameTexts(a, b)
    ensures SameTexts(SortBy(Issuer, a), SortBy(Issuer, b))
  {
    if a != [] {
      SortKeepsSameTexts(a[1..], b[1..]);
      InsertKeepsSameTexts(a[0], b[0], SortBy(Issuer, a[1..]), SortBy(Issuer, b[1..]));
    }
  }

  /** The digest covers neither the CRL numbers nor the next updates. */
  lemma DigestIgnoresNumberAndExpiry(a: seq<IssuerState>, b: seq<IssuerState>)
    requires SameTexts(a, b)
    ensures BundleHash(a) == BundleHash(b)
  {
    SortKeepsSameTexts(a, b);
    SameLines(SortBy(Issuer, a), SortBy(Issuer, b));
  }

  // ------------------------------------------------------------ the layout

  /** Each text closed by a zero byte. */
  function Closed(serials: seq<Text>): seq<Text> {
    seq(|serials|, i requires 0 <= i < |serials| => serials[i] + [0])
  }

  /** The issuer's hash, the CRL's hash, the serials one after the other, and 0xff. */
  function Laid(s: IssuerState, serials: seq<Text>): Text {
    s.issuer + s.crl + Concat(Closed(serials)) + [0xff]
  }

  lemma {:induction false} SerialBytesAreLaid(serials: seq<Text>)
    ensures SerialBytes(serials) == Concat(Closed(serials))
  {
    if serials != [] {
      SerialBytesAreLaid(serials[1..]);
      assert Closed(serials)[0] == serials[0] + [0] && Closed(serials)[1..] == Closed(serials[1..]);
    }
  }

  lemma {:induction false} LinesAreLaid(issuers: seq<IssuerState>, lines: seq<Text>)
    requires |lines| == |issuers| && forall i :: 0 <= i < |issuers| ==> lines[i] == Line(issuers[i])
    ensures Lines(issuers) == Concat(lines)
  {
    hide Line;
    if issuers != [] { LinesAreLaid(issuers[1..], lines[1..]); }
  }

  /** `lines` are the states in byte order of their issuers, each laid out with its serials in byte order. */
  ghost predicate LaidOut(issuers: seq<IssuerState>, sorted: seq<IssuerState>, serials: seq<seq<Text>>,
                          lines: seq<Text>) {
    && multiset(sorted) == multiset(issuers) && SortedBy(Issuer, sorted) && |serials| == |sorted| == |lines|
    && (forall i :: 0 <= i < |sorted| ==>
          && SortedBy(Itself, serials[i]) && multiset(serials[i]) == multiset(sorted[i].revoked)
          && lines[i] == Laid(sorted[i], serials[i]))
  }

  /** The digest is of the lines one after the other. */
  lemma DigestOfLayout(issuers: seq<IssuerState>, sorted: seq<IssuerState>, serials: seq<seq<Text>>, lines: seq<Text>)
    requires WellFormedIssuers(issuers) && LaidOut(issuers, sorted, serials, lines)
    ensures BundleHash(issuers) == Sha256(Concat(lines))
  {
    forall i | 0 <= i < |sorted| ensures lines[i] == Line(sorted[i]) {
      LineIsLaid(sorted[i], serials[i]);
    }
    assert SortBy(Issuer, issuers) == sorted by {
      SortKeepsElements(Issuer, issuers);
      SortSorts(Issuer, issuers);
      assert KeyedBy(Issuer, sorted) by {
        forall x, y | x in sorted && y in sorted && Issuer(x) == Issuer(y) ensures x == y {
          SameElements(sorted, issuers, x);
          SameElements(sorted, issuers, y);
          KeyDecides(issuers, x, y);
        }
      }
      hide WellFormedIssuers, Laid, Line;
      SortedIsUnique(Issuer, sorted, SortBy(Issuer, issuers));
    }
    LinesAreLaid(sorted, lines);
  }

  lemma LineIsLaid(s: IssuerState, serials: seq<Text>)
    requires SortedBy(Itself, serials) && multiset(serials) == multiset(s.revoked)
    ensures Line(s) == Laid(s, serials)
  {
    SortKeepsElements(Itself, s.revoked);
    SortSorts(Itself, s.revoked);
    SortedIsUnique(Itself, serials, SortTexts(s.revoked));
    SerialBytesAreLaid(serials);
  }
}
