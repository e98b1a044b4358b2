/**
 CanonicalTrustRootsDigest of infrastructure/peer/security/revocation.go: the digest of the sorted
 concatenation of the configured root certificates.
 */
module TrustRoots {
  import opened Status
  import opened Codec
  import opened Canonical

  /**
   A SHA-256 text. Two digests are equal exactly when they are of the same bytes; Missing is the
   empty text and Garbage any text that is not a digest of anything the program hashes.
   */
  datatype Digest = Missing | Sha256(preimage: Text) | Garbage(text: Text)

  function Concat(s: seq<Text>): Text {
    if s == [] then [] else s[0] + Concat(s[1..])
  }

  /** The digest of a set of roots; none for an empty list or one with a repeated root. */
  ghost function RootsDigest(roots: seq<Text>): Option<Digest> {
    if roots != [] && Distinct(roots) then Some(Sha256(Concat(SortTexts(roots)))) else None
  }

  lemma {:induction false} ConcatAppends(s: seq<Text>, x: Text)
    ensures Concat(s + [x]) == Concat(s) + x
  {
    if s == [] {
      assert s + [x] == [x] && [x][1..] == [];
    } else {
      ConcatAppends(s[1..], x);
      assert (s + [x])[1..] == s[1..] + [x];
    }
  }

  /** A repetition in a sorted list shows up between neighbours. */
  lemma SortedRepeatsAreAdjacent(s: seq<Text>, i: nat, j: nat)
    requires SortedBy(Itself, s) && i < j < |s| && s[i] == s[j]
    ensures s[i + 1] == s[i]
  {
    assert LessEq(Itself(s[i]), Itself(s[i + 1])) && LessEq(Itself(s[i + 1]), Itself(s[j]));
    OrderIsAntisymmetric(s[i], s[i + 1]);
  }

  /** The loop over the sorted copy: concatenate, and fail on two equal neighbours. */
  method CanonicalTrustRootsDigest(roots: seq<Text>) returns (r: Option<Digest>)
    ensures r == RootsDigest(roots)
  {
    if roots == [] { return None; }
    var sorted := SortTexts(roots);
    SortKeepsElements(Itself, roots);
    SortSorts(Itself, roots);
    var canonical: Text := [];
    var i := 0;
    while i < |sorted|
      invariant i <= |sorted| && canonical == Concat(sorted[..i])
      invariant forall k :: 0 < k < i ==> sorted[k] != sorted[k - 1]
    {
      if i > 0 && sorted[i] == sorted[i - 1] {
        if Distinct(roots) { PermutationKeepsDistinct(roots, sorted); }
        return None;
      }
      ConcatAppends(sorted[..i], sorted[i]);
      assert sorted[..i] + [sorted[i]] == sorted[..i + 1];
      canonical := canonical + sorted[i];
      i := i + 1;
    }
    forall a: nat, b: nat | a < b < |sorted| ensures sorted[a] != sorted[b] {
      if sorted[a] == sorted[b] {
        SortedRepeatsAreAdjacent(sorted, a, b);
        assert false;
      }
    }
    PermutationKeepsDistinct(sorted, roots);
    assert sorted[..i] == sorted;
    r := Some(Sha256(canonical));
  }

  /** The digest is of the roots in byte order, one after the other; there is none for no roots or a repeated one. */
  lemma DigestOfSortedRoots(roots: seq<Text>, sorted: seq<Text>)
    requires multiset(sorted) == multiset(roots) && SortedBy(Itself, sorted)
    ensures RootsDigest(roots).None? <==>
            roots == [] || exists i, j :: 0 <= i < j < |roots| && roots[i] == roots[j]
    ensures RootsDigest(roots).Some? ==> RootsDigest(roots).value == Sha256(Concat(sorted))
  {
    SortKeepsElements(Itself, roots);
    SortSorts(Itself, roots);
    SortedIsUnique(Itself, SortTexts(roots), sorted);
    hide SortTexts, SortedBy;
  }

  /** The order of the roots is irrelevant. */
  lemma RootOrderIsIrrelevant(a: seq<Text>, b: seq<Text>)
    requires multiset(a) == multiset(b)
    ensures RootsDigest(a) == RootsDigest(b)
  {
    assert |a| == |multiset(a)| == |b|;
    SortForgetsOrder(Itself, a, b);
    if Distinct(a) { PermutationKeepsDistinct(a, b); }
    if Distinct(b) { PermutationKeepsDistinct(b, a); }
  }

  // ------------------------------------------------------------ when the digest determines the roots

  predicate IsPrefix(a: Text, b: Text) {
    |a| <= |b| && a == b[..|a|]
  }

  /** Complete DER objects: none is empty and none is the beginning of another. */
  ghost predicate PrefixFree(code: set<Text>) {
    [] !in code && forall x, y :: x in code && y in code && IsPrefix(x, y) ==> x == y
  }

  lemma HeadsAreEqual(x: Text, y: Text, a: Text, b: Text, code: set<Text>)
    requires PrefixFree(code) && x in code && y in code && x + a == y + b
    ensures x == y && a == b
  {
    if |x| <= |y| {
      assert x == (x + a)[..|x|] == (y + b)[..|x|] == y[..|x|];
      assert IsPrefix(x, y);
    } else {
      assert y == (y + b)[..|y|] == (x + a)[..|y|] == x[..|y|];
      assert IsPrefix(y, x);
    }
    assert a == (x + a)[|x|..] && b == (y + b)[|y|..];
  }

  lemma EmptyConcat(s: seq<Text>)
    requires [] !in s
    ensures Concat(s) == [] <==> s == []
  {
    if s != [] { assert s[0] in s && s[0] != []; }
  }

  lemma {:induction false} ConcatIsDecodable(a: seq<Text>, b: seq<Text>, code: set<Text>)
    requires PrefixFree(code) && (forall x :: x in a ==> x in code) && (forall x :: x in b ==> x in code)
    requires Concat(a) == Concat(b)
    ensures a == b
  {
    EmptyConcat(a);
    EmptyConcat(b);
    if a != [] && b != [] {
      HeadsAreEqual(a[0], b[0], Concat(a[1..]), Concat(b[1..]), code);
      ConcatIsDecodable(a[1..], b[1..], code);
      assert a == [a[0]] + a[1..] && b == [b[0]] + b[1..];
    }
  }

  /** For complete DER objects, equal digests mean the same set of roots, and conversely. */
  lemma RootsDigestIsExact(a: seq<Text>, b: seq<Text>, code: set<Text>)
    requires PrefixFree(code) && Elements(a) <= code && Elements(b) <= code
    requires RootsDigest(a).Some? && RootsDigest(b).Some?
    ensures RootsDigest(a) == RootsDigest(b) <==> Elements(a) == Elements(b)
  {
    SortTextsKeeps(a);
    SortTextsKeeps(b);
    if RootsDigest(a) == RootsDigest(b) {
      forall x | x in SortTexts(a) ensures x in code { assert x in Elements(SortTexts(a)); }
      forall x | x in SortTexts(b) ensures x in code { assert x in Elements(SortTexts(b)); }
      ConcatIsDecodable(SortTexts(a), SortTexts(b), code);
    }
    if Elements(a) == Elements(b) {
      SortedTextsAreTheSet(a, b);
    }
  }

  /** Without that, the digest is ambiguous: it does not say where one root ends. */
  lemma AmbiguousWithoutPrefixFreedom(a: seq<Text>, b: seq<Text>)
    requires a == [[1], [2]] && b == [[1, 2]]
    ensures RootsDigest(a).Some? && RootsDigest(a) == RootsDigest(b) && Elements(a) != Elements(b)
  {
    SortOne([2]);
    SortOne([1, 2]);
    assert a[1..] == [[2]];
    assert SortTexts(a) == Insert(Itself, [1], [[2]]) == a;
    ConcatAppends([[1]], [2]);
    ConcatAppends([], [1]);
    ConcatAppends([], [1, 2]);
    assert [[1]] + [[2]] == a && [] + [[1]] == [[1]] && [] + [[1, 2]] == b;
    assert Concat(a) == [1, 2] == Concat(b);
    assert Distinct(a) && Distinct(b);
    assert a[0] == [1] && [1] in Elements(a) && [1] !in Elements(b);
    assert RootsDigest(a) == Some(Sha256([1, 2])) && RootsDigest(b) == Some(Sha256([1, 2]));
  }

  lemma SortOne(x: Text)
    ensures SortTexts([x]) == [x]
  {
    assert [x][1..] == [];
    assert SortBy(Itself, []) == [];
  }
}
