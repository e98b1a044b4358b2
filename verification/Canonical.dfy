/**
 The canonical order the revocation digests rely on: Go compares strings byte by byte, and a
 list sorted by distinct keys has only one form, whatever algorithm sorts it.
 */
module Canonical {
  import opened Codec

  type Text = seq<byte>

  predicate LessEq(a: Text, b: Text) {
    a == [] || (b != [] && (a[0] < b[0] || (a[0] == b[0] && LessEq(a[1..], b[1..]))))
  }

  /** Byte order: the first is the beginning of the second, or smaller at the first difference. */
  lemma {:induction false} OrderIsBytewise(a: Text, b: Text)
    ensures LessEq(a, b) <==>
            exists k: nat :: k <= |a| && k <= |b| && a[..k] == b[..k] && (k == |a| || (k < |b| && a[k] < b[k]))
  {
    if a == [] {
      assert a[..0] == b[..0];
    } else if b != [] && a[0] == b[0] {
      OrderIsBytewise(a[1..], b[1..]);
      if LessEq(a, b) {
        var k: nat :| k <= |a[1..]| && k <= |b[1..]| && a[1..][..k] == b[1..][..k] &&
                      (k == |a[1..]| || (k < |b[1..]| && a[1..][k] < b[1..][k]));
        assert a[..k + 1] == [a[0]] + a[1..][..k] && b[..k + 1] == [b[0]] + b[1..][..k];
      }
      if k: nat :| k <= |a| && k <= |b| && a[..k] == b[..k] && (k == |a| || (k < |b| && a[k] < b[k])) {
        assert k > 0;
        assert a[1..][..k - 1] == a[..k][1..] && b[1..][..k - 1] == b[..k][1..];
      }
    } else if b != [] && a[0] < b[0] {
      assert a[..0] == b[..0];
    } else {
      assert forall k: nat :: 0 < k <= |a| ==> a[..k][0] == a[0];
      assert forall k: nat :: 0 < k <= |b| ==> b[..k][0] == b[0];
    }
  }

  lemma {:induction false} OrderIsTotal(a: Text, b: Text)
    ensures LessEq(a, b) || LessEq(b, a)
  {
    if a != [] && b != [] { OrderIsTotal(a[1..], b[1..]); }
  }

  lemma {:induction false} OrderIsTransitive(a: Text, b: Text, c: Text)
    requires LessEq(a, b) && LessEq(b, c)
    ensures LessEq(a, c)
  {
    if a != [] && a[0] == b[0] && b[0] == c[0] { OrderIsTransitive(a[1..], b[1..], c[1..]); }
  }

  lemma {:induction false} OrderIsAntisymmetric(a: Text, b: Text)
    requires LessEq(a, b) && LessEq(b, a)
    ensures a == b
  {
    if a != [] {
      OrderIsAntisymmetric(a[1..], b[1..]);
      assert a == [a[0]] + a[1..] && b == [b[0]] + b[1..];
    }
  }

  // ------------------------------------------------------------ sorting

  function Insert<T>(key: T -> Text, x: T, s: seq<T>): seq<T> {
    if s == [] || LessEq(key(x), key(s[0])) then [x] + s else [s[0]] + Insert(key, x, s[1..])
  }

  function SortBy<T>(key: T -> Text, s: seq<T>): seq<T> {
    if s == [] then [] else Insert(key, s[0], SortBy(key, s[1..]))
  }

  ghost predicate SortedBy<T(!new)>(key: T -> Text, s: seq<T>) {
    forall i, j :: 0 <= i <= j < |s| ==> LessEq(key(s[i]), key(s[j]))
  }

  lemma {:induction false} InsertKeepsElements<T>(key: T -> Text, x: T, s: seq<T>)
    ensures multiset(Insert(key, x, s)) == multiset([x]) + multiset(s)
  {
    if s != [] && !LessEq(key(x), key(s[0])) {
      InsertKeepsElements(key, x, s[1..]);
      assert s == [s[0]] + s[1..];
    }
  }

  lemma {:induction false} SortKeepsElements<T>(key: T -> Text, s: seq<T>)
    ensures multiset(SortBy(key, s)) == multiset(s)
  {
    if s != [] {
      SortKeepsElements(key, s[1..]);
      InsertKeepsElements(key, s[0], SortBy(key, s[1..]));
      assert s == [s[0]] + s[1..];
    }
  }

  /** The first key is below the others and the rest is sorted. */
  lemma SortedFromHead<T(!new)>(key: T -> Text, s: seq<T>)
    requires s != [] && SortedBy(key, s[1..])
    requires forall i :: 0 <= i < |s| ==> LessEq(key(s[0]), key(s[i]))
    ensures SortedBy(key, s)
  {
    forall i, j | 0 <= i <= j < |s| ensures LessEq(key(s[i]), key(s[j])) {
      if i > 0 { assert s[i] == s[1..][i - 1] && s[j] == s[1..][j - 1]; }
    }
  }

  lemma {:induction false} InsertSorts<T(!new)>(key: T -> Text, x: T, s: seq<T>)
    requires SortedBy(key, s)
    ensures SortedBy(key, Insert(key, x, s))
  {
    var r := Insert(key, x, s);
    OrderIsTotal(key(x), key(x));
    if s == [] {
    } else if LessEq(key(x), key(s[0])) {
      assert r[1..] == s;
      forall i | 0 <= i < |r| ensures LessEq(key(r[0]), key(r[i])) {
        if i > 0 { OrderIsTransitive(key(x), key(s[0]), key(s[i - 1])); }
      }
      SortedFromHead(key, r);
    } else {
      assert SortedBy(key, s[1..]);
      InsertSorts(key, x, s[1..]);
      OrderIsTotal(key(x), key(s[0]));
      InsertKeepsElements(key, x, s[1..]);
      assert r[1..] == Insert(key, x, s[1..]);
      forall i | 0 <= i < |r| ensures LessEq(key(r[0]), key(r[i])) {
        if i > 0 {
          assert r[i] == r[1..][i - 1] && r[1..][i - 1] in multiset(r[1..]);
          assert r[i] == x || r[i] in s[1..];
        }
      }
      SortedFromHead(key, r);
    }
  }

  lemma {:induction false} SortSorts<T(!new)>(key: T -> Text, s: seq<T>)
    ensures SortedBy(key, SortBy(key, s))
  {
    if s != [] {
      SortSorts(key, s[1..]);
      InsertSorts(key, s[0], SortBy(key, s[1..]));
    }
  }

  /** No two different elements share a key. */
  ghost predicate KeyedBy<T(!new)>(key: T -> Text, s: seq<T>) {
    forall x, y :: x in s && y in s && key(x) == key(y) ==> x == y
  }

  lemma SameElements<T>(a: seq<T>, b: seq<T>, x: T)
    requires multiset(a) == multiset(b) && x in a
    ensures x in b
  {
    assert x in multiset(a);
  }

  /** A sorted list with distinct keys is determined by its elements. */
  lemma {:induction false} SortedIsUnique<T(!new)>(key: T -> Text, a: seq<T>, b: seq<T>)
    requires SortedBy(key, a) && SortedBy(key, b) && KeyedBy(key, a) && multiset(a) == multiset(b)
    ensures a == b
  {
    hide SortedBy, KeyedBy;
    assert |a| == |multiset(a)| == |b|;
    if a != [] {
      SameHead(key, a, b);
      TailOf(key, a);
      TailOf(key, b);
      TailIsKeyed(key, a);
      SortedIsUnique(key, a[1..], b[1..]);
      assert a == [a[0]] + a[1..] && b == [b[0]] + b[1..];
    }
  }

  lemma TailIsKeyed<T(!new)>(key: T -> Text, s: seq<T>)
    requires s != [] && KeyedBy(key, s)
    ensures KeyedBy(key, s[1..])
  {
  }

  lemma TailOf<T(!new)>(key: T -> Text, s: seq<T>)
    requires s != [] && SortedBy(key, s)
    ensures SortedBy(key, s[1..]) && multiset(s[1..]) == multiset(s) - multiset([s[0]])
  {
    assert s == [s[0]] + s[1..];
  }

  lemma SameHead<T(!new)>(key: T -> Text, a: seq<T>, b: seq<T>)
    requires SortedBy(key, a) && SortedBy(key, b) && KeyedBy(key, a) && multiset(a) == multiset(b)
    requires a != [] && b != []
    ensures a[0] == b[0]
  {
    SameElements(a, b, a[0]);
    SameElements(b, a, b[0]);
    OrderIsAntisymmetric(key(a[0]), key(b[0]));
  }

  /** Sorting forgets the order of the input. */
  lemma SortForgetsOrder<T(!new)>(key: T -> Text, a: seq<T>, b: seq<T>)
    requires multiset(a) == multiset(b) && KeyedBy(key, a)
    ensures SortBy(key, a) == SortBy(key, b)
  {
    SortKeepsElements(key, a);
    SortKeepsElements(key, b);
    SortSorts(key, a);
    SortSorts(key, b);
    forall x | x in SortBy(key, a) ensures x in a { SameElements(SortBy(key, a), a, x); }
    SortedIsUnique(key, SortBy(key, a), SortBy(key, b));
  }

  // ------------------------------------------------------------ lists of texts

  function Itself(t: Text): Text { t }

  /** sort.Strings. */
  function SortTexts(s: seq<Text>): (r: seq<Text>)
  {
    SortBy(Itself, s)
  }

  ghost predicate Distinct<T(!new)>(s: seq<T>) {
    forall i, j :: 0 <= i < j < |s| ==> s[i] != s[j]
  }

  function Elements<T>(s: seq<T>): set<T> {
    set x | x in s
  }

  lemma {:induction false} DistinctCounts<T(!new)>(s: seq<T>, x: T)
    requires Distinct(s)
    ensures multiset(s)[x] == if x in s then 1 else 0
  {
    if s != [] {
      DistinctCounts(s[1..], x);
      assert s == [s[0]] + s[1..];
    }
  }

  /** Lists without repetition and with the same elements are permutations of each other. */
  lemma DistinctSameElements<T(!new)>(a: seq<T>, b: seq<T>)
    requires Distinct(a) && Distinct(b) && Elements(a) == Elements(b)
    ensures multiset(a) == multiset(b)
  {
    forall x ensures multiset(a)[x] == multiset(b)[x] {
      DistinctCounts(a, x);
      DistinctCounts(b, x);
      assert x in a <==> x in Elements(a);
      assert x in b <==> x in Elements(b);
    }
  }

  lemma SortedTextsAreTheSet(a: seq<Text>, b: seq<Text>)
    requires Distinct(a) && Distinct(b) && Elements(a) == Elements(b)
    ensures SortTexts(a) == SortTexts(b)
  {
    DistinctSameElements(a, b);
    SortForgetsOrder(Itself, a, b);
  }

  lemma PermutationKeepsDistinct<T(!new)>(a: seq<T>, b: seq<T>)
    requires multiset(a) == multiset(b) && Distinct(a)
    ensures Distinct(b) && Elements(a) == Elements(b)
  {
    forall x ensures x in a <==> x in b {
      if x in a { SameElements(a, b, x); }
      if x in b { SameElements(b, a, x); }
    }
    forall i, j | 0 <= i < j < |b| ensures b[i] != b[j] {
      if b[i] == b[j] {
        DistinctCounts(a, b[i]);
        TwiceCounts(b, i, j);
        assert false;
      }
    }
  }

  lemma TwiceCounts<T>(s: seq<T>, i: nat, j: nat)
    requires i < j < |s| && s[i] == s[j]
    ensures multiset(s)[s[i]] >= 2
  {
    assert s == s[..i] + [s[i]] + s[i + 1..j] + [s[j]] + s[j + 1..];
  }

  lemma SortTextsKeeps(s: seq<Text>)
    requires Distinct(s)
    ensures Distinct(SortTexts(s)) && Elements(SortTexts(s)) == Elements(s)
  {
    SortKeepsElements(Itself, s);
    PermutationKeepsDistinct(s, SortTexts(s));
  }
}
