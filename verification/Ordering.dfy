/** String order, stable sorting by a comparison, and the uniqueness of ascending sequences.

    The program compares strings byte by byte in UTF-8; that is the order of their scalar values,
    which is the order of Dafny's `char`. The database's `COLLATE "C"` is the same order. */
module Ordering {

  predicate StrLe(a: string, b: string) {
    if a == [] then true
    else if b == [] then false
    else if a[0] != b[0] then a[0] < b[0]
    else StrLe(a[1..], b[1..])
  }

  predicate StrLt(a: string, b: string) {
    a != b && StrLe(a, b)
  }

  lemma {:induction false} StrLeReflexive(a: string)
    ensures StrLe(a, a)
  {
    if a != [] {
      StrLeReflexive(a[1..]);
    }
  }

  lemma {:induction false} StrLeTotal(a: string, b: string)
    ensures StrLe(a, b) || StrLe(b, a)
  {
    if a != [] && b != [] && a[0] == b[0] {
      StrLeTotal(a[1..], b[1..]);
    }
  }

  lemma {:induction false} StrLeAntisymmetric(a: string, b: string)
    requires StrLe(a, b) && StrLe(b, a)
    ensures a == b
  {
    if a != [] {
      StrLeAntisymmetric(a[1..], b[1..]);
      assert a == [a[0]] + a[1..] && b == [b[0]] + b[1..];
    }
  }

  lemma {:induction false} StrLeTransitive(a: string, b: string, c: string)
    requires StrLe(a, b) && StrLe(b, c)
    ensures StrLe(a, c)
  {
    if a != [] && a[0] == b[0] == c[0] {
      StrLeTransitive(a[1..], b[1..], c[1..]);
    }
  }

  lemma StrLeOrder()
    ensures forall a :: StrLe(a, a)
    ensures forall a, b :: StrLe(a, b) || StrLe(b, a)
    ensures forall a, b :: StrLe(a, b) && StrLe(b, a) ==> a == b
    ensures forall a, b, c :: StrLe(a, b) && StrLe(b, c) ==> StrLe(a, c)
  {
    forall a ensures StrLe(a, a) { StrLeReflexive(a); }
    forall a, b ensures StrLe(a, b) || StrLe(b, a) { StrLeTotal(a, b); }
    forall a, b | StrLe(a, b) && StrLe(b, a) ensures a == b { StrLeAntisymmetric(a, b); }
    forall a, b, c | StrLe(a, b) && StrLe(b, c) ensures StrLe(a, c) { StrLeTransitive(a, b, c); }
  }

  // ---------- sorting by a comparison ----------

  ghost predicate TotalPreorder<T(!new)>(le: (T, T) -> bool) {
    && (forall x, y :: le(x, y) || le(y, x))
    && (forall x, y, z :: le(x, y) && le(y, z) ==> le(x, z))
  }

  ghost predicate Sorted<T>(le: (T, T) -> bool, s: seq<T>) {
    forall i, j :: 0 <= i < j < |s| ==> le(s[i], s[j])
  }

  function Insert<T>(le: (T, T) -> bool, x: T, s: seq<T>): (r: seq<T>)
    ensures multiset(r) == multiset{x} + multiset(s)
  {
    if s == [] || le(x, s[0]) then [x] + s
    else
      assert s == [s[0]] + s[1..];
      [s[0]] + Insert(le, x, s[1..])
  }

  /** The library's stable sort, as insertion: equal elements keep their order. */
  function SortBy<T>(le: (T, T) -> bool, s: seq<T>): (r: seq<T>)
    ensures multiset(r) == multiset(s)
  {
    if s == [] then []
    else
      assert s == [s[0]] + s[1..];
      Insert(le, s[0], SortBy(le, s[1..]))
  }

  lemma SameElements<T(!new)>(r: seq<T>, s: seq<T>)
    requires multiset(r) == multiset(s)
    ensures |r| == |s|
    ensures forall x :: x in r <==> x in s
  {
    assert |multiset(r)| == |r| && |multiset(s)| == |s|;
    forall x ensures x in r <==> x in s {
      assert x in r <==> x in multiset(r);
      assert x in s <==> x in multiset(s);
    }
  }

  lemma {:induction false} InsertSorted<T(!new)>(le: (T, T) -> bool, x: T, s: seq<T>)
    requires TotalPreorder(le) && Sorted(le, s)
    ensures Sorted(le, Insert(le, x, s))
  {
    if s == [] || le(x, s[0]) {
    } else {
      var tail := s[1..];
      InsertSorted(le, x, tail);
      var r := Insert(le, x, tail);
      assert le(s[0], x);
      assert multiset(r) == multiset([x] + tail);
      SameElements(r, [x] + tail);
      forall y | y in r ensures le(s[0], y) {
        if y != x {
          assert y in tail;
        }
      }
    }
  }

  lemma {:induction false} SortBySorted<T(!new)>(le: (T, T) -> bool, s: seq<T>)
    requires TotalPreorder(le)
    ensures Sorted(le, SortBy(le, s))
    ensures |SortBy(le, s)| == |s|
    ensures forall x :: x in SortBy(le, s) <==> x in s
  {
    if s != [] {
      SortBySorted(le, s[1..]);
      InsertSorted(le, s[0], SortBy(le, s[1..]));
    }
    SameElements(SortBy(le, s), s);
  }

  // ---------- strictly ascending by a string key ----------

  ghost predicate Ascending<T>(key: T -> string, s: seq<T>) {
    forall i, j :: 0 <= i < j < |s| ==> StrLt(key(s[i]), key(s[j]))
  }

  lemma HeadIsMember<T>(s: seq<T>)
    ensures s == [] || s[0] in s
  {
  }

  /** An ascending sequence is determined by its elements. */
  lemma {:induction false} AscendingUnique<T(!new)>(key: T -> string, s: seq<T>, t: seq<T>)
    requires Ascending(key, s) && Ascending(key, t)
    requires forall x :: x in s <==> x in t
    ensures s == t
  {
    HeadIsMember(s);
    HeadIsMember(t);
    if s == [] {
    } else {
      assert s[0] in t;
      var k :| 0 <= k < |t| && t[k] == s[0];
      assert t[0] in t;
      var m :| 0 <= m < |s| && s[m] == t[0];
      if k > 0 && m > 0 {
        StrLeAntisymmetric(key(s[0]), key(t[0]));
      }
      assert s[0] == t[0];
      forall x ensures x in s[1..] <==> x in t[1..] {
        if x in s[1..] {
          var i :| 1 <= i < |s| && s[i] == x;
          assert x in s;
          var j :| 0 <= j < |t| && t[j] == x;
        }
        if x in t[1..] {
          var i :| 1 <= i < |t| && t[i] == x;
          assert x in t;
          var j :| 0 <= j < |s| && s[j] == x;
        }
      }
      AscendingUnique(key, s[1..], t[1..]);
      assert s == [s[0]] + s[1..] && t == [t[0]] + t[1..];
    }
  }

  ghost predicate DistinctKeys<T>(key: T -> string, s: seq<T>) {
    forall i, j :: 0 <= i < j < |s| ==> key(s[i]) != key(s[j])
  }

  lemma {:induction false} InsertDistinct<T(!new)>(le: (T, T) -> bool, key: T -> string, x: T, s: seq<T>)
    requires DistinctKeys(key, s)
    requires forall y :: y in s ==> key(y) != key(x)
    ensures DistinctKeys(key, Insert(le, x, s))
  {
    if s == [] || le(x, s[0]) {
    } else {
      InsertDistinct(le, key, x, s[1..]);
      assert multiset([x] + s[1..]) == multiset{x} + multiset(s[1..]);
      var r := Insert(le, x, s[1..]);
      SameElements(r, [x] + s[1..]);
      forall y | y in r ensures key(y) != key(s[0]) {
        assert y in [x] + s[1..];
      }
    }
  }

  lemma {:induction false} SortByDistinct<T(!new)>(le: (T, T) -> bool, key: T -> string, s: seq<T>)
    requires DistinctKeys(key, s)
    ensures DistinctKeys(key, SortBy(le, s))
  {
    if s != [] {
      SortByDistinct(le, key, s[1..]);
      var tail := SortBy(le, s[1..]);
      SameElements(tail, s[1..]);
      forall y | y in tail ensures key(y) != key(s[0]) {
        assert y in s[1..];
      }
      InsertDistinct(le, key, s[0], tail);
    }
  }

  /** Sorting elements with distinct keys by any comparison that respects the key. */
  lemma SortDistinctAscending<T(!new)>(le: (T, T) -> bool, key: T -> string, s: seq<T>)
    requires TotalPreorder(le)
    requires forall x, y :: le(x, y) ==> StrLe(key(x), key(y))
    requires DistinctKeys(key, s)
    ensures Ascending(key, SortBy(le, s))
    ensures forall x :: x in SortBy(le, s) <==> x in s
  {
    SortBySorted(le, s);
    SortByDistinct(le, key, s);
  }

  // ---------- sets of strings in ascending order ----------

  function Self(s: string): string { s }

  lemma StrLeIsOrder()
    ensures TotalPreorder(StrLe)
  {
    StrLeOrder();
  }

  ghost function SortedKeys(ks: set<string>): (s: seq<string>)
    ensures Ascending(Self, s)
    ensures forall k :: k in s <==> k in ks
    ensures |s| == |ks|
  {
    if ks == {} then []
    else
      var k :| k in ks;
      var rest := SortedKeys(ks - {k});
      StrLeIsOrder();
      AscendingInsert(k, rest);
      Insert(StrLe, k, rest)
  }

  lemma AscendingInsert(k: string, s: seq<string>)
    requires Ascending(Self, s) && k !in s
    ensures Ascending(Self, Insert(StrLe, k, s))
    ensures |Insert(StrLe, k, s)| == |s| + 1
    ensures forall x :: x in Insert(StrLe, k, s) <==> x == k || x in s
  {
    StrLeIsOrder();
    InsertSorted(StrLe, k, s);
    InsertDistinct(StrLe, Self, k, s);
    var r := Insert(StrLe, k, s);
    assert multiset([k] + s) == multiset{k} + multiset(s);
    SameElements(r, [k] + s);
  }

  /** Reading keys in an order nobody chooses, then sorting them. */
  method EnumerateSorted(ks: set<string>) returns (s: seq<string>)
    ensures s == SortedKeys(ks)
  {
    var found: seq<string> := [];
    var pending := ks;
    while pending != {}
      invariant pending <= ks
      invariant forall k :: k in found <==> k in ks && k !in pending
      invariant DistinctKeys(Self, found)
      decreases pending
    {
      var k :| k in pending;
      found := found + [k];
      pending := pending - {k};
    }
    StrLeIsOrder();
    SortDistinctAscending(StrLe, Self, found);
    s := SortBy(StrLe, found);
    AscendingUnique(Self, s, SortedKeys(ks));
  }
}
