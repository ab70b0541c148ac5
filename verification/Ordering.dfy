/** Go's string order, a two-part sort key, and the sorted list of a set.

    The program sorts before it compares, hashes or emits anything.  What makes
    that sound is one fact proved here: a list in strictly ascending key order
    is determined by the set of its elements (AscendingUnique). */
module Ordering {

  datatype Option<+T> = None | Some(value: T)

  /** A Go `(value, error)` pair; the text of the error is not modelled. */
  datatype Result<+T> = Failure | Success(value: T)

  // ----- order ---------------------------------------------------------------

  /** Go's `<` on strings. */
  predicate Less(a: string, b: string) {
    if |b| == 0 then false
    else if |a| == 0 then true
    else a[0] < b[0] || (a[0] == b[0] && Less(a[1..], b[1..]))
  }

  /** The comparators of the program compare one string, then break ties with another. */
  datatype Key = Key(major: string, minor: string)

  predicate Before(a: Key, b: Key) {
    Less(a.major, b.major) || (a.major == b.major && Less(a.minor, b.minor))
  }

  lemma LessTotal(a: string, b: string)
    ensures Less(a, b) || a == b || Less(b, a)
  {
  }

  lemma LessTransitive(a: string, b: string, c: string)
    requires Less(a, b) && Less(b, c)
    ensures Less(a, c)
  {
  }

  lemma LessIrreflexive(a: string)
    ensures !Less(a, a)
  {
  }

  lemma BeforeTotal(a: Key, b: Key)
    ensures Before(a, b) || a == b || Before(b, a)
  {
    LessTotal(a.major, b.major);
    LessTotal(a.minor, b.minor);
  }

  lemma BeforeTransitive(a: Key, b: Key, c: Key)
    requires Before(a, b) && Before(b, c)
    ensures Before(a, c)
  {
    if Less(a.major, b.major) && Less(b.major, c.major) {
      LessTransitive(a.major, b.major, c.major);
    } else if a.major == b.major == c.major {
      LessTransitive(a.minor, b.minor, c.minor);
    }
  }

  lemma BeforeIrreflexive(a: Key)
    ensures !Before(a, a)
  {
    LessIrreflexive(a.major);
    LessIrreflexive(a.minor);
  }

  lemma BeforeAsymmetric(a: Key, b: Key)
    requires Before(a, b)
    ensures !Before(b, a) && a != b
  {
    BeforeIrreflexive(a);
    if Before(b, a) { BeforeTransitive(a, b, a); }
  }

  // ----- lists ---------------------------------------------------------------

  function Map<T, U>(f: T -> U, s: seq<T>): (r: seq<U>)
    ensures |r| == |s|
    ensures forall i :: 0 <= i < |s| ==> r[i] == f(s[i])
  {
    seq(|s|, i requires 0 <= i < |s| => f(s[i]))
  }

  /** The elements that satisfy p, in order. */
  function Filter<T(!new)>(p: T -> bool, s: seq<T>): (r: seq<T>)
    ensures forall x :: x in r <==> x in s && p(x)
  {
    if |s| == 0 then []
    else
      var n := |s| - 1;
      assert s == s[..n] + [s[n]];
      Filter(p, s[..n]) + (if p(s[n]) then [s[n]] else [])
  }

  ghost function Elements<T>(s: seq<T>): (r: set<T>)
    ensures r == {} <==> s == []
  {
    var r := set x | x in s;
    assert s != [] ==> s[0] in r;
    r
  }

  /** The set of f-values. */
  ghost function Image<T(!new), U>(f: T -> U, s: seq<T>): (r: set<U>)
    ensures forall x :: x in s ==> f(x) in r
    ensures forall y :: y in r ==> exists x :: x in s && f(x) == y
  {
    set x | x in s :: f(x)
  }

  /** No two positions share an f-value. */
  ghost predicate Distinct<T, K>(s: seq<T>, f: T -> K) {
    forall i, j :: 0 <= i < j < |s| ==> f(s[i]) != f(s[j])
  }

  ghost predicate Ascending<T>(s: seq<T>, key: T -> Key) {
    forall i, j :: 0 <= i < j < |s| ==> Before(key(s[i]), key(s[j]))
  }

  lemma AscendingDistinct<T>(s: seq<T>, key: T -> Key)
    requires Ascending(s, key)
    ensures Distinct(s, key)
  {
    forall i, j | 0 <= i < j < |s| ensures key(s[i]) != key(s[j]) {
      BeforeIrreflexive(key(s[i]));
    }
  }

  /** The first element of an ascending list precedes every other element. */
  lemma AscendingHead<T>(s: seq<T>, key: T -> Key, x: T)
    requires Ascending(s, key) && |s| > 0 && x in s
    ensures x == s[0] || Before(key(s[0]), key(x))
  {
  }

  /** An ascending list is determined by the set of its elements. */
  lemma {:induction false} AscendingUnique<T>(a: seq<T>, b: seq<T>, key: T -> Key)
    requires Ascending(a, key) && Ascending(b, key)
    requires Elements(a) == Elements(b)
    ensures a == b
  {
    if |a| > 0 {
      assert a[0] in Elements(a);
      assert |b| > 0 && b[0] in Elements(b);
      assert a[0] in b && b[0] in a;
      AscendingHead(a, key, b[0]);
      AscendingHead(b, key, a[0]);
      if a[0] != b[0] { BeforeAsymmetric(key(a[0]), key(b[0])); }
      TailElements(a, key);
      TailElements(b, key);
      AscendingUnique(a[1..], b[1..], key);
      assert a == [a[0]] + a[1..];
      assert b == [b[0]] + b[1..];
    }
  }

  /** Two ascending lists with the same members are the same list. */
  lemma SameMembers<T(!new)>(a: seq<T>, b: seq<T>, key: T -> Key)
    requires Ascending(a, key) && Ascending(b, key)
    requires forall x :: x in a <==> x in b
    ensures a == b
  {
    assert Elements(a) == Elements(b);
    AscendingUnique(a, b, key);
  }

  lemma TailElements<T>(a: seq<T>, key: T -> Key)
    requires Ascending(a, key) && |a| > 0
    ensures Elements(a[1..]) == Elements(a) - {a[0]}
    ensures Ascending(a[1..], key)
  {
    if a[0] in a[1..] {
      var i :| 0 <= i < |a[1..]| && a[1..][i] == a[0];
      assert Before(key(a[0]), key(a[i + 1]));
      BeforeIrreflexive(key(a[0]));
    }
    assert a == [a[0]] + a[1..];
  }

  // ----- sorting (sort.Slice, sort.Strings) -----------------------------------

  function Insert<T>(x: T, s: seq<T>, key: T -> Key): seq<T> {
    if |s| == 0 || !Before(key(s[0]), key(x)) then [x] + s
    else [s[0]] + Insert(x, s[1..], key)
  }

  function SortBy<T>(s: seq<T>, key: T -> Key): seq<T> {
    if |s| == 0 then [] else Insert(s[0], SortBy(s[1..], key), key)
  }

  lemma {:induction false} InsertPermutes<T>(x: T, s: seq<T>, key: T -> Key)
    ensures multiset(Insert(x, s, key)) == multiset(s) + multiset{x}
  {
    if |s| == 0 || !Before(key(s[0]), key(x)) {
    } else {
      assert s == [s[0]] + s[1..];
      InsertPermutes(x, s[1..], key);
    }
  }

  lemma {:induction false} SortPermutes<T>(s: seq<T>, key: T -> Key)
    ensures multiset(SortBy(s, key)) == multiset(s)
    ensures |SortBy(s, key)| == |s|
  {
    if |s| > 0 {
      assert s == [s[0]] + s[1..];
      SortPermutes(s[1..], key);
      InsertPermutes(s[0], SortBy(s[1..], key), key);
    }
    assert |multiset(SortBy(s, key))| == |SortBy(s, key)|;
    assert |multiset(s)| == |s|;
  }

  lemma SortElements<T(!new)>(s: seq<T>, key: T -> Key)
    ensures Elements(SortBy(s, key)) == Elements(s)
    ensures forall x :: x in SortBy(s, key) <==> x in s
    ensures |SortBy(s, key)| == |s|
  {
    SortPermutes(s, key);
    forall x ensures x in SortBy(s, key) <==> x in s {
      assert x in SortBy(s, key) <==> x in multiset(SortBy(s, key));
      assert x in s <==> x in multiset(s);
    }
    assert forall x :: x in Elements(SortBy(s, key)) <==> x in Elements(s);
  }

  lemma {:induction false} InsertAscending<T>(x: T, s: seq<T>, key: T -> Key)
    requires Ascending(s, key)
    requires forall i :: 0 <= i < |s| ==> key(s[i]) != key(x)
    ensures Ascending(Insert(x, s, key), key)
  {
    if |s| == 0 {
    } else if !Before(key(s[0]), key(x)) {
      BeforeTotal(key(s[0]), key(x));
      forall j | 0 <= j < |s| ensures Before(key(x), key(s[j])) {
        if j > 0 { BeforeTransitive(key(x), key(s[0]), key(s[j])); }
      }
    } else {
      InsertAscending(x, s[1..], key);
      InsertPermutes(x, s[1..], key);
      var t := Insert(x, s[1..], key);
      forall j | 0 <= j < |t| ensures Before(key(s[0]), key(t[j])) {
        assert t[j] in multiset(t);
        assert t[j] == x || t[j] in s[1..];
      }
    }
  }

  /** Sorting a list without key clashes gives a strictly ascending list. */
  lemma {:induction false} SortAscending<T(!new)>(s: seq<T>, key: T -> Key)
    requires Distinct(s, key)
    ensures Ascending(SortBy(s, key), key)
  {
    if |s| > 0 {
      var rest := SortBy(s[1..], key);
      SortAscending(s[1..], key);
      SortElements(s[1..], key);
      forall i | 0 <= i < |rest| ensures key(rest[i]) != key(s[0]) {
        assert rest[i] in rest;
      }
      InsertAscending(s[0], rest, key);
    }
  }

  /** Nothing comes after an element it precedes; with equal keys the order is left open. */
  ghost predicate WeaklyAscending<T>(s: seq<T>, key: T -> Key) {
    forall i, j :: 0 <= i < j < |s| ==> !Before(key(s[j]), key(s[i]))
  }

  lemma {:induction false} InsertWeaklyAscending<T>(x: T, s: seq<T>, key: T -> Key)
    requires WeaklyAscending(s, key)
    ensures WeaklyAscending(Insert(x, s, key), key)
  {
    if |s| == 0 {
    } else if !Before(key(s[0]), key(x)) {
      forall j | 0 <= j < |s| ensures !Before(key(s[j]), key(x)) {
        if Before(key(s[j]), key(x)) && j > 0 {
          BeforeTotal(key(s[0]), key(s[j]));
          if Before(key(s[0]), key(s[j])) { BeforeTransitive(key(s[0]), key(s[j]), key(x)); }
        }
      }
    } else {
      InsertWeaklyAscending(x, s[1..], key);
      InsertPermutes(x, s[1..], key);
      var t := Insert(x, s[1..], key);
      BeforeAsymmetric(key(s[0]), key(x));
      forall j | 0 <= j < |t| ensures !Before(key(t[j]), key(s[0])) {
        assert t[j] in multiset(t);
        assert t[j] == x || t[j] in s[1..];
      }
    }
  }

  lemma {:induction false} SortWeaklyAscending<T>(s: seq<T>, key: T -> Key)
    ensures WeaklyAscending(SortBy(s, key), key)
  {
    if |s| > 0 {
      SortWeaklyAscending(s[1..], key);
      InsertWeaklyAscending(s[0], SortBy(s[1..], key), key);
    }
  }

  /** Absence of clashes does not depend on the order. */
  lemma DistinctPermutation<T, K>(s: seq<T>, t: seq<T>, f: T -> K)
    requires multiset(s) == multiset(t) && Distinct(s, f)
    ensures Distinct(t, f)
  {
    forall i, j | 0 <= i < j < |t| ensures f(t[i]) != f(t[j]) {
      if t[i] == t[j] {
        var v := t[i];
        assert t == t[..i] + [v] + t[i + 1..j] + [v] + t[j + 1..];
        assert multiset(t)[v] >= 2;
        TwoOccurrences(s, v);
      } else {
        assert t[i] in multiset(s) && t[j] in multiset(s);
        var a :| 0 <= a < |s| && s[a] == t[i];
        var b :| 0 <= b < |s| && s[b] == t[j];
        assert a < b || b < a;
      }
    }
  }

  lemma {:induction false} TwoOccurrences<T>(s: seq<T>, v: T)
    requires multiset(s)[v] >= 2
    ensures exists i, j :: 0 <= i < j < |s| && s[i] == v && s[j] == v
  {
    assert s == s[..|s| - 1] + [s[|s| - 1]];
    if s[|s| - 1] == v {
      assert v in multiset(s[..|s| - 1]);
      var i :| 0 <= i < |s| - 1 && s[i] == v;
      assert 0 <= i < |s| - 1 < |s| && s[i] == v && s[|s| - 1] == v;
    } else {
      TwoOccurrences(s[..|s| - 1], v);
      var i, j :| 0 <= i < j < |s[..|s| - 1]| && s[..|s| - 1][i] == v && s[..|s| - 1][j] == v;
      assert s[i] == v && s[j] == v;
    }
  }

  lemma SortDistinct<T, K>(s: seq<T>, key: T -> Key, f: T -> K)
    ensures Distinct(SortBy(s, key), f) <==> Distinct(s, f)
  {
    SortPermutes(s, key);
    if Distinct(s, f) { DistinctPermutation(s, SortBy(s, key), f); }
    if Distinct(SortBy(s, key), f) { DistinctPermutation(SortBy(s, key), s, f); }
  }

  /** Sorting twice is sorting once. */
  lemma SortIdempotent<T(!new)>(s: seq<T>, key: T -> Key)
    requires Ascending(s, key)
    ensures SortBy(s, key) == s
  {
    AscendingDistinct(s, key);
    SortAscending(s, key);
    SortElements(s, key);
    AscendingUnique(SortBy(s, key), s, key);
  }

  // ----- the ascending list of a set ------------------------------------------

  ghost predicate Keyed<T(!new)>(s: set<T>, key: T -> Key) {
    forall x, y :: x in s && y in s && key(x) == key(y) ==> x == y
  }

  ghost function SetToSeq<T(!new)>(s: set<T>): seq<T> {
    if s == {} then []
    else var x :| x in s; [x] + SetToSeq(s - {x})
  }

  /** The elements of s in ascending key order. */
  ghost function Listed<T(!new)>(s: set<T>, key: T -> Key): seq<T> {
    SortBy(SetToSeq(s), key)
  }

  lemma {:induction false} SetToSeqElements<T(!new)>(s: set<T>, key: T -> Key)
    ensures Elements(SetToSeq(s)) == s
    ensures Keyed(s, key) ==> Distinct(SetToSeq(s), key)
  {
    if s != {} {
      var q := SetToSeq(s);
      var rest := q[1..];
      assert q[0] in s && rest == SetToSeq(s - {q[0]});
      SetToSeqElements(s - {q[0]}, key);
      assert q == [q[0]] + rest;
      forall i | 0 <= i < |rest| ensures rest[i] in s && rest[i] != q[0] {
        assert rest[i] in Elements(rest);
      }
      assert forall x :: x in Elements(q) <==> x == q[0] || x in Elements(rest);
    }
  }

  lemma ListedProperties<T(!new)>(s: set<T>, key: T -> Key)
    ensures Elements(Listed(s, key)) == s
    ensures forall x :: x in Listed(s, key) <==> x in s
    ensures Keyed(s, key) ==> Ascending(Listed(s, key), key)
  {
    SetToSeqElements(s, key);
    SortElements(SetToSeq(s), key);
    forall x ensures x in Listed(s, key) <==> x in s {
      assert x in Listed(s, key) <==> x in Elements(Listed(s, key));
    }
    if Keyed(s, key) { SortAscending(SetToSeq(s), key); }
  }

  /** Any ascending list of the elements of s is the listing of s. */
  lemma ListedUnique<T(!new)>(q: seq<T>, s: set<T>, key: T -> Key)
    requires Ascending(q, key) && Elements(q) == s
    ensures Keyed(s, key) && q == Listed(s, key)
  {
    AscendingDistinct(q, key);
    forall x, y | x in s && y in s && key(x) == key(y) ensures x == y {
      var i :| 0 <= i < |q| && q[i] == x;
      var j :| 0 <= j < |q| && q[j] == y;
      assert !(i < j) && !(j < i);
    }
    ListedProperties(s, key);
    AscendingUnique(q, Listed(s, key), key);
  }

  /** Mapping keeps the order when the key is kept. */
  lemma MapAscending<T, U>(s: seq<T>, key: T -> Key, f: T -> U, mapped: U -> Key)
    requires Ascending(s, key)
    requires forall i :: 0 <= i < |s| ==> mapped(f(s[i])) == key(s[i])
    ensures Ascending(Map(f, s), mapped)
  {
  }

  lemma {:induction false} FilterAscending<T(!new)>(p: T -> bool, s: seq<T>, key: T -> Key)
    requires Ascending(s, key)
    ensures Ascending(Filter(p, s), key)
  {
    if |s| > 0 {
      var n := |s| - 1;
      FilterAscending(p, s[..n], key);
      var r := Filter(p, s[..n]);
      forall i | 0 <= i < |r| ensures Before(key(r[i]), key(s[n])) {
        assert r[i] in s[..n];
        var k :| 0 <= k < n && s[k] == r[i];
      }
    }
  }

  lemma AppendKey(names: seq<string>, n: string, keys: set<string>, key: string -> Key)
    requires Elements(names) <= keys && n in keys && n !in Elements(names)
    ensures Elements(names + [n]) == Elements(names) + {n}
    ensures Keyed(keys, key) && Distinct(names, key) ==> Distinct(names + [n], key)
  {
    forall i | 0 <= i < |names| ensures names[i] in keys && names[i] != n {
      assert names[i] in Elements(names);
    }
  }

  /** Collects the keys of a map, in whatever order they come, and sorts them. */
  method SortedKeys(keys: set<string>, key: string -> Key) returns (names: seq<string>)
    ensures Elements(names) == keys && |names| == |keys|
    ensures Keyed(keys, key) ==> Ascending(names, key)
  {
    hide Keyed;
    hide Ascending;
    hide Elements;
    hide SortBy;
    names := [];
    var rest := keys;
    while rest != {}
      invariant rest <= keys && Elements(names) == keys - rest && |names| == |keys - rest|
      invariant Keyed(keys, key) ==> Distinct(names, key)
    {
      var n :| n in rest;
      AppendKey(names, n, keys, key);
      assert keys - (rest - {n}) == (keys - rest) + {n};
      names, rest := names + [n], rest - {n};
    }
    if Keyed(keys, key) { SortAscending(names, key); }
    SortElements(names, key);
    names := SortBy(names, key);
  }
}
