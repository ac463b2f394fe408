/** A stable sort by a given order, and the order of strings. */
module Sorting {

  // before is transitive and compares everything.
  ghost predicate IsOrder<T(!new)>(before: (T, T) -> bool) {
    && (forall a, b :: before(a, b) || before(b, a))
    && (forall a, b, c :: before(a, b) && before(b, c) ==> before(a, c))
  }

  ghost predicate Sorted<T>(s: seq<T>, before: (T, T) -> bool) {
    forall i, j :: 0 <= i < j < |s| ==> before(s[i], s[j])
  }

  // Inserts before the first element that x comes before.
  function Insert<T>(x: T, s: seq<T>, before: (T, T) -> bool): (r: seq<T>)
    ensures multiset(r) == multiset{x} + multiset(s)
  {
    if s == [] || before(x, s[0]) then [x] + s
    else
      assert s == [s[0]] + s[1..];
      [s[0]] + Insert(x, s[1..], before)
  }

  function Sort<T>(s: seq<T>, before: (T, T) -> bool): (r: seq<T>)
    ensures multiset(r) == multiset(s) && |r| == |s|
  {
    if s == [] then []
    else
      assert s == [s[0]] + s[1..];
      var r := Insert(s[0], Sort(s[1..], before), before);
      assert |multiset(r)| == |r| && |multiset(s)| == |s|;
      r
  }

  lemma {:induction false} InsertSorts<T(!new)>(x: T, s: seq<T>, before: (T, T) -> bool)
    requires IsOrder(before) && Sorted(s, before)
    ensures Sorted(Insert(x, s, before), before)
  {
    if s == [] || before(x, s[0]) {
    } else {
      InsertSorts(x, s[1..], before);
      var rest := Insert(x, s[1..], before);
      forall j | 0 <= j < |rest|
        ensures before(s[0], rest[j])
      {
        assert rest[j] in multiset(rest);
        assert rest[j] == x || rest[j] in s[1..];
      }
    }
  }

  /** Sorting orders what it is given. */
  lemma {:induction false} SortSorts<T(!new)>(s: seq<T>, before: (T, T) -> bool)
    requires IsOrder(before)
    ensures Sorted(Sort(s, before), before)
  {
    if s != [] {
      SortSorts(s[1..], before);
      InsertSorts(s[0], Sort(s[1..], before), before);
    }
  }

  lemma SortMembers<T>(s: seq<T>, before: (T, T) -> bool, x: T)
    ensures x in Sort(s, before) <==> x in s
  {
    assert x in Sort(s, before) <==> x in multiset(Sort(s, before));
    assert x in s <==> x in multiset(s);
  }

  // What of s compares equal to k, in order.
  ghost function Tied<T>(s: seq<T>, k: T, before: (T, T) -> bool): seq<T> {
    if s == [] then []
    else TiedOne(s[0], k, before) + Tied(s[1..], k, before)
  }

  ghost function TiedOne<T>(x: T, k: T, before: (T, T) -> bool): seq<T> {
    if before(x, k) && before(k, x) then [x] else []
  }

  lemma TiedFirst<T>(x: T, s: seq<T>, k: T, before: (T, T) -> bool)
    ensures Tied([x] + s, k, before) == TiedOne(x, k, before) + Tied(s, k, before)
  {
    assert ([x] + s)[1..] == s;
  }

  lemma {:induction false} InsertKeepsTied<T(!new)>(x: T, s: seq<T>, k: T, before: (T, T) -> bool)
    requires IsOrder(before)
    ensures Tied(Insert(x, s, before), k, before) == Tied([x] + s, k, before)
  {
    if s != [] && !before(x, s[0]) {
      var rest := Insert(x, s[1..], before);
      assert TiedOne(x, k, before) == [] || TiedOne(s[0], k, before) == [];
      assert Insert(x, s, before) == [s[0]] + rest && s == [s[0]] + s[1..];
      InsertKeepsTied(x, s[1..], k, before);
      TiedFirst(s[0], rest, k, before);
      TiedFirst(x, s[1..], k, before);
      TiedFirst(x, s, k, before);
      TiedFirst(s[0], s[1..], k, before);
      hide Insert, IsOrder, TiedOne, Tied;
    }
  }

  /** The sort is stable: elements that compare equal keep their order. */
  lemma {:induction false} SortIsStable<T(!new)>(s: seq<T>, k: T, before: (T, T) -> bool)
    requires IsOrder(before)
    ensures Tied(Sort(s, before), k, before) == Tied(s, k, before)
  {
    if s != [] {
      SortIsStable(s[1..], k, before);
      InsertKeepsTied(s[0], Sort(s[1..], before), k, before);
      TiedFirst(s[0], Sort(s[1..], before), k, before);
    }
  }

  // Elements that compare equal are equal.
  ghost predicate IsStrictOn<T>(s: seq<T>, before: (T, T) -> bool) {
    forall a, b :: a in s && b in s && before(a, b) && before(b, a) ==> a == b
  }

  /** Where equal-comparing elements are equal, only one arrangement is sorted. */
  lemma {:induction false} SortedIsUnique<T(!new)>(s: seq<T>, t: seq<T>, before: (T, T) -> bool)
    requires IsOrder(before) && Sorted(s, before) && Sorted(t, before) && IsStrictOn(s, before)
    requires multiset(s) == multiset(t)
    ensures s == t
  {
    assert |s| == |multiset(s)| && |t| == |multiset(t)|;
    if s != [] {
      SameFirst(s, t, before);
      SameRest(s, t);
      assert Sorted(s[1..], before) && Sorted(t[1..], before);
      assert IsStrictOn(s[1..], before);
      hide Sorted, IsStrictOn, IsOrder;
      SortedIsUnique(s[1..], t[1..], before);
      assert s == [s[0]] + s[1..] && t == [t[0]] + t[1..];
    }
  }

  lemma SameRest<T>(s: seq<T>, t: seq<T>)
    requires s != [] && t != [] && s[0] == t[0] && multiset(s) == multiset(t)
    ensures multiset(s[1..]) == multiset(t[1..])
  {
    assert s == [s[0]] + s[1..] && t == [t[0]] + t[1..];
    assert multiset(s[1..]) == multiset(s) - multiset{s[0]};
    assert multiset(t[1..]) == multiset(t) - multiset{t[0]};
  }

  lemma SameFirst<T(!new)>(s: seq<T>, t: seq<T>, before: (T, T) -> bool)
    requires s != [] && t != []
    requires IsOrder(before) && Sorted(s, before) && Sorted(t, before) && IsStrictOn(s, before)
    requires multiset(s) == multiset(t)
    ensures s[0] == t[0]
  {
    assert s[0] in multiset(t) && t[0] in multiset(s);
    var i :| 0 <= i < |t| && t[i] == s[0];
    var j :| 0 <= j < |s| && s[j] == t[0];
    assert before(s[0], s[j]) && before(t[0], t[i]);
  }

  // ---- strings ----

  // Byte order and code-point order of text agree.
  predicate StringLe(a: string, b: string) {
    a == [] || (b != [] && (a[0] < b[0] || (a[0] == b[0] && StringLe(a[1..], b[1..]))))
  }

  lemma {:induction false} StringsCompare(a: string, b: string)
    ensures StringLe(a, b) || StringLe(b, a)
    ensures StringLe(a, b) && StringLe(b, a) ==> a == b
    decreases |a|
  {
    if a != [] && b != [] {
      StringsCompare(a[1..], b[1..]);
      assert a == [a[0]] + a[1..] && b == [b[0]] + b[1..];
    }
  }

  lemma {:induction false} StringLeChains(a: string, b: string, c: string)
    requires StringLe(a, b) && StringLe(b, c)
    ensures StringLe(a, c)
    decreases |a|
  {
    if a != [] && a[0] == b[0] == c[0] {
      StringLeChains(a[1..], b[1..], c[1..]);
    }
  }

  /** A string comes before those it begins. */
  lemma {:induction false} PrefixComesFirst(a: string, b: string)
    requires a <= b
    ensures StringLe(a, b)
  {
    if a != [] {
      PrefixComesFirst(a[1..], b[1..]);
    }
  }

  /** Otherwise the first difference decides. */
  lemma {:induction false} FirstDifferenceDecides(a: string, b: string, k: nat)
    requires k < |a| && k < |b| && a[k] != b[k] && a[..k] == b[..k]
    ensures StringLe(a, b) <==> a[k] < b[k]
  {
    if k > 0 {
      assert a[0] == a[..k][0] == b[..k][0] == b[0];
      assert a[1..][..k - 1] == a[..k][1..] == b[..k][1..] == b[1..][..k - 1];
      FirstDifferenceDecides(a[1..], b[1..], k - 1);
    }
  }

  lemma StringsAreOrdered()
    ensures IsOrder(StringLe)
  {
    forall a, b
      ensures StringLe(a, b) || StringLe(b, a)
    {
      StringsCompare(a, b);
    }
    forall a, b, c | StringLe(a, b) && StringLe(b, c)
      ensures StringLe(a, c)
    {
      StringLeChains(a, b, c);
    }
  }
}
