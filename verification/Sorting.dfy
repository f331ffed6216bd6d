// Stable sorting by a preorder, and the order of strings.
module Sorting {
  ghost predicate Preorder<T(!new)>(le: (T, T) -> bool) {
    && (forall x, y :: le(x, y) || le(y, x))
    && (forall x, y, z :: le(x, y) && le(y, z) ==> le(x, z))
  }

  predicate SortedBy<T>(le: (T, T) -> bool, s: seq<T>) {
    forall i, j :: 0 <= i < j < |s| ==> le(s[i], s[j])
  }

  /** Puts `x` behind the last element that may stand before it. */
  function Insert<T>(le: (T, T) -> bool, s: seq<T>, x: T): (r: seq<T>)
    ensures |r| == |s| + 1
  {
    if s == [] then [x]
    else if le(s[|s| - 1], x) then s + [x]
    else Insert(le, s[..|s| - 1], x) + [s[|s| - 1]]
  }

  function Sort<T>(le: (T, T) -> bool, s: seq<T>): (r: seq<T>)
    ensures |r| == |s|
  {
    if s == [] then [] else Insert(le, Sort(le, s[..|s| - 1]), s[|s| - 1])
  }

  lemma {:induction false} InsertKeepsElements<T>(le: (T, T) -> bool, s: seq<T>, x: T)
    ensures multiset(Insert(le, s, x)) == multiset(s) + multiset{x}
  {
    if s != [] {
      var n := |s| - 1;
      assert s == s[..n] + [s[n]];
      if !le(s[n], x) {
        InsertKeepsElements(le, s[..n], x);
      }
    }
  }

  lemma SortedSnoc<T(!new)>(le: (T, T) -> bool, s: seq<T>, x: T)
    requires SortedBy(le, s) && forall y :: y in multiset(s) ==> le(y, x)
    ensures SortedBy(le, s + [x])
  {
    forall i | 0 <= i < |s| ensures le(s[i], x) {
      assert s[i] in multiset(s);
    }
  }

  lemma {:induction false} InsertSorts<T(!new)>(le: (T, T) -> bool, s: seq<T>, x: T)
    requires Preorder(le) && SortedBy(le, s)
    ensures SortedBy(le, Insert(le, s, x))
  {
    if s != [] {
      var front, last := s[..|s| - 1], s[|s| - 1];
      forall y | y in multiset(front) ensures le(y, last) {
        var i :| 0 <= i < |front| && front[i] == y;
      }
      if !le(last, x) {
        InsertSorts(le, front, x);
        InsertKeepsElements(le, front, x);
        SortedSnoc(le, Insert(le, front, x), last);
      } else {
        assert s == front + [last];
        SortedSnoc(le, s, x);
      }
    }
  }

  // The sort returns a sorted permutation of its input.
  lemma {:induction false} SortSorts<T(!new)>(le: (T, T) -> bool, s: seq<T>)
    requires Preorder(le)
    ensures SortedBy(le, Sort(le, s)) && multiset(Sort(le, s)) == multiset(s)
  {
    if s != [] {
      var n := |s| - 1;
      SortSorts(le, s[..n]);
      InsertSorts(le, Sort(le, s[..n]), s[n]);
      InsertKeepsElements(le, Sort(le, s[..n]), s[n]);
      assert s == s[..n] + [s[n]];
    }
  }

  // A sort never changes which elements there are, whatever the comparison does.
  lemma {:induction false} SortKeepsElements<T>(le: (T, T) -> bool, s: seq<T>)
    ensures multiset(Sort(le, s)) == multiset(s)
    ensures forall x :: x in Sort(le, s) <==> x in s
  {
    if s != [] {
      var n := |s| - 1;
      SortKeepsElements(le, s[..n]);
      InsertKeepsElements(le, Sort(le, s[..n]), s[n]);
      assert s == s[..n] + [s[n]];
    }
    assert forall x :: x in Sort(le, s) <==> x in multiset(Sort(le, s));
    assert forall x :: x in s <==> x in multiset(s);
  }

  predicate StringLe(a: string, b: string) {
    a == "" || (b != "" && (a[0] < b[0] || (a[0] == b[0] && StringLe(a[1..], b[1..]))))
  }

  lemma FirstDiffers(a: string, b: string)
    requires a != "" && b != "" && a[0] > b[0]
    ensures !(a <= b) && forall i :: 0 <= i < |a| && i < |b| && a[..i] == b[..i] ==> a[i] >= b[i]
  {
    assert forall i :: 0 < i <= |a| ==> a[..i][0] == a[0];
    assert forall i :: 0 < i <= |b| ==> b[..i][0] == b[0];
  }

  // It is the lexicographic order by code points: a prefix comes first, else the smaller character at the
  // first difference.
  lemma {:induction false} StringLeIs(a: string, b: string)
    ensures StringLe(a, b) <==>
            a <= b || exists i :: 0 <= i < |a| && i < |b| && a[..i] == b[..i] && a[i] < b[i]
  {
    if a != "" && b != "" && a[0] == b[0] {
      StringLeIs(a[1..], b[1..]);
      assert a == [a[0]] + a[1..] && b == [b[0]] + b[1..];
      if i :| 0 <= i < |a| && i < |b| && a[..i] == b[..i] && a[i] < b[i] {
        assert i > 0 && a[1..][..i - 1] == a[1..i] && b[1..][..i - 1] == b[1..i] && a[..i][1..] == a[1..i];
        assert b[..i][1..] == b[1..i] && a[1..][i - 1] < b[1..][i - 1];
      }
      if i :| 0 <= i < |a[1..]| && i < |b[1..]| && a[1..][..i] == b[1..][..i] && a[1..][i] < b[1..][i] {
        assert a[..i + 1] == [a[0]] + a[1..][..i] && b[..i + 1] == [b[0]] + b[1..][..i] && a[i + 1] < b[i + 1];
      }
    } else if a != "" && b != "" && a[0] < b[0] {
      assert a[..0] == b[..0];
    } else if a != "" && b != "" {
      FirstDiffers(a, b);
    }
  }

  lemma {:induction false} StringLeTotal(a: string, b: string)
    ensures StringLe(a, b) || StringLe(b, a)
  {
    if a != "" && b != "" && a[0] == b[0] {
      StringLeTotal(a[1..], b[1..]);
    }
  }

  lemma {:induction false} StringLeTransitive(a: string, b: string, c: string)
    requires StringLe(a, b) && StringLe(b, c)
    ensures StringLe(a, c)
  {
    if a != "" && a[0] == b[0] && b[0] == c[0] {
      StringLeTransitive(a[1..], b[1..], c[1..]);
    }
  }

  lemma {:induction false} StringLeAntisymmetric(a: string, b: string)
    requires StringLe(a, b) && StringLe(b, a)
    ensures a == b
  {
    if a != "" {
      StringLeAntisymmetric(a[1..], b[1..]);
      assert a == [a[0]] + a[1..] && b == [b[0]] + b[1..];
    }
  }

  lemma StringLePreorder()
    ensures Preorder(StringLe)
  {
    forall x: string, y: string ensures StringLe(x, y) || StringLe(y, x) {
      StringLeTotal(x, y);
    }
    forall x: string, y: string, z: string | StringLe(x, y) && StringLe(y, z) ensures StringLe(x, z) {
      StringLeTransitive(x, y, z);
    }
  }

  // ---------- sets as sorted lists ----------

  ghost function Listing(s: set<string>): seq<string> {
    if s == {} then [] else var x :| x in s; [x] + Listing(s - {x})
  }

  ghost function SortedList(s: set<string>): seq<string> { Sort(StringLe, Listing(s)) }

  lemma {:induction false} ListingLists(s: set<string>)
    ensures multiset(Listing(s)) == multiset(s)
  {
    if s != {} {
      var x :| x in s && Listing(s) == [x] + Listing(s - {x});
      ListingLists(s - {x});
    }
  }

  lemma SameHead(a: seq<string>, b: seq<string>)
    requires SortedBy(StringLe, a) && SortedBy(StringLe, b) && multiset(a) == multiset(b) && a != []
    ensures b != [] && a[0] == b[0]
  {
    assert a[0] in multiset(b) && |b| > 0;
    assert b[0] in multiset(a);
    hide StringLe;
    StringLeTotal(a[0], a[0]);
    StringLeTotal(b[0], b[0]);
    StringLeAntisymmetric(a[0], b[0]);
  }

  lemma SameTail(a: seq<string>, b: seq<string>)
    requires multiset(a) == multiset(b) && a != [] && b != [] && a[0] == b[0]
    ensures multiset(a[1..]) == multiset(b[1..])
  {
    assert a == [a[0]] + a[1..] && b == [b[0]] + b[1..];
    assert multiset(a[1..]) == multiset(a) - multiset{a[0]} == multiset(b[1..]);
  }

  lemma {:induction false} SortedUnique(a: seq<string>, b: seq<string>)
    requires SortedBy(StringLe, a) && SortedBy(StringLe, b) && multiset(a) == multiset(b)
    ensures a == b
  {
    hide StringLe;
    if a == [] {
      assert |b| == |multiset(b)|;
    } else {
      SameHead(a, b);
      SameTail(a, b);
      SortedUnique(a[1..], b[1..]);
      assert a == [a[0]] + a[1..] && b == [b[0]] + b[1..];
    }
  }

  // The sorted list of a set is its only sorted enumeration.
  lemma SortedListIs(s: set<string>, list: seq<string>)
    requires SortedBy(StringLe, list) && multiset(list) == multiset(s)
    ensures list == SortedList(s)
  {
    ListingLists(s);
    StringLePreorder();
    SortSorts(StringLe, Listing(s));
    SortedUnique(list, SortedList(s));
  }

  lemma SortedListMembers(s: set<string>)
    ensures forall x :: x in SortedList(s) <==> x in s
  {
    ListingLists(s);
    SortKeepsElements(StringLe, Listing(s));
    assert forall x :: x in s <==> x in multiset(s);
    assert forall x :: x in SortedList(s) <==> x in multiset(SortedList(s));
  }

  method SortSet(s: set<string>) returns (list: seq<string>)
    ensures list == SortedList(s)
  {
    list := [];
    var rest := s;
    while rest != {}
      invariant rest <= s && multiset(list) + multiset(rest) == multiset(s)
      decreases |rest|
    {
      var x :| x in rest;
      list, rest := list + [x], rest - {x};
    }
    StringLePreorder();
    SortSorts(StringLe, list);
    SortedListIs(s, Sort(StringLe, list));
    list := Sort(StringLe, list);
  }

  // ---------- distinct keys ----------

  predicate DistinctBy<T, K(==)>(key: T -> K, s: seq<T>) {
    forall i, j :: 0 <= i < j < |s| ==> key(s[i]) != key(s[j])
  }

  lemma DistinctSnoc<T, K>(key: T -> K, s: seq<T>, x: T)
    requires DistinctBy(key, s) && forall y :: y in s ==> key(y) != key(x)
    ensures DistinctBy(key, s + [x])
  {
  }

  lemma DistinctLast<T, K>(key: T -> K, s: seq<T>, y: T)
    requires s != [] && DistinctBy(key, s) && y in s[..|s| - 1]
    ensures key(y) != key(s[|s| - 1])
  {
    var i :| 0 <= i < |s| - 1 && s[..|s| - 1][i] == y;
    assert s[i] == y;
  }

  lemma {:induction false} InsertKeepsDistinct<T, K>(le: (T, T) -> bool, key: T -> K, s: seq<T>, x: T)
    requires DistinctBy(key, s) && forall y :: y in s ==> key(y) != key(x)
    ensures DistinctBy(key, Insert(le, s, x))
  {
    if s != [] && !le(s[|s| - 1], x) {
      var front, last := s[..|s| - 1], s[|s| - 1];
      InsertKeepsDistinct(le, key, front, x);
      InsertKeepsElements(le, front, x);
      var inserted := Insert(le, front, x);
      forall y | y in inserted ensures key(y) != key(last) {
        assert y in multiset(inserted) && y in multiset(front) + multiset{x};
        if y in multiset(front) {
          DistinctLast(key, s, y);
        } else {
          assert last in s;
        }
      }
      DistinctSnoc(key, inserted, last);
    } else {
      DistinctSnoc(key, s, x);
    }
  }

  lemma {:induction false} SortKeepsDistinct<T, K>(le: (T, T) -> bool, key: T -> K, s: seq<T>)
    requires DistinctBy(key, s)
    ensures DistinctBy(key, Sort(le, s))
  {
    if s != [] {
      var front, last := s[..|s| - 1], s[|s| - 1];
      SortKeepsDistinct(le, key, front);
      SortKeepsElements(le, front);
      var sorted := Sort(le, front);
      forall y | y in sorted ensures key(y) != key(last) {
        assert y in multiset(sorted) && y in multiset(front);
        DistinctLast(key, s, y);
      }
      InsertKeepsDistinct(le, key, Sort(le, front), last);
    }
  }
}
