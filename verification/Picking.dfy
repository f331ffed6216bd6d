// What it means that a list is made of what is there of another one, in its order.
module Picking {
  import opened Common

  /** The elements of `r` stand at the places `p` of the list. */
  predicate Stand<T(==)>(list: seq<Option<T>>, r: seq<T>, p: seq<nat>) {
    |p| == |r| && forall j :: 0 <= j < |p| ==> p[j] < |list| && list[p[j]] == Some(r[j])
  }

  predicate Increasing(p: seq<nat>) { forall j, k :: 0 <= j < k < |p| ==> p[j] < p[k] }

  /** Every place that holds something is among these. */
  predicate Covers<T>(list: seq<Option<T>>, p: seq<nat>) {
    forall i :: 0 <= i < |list| && list[i].Some? ==> i in p
  }

  /** `r` is everything that the list holds, in its order; `p` are the places it was taken from. */
  predicate Picks<T(==)>(list: seq<Option<T>>, r: seq<T>, p: seq<nat>) {
    Stand(list, r, p) && Increasing(p) && Covers(list, p)
  }

  lemma NothingPicked<T>() returns (p: seq<nat>)
    ensures p == [] && Picks<T>([], [], p)
  {
    p := [];
  }

  function Then<T>(x: Option<T>): seq<T> { if x.Some? then [x.value] else [] }

  function Place<T>(x: Option<T>, at: nat): seq<nat> { if x.Some? then [at] else [] }

  function Shifted(p: seq<nat>): (r: seq<nat>)
    ensures |r| == |p| && forall j :: 0 <= j < |p| ==> r[j] == p[j] + 1
  {
    seq(|p|, j requires 0 <= j < |p| => p[j] + 1)
  }

  lemma CoversLast<T>(list: seq<Option<T>>, x: Option<T>, p: seq<nat>)
    requires Covers(list, p)
    ensures Covers(list + [x], p + Place(x, |list|))
  {
    var more := p + Place(x, |list|);
    forall i | 0 <= i < |list + [x]| && (list + [x])[i].Some? ensures i in more {
      if i < |list| {
        assert list[i].Some?;
        assert i in p;
      } else {
        assert |list| in Place(x, |list|);
      }
    }
  }

  lemma PicksLast<T>(list: seq<Option<T>>, x: Option<T>, r: seq<T>, p: seq<nat>)
    requires Picks(list, r, p)
    ensures Picks(list + [x], r + Then(x), p + Place(x, |list|))
  {
    CoversLast(list, x, p);
    hide Covers;
  }

  lemma CoversFirst<T>(x: Option<T>, list: seq<Option<T>>, p: seq<nat>)
    requires Covers(list, p)
    ensures Covers([x] + list, Place(x, 0) + Shifted(p))
  {
    var more := Place(x, 0) + Shifted(p);
    forall i | 0 <= i < |[x] + list| && ([x] + list)[i].Some? ensures i in more {
      if i > 0 {
        assert list[i - 1].Some?;
        var j :| 0 <= j < |p| && p[j] == i - 1;
        assert Shifted(p)[j] == i;
        assert i in Shifted(p);
      } else {
        assert 0 in Place(x, 0);
      }
    }
  }

  lemma PicksFirst<T>(x: Option<T>, list: seq<Option<T>>, r: seq<T>, p: seq<nat>)
    requires Picks(list, r, p)
    ensures Picks([x] + list, Then(x) + r, Place(x, 0) + Shifted(p))
  {
    CoversFirst(x, list, p);
    hide Covers;
  }

  lemma {:induction false} SamePlaces<T>(list: seq<Option<T>>, r: seq<T>, p: seq<nat>, r': seq<T>, p': seq<nat>, n: nat)
    requires Picks(list, r, p) && Picks(list, r', p') && n <= |p|
    ensures n <= |p'| && forall i :: 0 <= i < n ==> p'[i] == p[i]
  {
    if n > 0 {
      SamePlaces(list, r, p, r', p', n - 1);
      assert list[p[n - 1]].Some? && p[n - 1] in p';
      var j :| 0 <= j < |p'| && p'[j] == p[n - 1];
    }
  }

  // So what is picked is determined by the list.
  lemma {:induction false} PicksOnce<T>(list: seq<Option<T>>, r: seq<T>, p: seq<nat>, r': seq<T>, p': seq<nat>)
    requires Picks(list, r, p) && Picks(list, r', p')
    ensures r == r'
  {
    SamePlaces(list, r, p, r', p', |p|);
    SamePlaces(list, r', p', r, p, |p'|);
  }

  // ---------- counting places ----------

  function Up(s: set<nat>): (r: set<nat>)
    ensures forall x :: x in r <==> x > 0 && x - 1 in s
  {
    var r := set i | i in s :: i + 1;
    assert forall i :: i in s ==> i + 1 in r;
    r
  }

  lemma UpWithout(s: set<nat>, x: nat)
    requires x in s
    ensures Up(s) == Up(s - {x}) + {x + 1} && x + 1 !in Up(s - {x})
  {
  }

  lemma {:induction false} UpSize(s: set<nat>)
    ensures |Up(s)| == |s|
  {
    if x :| x in s {
      UpWithout(s, x);
      UpSize(s - {x});
      hide Up;
    } else {
      assert Up(s) == {};
    }
  }

  lemma SizeStep(s: set<nat>, first: bool)
    ensures |(if first then {0} else {}) + Up(s)| == |s| + if first then 1 else 0
  {
    UpSize(s);
  }
}
