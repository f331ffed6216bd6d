// How much history a migration stores twice.
module ChatDuplication {
  import opened Common
  import opened ChatModel
  import opened ChatWrite
  import opened ChatCrash

  /** The on-disk index holds the body of this conversation. */
  predicate Embedded(d: Disk, id: Id) {
    var l := Lookup(IndexEntries(d.index), id);
    l.Some? && l.value.embedded.Some?
  }

  /** The body is in the index and under its own key. */
  predicate Duplicate(d: Disk, id: Id) { Embedded(d, id) && id in d.bodies }

  ghost predicate NoDuplicate(d: Disk) { forall id :: !Duplicate(d, id) }

  ghost predicate AtMostOneDuplicate(d: Disk) {
    forall a, b :: Duplicate(d, a) && Duplicate(d, b) ==> a == b
  }

  /** This write would embed a body that already has its own key: the trace of a rolled-back index
      write. */
  predicate Returning(st: Store, id: Id) { id !in st.stored && id in st.disk.bodies }

  /** In a migration, at most one body past the first may return to the index, and only stored ones
      may be written before it; without a migration, at most one body to write may still be embedded. */
  predicate FewReturns(st: Store, v: ChatState) {
    var order := Order(st, v);
    if Migrating(st, v) then
      forall m, j :: 1 <= m < |order| && 1 <= j < |order| && j != m &&
                     Returning(st, order[m]) && order[j] !in st.stored ==>
                     j > m && !Returning(st, order[j])
    else
      forall m, j :: 0 <= m < |order| && 0 <= j < |order| && j != m ==>
                     !(Embedded(st.disk, order[m]) && Embedded(st.disk, order[j]))
  }

  lemma EmbeddedByWrittenIndex(d: Disk, v: ChatState, bm: map<Id, Body>, stored: set<Id>, id: Id)
    requires d.index == IndexOf(v, bm, stored) && Writable(v)
    ensures Embedded(d, id) <==> Has(v.convs, id) && id !in stored && id in bm
  {
    WrittenIndexRecovers(d, v, bm, stored);
    if Has(v.convs, id) {
      var i :| 0 <= i < |v.convs| && v.convs[i].meta.id == id;
      LookupAt(Recovered(d), i);
    } else {
      forall i | 0 <= i < |v.convs| ensures Recovered(d)[i].meta.id != id {
      }
    }
  }

  // After the j-th index write of a migration the index holds exactly the bodies not yet written
  // among those without their own key.
  lemma EmbeddedDuringMigration(st: Store, v: ChatState, k: nat, id: Id)
    requires Writable(v) && Migrating(st, v) && 2 <= k < 2 * |Order(st, v)|
    ensures var order := Order(st, v);
            Embedded(Written(st, v, k).store.disk, id) <==>
            id !in st.stored && id in order && id !in order[..k / 2]
    ensures var order := Order(st, v);
            id in order ==> (id in Written(st, v, k).store.disk.bodies <==>
                             id in st.disk.bodies || id in order[..k / 2 + k % 2])
  {
    var bm, order := PlanBodies(st, v.convs), Order(st, v);
    OrderMember(st, v);
    PlanMember(st, v.convs, id);
    EmbeddedByWrittenIndex(Written(st, v, k).store.disk, v, bm, st.stored + Firsts(order, k / 2), id);
    assert id in order[..k / 2 + k % 2] ==> id in order;
  }

  lemma FinishedEmbedsNothing(st: Store, v: ChatState, k: nat, id: Id)
    requires Writable(v) && Written(st, v, k).ok
    ensures !Embedded(Written(st, v, k).store.disk, id)
  {
    var bm, order := PlanBodies(st, v.convs), Order(st, v);
    OrderMember(st, v);
    EmbeddedByWrittenIndex(Written(st, v, k).store.disk, v, bm, st.stored + Firsts(order, |order|), id);
  }

  // Before the first index write the old index stands.
  lemma EmbeddedBeforeFirstIndex(st: Store, v: ChatState, k: nat, id: Id)
    requires !Written(st, v, k).ok && (Migrating(st, v) ==> k < 2)
    ensures var d, put := Written(st, v, k).store.disk, Order(st, v)[..k];
            Embedded(d, id) == Embedded(st.disk, id) && (id in d.bodies <==> id in st.disk.bodies || id in put)
  {
    OrderMember(st, v);
    var order := Order(st, v);
    assert id in order[..k] ==> id in order;
  }

  // A body that has its own key never comes back into the index during a write.
  lemma MigratedStaysOut(st: Store, v: ChatState, k: nat, id: Id)
    requires Writable(v) && id in st.stored
    ensures Embedded(Written(st, v, k).store.disk, id) ==> Embedded(st.disk, id)
  {
    if Written(st, v, k).ok {
      FinishedEmbedsNothing(st, v, k, id);
    } else if Migrating(st, v) && k >= 2 {
      EmbeddedDuringMigration(st, v, k, id);
    }
  }

  // Once a migration has written its first index, the embedded set only shrinks.
  lemma EmbeddedShrinks(st: Store, v: ChatState, k: nat, k': nat, id: Id)
    requires Writable(v) && Migrating(st, v) && 2 <= k <= k'
    ensures Embedded(Written(st, v, k').store.disk, id) ==> Embedded(Written(st, v, k).store.disk, id)
  {
    if Written(st, v, k').ok {
      FinishedEmbedsNothing(st, v, k', id);
    } else {
      EmbeddedDuringMigration(st, v, k, id);
      EmbeddedDuringMigration(st, v, k', id);
      var order := Order(st, v);
      assert order[..k / 2] == order[..k' / 2][..k / 2];
    }
  }

  lemma WrittenSoFar(order: seq<Id>, i: nat, j: nat, r: nat)
    requires i < |order| && j < |order| && r <= 1 && order[i] !in order[..j]
    ensures i >= j
    ensures order[i] in order[..j + r] ==> order[i] == order[j]
  {
    assert forall x :: 0 <= x < j ==> order[x] == order[..j][x];
    assert order[..j + r] == order[..j] + order[j..j + r];
  }

  lemma FewReturnsSuffice(st: Store, v: ChatState, k: nat)
    requires Writable(v) && NoDuplicate(st.disk) && FewReturns(st, v)
    ensures AtMostOneDuplicate(Written(st, v, k).store.disk)
  {
    var d, order := Written(st, v, k).store.disk, Order(st, v);
    forall a, b | Duplicate(d, a) && Duplicate(d, b) ensures a == b {
      if Written(st, v, k).ok {
        FinishedEmbedsNothing(st, v, k, a);
        assert false;
      } else if Migrating(st, v) && k >= 2 {
        EmbeddedDuringMigration(st, v, k, a);
        EmbeddedDuringMigration(st, v, k, b);
        var i :| 0 <= i < |order| && order[i] == a;
        var j :| 0 <= j < |order| && order[j] == b;
        WrittenSoFar(order, i, k / 2, k % 2);
        WrittenSoFar(order, j, k / 2, k % 2);
      } else {
        EmbeddedBeforeFirstIndex(st, v, k, a);
        EmbeddedBeforeFirstIndex(st, v, k, b);
        assert !Duplicate(st.disk, a) && !Duplicate(st.disk, b);
        var i :| 0 <= i < k && order[i] == a;
        var j :| 0 <= j < k && order[j] == b;
      }
    }
  }

  // Two returning bodies are both duplicates right after the first index write.
  lemma TwoReturning(st: Store, v: ChatState, m: nat, j: nat)
    requires Writable(v) && Migrating(st, v)
    requires 1 <= m < |Order(st, v)| && 1 <= j < |Order(st, v)| && j != m
    requires Returning(st, Order(st, v)[m]) && Returning(st, Order(st, v)[j])
    ensures !AtMostOneDuplicate(Written(st, v, 2).store.disk)
  {
    var d, order := Written(st, v, 2).store.disk, Order(st, v);
    OrderMember(st, v);
    EmbeddedDuringMigration(st, v, 2, order[m]);
    EmbeddedDuringMigration(st, v, 2, order[j]);
    assert Duplicate(d, order[m]) && Duplicate(d, order[j]);
  }

  // A returning body behind a new one: both are duplicates right after the new one is written.
  lemma ReturningBehindNew(st: Store, v: ChatState, m: nat, j: nat)
    requires Writable(v) && Migrating(st, v)
    requires 1 <= j < m < |Order(st, v)|
    requires Returning(st, Order(st, v)[m]) && Order(st, v)[j] !in st.stored
    ensures !AtMostOneDuplicate(Written(st, v, 2 * j + 1).store.disk)
  {
    var k := 2 * j + 1;
    var d, order := Written(st, v, k).store.disk, Order(st, v);
    OrderMember(st, v);
    assert k / 2 == j && k % 2 == 1;
    assert order[..j + 1][j] == order[j];
    EmbeddedDuringMigration(st, v, k, order[m]);
    EmbeddedDuringMigration(st, v, k, order[j]);
    assert Duplicate(d, order[m]);
    assert Duplicate(d, order[j]);
  }

  lemma FewReturnsNeeded(st: Store, v: ChatState)
    requires Writable(v) && NoDuplicate(st.disk)
    requires forall k: nat :: AtMostOneDuplicate(Written(st, v, k).store.disk)
    ensures FewReturns(st, v)
  {
    var order := Order(st, v);
    OrderMember(st, v);
    if Migrating(st, v) {
      forall m, j | 1 <= m < |order| && 1 <= j < |order| && j != m &&
                    Returning(st, order[m]) && order[j] !in st.stored
        ensures j > m && !Returning(st, order[j])
      {
        if Returning(st, order[j]) {
          TwoReturning(st, v, m, j);
          assert false;
        } else if j < m {
          ReturningBehindNew(st, v, m, j);
          assert false;
        }
      }
    } else {
      forall m, j | 0 <= m < |order| && 0 <= j < |order| && j != m
        ensures !(Embedded(st.disk, order[m]) && Embedded(st.disk, order[j]))
      {
        var d := Written(st, v, |order|).store.disk;
        assert order[..|order|] == order;
        EmbeddedBeforeFirstIndex(st, v, |order|, order[m]);
        EmbeddedBeforeFirstIndex(st, v, |order|, order[j]);
        assert AtMostOneDuplicate(d);
        assert order[m] in d.bodies && order[j] in d.bodies;
        assert !(Duplicate(d, order[m]) && Duplicate(d, order[j]));
      }
    }
  }

  // From a disk without duplicates, every moment of the write has at most one duplicate exactly
  // when few bodies return to the index.
  lemma BoundedDuplication(st: Store, v: ChatState)
    requires Writable(v) && NoDuplicate(st.disk)
    ensures FewReturns(st, v) <==> forall k: nat :: AtMostOneDuplicate(Written(st, v, k).store.disk)
  {
    if FewReturns(st, v) {
      forall k: nat ensures AtMostOneDuplicate(Written(st, v, k).store.disk) {
        FewReturnsSuffice(st, v, k);
      }
    }
    if forall k: nat :: AtMostOneDuplicate(Written(st, v, k).store.disk) {
      FewReturnsNeeded(st, v);
    }
  }
}
