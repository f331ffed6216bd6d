// Writing a state to storage. `Written(st, v, k)` is what `writeStored(v)` leaves when its first
// `k` storage writes succeed and the next one throws. A crash after `k` writes leaves the same disk,
// so a statement about every `k` is a statement about every failure and every crash point.
module ChatWrite {
  import opened Common
  import opened ChatModel

  datatype Outcome = Outcome(store: Store, ok: bool)

  // ---------- what has to be written ----------

  predicate Needs(st: Store, c: Conv) { c.meta.id in st.changed || c.meta.id !in st.stored }

  /** The messages as the getter gives them, in their stored form. */
  function SerialBody(st: Store, c: Conv): Body {
    match c.messages
    case Held(list) => DiskForm(list)
    case Deferred => DeferredRead(st, c.meta.id)
  }

  function BodyToWrite(st: Store, c: Conv): Body {
    if c.meta.id in st.changed || c.meta.id !in st.pending then SerialBody(st, c) else st.pending[c.meta.id]
  }

  function PlanBodies(st: Store, cs: seq<Conv>): map<Id, Body> {
    if cs == [] then map[]
    else
      var rest := PlanBodies(st, cs[..|cs| - 1]);
      var c := cs[|cs| - 1];
      if Needs(st, c) then rest[c.meta.id := BodyToWrite(st, c)] else rest
  }

  /** The keys of `PlanBodies` in insertion order. */
  function PlanIds(st: Store, cs: seq<Conv>): seq<Id> {
    if cs == [] then []
    else
      var rest := PlanIds(st, cs[..|cs| - 1]);
      var c := cs[|cs| - 1];
      if Needs(st, c) && c.meta.id !in rest then rest + [c.meta.id] else rest
  }

  function Without(ids: seq<Id>, id: Id): seq<Id> {
    if ids == [] then [] else (if ids[0] == id then [] else [ids[0]]) + Without(ids[1..], id)
  }

  /** The stable sort that puts the active conversation first. */
  function WriteOrder(ids: seq<Id>, active: Id): seq<Id> {
    if active in ids then [active] + Without(ids, active) else ids
  }

  function Order(st: Store, v: ChatState): seq<Id> { WriteOrder(PlanIds(st, v.convs), v.active) }

  predicate Distinct(ids: seq<Id>) { forall i, j :: 0 <= i < j < |ids| ==> ids[i] != ids[j] }

  function WrittenCount(bm: map<Id, Body>, c: Conv): nat {
    if c.meta.id in bm then CountDisk(bm[c.meta.id]) else c.count
  }

  function IndexEntry(bm: map<Id, Body>, stored: set<Id>, c: Conv): RawEntry {
    Saved(c.meta, Some(WrittenCount(bm, c)),
          if c.meta.id !in stored && c.meta.id in bm then ToPayload(bm[c.meta.id]) else NotAnArray)
  }

  /** The index that `writeIndex` stores; a conversation without its own key keeps its body in it. */
  function IndexOf(v: ChatState, bm: map<Id, Body>, stored: set<Id>): RawIndex {
    Index(2, v.active, seq(|v.convs|, i requires 0 <= i < |v.convs| => IndexEntry(bm, stored, v.convs[i])))
  }

  function Firsts(ids: seq<Id>, n: nat): (s: set<Id>)
    requires n <= |ids|
    ensures forall id :: id in s <==> id in ids[..n]
  {
    set id | id in ids[..n]
  }

  function PutBodies(bodies: map<Id, Payload>, bm: map<Id, Body>, ids: set<Id>): map<Id, Payload> {
    bodies + (map id | id in ids && id in bm :: ToPayload(bm[id]))
  }

  // ---------- the outcome after k successful writes ----------

  function Finished(st: Store, v: ChatState): Store {
    var bm, order := PlanBodies(st, v.convs), Order(st, v);
    var all := Firsts(order, |order|);
    Store(st.disk.(index := IndexOf(v, bm, st.stored + all), bodies := PutBodies(st.disk.bodies, bm, all)),
          st.pending - all, st.stored + all, st.changed - all)
  }

  /** With no body left to migrate: all bodies, then the index. */
  function Direct(st: Store, v: ChatState, k: nat): Outcome {
    var bm, order := PlanBodies(st, v.convs), Order(st, v);
    if k > |order| then Outcome(Finished(st, v), true)
    else
      var done := Firsts(order, k);
      Outcome(Store(st.disk.(bodies := PutBodies(st.disk.bodies, bm, done)),
                    st.pending - done, st.stored + done, st.changed), false)
  }

  /** A migration: each body is followed by a smaller index; a failed index write takes the body's
      id back out of the stored set. */
  function Migrate(st: Store, v: ChatState, k: nat): Outcome {
    var bm, order := PlanBodies(st, v.convs), Order(st, v);
    if k >= 2 * |order| then Outcome(Finished(st, v), true)
    else
      var j := k / 2;
      var done, put := Firsts(order, j), Firsts(order, j + k % 2);
      var index := if j == 0 then st.disk.index else IndexOf(v, bm, st.stored + done);
      Outcome(Store(st.disk.(index := index, bodies := PutBodies(st.disk.bodies, bm, put)),
                    st.pending - done,
                    st.stored + done - (if k % 2 == 1 then {order[j]} else {}),
                    st.changed), false)
  }

  predicate Migrating(st: Store, v: ChatState) { st.pending != map[] && Order(st, v) != [] }

  function Written(st: Store, v: ChatState, k: nat): Outcome {
    if Migrating(st, v) then Migrate(st, v, k) else Direct(st, v, k)
  }

  // ---------- the plan ----------

  lemma {:induction false} PlanMember(st: Store, cs: seq<Conv>, id: Id)
    ensures id in PlanIds(st, cs) <==> exists i :: 0 <= i < |cs| && cs[i].meta.id == id && Needs(st, cs[i])
    ensures id in PlanIds(st, cs) <==> id in PlanBodies(st, cs)
  {
    if cs != [] {
      var n := |cs| - 1;
      PlanMember(st, cs[..n], id);
      if i :| 0 <= i < n && cs[..n][i].meta.id == id && Needs(st, cs[..n][i]) {
        assert cs[i].meta.id == id && Needs(st, cs[i]);
      }
      if i :| 0 <= i < |cs| && cs[i].meta.id == id && Needs(st, cs[i]) && i != n {
        assert cs[..n][i].meta.id == id;
      }
    }
  }

  lemma {:induction false} PlanAt(st: Store, cs: seq<Conv>, i: nat)
    requires UniqueIds(cs) && i < |cs|
    ensures cs[i].meta.id in PlanBodies(st, cs) <==> Needs(st, cs[i])
    ensures Needs(st, cs[i]) ==> PlanBodies(st, cs)[cs[i].meta.id] == BodyToWrite(st, cs[i])
  {
    var n := |cs| - 1;
    if i < n {
      PlanAt(st, cs[..n], i);
    } else {
      PlanMember(st, cs[..n], cs[i].meta.id);
    }
  }

  lemma {:induction false} PlanDistinct(st: Store, cs: seq<Conv>)
    ensures Distinct(PlanIds(st, cs))
  {
    if cs != [] {
      PlanDistinct(st, cs[..|cs| - 1]);
    }
  }

  lemma {:induction false} WithoutMember(ids: seq<Id>, id: Id)
    requires Distinct(ids)
    ensures Distinct(Without(ids, id))
    ensures forall x :: x in Without(ids, id) <==> x in ids && x != id
  {
    if ids != [] {
      WithoutMember(ids[1..], id);
      assert forall x :: x in ids <==> x == ids[0] || x in ids[1..];
      assert ids[0] !in ids[1..];
    }
  }

  lemma OrderMember(st: Store, v: ChatState)
    ensures Distinct(Order(st, v))
    ensures forall id :: id in Order(st, v) <==> id in PlanBodies(st, v.convs)
  {
    var ids := PlanIds(st, v.convs);
    PlanDistinct(st, v.convs);
    WithoutMember(ids, v.active);
    forall id ensures id in Order(st, v) <==> id in PlanBodies(st, v.convs) {
      PlanMember(st, v.convs, id);
    }
  }

  // The active conversation is written first, whenever it is written at all.
  lemma ActiveFirst(st: Store, v: ChatState)
    requires v.active in PlanBodies(st, v.convs)
    ensures Order(st, v) != [] && Order(st, v)[0] == v.active
  {
    PlanMember(st, v.convs, v.active);
  }

  // ---------- the bookkeeping of a write ----------

  lemma WriteBooks(st: Store, v: ChatState, k: nat)
    ensures var w := Written(st, v, k);
            && w.store.pending.Keys <= st.pending.Keys && w.store.changed <= st.changed
            && w.store.disk.legacy == st.disk.legacy
            && (!w.ok ==> w.store.changed == st.changed)
            && (!w.ok && st.pending == map[] ==> w.store.disk.index == st.disk.index)
  {
  }

  // With no write accepted, a write leaves everything as it is.
  lemma NoWriteFails(st: Store, v: ChatState)
    ensures Written(st, v, 0) == Outcome(st, false)
  {
    hide PlanBodies, Order, IndexOf;
    assert Firsts(Order(st, v), 0) == {};
    assert PutBodies(st.disk.bodies, PlanBodies(st, v.convs), {}) == st.disk.bodies;
  }

  // ---------- the write, step by step ----------

  /** The store after the first `i` bodies, each with its index in a migration. */
  function After(st: Store, v: ChatState, i: nat): Store
    requires i <= |Order(st, v)|
  {
    var bm, done := PlanBodies(st, v.convs), Firsts(Order(st, v), i);
    var index := if st.pending != map[] && i > 0 then IndexOf(v, bm, st.stored + done) else st.disk.index;
    Store(st.disk.(index := index, bodies := PutBodies(st.disk.bodies, bm, done)),
          st.pending - done, st.stored + done, st.changed)
  }

  lemma NothingWritten(st: Store, v: ChatState)
    ensures After(st, v, 0) == st
  {
    assert Firsts(Order(st, v), 0) == {};
  }

  lemma BodyFails(st: Store, v: ChatState, i: nat)
    requires i < |Order(st, v)|
    ensures Written(st, v, if st.pending != map[] then 2 * i else i) == Outcome(After(st, v, i), false)
  {
    hide IndexOf, PutBodies, Order, PlanBodies, PlanIds;
  }

  lemma FirstsStep(ids: seq<Id>, i: nat)
    requires Distinct(ids) && i < |ids|
    ensures Firsts(ids, i + 1) == Firsts(ids, i) + {ids[i]} && ids[i] !in Firsts(ids, i)
  {
    assert ids[..i + 1] == ids[..i] + [ids[i]];
  }

  lemma PutStep(bodies: map<Id, Payload>, bm: map<Id, Body>, ids: set<Id>, id: Id)
    requires id in bm
    ensures PutBodies(bodies, bm, ids + {id}) == PutBodies(bodies, bm, ids)[id := ToPayload(bm[id])]
  {
  }

  function Put(st: Store, id: Id, body: Body): Store {
    st.(disk := st.disk.(bodies := st.disk.bodies[id := ToPayload(body)]), stored := st.stored + {id})
  }

  function Unstore(st: Store, id: Id): Store { st.(stored := st.stored - {id}) }

  function Reindex(st: Store, v: ChatState, bm: map<Id, Body>): Store {
    st.(disk := st.disk.(index := IndexOf(v, bm, st.stored)))
  }

  function Settle(st: Store, id: Id): Store { st.(pending := st.pending - {id}) }

  lemma PutAfter(st: Store, v: ChatState, i: nat)
    requires i < |Order(st, v)|
    ensures var bm, order := PlanBodies(st, v.convs), Order(st, v);
            && order[i] in bm
            && After(st, v, i + 1).disk.bodies == Put(After(st, v, i), order[i], bm[order[i]]).disk.bodies
            && After(st, v, i + 1).stored == Put(After(st, v, i), order[i], bm[order[i]]).stored
            && After(st, v, i + 1).pending == After(st, v, i).pending - {order[i]}
  {
    var bm, order := PlanBodies(st, v.convs), Order(st, v);
    OrderMember(st, v);
    assert order[i] in order;
    FirstsStep(order, i);
    PutStep(st.disk.bodies, bm, Firsts(order, i), order[i]);
  }

  lemma BodyWritten(st: Store, v: ChatState, i: nat)
    requires i < |Order(st, v)| && st.pending == map[]
    ensures var bm, id := PlanBodies(st, v.convs), Order(st, v)[i];
            id in bm && After(st, v, i + 1) == Settle(Put(After(st, v, i), id, bm[id]), id)
  {
    PutAfter(st, v, i);
  }

  lemma BodyMigrated(st: Store, v: ChatState, i: nat)
    requires i < |Order(st, v)| && st.pending != map[]
    ensures var bm, id := PlanBodies(st, v.convs), Order(st, v)[i];
            id in bm && After(st, v, i + 1) == Settle(Reindex(Put(After(st, v, i), id, bm[id]), v, bm), id)
  {
    PutAfter(st, v, i);
  }

  lemma IndexFails(st: Store, v: ChatState, i: nat)
    requires i < |Order(st, v)| && st.pending != map[]
    ensures var bm, id := PlanBodies(st, v.convs), Order(st, v)[i];
            id in bm && Written(st, v, 2 * i + 1) == Outcome(Unstore(Put(After(st, v, i), id, bm[id]), id), false)
  {
    hide IndexOf, PutBodies, WriteOrder, PlanBodies, PlanIds;
    var order := Order(st, v);
    OrderMember(st, v);
    PutAfter(st, v, i);
    FirstsStep(order, i);
    assert (2 * i + 1) / 2 == i && (2 * i + 1) % 2 == 1;
    assert st.stored + Firsts(order, i) + {order[i]} - {order[i]} == st.stored + Firsts(order, i) - {order[i]};
  }

  lemma AllBodiesWritten(st: Store, v: ChatState)
    ensures var order, bm := Order(st, v), PlanBodies(st, v.convs);
            var a := After(st, v, |order|);
            if Migrating(st, v) then
              Written(st, v, 2 * |order|) == Outcome(a.(changed := a.changed - bm.Keys), true)
            else
              && Written(st, v, |order|) == Outcome(a, false)
              && Written(st, v, |order| + 1) ==
                 Outcome(a.(disk := a.disk.(index := IndexOf(v, bm, a.stored)), changed := a.changed - bm.Keys), true)
  {
    OrderMember(st, v);
    assert Firsts(Order(st, v), |Order(st, v)|) == PlanBodies(st, v.convs).Keys;
  }

  // ---------- reading the written index back ----------

  function ReadEntry(bm: map<Id, Body>, stored: set<Id>, c: Conv): Loaded {
    Loaded(c.meta, Some(WrittenCount(bm, c)),
           if c.meta.id !in stored && c.meta.id in bm then Some(bm[c.meta.id]) else None)
  }

  lemma {:induction false} ParseWritten(cs: seq<Conv>, es: seq<RawEntry>, bm: map<Id, Body>, stored: set<Id>)
    requires |es| == |cs| && forall i :: 0 <= i < |cs| ==> es[i] == IndexEntry(bm, stored, cs[i])
    ensures |ParseEntries(2, es)| == |cs|
    ensures forall i :: 0 <= i < |cs| ==> ParseEntries(2, es)[i] == ReadEntry(bm, stored, cs[i])
  {
    if cs != [] {
      var n := |cs| - 1;
      ParseWritten(cs[..n], es[..n], bm, stored);
      var c := cs[n];
      if c.meta.id in bm {
        ReadBack(bm[c.meta.id]);
      }
    }
  }

  lemma WrittenIndexRecovers(d: Disk, v: ChatState, bm: map<Id, Body>, stored: set<Id>)
    requires d.index == IndexOf(v, bm, stored) && v.convs != [] && UniqueIds(v.convs)
    ensures Indexed(d) && |Recovered(d)| == |v.convs| && UniqueLoaded(Recovered(d))
    ensures forall i :: 0 <= i < |v.convs| ==> Recovered(d)[i] == ReadEntry(bm, stored, v.convs[i])
  {
    ParseWritten(v.convs, d.index.entries, bm, stored);
  }

  lemma WrittenIndexCommits(d: Disk, v: ChatState, bm: map<Id, Body>, stored: set<Id>, c: Conv)
    requires d.index == IndexOf(v, bm, stored) && UniqueIds(v.convs) && c in v.convs
    ensures Committed(d, c.meta.id) ==
            Some(if c.meta.id !in stored && c.meta.id in bm then bm[c.meta.id] else BodyAt(d, c.meta.id))
  {
    WrittenIndexRecovers(d, v, bm, stored);
    var i :| 0 <= i < |v.convs| && v.convs[i] == c;
    LookupAt(Recovered(d), i);
  }

  lemma WrittenIndexOmits(d: Disk, v: ChatState, bm: map<Id, Body>, stored: set<Id>, id: Id)
    requires d.index == IndexOf(v, bm, stored) && v.convs != [] && UniqueIds(v.convs) && !Has(v.convs, id)
    ensures Committed(d, id) == None
  {
    WrittenIndexRecovers(d, v, bm, stored);
  }

  lemma PutBodyAt(d: Disk, bm: map<Id, Body>, ids: set<Id>, index: RawIndex, id: Id)
    ensures BodyAt(d.(bodies := PutBodies(d.bodies, bm, ids), index := index), id) ==
            if id in ids && id in bm then bm[id] else BodyAt(d, id)
  {
    if id in bm {
      ReadBack(bm[id]);
    }
  }

  // A reload with the old index sees only what changed under the body keys.
  lemma OldIndexCommits(d: Disk, d': Disk, id: Id)
    requires d'.index == d.index && d'.legacy == d.legacy
    ensures Committed(d', id) == Committed(d, id) ||
            (Committed(d, id) == Some(BodyAt(d, id)) && Committed(d', id) == Some(BodyAt(d', id)))
  {
  }
}
