// What one call of `writeStored` keeps, whichever of its storage writes is the last to succeed.
module ChatCrash {
  import opened Common
  import opened ChatModel
  import opened ChatWrite

  /** The body a conversation has now: what a complete write would leave on disk. */
  function Current(st: Store, c: Conv): Body {
    if Needs(st, c) then BodyToWrite(st, c) else BodyAt(st.disk, c.meta.id)
  }

  /** The body the user sees. */
  function Visible(st: Store, c: Conv): Body { SerialBody(st, c) }

  /** The bookkeeping of one conversation agrees with the disk. */
  predicate Tracked(st: Store, c: Conv) {
    var id := c.meta.id;
    && (id in st.changed ==> c.messages.Held?)
    && (id !in st.stored && id !in st.pending ==> c.messages.Held?)
    && !(id in st.stored && id in st.pending)
    && (id in st.pending && id !in st.changed ==> c.messages.Deferred?)
    && (id in st.stored && id !in st.changed && c.messages.Held? ==> BodyAt(st.disk, id) == DiskForm(c.messages.list))
    && (id !in st.changed && Committed(st.disk, id).Some? ==> Committed(st.disk, id).value == Current(st, c))
    && (st.pending != map[] && id in st.stored && Committed(st.disk, id).Some? ==>
          Committed(st.disk, id).value == BodyAt(st.disk, id))
  }

  predicate Writable(v: ChatState) { v.convs != [] && UniqueIds(v.convs) }

  // Under that agreement, what the user sees is what the next write stores.
  lemma VisibleIsCurrent(st: Store, c: Conv)
    requires Tracked(st, c)
    ensures Visible(st, c) == Current(st, c)
  {
  }

  lemma InPlan(st: Store, v: ChatState, c: Conv)
    requires UniqueIds(v.convs) && c in v.convs
    ensures c.meta.id in PlanBodies(st, v.convs) <==> Needs(st, c)
    ensures Needs(st, c) ==> PlanBodies(st, v.convs)[c.meta.id] == BodyToWrite(st, c)
    ensures c.meta.id in Order(st, v) <==> Needs(st, c)
  {
    var i :| 0 <= i < |v.convs| && v.convs[i] == c;
    PlanAt(st, v.convs, i);
    OrderMember(st, v);
  }

  lemma NotInPlan(st: Store, v: ChatState, id: Id)
    requires !Has(v.convs, id)
    ensures id !in PlanBodies(st, v.convs) && id !in Order(st, v)
  {
    PlanMember(st, v.convs, id);
    OrderMember(st, v);
  }

  // ---------- crash atomicity of one write ----------

  // After any prefix of the storage writes, a listed conversation reloads with the body it had on
  // disk or with its current body, and stays listed.
  lemma WriteIsAtomic(st: Store, v: ChatState, k: nat, c: Conv)
    requires Writable(v) && c in v.convs && Tracked(st, c)
    ensures var id, d := c.meta.id, Written(st, v, k).store.disk;
            Committed(st.disk, id).Some? ==>
            Committed(d, id) == Committed(st.disk, id) || Committed(d, id) == Some(Current(st, c))
  {
    var id, d := c.meta.id, Written(st, v, k).store.disk;
    var bm, order := PlanBodies(st, v.convs), Order(st, v);
    InPlan(st, v, c);
    var put := if Written(st, v, k).ok then Firsts(order, |order|)
               else if Migrating(st, v) then Firsts(order, k / 2 + k % 2) else Firsts(order, k);
    assert d.bodies == PutBodies(st.disk.bodies, bm, put);
    PutBodyAt(st.disk, bm, put, d.index, id);
    assert d == st.disk.(bodies := PutBodies(st.disk.bodies, bm, put), index := d.index);
    assert id in put ==> id in order;
    if Written(st, v, k).ok || (Migrating(st, v) && k / 2 > 0) {
      var stored := st.stored + (if Written(st, v, k).ok then Firsts(order, |order|) else Firsts(order, k / 2));
      WrittenIndexCommits(d, v, bm, stored, c);
    } else {
      OldIndexCommits(st.disk, d, id);
    }
  }

  // ---------- every prefix keeps the bookkeeping ----------

  /** The stored set with which the last index of the call was written, if one was. */
  function IndexStored(st: Store, v: ChatState, k: nat): set<Id> {
    var order := Order(st, v);
    if Written(st, v, k).ok then st.stored + Firsts(order, |order|)
    else if Migrating(st, v) then st.stored + Firsts(order, k / 2) else st.stored
  }

  // The index on disk is the old one or one that lists exactly the conversations of `v`.
  lemma NewIndex(st: Store, v: ChatState, k: nat)
    ensures var index := Written(st, v, k).store.disk.index;
            index == st.disk.index || index == IndexOf(v, PlanBodies(st, v.convs), IndexStored(st, v, k))
    ensures Written(st, v, k).ok ==>
              Written(st, v, k).store.disk.index == IndexOf(v, PlanBodies(st, v.convs), IndexStored(st, v, k))
    ensures Written(st, v, k).store.disk.legacy == st.disk.legacy
  {
    hide IndexOf, PutBodies, Order, PlanBodies;
  }

  /** A write has not changed what is known of this conversation. */
  predicate Untouched(st: Store, w: Store, id: Id) {
    && (id in w.stored <==> id in st.stored)
    && (id in w.pending <==> id in st.pending) && (id in w.pending ==> w.pending[id] == st.pending[id])
    && BodyAt(w.disk, id) == BodyAt(st.disk, id)
  }

  /** How far an interrupted migration got with one conversation: not yet, halfway, or done. */
  predicate Stage(st: Store, w: Store, c: Conv) {
    var id, body := c.meta.id, BodyToWrite(st, c);
    || ( && Untouched(st, w, id)
         && Committed(w.disk, id) in {Committed(st.disk, id),
              Some(if id !in st.stored then body else BodyAt(st.disk, id))})
    || ( && Needs(st, c) && id !in w.stored
         && (id in w.pending <==> id in st.pending) && (id in w.pending ==> w.pending[id] == st.pending[id])
         && BodyAt(w.disk, id) == body && Committed(w.disk, id) in {Committed(st.disk, id), Some(body)})
    || ( && Needs(st, c) && id in w.stored && id !in w.pending && BodyAt(w.disk, id) == body
         && Committed(w.disk, id) == Some(body))
  }

  lemma MigrateFacts(st: Store, v: ChatState, k: nat, id: Id)
    requires Migrating(st, v) && k < 2 * |Order(st, v)|
    ensures var bm, order, w := PlanBodies(st, v.convs), Order(st, v), Migrate(st, v, k).store;
            var done := Firsts(order, k / 2);
            var half := k % 2 == 1 && id == order[k / 2];
            && w.changed == st.changed && w.disk.legacy == st.disk.legacy
            && w.disk.index == (if k / 2 == 0 then st.disk.index else IndexOf(v, bm, st.stored + done))
            && (id in w.pending <==> id in st.pending && id !in done)
            && (id in w.pending ==> w.pending[id] == st.pending[id])
            && (id in w.stored <==> (id in st.stored || id in done) && !half)
            && (half ==> id !in done) && (half || id in done ==> id in order) && (k / 2 == 0 ==> id !in done)
            && (id in order ==> id in bm)
            && BodyAt(w.disk, id) == (if id in bm && (half || id in done) then bm[id] else BodyAt(st.disk, id))
  {
    hide IndexOf, WriteOrder, PlanIds, BodyAt;
    var bm, order, w := PlanBodies(st, v.convs), Order(st, v), Migrate(st, v, k).store;
    var put := Firsts(order, k / 2 + k % 2);
    OrderMember(st, v);
    FirstsStep(order, k / 2);
    PutBodyAt(st.disk, bm, put, w.disk.index, id);
    assert w.disk == st.disk.(bodies := PutBodies(st.disk.bodies, bm, put), index := w.disk.index);
  }

  lemma MigrateStage(st: Store, v: ChatState, k: nat, c: Conv)
    requires Writable(v) && c in v.convs
    requires Migrating(st, v) && k < 2 * |Order(st, v)|
    ensures Stage(st, Migrate(st, v, k).store, c) && Migrate(st, v, k).store.changed == st.changed
  {
    hide PlanBodies, Order, UniqueIds, IndexOf, Migrate, PutBodies, BodyAt, BodyToWrite;
    var id, w := c.meta.id, Migrate(st, v, k).store;
    var order := Order(st, v);
    MigrateFacts(st, v, k, id);
    InPlan(st, v, c);
    if k / 2 == 0 {
      OldIndexCommits(st.disk, w.disk, id);
    } else {
      WrittenIndexCommits(w.disk, v, PlanBodies(st, v.convs), st.stored + Firsts(order, k / 2), c);
    }
    hide Committed;
  }

  lemma StageKeepsTracked(st: Store, w: Store, c: Conv)
    requires Tracked(st, c) && Stage(st, w, c) && w.changed == st.changed
    requires st.pending != map[]
    ensures Tracked(w, c)
  {
    hide Committed, BodyAt, DiskForm;
  }

  lemma MigrateKeepsTracked(st: Store, v: ChatState, k: nat, c: Conv)
    requires Writable(v) && c in v.convs && Tracked(st, c)
    requires Migrating(st, v) && k < 2 * |Order(st, v)|
    ensures Tracked(Migrate(st, v, k).store, c)
  {
    MigrateStage(st, v, k, c);
    StageKeepsTracked(st, Migrate(st, v, k).store, c);
  }

  lemma WriteKeepsTracked(st: Store, v: ChatState, k: nat, c: Conv)
    requires Writable(v) && c in v.convs && Tracked(st, c)
    ensures Tracked(Written(st, v, k).store, c)
  {
    var id, w := c.meta.id, Written(st, v, k);
    var bm, order := PlanBodies(st, v.convs), Order(st, v);
    InPlan(st, v, c);
    OrderMember(st, v);
    if w.ok {
      var all := Firsts(order, |order|);
      assert id in all <==> id in order;
      PutBodyAt(st.disk, bm, all, w.store.disk.index, id);
      WrittenIndexCommits(w.store.disk, v, bm, st.stored + all, c);
    } else if Migrating(st, v) {
      MigrateKeepsTracked(st, v, k, c);
    } else {
      var done := Firsts(order, k);
      assert id in done ==> id in order;
      PutBodyAt(st.disk, bm, done, st.disk.index, id);
      OldIndexCommits(st.disk, w.store.disk, id);
    }
  }

  lemma WriteLeaves(st: Store, v: ChatState, k: nat, id: Id)
    requires id !in Order(st, v) && id !in PlanBodies(st, v.convs)
    ensures var w := Written(st, v, k).store;
            && Untouched(st, w, id)
            && (id in w.changed <==> id in st.changed)
            && (id in w.disk.bodies <==> id in st.disk.bodies)
  {
    hide IndexOf, PlanBodies, Order;
  }

  lemma WriteOmits(st: Store, v: ChatState, k: nat, id: Id)
    requires Writable(v) && !Has(v.convs, id)
    ensures var w := Written(st, v, k).store;
            && Untouched(st, w, id) && Committed(w.disk, id) in {None, Committed(st.disk, id)}
            && (id in w.changed <==> id in st.changed)
            && (id in w.disk.bodies <==> id in st.disk.bodies)
  {
    hide Written, IndexOf, PlanBodies, IndexStored, BodyAt, UniqueIds;
    var w := Written(st, v, k).store;
    NotInPlan(st, v, id);
    WriteLeaves(st, v, k, id);
    NewIndex(st, v, k);
    if w.disk.index == st.disk.index {
      OldIndexCommits(st.disk, w.disk, id);
    } else {
      WrittenIndexOmits(w.disk, v, PlanBodies(st, v.convs), IndexStored(st, v, k), id);
    }
  }

  // A conversation that the written state leaves out (one being deleted) keeps its bookkeeping too.
  lemma WriteKeepsOthers(st: Store, v: ChatState, k: nat, c: Conv)
    requires Writable(v) && !Has(v.convs, c.meta.id) && Tracked(st, c)
    ensures Tracked(Written(st, v, k).store, c)
  {
    WriteOmits(st, v, k, c.meta.id);
    WriteBooks(st, v, k);
    hide Written, Committed, BodyAt, DiskForm;
  }

  // ---------- refinement: a write that returns leaves exactly the state ----------

  /** What a reload shows of a conversation. */
  function ReloadedConv(st: Store, v: ChatState, c: Conv): Conv {
    Conv(c.meta, if Needs(st, c) then CountDisk(Current(st, c)) else c.count, Deferred)
  }

  // The list that a completed write leaves, entry by entry.
  lemma WrittenList(st: Store, v: ChatState, k: nat)
    requires Writable(v) && Written(st, v, k).ok
    ensures var d := Written(st, v, k).store.disk;
            && Indexed(d) && |Recovered(d)| == |v.convs| && UniqueLoaded(Recovered(d)) && d.index.active == v.active
            && forall i :: 0 <= i < |v.convs| ==>
                 && Recovered(d)[i].meta == v.convs[i].meta && Recovered(d)[i].embedded == None
                 && BodyAt(d, v.convs[i].meta.id) == Current(st, v.convs[i])
                 && LoadedConv(d, Recovered(d)[i]) == ReloadedConv(st, v, v.convs[i])
  {
    var w := Written(st, v, k).store;
    var bm, order := PlanBodies(st, v.convs), Order(st, v);
    var all := Firsts(order, |order|);
    assert w.disk == st.disk.(bodies := PutBodies(st.disk.bodies, bm, all), index := w.disk.index);
    hide Written, Recovered, PutBodies, PlanBodies, WriteOrder, ParseEntries;
    WrittenIndexRecovers(w.disk, v, bm, st.stored + all);
    forall i | 0 <= i < |v.convs|
      ensures Recovered(w.disk)[i].embedded == None
      ensures BodyAt(w.disk, v.convs[i].meta.id) == Current(st, v.convs[i])
      ensures LoadedConv(w.disk, Recovered(w.disk)[i]) == ReloadedConv(st, v, v.convs[i])
    {
      InPlan(st, v, v.convs[i]);
      PutBodyAt(st.disk, bm, all, w.disk.index, v.convs[i].meta.id);
    }
  }

  lemma {:induction false} NothingPending(ls: seq<Loaded>)
    requires forall i :: 0 <= i < |ls| ==> ls[i].embedded == None
    ensures Pending(ls) == map[]
  {
    if ls != [] {
      NothingPending(ls[..|ls| - 1]);
    }
  }

  // From any mix of pending, stored and changed bodies: same conversations, order, metadata, counts,
  // active id and bodies; nothing is pending and every body is in its own key.
  lemma WriteRefines(st: Store, v: ChatState, k: nat, freshId: Id, now: int)
    requires Writable(v) && Has(v.convs, v.active) && Written(st, v, k).ok
    ensures var s := Load(Written(st, v, k).store.disk, freshId, now);
            && s.state.active == v.active
            && |s.state.convs| == |v.convs|
            && (forall i :: 0 <= i < |v.convs| ==> s.state.convs[i] == ReloadedConv(st, v, v.convs[i]))
            && (forall i :: 0 <= i < |v.convs| ==>
                  DeferredRead(s.store, v.convs[i].meta.id) == Current(st, v.convs[i]))
            && s.store.pending == map[]
            && (forall c :: c in v.convs ==> c.meta.id in s.store.stored)
  {
    hide Written, Current, ReloadedConv, BodyAt, ParseEntries, LoadedCount;
    var d := Written(st, v, k).store.disk;
    var ls := Recovered(d);
    WrittenList(st, v, k);
    forall i | 0 <= i < |v.convs| ensures v.convs[i].meta.id in StoredIds(ls) {
      PendingAt(ls, i);
    }
    NothingPending(ls);
    var i :| 0 <= i < |v.convs| && v.convs[i].meta.id == v.active;
    LookupAt(ls, i);
  }

  // ---------- deferred reads ----------

  // The getter of a conversation whose body was not changed returns the same messages before and
  // after any prefix of any write, including one whose failed index write rolled `stored` back.
  lemma DeferredReadIsStable(st: Store, v: ChatState, k: nat, id: Id)
    requires UniqueIds(v.convs)
    requires id !in st.changed && (id in st.stored || id in st.pending)
    ensures DeferredRead(Written(st, v, k).store, id) == DeferredRead(st, id)
    ensures var w := Written(st, v, k).store; id in w.stored || id in w.pending
  {
    hide IndexOf, Order, PlanBodies;
    var w := Written(st, v, k).store;
    var bm, order := PlanBodies(st, v.convs), Order(st, v);
    OrderMember(st, v);
    if c :| c in v.convs && c.meta.id == id {
      InPlan(st, v, c);
    } else {
      forall i | 0 <= i < |v.convs| ensures v.convs[i].meta.id != id {
        assert v.convs[i] in v.convs;
      }
      NotInPlan(st, v, id);
    }
    if id in bm {
      ReadBack(bm[id]);
    }
  }
}
