// The operations of the hook on memory and storage, the invariant they keep, and what holds over
// every run of operations, failed writes, crashes and reloads.
module ChatSession {
  import opened Common
  import opened ChatModel
  import opened ChatWrite
  import opened ChatCrash

  // ---------- operations ----------

  function Flush(s: Session, k: nat): Session {
    if !s.dirty then s
    else
      var w := Written(s.store, s.state, k);
      Session(w.store, s.state, !w.ok)
  }

  function Update(s: Session, next: ChatState): Session { s.(state := next, dirty := true) }

  function WithMessages(c: Conv, list: seq<UiMsg>, title: string, now: int): Conv {
    Conv(c.meta.(title := title, updatedAt := now), CountUi(list), Held(list))
  }

  function ReplaceMessages(cs: seq<Conv>, id: Id, list: seq<UiMsg>, title: string, now: int): (r: seq<Conv>)
    ensures |r| == |cs|
    ensures forall i :: 0 <= i < |r| ==>
              r[i] == (if cs[i].meta.id == id then WithMessages(cs[i], list, title, now) else cs[i])
  {
    seq(|cs|, i requires 0 <= i < |cs| =>
      if cs[i].meta.id == id then WithMessages(cs[i], list, title, now) else cs[i])
  }

  function SetMessages(s: Session, list: seq<UiMsg>, title: string, now: int): Session {
    var changed := s.(store := s.store.(changed := s.store.changed + {s.state.active}));
    Update(changed, s.state.(convs := ReplaceMessages(s.state.convs, s.state.active, list, title, now)))
  }

  function Select(s: Session, id: Id, k1: nat, k2: nat): Session {
    if id == s.state.active || !Has(s.state.convs, id) then s
    else Flush(Update(Flush(s, k1), s.state.(active := id)), k2)
  }

  function Create(s: Session, serverId: string, freshId: Id, now: int, k1: nat, k2: nat): Session {
    var next := ChatState(freshId, [NewConv(freshId, serverId, now)] + s.state.convs);
    Flush(Update(Flush(s, k1), next), k2)
  }

  function SelectServer(s: Session, serverId: string, freshId: Id, now: int, k1: nat, k2: nat): Session {
    var existing := OnServer(s.state.convs, serverId);
    if existing != [] then Select(s, Newest(Metas(existing)).id, k1, k2)
    else Create(s, serverId, freshId, now, k1, k2)
  }

  datatype Cleanup = Skipped | Succeeds | Fails

  /** What the environment does during a deletion: how many writes of each of its write calls
      succeed, how the backend cleanup ends, and which key removals succeed. */
  datatype DeleteEnv = DeleteEnv(flush: nat, migrate: nat, save: nat, cleanup: Cleanup, restore: nat,
                                 discarded: set<Id>, removeOk: bool, freshId: Id, now: int)

  datatype DeleteResult = Missing | MigrationFailed | SaveFailed | CleanupFailed(restored: bool) | Deleted

  function Remove(cs: seq<Conv>, id: Id): (r: seq<Conv>)
    ensures forall c :: c in r <==> c in cs && c.meta.id != id
  {
    if cs == [] then []
    else
      var last := cs[|cs| - 1];
      assert forall c :: c in cs <==> c == last || c in cs[..|cs| - 1];
      Remove(cs[..|cs| - 1], id) + (if last.meta.id != id then [last] else [])
  }

  function ServerOf(cs: seq<Conv>, id: Id): string
    requires Has(cs, id)
  {
    if cs[0].meta.id == id then cs[0].meta.serverId else ServerOf(cs[1..], id)
  }

  /** The state without a conversation. The active one is replaced by the newest of its server, or
      by a new conversation on that server. */
  function StateWithout(v: ChatState, id: Id, freshId: Id, now: int): ChatState
    requires Has(v.convs, id)
  {
    var rest := Remove(v.convs, id);
    if id != v.active then ChatState(v.active, rest)
    else
      var serverId := ServerOf(v.convs, id);
      var same := OnServer(rest, serverId);
      if same != [] then ChatState(Newest(Metas(same)).id, rest)
      else ChatState(freshId, [NewConv(freshId, serverId, now)] + rest)
  }

  function NewIds(prev: ChatState, next: ChatState): set<Id> {
    set i | 0 <= i < |next.convs| && !Has(prev.convs, next.convs[i].meta.id) :: next.convs[i].meta.id
  }

  /** Undoes the body keys of conversations that only the abandoned state has, as far as removals
      succeed: those of `gone` do. */
  function Discard(st: Store, ids: set<Id>, gone: set<Id>): Store {
    st.(stored := st.stored - ids, disk := st.disk.(bodies := st.disk.bodies - (ids * gone)))
  }

  function Forget(st: Store, id: Id, removed: bool): Store {
    Store(if removed then st.disk.(bodies := st.disk.bodies - {id}) else st.disk,
          st.pending - {id}, st.stored - {id}, st.changed - {id})
  }

  /** How far a deletion gets before it waits for the backend: it stops, or the index without the
      conversation is saved and `next` is the state to come. */
  datatype Begun = NotThere | NotMigrated | NotSaved | Waits(next: ChatState)

  /** The write of the index without the conversation, once nothing is left to migrate. */
  function SaveWithout(s: Session, id: Id, env: DeleteEnv): (Session, Begun)
    requires Has(s.state.convs, id)
  {
    var next := StateWithout(s.state, id, env.freshId, env.now);
    var saved := Written(s.store, next, env.save);
    if saved.ok then (s.(store := saved.store), Waits(next))
    else (s.(store := Discard(saved.store, NewIds(s.state, next), env.discarded)), NotSaved)
  }

  /** A deletion first saves and finishes any migration, so that a failed body write cannot commit it. */
  function Migrated(s: Session, env: DeleteEnv): Outcome {
    var flushed := Flush(s, env.flush);
    if flushed.store.pending != map[] then Written(flushed.store, s.state, env.migrate)
    else Outcome(flushed.store, true)
  }

  /** A deletion up to the end of its first write. */
  function BeginDelete(s: Session, id: Id, env: DeleteEnv): (Session, Begun) {
    if !Has(s.state.convs, id) then (s, NotThere)
    else
      var migrated := Migrated(s, env);
      var s1 := Flush(s, env.flush).(store := migrated.store);
      if !migrated.ok then (s1, NotMigrated) else SaveWithout(s1, id, env)
  }

  /** A deletion once the backend has answered: the previous state is written again, or memory takes
      over the next one, whatever happened meanwhile. */
  function EndDelete(s: Session, id: Id, next: ChatState, env: DeleteEnv): (Session, DeleteResult) {
    if env.cleanup.Fails? then
      var restored := Written(s.store, s.state, env.restore);
      if restored.ok then
        (s.(store := Discard(restored.store, NewIds(s.state, next), env.discarded)), CleanupFailed(true))
      else (Session(restored.store, s.state, true), CleanupFailed(false))
    else (Session(Forget(s.store, id, env.removeOk), next, false), Deleted)
  }

  /** Flushes one after the other, as page events cause them while a deletion waits. */
  function FlushAll(s: Session, ks: seq<nat>): Session {
    if ks == [] then s else Flush(FlushAll(s, ks[..|ks| - 1]), ks[|ks| - 1])
  }

  /** The whole of a deletion, with the flushes during its wait; without a cleanup there is no wait. */
  function Delete(s: Session, id: Id, env: DeleteEnv, ks: seq<nat>): (Session, DeleteResult) {
    var (begun, how) := BeginDelete(s, id, env);
    match how
    case NotThere => (begun, Missing)
    case NotMigrated => (begun, MigrationFailed)
    case NotSaved => (begun, SaveFailed)
    case Waits(next) => EndDelete(if env.cleanup.Skipped? then begun else FlushAll(begun, ks), id, next, env)
  }

  // ---------- the invariant ----------

  /** A reload would show these conversations, in this order, with this active one. */
  predicate Mirrors(d: Disk, v: ChatState) {
    && Indexed(d)
    && |Recovered(d)| == |v.convs|
    && (forall i :: 0 <= i < |v.convs| ==> Recovered(d)[i].meta == v.convs[i].meta)
    && ActiveOf(d.index.active, Recovered(d)) == v.active
  }

  predicate StoreOk(st: Store, cs: seq<Conv>) {
    && UniqueLoaded(Recovered(st.disk))
    && (forall c :: c in cs ==> Tracked(st, c))
    && (forall id :: id in st.pending ==> Has(cs, id))
    && (forall id :: id in st.changed ==> Has(cs, id))
  }

  predicate StateOk(v: ChatState) { Writable(v) && Has(v.convs, v.active) }

  predicate CleanOk(st: Store, v: ChatState) { st.changed == {} && (Indexed(st.disk) ==> Mirrors(st.disk, v)) }

  /** Memory is valid and the bookkeeping agrees with the disk. */
  predicate Sound(s: Session) { StateOk(s.state) && StoreOk(s.store, s.state.convs) }

  /** And nothing is left to save when nothing is marked so. */
  predicate Inv(s: Session) { Sound(s) && (!s.dirty ==> CleanOk(s.store, s.state)) }

  /** A reload of the disk shows exactly this state with the bodies the user sees now. */
  predicate Reloads(st: Store, v: ChatState, freshId: Id, now: int) {
    var r := Load(st.disk, freshId, now);
    && r.state.active == v.active
    && |r.state.convs| == |v.convs|
    && forall i :: 0 <= i < |v.convs| ==>
         && r.state.convs[i].meta == v.convs[i].meta
         && Visible(r.store, r.state.convs[i]) == Visible(st, v.convs[i])
  }

  lemma MirrorReloads(st: Store, v: ChatState, freshId: Id, now: int)
    requires UniqueLoaded(Recovered(st.disk)) && Mirrors(st.disk, v)
    requires forall c :: c in v.convs ==> Tracked(st, c) && c.meta.id !in st.changed
    ensures Reloads(st, v, freshId, now)
  {
    var d, r := st.disk, Load(st.disk, freshId, now);
    forall i | 0 <= i < |v.convs|
      ensures Visible(r.store, r.state.convs[i]) == Visible(st, v.convs[i])
    {
      VisibleIsCurrent(st, v.convs[i]);
      LookupAt(Recovered(d), i);
      PendingAt(Recovered(d), i);
    }
  }

  // Whenever nothing is dirty and an index exists, a reload gives back what the user sees.
  lemma CleanMeansSaved(s: Session, freshId: Id, now: int)
    requires Inv(s) && !s.dirty && Indexed(s.store.disk)
    ensures Reloads(s.store, s.state, freshId, now)
  {
    MirrorReloads(s.store, s.state, freshId, now);
  }

  // ---------- writes keep the invariant ----------

  lemma WrittenMirrors(d: Disk, v: ChatState, bm: map<Id, Body>, stored: set<Id>)
    requires d.index == IndexOf(v, bm, stored) && StateOk(v)
    ensures Mirrors(d, v)
  {
    WrittenIndexRecovers(d, v, bm, stored);
    var i :| 0 <= i < |v.convs| && v.convs[i].meta.id == v.active;
    LookupAt(Recovered(d), i);
  }

  lemma MirrorUnique(d: Disk, v: ChatState)
    requires Mirrors(d, v) && StateOk(v)
    ensures UniqueLoaded(Recovered(d))
  {
  }

  lemma RecoveredAfterWrite(st: Store, v: ChatState, k: nat)
    requires StateOk(v) && UniqueLoaded(Recovered(st.disk))
    ensures UniqueLoaded(Recovered(Written(st, v, k).store.disk))
    ensures var d := Written(st, v, k).store.disk;
            (d.index == st.disk.index && Recovered(d) == Recovered(st.disk)) || Mirrors(d, v)
    ensures Written(st, v, k).ok ==> Mirrors(Written(st, v, k).store.disk, v)
  {
    hide Written, IndexOf, PlanBodies, IndexStored, Mirrors, StateOk;
    var d := Written(st, v, k).store.disk;
    NewIndex(st, v, k);
    var bm, stored := PlanBodies(st, v.convs), IndexStored(st, v, k);
    if d.index == IndexOf(v, bm, stored) {
      WrittenMirrors(d, v, bm, stored);
      MirrorUnique(d, v);
    }
  }

  lemma MirrorKept(d: Disk, d': Disk, v: ChatState)
    requires d'.index == d.index && d'.legacy == d.legacy
    ensures Indexed(d') == Indexed(d) && Recovered(d') == Recovered(d) && Mirrors(d', v) == Mirrors(d, v)
  {
  }

  lemma WriteKeepsStore(st: Store, v: ChatState, k: nat, cs: seq<Conv>)
    requires StateOk(v) && StoreOk(st, cs)
    requires forall c :: c in cs ==> c in v.convs || !Has(v.convs, c.meta.id)
    ensures StoreOk(Written(st, v, k).store, cs)
  {
    hide Tracked, Mirrors, UniqueIds, UniqueLoaded;
    RecoveredAfterWrite(st, v, k);
    forall c | c in cs ensures Tracked(Written(st, v, k).store, c) {
      if c in v.convs {
        WriteKeepsTracked(st, v, k, c);
      } else {
        WriteKeepsOthers(st, v, k, c);
      }
    }
  }

  // What the user sees does not depend on how far a write got.
  lemma WriteKeepsVisible(st: Store, v: ChatState, k: nat, c: Conv)
    requires UniqueIds(v.convs) && Tracked(st, c)
    ensures Visible(Written(st, v, k).store, c) == Visible(st, c)
  {
    if c.messages.Deferred? {
      DeferredReadIsStable(st, v, k, c.meta.id);
    }
  }

  lemma WriteClears(st: Store, v: ChatState, k: nat)
    requires Writable(v) && Written(st, v, k).ok
    ensures var w := Written(st, v, k).store;
            forall c :: c in v.convs ==>
              c.meta.id in w.stored && c.meta.id !in w.changed && (c.meta.id in st.stored || c.meta.id !in w.pending)
  {
    var order := Order(st, v);
    forall c | c in v.convs
      ensures var w := Written(st, v, k).store;
              c.meta.id in w.stored && c.meta.id !in w.changed && (c.meta.id in st.stored || c.meta.id !in w.pending)
    {
      InPlan(st, v, c);
      assert c.meta.id in order ==> c.meta.id in Firsts(order, |order|);
    }
  }

  lemma WriteEmptiesPlan(st: Store, v: ChatState, k: nat)
    requires Writable(v) && StoreOk(st, v.convs) && Written(st, v, k).ok
    ensures var w := Written(st, v, k).store; w.pending == map[] && w.changed == {}
  {
    WriteBooks(st, v, k);
    WriteClears(st, v, k);
    hide Written;
  }

  lemma FlushKeeps(s: Session, k: nat)
    requires Sound(s)
    ensures Sound(Flush(s, k)) && Flush(s, k).state == s.state
    ensures s.dirty || Inv(s) ==> Inv(Flush(s, k))
    ensures forall c :: c in s.state.convs ==> Visible(Flush(s, k).store, c) == Visible(s.store, c)
  {
    if s.dirty {
      WriteKeepsStore(s.store, s.state, k, s.state.convs);
      RecoveredAfterWrite(s.store, s.state, k);
      if Written(s.store, s.state, k).ok {
        WriteEmptiesPlan(s.store, s.state, k);
      }
      forall c | c in s.state.convs ensures Visible(Flush(s, k).store, c) == Visible(s.store, c) {
        WriteKeepsVisible(s.store, s.state, k, c);
      }
    }
  }

  lemma MessagesTracked(st: Store, c: Conv, active: Id, list: seq<UiMsg>, title: string, now: int)
    requires Tracked(st, c)
    ensures Tracked(st.(changed := st.changed + {active}),
                    if c.meta.id == active then WithMessages(c, list, title, now) else c)
  {
    hide Committed, BodyAt, DiskForm;
  }

  lemma SetMessagesKeeps(s: Session, list: seq<UiMsg>, title: string, now: int)
    requires Sound(s)
    ensures Inv(SetMessages(s, list, title, now))
  {
    hide Mirrors, Tracked, Recovered, UniqueLoaded;
    var s' := SetMessages(s, list, title, now);
    forall id | Has(s.state.convs, id) ensures Has(s'.state.convs, id) {
      var i :| 0 <= i < |s.state.convs| && s.state.convs[i].meta.id == id;
      assert s'.state.convs[i].meta.id == id;
    }
    forall c | c in s'.state.convs ensures Tracked(s'.store, c) {
      var i :| 0 <= i < |s'.state.convs| && s'.state.convs[i] == c;
      MessagesTracked(s.store, s.state.convs[i], s.state.active, list, title, now);
    }
  }

  lemma SelectKeeps(s: Session, id: Id, k1: nat, k2: nat)
    requires Sound(s)
    ensures if id == s.state.active || !Has(s.state.convs, id) then Select(s, id, k1, k2) == s
            else Inv(Select(s, id, k1, k2)) && Select(s, id, k1, k2).state == s.state.(active := id)
  {
    if id != s.state.active && Has(s.state.convs, id) {
      FlushKeeps(s, k1);
      FlushKeeps(Update(Flush(s, k1), s.state.(active := id)), k2);
    }
  }

  /** An id that neither memory nor storage knows, as a random UUID is. */
  predicate Fresh(s: Session, id: Id) {
    && !Has(s.state.convs, id)
    && id !in s.store.stored
    && Committed(s.store.disk, id) == None
    && id !in s.store.disk.bodies
  }

  lemma FreshAfterWrite(st: Store, v: ChatState, k: nat, id: Id)
    requires Writable(v) && !Has(v.convs, id)
    requires id !in st.stored && Committed(st.disk, id) == None && id !in st.disk.bodies
    ensures var w := Written(st, v, k).store;
            id !in w.stored && Committed(w.disk, id) == None && id !in w.disk.bodies
  {
    hide Written, Committed;
    WriteOmits(st, v, k, id);
  }

  lemma FreshAfterFlush(s: Session, id: Id, k: nat)
    requires Sound(s) && Fresh(s, id)
    ensures Fresh(Flush(s, k), id)
  {
    if s.dirty {
      FreshAfterWrite(s.store, s.state, k, id);
    }
  }

  lemma NewConvTracked(s: Session, id: Id, serverId: string, now: int)
    requires Sound(s) && Fresh(s, id)
    ensures Tracked(s.store, NewConv(id, serverId, now))
  {
  }

  lemma AddHas(cs: seq<Conv>, c: Conv)
    ensures forall id :: Has([c] + cs, id) <==> Has(cs, id) || id == c.meta.id
  {
    var more := [c] + cs;
    assert c in more;
    forall id ensures Has(more, id) <==> Has(cs, id) || id == c.meta.id {
      if x :| x in more && x.meta.id == id && x != c {
        assert x in cs;
      }
      if x :| x in cs && x.meta.id == id {
        assert x in more;
      }
    }
  }

  lemma AddIds(cs: seq<Conv>, c: Conv)
    requires UniqueIds(cs) && !Has(cs, c.meta.id)
    ensures UniqueIds([c] + cs)
    ensures forall id :: Has([c] + cs, id) <==> Has(cs, id) || id == c.meta.id
  {
    var more := [c] + cs;
    forall i, j | 0 <= i < j < |more| ensures more[i].meta.id != more[j].meta.id {
      if i == 0 {
        assert more[j] == cs[j - 1] && cs[j - 1] in cs;
      } else {
        assert more[i] == cs[i - 1] && more[j] == cs[j - 1];
      }
    }
    AddHas(cs, c);
  }

  lemma AddKeeps(s: Session, serverId: string, freshId: Id, now: int)
    requires Sound(s) && Fresh(s, freshId)
    ensures Sound(Update(s, ChatState(freshId, [NewConv(freshId, serverId, now)] + s.state.convs)))
  {
    var c := NewConv(freshId, serverId, now);
    var cs := [c] + s.state.convs;
    NewConvTracked(s, freshId, serverId, now);
    AddIds(s.state.convs, c);
    hide Tracked, Mirrors, UniqueLoaded, UniqueIds, Has, Recovered;
    assert forall x :: x in cs <==> x == c || x in s.state.convs;
    assert Has(cs, freshId);
  }

  // Selecting a server that has conversations makes the most recently updated of them active, the
  // first in the list among equals.
  lemma SelectsNewest(s: Session, serverId: string, freshId: Id, now: int, k1: nat, k2: nat) returns (i: nat)
    requires OnServer(s.state.convs, serverId) != []
    ensures NewestOn(s.state.convs, serverId, i)
    ensures SelectServer(s, serverId, freshId, now, k1, k2).state == s.state.(active := s.state.convs[i].meta.id)
  {
    i := NewestOfServer(s.state.convs, serverId);
    hide OnServer, Newest, NewestOn, Written;
    assert Has(s.state.convs, s.state.convs[i].meta.id);
  }

  lemma CreateKeeps(s: Session, serverId: string, freshId: Id, now: int, k1: nat, k2: nat)
    requires Sound(s) && Fresh(s, freshId)
    ensures Inv(Create(s, serverId, freshId, now, k1, k2))
    ensures Create(s, serverId, freshId, now, k1, k2).state.convs == [NewConv(freshId, serverId, now)] + s.state.convs
  {
    FlushKeeps(s, k1);
    FreshAfterFlush(s, freshId, k1);
    AddKeeps(Flush(s, k1), serverId, freshId, now);
    FlushKeeps(Update(Flush(s, k1), ChatState(freshId, [NewConv(freshId, serverId, now)] + s.state.convs)), k2);
  }
}
