// What a clean session means over a whole run: once an index has been written it stays, and
// whenever nothing is dirty a reload gives back the session, message counts included.
module ChatSaved {
  import opened Common
  import opened ChatModel
  import opened ChatWrite
  import opened ChatCrash
  import opened ChatSession
  import opened ChatDelete
  import opened ChatWait
  import opened ChatRuns

  // ---------- an index stays ----------

  lemma WriteIndexes(st: Store, v: ChatState, k: nat)
    requires StateOk(v) && UniqueLoaded(Recovered(st.disk))
    ensures Indexed(st.disk) || Written(st, v, k).ok ==> Indexed(Written(st, v, k).store.disk)
  {
    RecoveredAfterWrite(st, v, k);
    hide Written, Recovered, UniqueLoaded, IndexEntries;
  }

  lemma FlushIndexes(s: Session, k: nat)
    requires Sound(s)
    ensures Indexed(s.store.disk) || (s.dirty && !Flush(s, k).dirty) ==> Indexed(Flush(s, k).store.disk)
  {
    WriteIndexes(s.store, s.state, k);
    hide Written, Recovered, UniqueLoaded, IndexEntries, Tracked;
  }

  lemma SelectIndexes(s: Session, id: Id, k1: nat, k2: nat)
    requires Sound(s) && Indexed(s.store.disk)
    ensures Indexed(Select(s, id, k1, k2).store.disk)
  {
    hide Flush, Indexed, Tracked;
    FlushIndexes(s, k1);
    if id != s.state.active && Has(s.state.convs, id) {
      FlushKeeps(s, k1);
      FlushIndexes(Update(Flush(s, k1), s.state.(active := id)), k2);
    }
  }

  lemma CreateIndexes(s: Session, serverId: string, freshId: Id, now: int, k1: nat, k2: nat)
    requires Sound(s) && Fresh(s, freshId) && Indexed(s.store.disk)
    ensures Indexed(Create(s, serverId, freshId, now, k1, k2).store.disk)
  {
    hide Flush, Indexed, Sound, Inv, Fresh;
    FlushIndexes(s, k1);
    FlushKeeps(s, k1);
    FreshAfterFlush(s, freshId, k1);
    AddKeeps(Flush(s, k1), serverId, freshId, now);
    FlushIndexes(Update(Flush(s, k1), ChatState(freshId, [NewConv(freshId, serverId, now)] + s.state.convs)), k2);
  }

  lemma OperateIndexes(s: Session, e: Event)
    requires Sound(s) && Operation(e) && WithNewId(s, e) && Indexed(s.store.disk)
    ensures Indexed(Operate(s, e).store.disk)
  {
    hide Sound, Indexed, Flush, Select, Create, Fresh;
    match e
    case FlushTimer(k) => FlushIndexes(s, k);
    case MessagesSet(list, title, now) =>
    case Selected(id, k1, k2) => SelectIndexes(s, id, k1, k2);
    case Created(serverId, freshId, now, k1, k2) => CreateIndexes(s, serverId, freshId, now, k1, k2);
    case ServerSelected(serverId, freshId, now, k1, k2) =>
      if OnServer(s.state.convs, serverId) != [] {
        SelectIndexes(s, Newest(Metas(OnServer(s.state.convs, serverId))).id, k1, k2);
      } else {
        CreateIndexes(s, serverId, freshId, now, k1, k2);
      }
  }

  lemma SaveIndexes(s: Session, c: Conv, env: DeleteEnv)
    requires c in s.state.convs && Ready(s, c.meta.id, env.freshId) && Indexed(s.store.disk)
    ensures Indexed(SaveWithout(s, c.meta.id, env).0.store.disk)
  {
    hide Written, StateWithout, Tracked, Recovered, UniqueLoaded, NewIds, IndexEntries;
    var next, w := Save(s, c, env.freshId, env.now, env.save);
    WriteIndexes(s.store, next, env.save);
  }

  lemma BeginIndexes(s: Session, c: Conv, env: DeleteEnv)
    requires Sound(s) && c in s.state.convs && Fresh(s, env.freshId) && Indexed(s.store.disk)
    ensures Indexed(BeginDelete(s, c.meta.id, env).0.store.disk)
  {
    hide Written, SaveWithout, Tracked, Recovered, UniqueLoaded, IndexEntries, Mirrors, Visible;
    FlushKeeps(s, env.flush);
    FlushIndexes(s, env.flush);
    WriteIndexes(Flush(s, env.flush).store, s.state, env.migrate);
    var s1 := Prepare(s, c.meta.id, env);
    if Migrated(s, env).ok {
      SaveIndexes(s1, c, env);
    }
  }

  lemma RequestIndexes(w: World, id: Id, env: DeleteEnv)
    requires WorldOk(w) && w.wait.None? && Fresh(w.session, env.freshId) && Indexed(w.session.store.disk)
    ensures Indexed(Requested(w, id, env).session.store.disk)
  {
    hide BeginDelete, Sound, Indexed, Fresh, Inv, Stale, WaitOk;
    WorldSound(w);
    if c :| c in w.session.state.convs && c.meta.id == id {
      BeginIndexes(w.session, c, env);
    } else {
      BeginMissing(w.session, id, env);
    }
  }

  lemma EndIndexes(s: Session, wait: Wait, env: DeleteEnv)
    requires WaitOk(s, wait) && Indexed(s.store.disk)
    ensures Indexed(Ended(s, wait, env).session.store.disk)
  {
    hide Written, Tracked, Recovered, UniqueLoaded, NewIds, IndexEntries, NextOk, Mirrors;
    WriteIndexes(s.store, s.state, env.restore);
  }

  lemma WaitsOk(w: World)
    requires WorldOk(w) && w.wait.Some?
    ensures WaitOk(w.session, w.wait.value)
  {
    hide WaitOk;
  }

  lemma LoadDisk(d: Disk, freshId: Id, now: int)
    ensures Load(d, freshId, now).store.disk == d
  {
    hide LoadState, Pending, StoredIds, Recovered;
  }

  lemma StepIndexes(w: World, e: Event)
    requires WorldOk(w) && Allowed(w, e) && Indexed(w.session.store.disk)
    ensures Indexed(Step(w, e).session.store.disk)
  {
    hide WorldOk, Indexed, Operate, Requested, Ended, Load, Fresh;
    WorldSound(w);
    match e
    case DeleteRequested(id, env) =>
      RequestKeepsOk(w, id, env);
      RequestIndexes(w, id, env);
      var next := Requested(w, id, env);
      if next.wait.Some? {
        WaitsOk(next);
        EndIndexes(next.session, next.wait.value, env);
      }
    case CleanupEnded(env) =>
      WaitsOk(w);
      EndIndexes(w.session, w.wait.value, env);
    case Restarted(freshId, now) => LoadDisk(w.session.store.disk, freshId, now);
    case _ => OperateIndexes(w.session, e);
  }

  // ---------- message counts ----------

  /** The count on disk is the one in memory or that of the stored messages. */
  predicate CountOk(st: Store, c: Conv) {
    c.meta.id !in st.changed ==>
      var l := Lookup(Recovered(st.disk), c.meta.id);
      l.Some? ==> LoadedCount(st.disk, l.value) in {c.count, CountDisk(LoadedBody(st.disk, l.value))}
  }

  // The body that an unchanged conversation would reload with does not move during a write.
  lemma BodyStays(st: Store, v: ChatState, k: nat, c: Conv)
    requires Writable(v) && Tracked(st, c) && (c in v.convs || !Has(v.convs, c.meta.id))
    ensures var w := Written(st, v, k).store; Tracked(w, c) && Current(w, c) == Current(st, c)
  {
    if c in v.convs {
      WriteKeepsTracked(st, v, k, c);
    } else {
      WriteKeepsOthers(st, v, k, c);
    }
    WriteKeepsVisible(st, v, k, c);
    VisibleIsCurrent(st, c);
    VisibleIsCurrent(Written(st, v, k).store, c);
  }

  lemma CommittedIs(st: Store, c: Conv)
    requires Tracked(st, c) && c.meta.id !in st.changed && Lookup(Recovered(st.disk), c.meta.id).Some?
    ensures LoadedBody(st.disk, Lookup(Recovered(st.disk), c.meta.id).value) == Current(st, c)
  {
  }

  // A new index lists the conversation with its count in memory, or with that of the body it plans.
  lemma NewIndexCounts(st: Store, v: ChatState, k: nat, c: Conv)
    requires Writable(v) && Tracked(st, c) && (c in v.convs || !Has(v.convs, c.meta.id))
    requires Written(st, v, k).store.disk.index == IndexOf(v, PlanBodies(st, v.convs), IndexStored(st, v, k))
    requires Lookup(Recovered(Written(st, v, k).store.disk), c.meta.id).Some?
    requires LoadedBody(Written(st, v, k).store.disk,
        Lookup(Recovered(Written(st, v, k).store.disk), c.meta.id).value) == Current(st, c)
    ensures var d := Written(st, v, k).store.disk;
            LoadedCount(d, Lookup(Recovered(d), c.meta.id).value) in {c.count, CountDisk(Current(st, c))}
  {
    hide Written, Recovered, IndexStored, CountDisk, PlanBodies, Tracked;
    var d, bm, stored := Written(st, v, k).store.disk, PlanBodies(st, v.convs), IndexStored(st, v, k);
    if c in v.convs {
      InPlan(st, v, c);
      WrittenIndexRecovers(d, v, bm, stored);
      var i :| 0 <= i < |v.convs| && v.convs[i] == c;
      LookupAt(Recovered(d), i);
    } else {
      WrittenIndexOmits(d, v, bm, stored, c.meta.id);
    }
  }

  lemma SameIndex(d: Disk, d': Disk)
    requires d.index == d'.index && d.legacy == d'.legacy
    ensures Recovered(d) == Recovered(d')
  {
  }

  lemma WriteKeepsCount(st: Store, v: ChatState, k: nat, c: Conv)
    requires Writable(v) && Tracked(st, c) && CountOk(st, c) && (c in v.convs || !Has(v.convs, c.meta.id))
    ensures CountOk(Written(st, v, k).store, c)
  {
    hide Written, Recovered, Current, Tracked, IndexOf, PlanBodies, IndexStored, CountDisk;
    var w := Written(st, v, k);
    NewIndex(st, v, k);
    WriteBooks(st, v, k);
    BodyStays(st, v, k, c);
    if c.meta.id !in w.store.changed && Lookup(Recovered(w.store.disk), c.meta.id).Some? {
      CommittedIs(w.store, c);
      if w.store.disk.index == IndexOf(v, PlanBodies(st, v.convs), IndexStored(st, v, k)) {
        NewIndexCounts(st, v, k, c);
      } else {
        SameIndex(st.disk, w.store.disk);
        CommittedIs(st, c);
      }
    }
  }

  predicate CountsOk(st: Store, cs: seq<Conv>) { forall c :: c in cs ==> CountOk(st, c) }

  lemma WriteKeepsCounts(st: Store, v: ChatState, k: nat, cs: seq<Conv>)
    requires Writable(v) && CountsOk(st, cs) && forall c :: c in cs ==>
        Tracked(st, c) && (c in v.convs || !Has(v.convs, c.meta.id))
    ensures CountsOk(Written(st, v, k).store, cs)
  {
    hide Tracked, CountOk, Written, UniqueIds;
    forall c | c in cs ensures CountOk(Written(st, v, k).store, c) {
      WriteKeepsCount(st, v, k, c);
    }
  }

  lemma FlushKeepsCounts(s: Session, k: nat)
    requires Sound(s) && CountsOk(s.store, s.state.convs)
    ensures CountsOk(Flush(s, k).store, s.state.convs)
  {
    if s.dirty {
      WriteKeepsCounts(s.store, s.state, k, s.state.convs);
    }
  }

  // Undoing or forgetting a key does not touch the counts of the others.
  lemma DropKeepsCount(st: Store, st': Store, ids: set<Id>, c: Conv)
    requires CountOk(st, c) && c.meta.id !in ids
    requires st'.disk.index == st.disk.index && st'.disk.legacy == st.disk.legacy
    requires c.meta.id in st'.disk.bodies <==> c.meta.id in st.disk.bodies
    requires c.meta.id in st.disk.bodies ==> st'.disk.bodies[c.meta.id] == st.disk.bodies[c.meta.id]
    requires st'.changed == st.changed || st'.changed == st.changed - ids
    ensures CountOk(st', c)
  {
    hide CountDisk, Lookup, Recovered;
    SameIndex(st.disk, st'.disk);
  }

  lemma DiscardKeepsCounts(st: Store, cs: seq<Conv>, ids: set<Id>, gone: set<Id>)
    requires CountsOk(st, cs) && forall id :: id in ids ==> !Has(cs, id)
    ensures CountsOk(Discard(st, ids, gone), cs)
  {
    forall c | c in cs ensures CountOk(Discard(st, ids, gone), c) {
      DropKeepsCount(st, Discard(st, ids, gone), ids, c);
    }
  }

  lemma NewConvCount(s: Session, id: Id, serverId: string, now: int)
    requires Fresh(s, id)
    ensures CountOk(s.store, NewConv(id, serverId, now))
  {
  }

  lemma Activated(s: Session, id: Id)
    requires Sound(s) && Has(s.state.convs, id)
    ensures Sound(Update(s, s.state.(active := id)))
  {
    hide Tracked, Mirrors, UniqueLoaded;
  }

  lemma SelectKeepsCounts(s: Session, id: Id, k1: nat, k2: nat)
    requires Sound(s) && CountsOk(s.store, s.state.convs)
    ensures CountsOk(Select(s, id, k1, k2).store, s.state.convs)
  {
    hide CountsOk, Sound, Inv, Flush;
    if id != s.state.active && Has(s.state.convs, id) {
      FlushKeeps(s, k1);
      FlushKeepsCounts(s, k1);
      var next := Update(Flush(s, k1), s.state.(active := id));
      assert Sound(next) by { Activated(Flush(s, k1), id); }
      FlushKeepsCounts(next, k2);
    }
  }

  lemma CreateKeepsCounts(s: Session, serverId: string, freshId: Id, now: int, k1: nat, k2: nat)
    requires Sound(s) && Fresh(s, freshId) && CountsOk(s.store, s.state.convs)
    ensures CountsOk(Create(s, serverId, freshId, now, k1, k2).store, [NewConv(freshId, serverId, now)] + s.state.convs)
  {
    hide CountOk, Sound, Inv, Flush, Fresh;
    FlushKeeps(s, k1);
    FlushKeepsCounts(s, k1);
    FreshAfterFlush(s, freshId, k1);
    AddKeeps(Flush(s, k1), serverId, freshId, now);
    NewConvCount(Flush(s, k1), freshId, serverId, now);
    FlushKeepsCounts(Update(Flush(s, k1), ChatState(freshId, [NewConv(freshId, serverId, now)] + s.state.convs)), k2);
  }

  lemma SetMessagesKeepsCounts(s: Session, list: seq<UiMsg>, title: string, now: int)
    requires Sound(s) && CountsOk(s.store, s.state.convs)
    ensures CountsOk(SetMessages(s, list, title, now).store, SetMessages(s, list, title, now).state.convs)
  {
    hide Sound, CountDisk, Lookup, Recovered, LoadedCount, LoadedBody;
    var s' := SetMessages(s, list, title, now);
    forall c | c in s'.state.convs ensures CountOk(s'.store, c) {
      var i :| 0 <= i < |s'.state.convs| && s'.state.convs[i] == c;
      assert s.state.convs[i] in s.state.convs;
    }
  }

  lemma LoadedCountAt(d: Disk, freshId: Id, now: int, i: nat)
    requires i < |Recovered(d)| && i < |LoadState(d, freshId, now).convs|
    ensures LoadState(d, freshId, now).convs[i].count == LoadedCount(d, Recovered(d)[i])
  {
    hide Recovered, ActiveOf, LoadedCount, OnServer;
  }

  lemma LoadCount(d: Disk, freshId: Id, now: int, i: nat)
    requires UniqueLoaded(Recovered(d)) && Lookup(Recovered(d), freshId).None?
    requires i < |LoadState(d, freshId, now).convs|
    ensures CountOk(Load(d, freshId, now).store, LoadState(d, freshId, now).convs[i])
  {
    var ls, cs := Recovered(d), LoadState(d, freshId, now).convs;
    LoadedList(d, freshId, now);
    if i < |ls| {
      LookupAt(ls, i);
      LoadedCountAt(d, freshId, now, i);
    }
    hide LoadState, Recovered, LoadedCount, CountDisk, Pending, StoredIds;
  }

  lemma LoadKeepsCounts(d: Disk, freshId: Id, now: int)
    requires UniqueLoaded(Recovered(d)) && Lookup(Recovered(d), freshId).None?
    ensures CountsOk(Load(d, freshId, now).store, Load(d, freshId, now).state.convs)
  {
    var s, ls := Load(d, freshId, now), Recovered(d);
    forall c | c in s.state.convs ensures CountOk(s.store, c) {
      var i :| 0 <= i < |s.state.convs| && s.state.convs[i] == c;
      LoadCount(d, freshId, now, i);
    }
  }

  /** The counts of the conversations in memory, and of those to come while a deletion waits. */
  predicate CountsIn(w: World) {
    && CountsOk(w.session.store, w.session.state.convs)
    && (w.wait.Some? ==> CountsOk(w.session.store, w.wait.value.next.convs))
  }

  lemma SaveKeepsCounts(s: Session, c: Conv, env: DeleteEnv)
    requires c in s.state.convs && Ready(s, c.meta.id, env.freshId) && CountsOk(s.store, s.state.convs)
    ensures var (s', how) := SaveWithout(s, c.meta.id, env);
            CountsOk(s'.store, s.state.convs) && (how.Waits? ==> CountsOk(s'.store, how.next.convs))
  {
    hide CountOk, Written, StateWithout, Tracked, NewIds, Discard, Mirrors, UniqueIds;
    var next, w := Save(s, c, env.freshId, env.now, env.save);
    StateWithoutOk(s.state, c, env.freshId, env.now);
    NewConvCount(s, env.freshId, c.meta.serverId, env.now);
    NewConvTracked(s, env.freshId, c.meta.serverId, env.now);
    WriteKeepsCounts(s.store, next, env.save, s.state.convs);
    WriteKeepsCounts(s.store, next, env.save, next.convs);
    AddedAreNew(s.state, next);
    DiscardKeepsCounts(w.store, s.state.convs, NewIds(s.state, next), env.discarded);
  }

  lemma BeginKeepsCounts(s: Session, c: Conv, env: DeleteEnv)
    requires Sound(s) && c in s.state.convs && Fresh(s, env.freshId) && CountsOk(s.store, s.state.convs)
    ensures var (s', how) := BeginDelete(s, c.meta.id, env);
            && s'.state == s.state && CountsOk(s'.store, s.state.convs)
            && (how.Waits? ==> CountsOk(s'.store, how.next.convs))
  {
    hide CountsOk, Written, SaveWithout, Tracked, Mirrors, UniqueLoaded, UniqueIds, Visible, StateWithout, WaitOk;
    BeginWaits(s, c, env);
    FlushKeeps(s, env.flush);
    FlushKeepsCounts(s, env.flush);
    WriteKeepsCounts(Flush(s, env.flush).store, s.state, env.migrate, s.state.convs);
    var s1 := Prepare(s, c.meta.id, env);
    if Migrated(s, env).ok {
      SaveKeepsCounts(s1, c, env);
    }
  }

  lemma RequestKeepsCounts(w: World, id: Id, env: DeleteEnv)
    requires WorldOk(w) && w.wait.None? && Fresh(w.session, env.freshId) && CountsIn(w)
    ensures CountsIn(Requested(w, id, env))
  {
    hide BeginDelete, Sound, CountsOk, Fresh, Inv, Stale, WaitOk;
    WorldSound(w);
    if c :| c in w.session.state.convs && c.meta.id == id {
      BeginKeepsCounts(w.session, c, env);
    } else {
      BeginMissing(w.session, id, env);
    }
  }

  lemma FlushInWaitCounts(s: Session, wait: Wait, k: nat)
    requires WaitOk(s, wait) && CountsOk(s.store, wait.next.convs)
    ensures CountsOk(Flush(s, k).store, wait.next.convs)
  {
    hide CountOk, Written, Tracked, Mirrors, UniqueIds, UniqueLoaded;
    if s.dirty {
      WriteKeepsCounts(s.store, s.state, k, wait.next.convs);
    }
  }

  lemma ForgetKeepsCount(st: Store, id: Id, removed: bool, c: Conv)
    requires CountOk(st, c) && c.meta.id != id
    ensures CountOk(Forget(st, id, removed), c)
  {
    DropKeepsCount(st, Forget(st, id, removed), {id}, c);
  }

  lemma EndKeepsCounts(s: Session, wait: Wait, env: DeleteEnv)
    requires WaitOk(s, wait) && CountsOk(s.store, s.state.convs) && CountsOk(s.store, wait.next.convs)
    ensures CountsIn(Ended(s, wait, env))
  {
    hide CountOk, Written, Tracked, NewIds, Discard, Forget, Mirrors, UniqueIds, UniqueLoaded, Overtaken;
    if env.cleanup.Fails? {
      WriteKeepsCounts(s.store, s.state, env.restore, s.state.convs);
      AddedAreNew(s.state, wait.next);
      DiscardKeepsCounts(Written(s.store, s.state, env.restore).store, s.state.convs, NewIds(s.state, wait.next),
          env.discarded);
    } else {
      forall x | x in wait.next.convs ensures CountOk(Forget(s.store, wait.id, env.removeOk), x) {
        ForgetKeepsCount(s.store, wait.id, env.removeOk, x);
      }
    }
  }

  lemma OperateKeepsCounts(s: Session, e: Event)
    requires Sound(s) && Operation(e) && WithNewId(s, e) && CountsOk(s.store, s.state.convs)
    ensures CountsOk(Operate(s, e).store, Operate(s, e).state.convs)
  {
    hide Sound, CountsOk, Select, Create, Fresh, Inv;
    match e
    case FlushTimer(k) => FlushKeepsCounts(s, k);
    case MessagesSet(list, title, now) => SetMessagesKeepsCounts(s, list, title, now);
    case Selected(id, k1, k2) =>
      SelectKeeps(s, id, k1, k2);
      SelectKeepsCounts(s, id, k1, k2);
    case Created(serverId, freshId, now, k1, k2) =>
      CreateKeeps(s, serverId, freshId, now, k1, k2);
      CreateKeepsCounts(s, serverId, freshId, now, k1, k2);
    case ServerSelected(serverId, freshId, now, k1, k2) =>
      if OnServer(s.state.convs, serverId) != [] {
        var id := Newest(Metas(OnServer(s.state.convs, serverId))).id;
        SelectKeeps(s, id, k1, k2);
        SelectKeepsCounts(s, id, k1, k2);
      } else {
        CreateKeeps(s, serverId, freshId, now, k1, k2);
        CreateKeepsCounts(s, serverId, freshId, now, k1, k2);
      }
  }

  lemma OperationKeepsCounts(w: World, e: Event)
    requires WorldOk(w) && Operation(e) && Allowed(w, e) && CountsIn(w)
    ensures CountsIn(Step(w, e))
  {
    hide Sound, Operate, CountsOk, Flush, WaitOk, WithNewId;
    WorldSound(w);
    OperateKeepsCounts(w.session, e);
    if w.wait.Some? {
      FlushOperates(w.session, e.k);
      FlushInWaitCounts(w.session, w.wait.value, e.k);
    }
  }

  lemma StepKeepsCounts(w: World, e: Event)
    requires WorldOk(w) && Allowed(w, e) && CountsIn(w)
    ensures CountsIn(Step(w, e))
  {
    hide WorldOk, CountsOk, Requested, Ended, Load, Fresh, Operate;
    match e
    case DeleteRequested(id, env) =>
      RequestKeepsOk(w, id, env);
      RequestKeepsCounts(w, id, env);
      var next := Requested(w, id, env);
      if next.wait.Some? {
        WaitsOk(next);
        EndKeepsCounts(next.session, next.wait.value, env);
      }
    case CleanupEnded(env) =>
      WaitsOk(w);
      EndKeepsCounts(w.session, w.wait.value, env);
    case Restarted(freshId, now) =>
      RecoveredUnique(w);
      LoadKeepsCounts(w.session.store.disk, freshId, now);
    case _ => OperationKeepsCounts(w, e);
  }

  // ---------- runs ----------

  lemma {:induction false} RunKeepsSaved(w: World, es: seq<Event>)
    requires WorldOk(w) && RunAllowed(w, es) && CountsIn(w)
    ensures WorldOk(Run(w, es)) && CountsIn(Run(w, es))
    ensures Indexed(w.session.store.disk) ==> Indexed(Run(w, es).session.store.disk)
    decreases |es|
  {
    hide WorldOk, CountsIn, Indexed, Step, Allowed;
    if es != [] {
      StepKeepsOk(w, es[0]);
      StepKeepsCounts(w, es[0]);
      if Indexed(w.session.store.disk) {
        StepIndexes(w, es[0]);
      }
      RunKeepsSaved(Step(w, es[0]), es[1..]);
    }
  }

  /** A reload gives back the session: its conversations with the bodies the user sees, and counts
      that are those in memory or those of the stored messages. */
  predicate ReloadsAll(st: Store, v: ChatState, freshId: Id, now: int) {
    && Reloads(st, v, freshId, now)
    && forall i :: 0 <= i < |v.convs| ==>
         Load(st.disk, freshId, now).state.convs[i].count in {v.convs[i].count, CountDisk(Visible(st, v.convs[i]))}
  }

  lemma CleanCount(s: Session, freshId: Id, now: int, i: nat)
    requires Inv(s) && CountsOk(s.store, s.state.convs) && !s.dirty && Indexed(s.store.disk) && i < |s.state.convs|
    requires i < |Load(s.store.disk, freshId, now).state.convs|
    ensures var c := s.state.convs[i];
            Load(s.store.disk, freshId, now).state.convs[i].count in {c.count, CountDisk(Visible(s.store, c))}
  {
    var d, c := s.store.disk, s.state.convs[i];
    assert |Recovered(d)| == |s.state.convs| && Recovered(d)[i].meta == c.meta && c.meta.id !in s.store.changed;
    LookupAt(Recovered(d), i);
    LoadedCountAt(d, freshId, now, i);
    CommittedIs(s.store, c);
    VisibleIsCurrent(s.store, c);
    hide Recovered, Load, LoadedCount, CountDisk, Tracked, Mirrors, Current, Visible;
    assert CountOk(s.store, c);
  }

  lemma CleanReloadsAll(s: Session, freshId: Id, now: int)
    requires Inv(s) && CountsOk(s.store, s.state.convs) && !s.dirty && Indexed(s.store.disk)
    ensures ReloadsAll(s.store, s.state, freshId, now)
  {
    CleanMeansSaved(s, freshId, now);
    var d := s.store.disk;
    forall i | 0 <= i < |s.state.convs|
      ensures Load(d, freshId, now).state.convs[i].count
          in {s.state.convs[i].count, CountDisk(Visible(s.store, s.state.convs[i]))}
    {
      CleanCount(s, freshId, now, i);
    }
  }

  /** Outside the wait of a deletion, when nothing is dirty, a reload gives back the session exactly
      if no flush overtook a deletion since memory changed last. */
  predicate SavedExactly(w: World, freshId: Id, now: int) {
    var s := w.session;
    w.wait.None? && !s.dirty ==> (ReloadsAll(s.store, s.state, freshId, now) <==> w.stale.None?)
  }

  lemma WorldSaved(w: World, freshId: Id, now: int)
    requires WorldOk(w) && CountsIn(w) && Indexed(w.session.store.disk)
    ensures SavedExactly(w, freshId, now)
  {
    hide Inv, CountsOk, Indexed, Reloads, Stale, WaitOk;
    if w.wait.None? && !w.session.dirty {
      if w.stale.Some? {
        StaleIsNotSaved(w.session, w.stale.value, freshId, now);
      } else {
        CleanReloadsAll(w.session, freshId, now);
      }
    }
  }

  // After the first successful write, and over every run that follows with failed writes, flushes in
  // the wait of deletions, crashes and reloads: whenever nothing is dirty, a reload gives back the
  // session, unless a flush overtook the last deletion.
  lemma SavedAfterFirstWrite(w: World, k: nat, es: seq<Event>, freshId: Id, now: int)
    requires WorldOk(w) && CountsIn(w) && w.session.dirty && !Flush(w.session, k).dirty
    requires RunAllowed(Step(w, FlushTimer(k)), es)
    ensures var later := Run(Step(w, FlushTimer(k)), es);
            Indexed(later.session.store.disk) && SavedExactly(later, freshId, now)
  {
    hide WorldOk, CountsIn, Indexed, Flush, SavedExactly;
    var first := Step(w, FlushTimer(k));
    WorldSound(w);
    StepKeepsOk(w, FlushTimer(k));
    StepKeepsCounts(w, FlushTimer(k));
    FlushIndexes(w.session, k);
    RunKeepsSaved(first, es);
    WorldSaved(Run(first, es), freshId, now);
  }

  // The same from a start on any disk that already has an index.
  lemma SavedSinceStart(d: Disk, id: Id, time: int, es: seq<Event>, freshId: Id, now: int)
    requires UniqueLoaded(Recovered(d)) && Lookup(Recovered(d), id).None? && RunAllowed(Started(d, id, time), es)
    ensures var later := Run(Started(d, id, time), es);
            Indexed(later.session.store.disk) ==> SavedExactly(later, freshId, now)
    ensures Indexed(d) ==> Indexed(Run(Started(d, id, time), es).session.store.disk)
  {
    hide WorldOk, CountsOk, Indexed, SavedExactly, Load, Recovered, UniqueLoaded;
    StartsOk(d, id, time);
    LoadKeepsCounts(d, id, time);
    LoadDisk(d, id, time);
    RunKeepsSaved(Started(d, id, time), es);
    var later := Run(Started(d, id, time), es);
    if Indexed(later.session.store.disk) {
      WorldSaved(later, freshId, now);
    }
  }
}
