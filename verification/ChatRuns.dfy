// Every run: any sequence of operations, each with any number of successful storage writes, with
// flushes and crashes also while a deletion waits for the backend, and with reloads.
module ChatRuns {
  import opened Common
  import opened ChatModel
  import opened ChatWrite
  import opened ChatCrash
  import opened ChatSession
  import opened ChatDelete
  import opened ChatWait

  // ---------- reload ----------

  lemma {:induction false} PendingIds(ls: seq<Loaded>)
    ensures forall id :: id in Pending(ls) ==> exists l :: l in ls && l.meta.id == id && l.embedded.Some?
  {
    if ls != [] {
      PendingIds(ls[..|ls| - 1]);
    }
  }

  // The loaded conversations: those of the list, and a fresh local one behind them if it is needed.
  lemma LoadedList(d: Disk, freshId: Id, now: int)
    ensures var ls, cs := Recovered(d), LoadState(d, freshId, now).convs;
            && |ls| <= |cs| <= |ls| + 1
            && (forall i :: 0 <= i < |ls| ==> cs[i].meta.id == ls[i].meta.id && cs[i].messages == Deferred)
            && (|cs| > |ls| ==> cs[|ls|] == NewConv(freshId, "local", now) && !Indexed(d))
            && (Indexed(d) ==> forall i :: 0 <= i < |ls| ==> cs[i].meta == ls[i].meta)
  {
    hide Recovered, ActiveOf, OnServer, LoadedCount;
  }

  lemma ActiveListed(active: Id, ls: seq<Loaded>)
    requires ls != []
    ensures exists i :: 0 <= i < |ls| && ls[i].meta.id == ActiveOf(active, ls)
  {
    var ms := LoadedMetas(ls);
    if Lookup(ls, active).None? {
      var i :| 0 <= i < |ms| && ms[i] == Newest(ms);
    }
  }

  lemma LoadedActive(d: Disk, freshId: Id, now: int)
    ensures var v := LoadState(d, freshId, now);
            v.convs != [] && Has(v.convs, v.active) &&
            (Indexed(d) ==> v.active == ActiveOf(d.index.active, Recovered(d)))
  {
    hide LoadedCount, LegacyEntries, ParseEntries;
    var ls, v := Recovered(d), LoadState(d, freshId, now);
    if Indexed(d) {
      ActiveListed(d.index.active, ls);
      var i :| 0 <= i < |ls| && ls[i].meta.id == v.active;
      assert v.convs[i] in v.convs && v.convs[i].meta.id == v.active;
    } else {
      var local := OnServer(LoadedConvs(d, now), "local");
      if local != [] {
        assert local[0] in local && local[0] in v.convs;
      } else {
        assert v.convs[|ls|] in v.convs;
      }
    }
  }

  lemma LoadStateOk(d: Disk, freshId: Id, now: int)
    requires UniqueLoaded(Recovered(d)) && Lookup(Recovered(d), freshId).None?
    ensures StateOk(LoadState(d, freshId, now))
    ensures Indexed(d) ==> Mirrors(d, LoadState(d, freshId, now))
    ensures var ls, cs := Recovered(d), LoadState(d, freshId, now).convs;
            |ls| <= |cs| && forall i :: 0 <= i < |ls| ==> cs[i].meta.id == ls[i].meta.id
  {
    var ls, v := Recovered(d), LoadState(d, freshId, now);
    LoadedList(d, freshId, now);
    LoadedActive(d, freshId, now);
    hide LoadState, Recovered, ActiveOf;
    assert forall i, j :: 0 <= i < j < |ls| ==> v.convs[i].meta.id != v.convs[j].meta.id;
    assert forall i :: 0 <= i < |ls| ==> v.convs[i].meta.id != freshId;
  }

  lemma LoadTracked(d: Disk, freshId: Id, now: int, i: nat)
    requires UniqueLoaded(Recovered(d)) && Lookup(Recovered(d), freshId).None?
    requires i < |LoadState(d, freshId, now).convs|
    ensures var s := Load(d, freshId, now);
            && Tracked(s.store, s.state.convs[i])
            && (Committed(d, s.state.convs[i].meta.id).Some? ==>
                  Visible(s.store, s.state.convs[i]) == Committed(d, s.state.convs[i].meta.id).value)
  {
    var s, ls := Load(d, freshId, now), Recovered(d);
    LoadedList(d, freshId, now);
    hide Recovered, Pending, StoredIds, LoadState, BodyAt;
    if i < |ls| {
      LookupAt(ls, i);
      PendingAt(ls, i);
    } else {
      PendingMember(ls, freshId);
    }
  }

  // A reload starts a valid session in which every listed conversation shows its committed body.
  lemma LoadOk(d: Disk, freshId: Id, now: int)
    requires UniqueLoaded(Recovered(d)) && Lookup(Recovered(d), freshId).None?
    ensures Inv(Load(d, freshId, now))
    ensures forall c :: c in Load(d, freshId, now).state.convs && Committed(d, c.meta.id).Some? ==>
              Visible(Load(d, freshId, now).store, c) == Committed(d, c.meta.id).value
    ensures forall id :: Committed(d, id).Some? ==> Has(Load(d, freshId, now).state.convs, id)
  {
    var s, ls := Load(d, freshId, now), Recovered(d);
    var cs := s.state.convs;
    hide Mirrors, Recovered, Tracked, Visible, LoadState, UniqueLoaded;
    LoadStateOk(d, freshId, now);
    forall i | 0 <= i < |cs|
      ensures Tracked(s.store, cs[i])
      ensures Committed(d, cs[i].meta.id).Some? ==> Visible(s.store, cs[i]) == Committed(d, cs[i].meta.id).value
    {
      LoadTracked(d, freshId, now, i);
    }
    PendingIds(ls);
    forall id | Lookup(ls, id).Some? ensures Has(cs, id) {
      var i :| 0 <= i < |ls| && ls[i] == Lookup(ls, id).value;
      assert cs[i] in cs && cs[i].meta.id == id;
    }
    forall id | id in s.store.pending ensures Has(cs, id) {
      var l :| l in ls && l.meta.id == id;
      assert Lookup(ls, id).Some?;
    }
  }

  // ---------- events ----------

  /** The hook, the deletion that waits if one does, and a deleted conversation that the disk still
      lists though nothing is marked to be saved. */
  datatype World = World(session: Session, wait: Option<Wait>, stale: Option<Id>)

  datatype Event =
    | FlushTimer(k: nat)
    | MessagesSet(list: seq<UiMsg>, title: string, now: int)
    | Selected(id: Id, k1: nat, k2: nat)
    | Created(serverId: string, freshId: Id, now: int, k1: nat, k2: nat)
    | ServerSelected(serverId: string, freshId: Id, now: int, k1: nat, k2: nat)
    | DeleteRequested(id: Id, env: DeleteEnv)
    | CleanupEnded(env: DeleteEnv)
    | Restarted(freshId: Id, now: int)

  predicate Operation(e: Event) {
    e.FlushTimer? || e.MessagesSet? || e.Selected? || e.Created? || e.ServerSelected?
  }

  function Operate(s: Session, e: Event): Session
    requires Operation(e)
  {
    match e
    case FlushTimer(k) => Flush(s, k)
    case MessagesSet(list, title, now) => SetMessages(s, list, title, now)
    case Selected(id, k1, k2) => Select(s, id, k1, k2)
    case Created(serverId, freshId, now, k1, k2) => Create(s, serverId, freshId, now, k1, k2)
    case ServerSelected(serverId, freshId, now, k1, k2) => SelectServer(s, serverId, freshId, now, k1, k2)
  }

  /** What the disk lists too much stays so until memory changes. */
  function Moved(w: World, s: Session): World {
    World(s, w.wait, if s.state == w.session.state && !s.dirty then w.stale else None)
  }

  function Requested(w: World, id: Id, env: DeleteEnv): World {
    var (s, how) := BeginDelete(w.session, id, env);
    if how.Waits? then World(s, Some(Wait(id, how.next, s.dirty)), None) else Moved(w, s)
  }

  function Ended(s: Session, wait: Wait, env: DeleteEnv): World {
    var (s', result) := EndDelete(s, wait.id, wait.next, env);
    World(s', None, if result.Deleted? && Overtaken(s, wait) then Some(wait.id) else None)
  }

  /** A deletion without a cleanup ends at once. */
  function Step(w: World, e: Event): World {
    match e
    case DeleteRequested(id, env) =>
      var next := Requested(w, id, env);
      if env.cleanup.Skipped? && next.wait.Some? then Ended(next.session, next.wait.value, env) else next
    case CleanupEnded(env) => if w.wait.Some? then Ended(w.session, w.wait.value, env) else w
    case Restarted(freshId, now) => World(Load(w.session.store.disk, freshId, now), None, None)
    case _ => Moved(w, Operate(w.session, e))
  }

  /** A new id is one that neither memory nor storage knows. */
  predicate WithNewId(s: Session, e: Event) {
    match e
    case Created(_, freshId, _, _, _) => Fresh(s, freshId)
    case ServerSelected(_, freshId, _, _, _) => Fresh(s, freshId)
    case DeleteRequested(_, env) => Fresh(s, env.freshId)
    case Restarted(freshId, _) => Lookup(Recovered(s.store.disk), freshId).None?
    case _ => true
  }

  /** While a deletion waits there can be flushes, a crash and the end of its cleanup. */
  predicate Allowed(w: World, e: Event) {
    && WithNewId(w.session, e)
    && match e
       case FlushTimer(_) => true
       case Restarted(_, _) => true
       case CleanupEnded(env) => w.wait.Some? && !env.cleanup.Skipped?
       case _ => w.wait.None?
  }

  function Run(w: World, es: seq<Event>): World
    decreases |es|
  {
    if es == [] then w else Run(Step(w, es[0]), es[1..])
  }

  predicate RunAllowed(w: World, es: seq<Event>)
    decreases |es|
  {
    es == [] || (Allowed(w, es[0]) && RunAllowed(Step(w, es[0]), es[1..]))
  }

  // ---------- a deletion as events ----------

  lemma {:induction false} RunLast(w: World, es: seq<Event>, e: Event)
    ensures Run(w, es + [e]) == Step(Run(w, es), e)
    ensures RunAllowed(w, es + [e]) <==> RunAllowed(w, es) && Allowed(Run(w, es), e)
    decreases |es|
  {
    hide Step, Allowed;
    if es == [] {
      assert [e][1..] == [];
    } else {
      assert (es + [e])[1..] == es[1..] + [e];
      RunLast(Step(w, es[0]), es[1..], e);
    }
  }

  function Flushes(ks: seq<nat>): seq<Event> {
    if ks == [] then [] else Flushes(ks[..|ks| - 1]) + [FlushTimer(ks[|ks| - 1])]
  }

  lemma {:induction false} FlushesWait(w: World, es: seq<Event>, ks: seq<nat>)
    requires RunAllowed(w, es) && Run(w, es).wait.Some?
    ensures RunAllowed(w, es + Flushes(ks))
    ensures var mid, last := Run(w, es), Run(w, es + Flushes(ks));
            last.session == FlushAll(mid.session, ks) && last.wait == mid.wait
  {
    if ks == [] {
      assert es + [] == es;
    } else {
      var n := |ks| - 1;
      FlushesWait(w, es, ks[..n]);
      hide Run, RunAllowed;
      RunLast(w, es + Flushes(ks[..n]), FlushTimer(ks[n]));
      assert es + Flushes(ks) == es + Flushes(ks[..n]) + [FlushTimer(ks[n])];
    }
  }

  /** The deletion waits for a cleanup in the backend. */
  predicate HasToWait(s: Session, id: Id, env: DeleteEnv) {
    !env.cleanup.Skipped? && BeginDelete(s, id, env).1.Waits?
  }

  // A whole deletion is its request and, if it waits, the flushes meanwhile and the end of the cleanup.
  lemma DeletionInRun(w: World, id: Id, env: DeleteEnv, ks: seq<nat>)
    requires w.wait.None? && Fresh(w.session, env.freshId)
    ensures var rest := if HasToWait(w.session, id, env) then Flushes(ks) + [CleanupEnded(env)] else [];
            var es := [DeleteRequested(id, env)] + rest;
            && RunAllowed(w, es)
            && Run(w, es).session == Delete(w.session, id, env, ks).0 && Run(w, es).wait.None?
  {
    hide BeginDelete, EndDelete, Fresh;
    var request := [DeleteRequested(id, env)];
    RunLast(w, [], request[0]);
    assert [] + request == request && request + [] == request;
    assert Run(w, []) == w && RunAllowed(w, []);
    hide Run, RunAllowed;
    if HasToWait(w.session, id, env) {
      FlushesWait(w, request, ks);
      RunLast(w, request + Flushes(ks), CleanupEnded(env));
      assert request + (Flushes(ks) + [CleanupEnded(env)]) == request + Flushes(ks) + [CleanupEnded(env)];
      var mid := Run(w, request + Flushes(ks));
      assert mid.session == FlushAll(BeginDelete(w.session, id, env).0, ks);
      assert Step(mid, CleanupEnded(env)) == Ended(mid.session, mid.wait.value, env);
      assert mid.wait.value.id == id && mid.wait.value.next == BeginDelete(w.session, id, env).1.next;
    } else {
      assert Run(w, request).session == Delete(w.session, id, env, ks).0;
    }
  }

  // ---------- what every run keeps ----------

  /** The list is non-empty, ids are distinct, the active conversation is present and the bookkeeping
      agrees with the disk. A clean indexed session is saved, except where an overtaken deletion left a
      conversation listed; while a deletion waits, the disk holds one of the two states. */
  predicate WorldOk(w: World) {
    match w.wait
    case Some(wait) => w.stale.None? && WaitOk(w.session, wait)
    case None => if w.stale.Some? then Stale(w.session, w.stale.value) else Inv(w.session)
  }

  lemma WorldSound(w: World)
    requires WorldOk(w)
    ensures Sound(w.session)
  {
    hide StateOk, StoreOk, NextOk, AllSaved, Mirrors, CleanOk;
  }

  // An operation that does anything makes the session one whose changes are saved or marked.
  lemma OperateKeeps(s: Session, e: Event)
    requires Sound(s) && Operation(e) && WithNewId(s, e)
    ensures var s' := Operate(s, e);
            s' == s || (Inv(s') && (s.dirty || s'.dirty || s'.state != s.state))
  {
    hide Sound, Inv, Written, Fresh;
    match e
    case FlushTimer(k) => FlushKeeps(s, k);
    case MessagesSet(list, title, now) => SetMessagesKeeps(s, list, title, now);
    case Selected(id, k1, k2) => SelectKeeps(s, id, k1, k2);
    case Created(serverId, freshId, now, k1, k2) => CreateKeeps(s, serverId, freshId, now, k1, k2);
    case ServerSelected(serverId, freshId, now, k1, k2) =>
      if OnServer(s.state.convs, serverId) != [] {
        SelectKeeps(s, Newest(Metas(OnServer(s.state.convs, serverId))).id, k1, k2);
      } else {
        CreateKeeps(s, serverId, freshId, now, k1, k2);
      }
  }

  lemma FlushOperates(s: Session, k: nat)
    ensures Operate(s, FlushTimer(k)) == Flush(s, k)
  {
    hide Flush;
  }

  lemma StaleIsClean(s: Session, id: Id)
    requires Stale(s, id)
    ensures !s.dirty
  {
    hide Sound, Indexed, Committed;
  }

  lemma OperationKeepsOk(w: World, e: Event)
    requires WorldOk(w) && Operation(e) && Allowed(w, e)
    ensures WorldOk(Step(w, e))
  {
    hide Operate, WithNewId, WaitOk, Sound, Inv, Stale;
    if w.wait.Some? {
      FlushInWait(w.session, w.wait.value, e.k);
      assert Operate(w.session, e) == Flush(w.session, e.k) by { FlushOperates(w.session, e.k); }
    } else {
      WorldSound(w);
      OperateKeeps(w.session, e);
      if w.stale.Some? {
        assert !w.session.dirty by { StaleIsClean(w.session, w.stale.value); }
      }
    }
  }

  // A deletion that stops before its wait leaves what the disk lists as it is.
  lemma StaleStays(s: Session, c: Conv, env: DeleteEnv, id: Id)
    requires Stale(s, id) && c in s.state.convs && Fresh(s, env.freshId)
    requires !BeginDelete(s, c.meta.id, env).1.Waits?
    ensures Stale(BeginDelete(s, c.meta.id, env).0, id)
  {
    hide SaveWithout, Sound, Inv, Visible, StateWithout, WaitOk, Fresh, Recovered;
    var s' := SaveWithout(s, c.meta.id, env).0;
    SaveWaits(s, c, env);
    OldIndexCommits(s.store.disk, s'.store.disk, id);
    assert Recovered(s.store.disk) == Recovered(s'.store.disk) && Indexed(s'.store.disk) by {
      MirrorKept(s.store.disk, s'.store.disk, s.state);
    }
  }

  lemma BeginMissing(s: Session, id: Id, env: DeleteEnv)
    requires !Has(s.state.convs, id)
    ensures BeginDelete(s, id, env) == (s, NotThere)
  {
  }

  lemma RequestKeepsOk(w: World, id: Id, env: DeleteEnv)
    requires WorldOk(w) && w.wait.None? && Fresh(w.session, env.freshId)
    ensures WorldOk(Requested(w, id, env))
  {
    hide BeginDelete, WaitOk, Sound, Inv, Stale, Fresh, Visible, StateWithout;
    WorldSound(w);
    if c :| c in w.session.state.convs && c.meta.id == id {
      BeginWaits(w.session, c, env);
      if w.stale.Some? && !BeginDelete(w.session, id, env).1.Waits? {
        StaleStays(w.session, c, env, w.stale.value);
        StaleIsClean(BeginDelete(w.session, id, env).0, w.stale.value);
      }
    } else {
      BeginMissing(w.session, id, env);
      if w.stale.Some? {
        StaleIsClean(w.session, w.stale.value);
      }
    }
  }

  lemma EndKeepsOk(s: Session, wait: Wait, env: DeleteEnv)
    requires WaitOk(s, wait)
    ensures WorldOk(Ended(s, wait, env))
  {
    hide EndDelete, WaitOk, Sound, Inv, Stale, Visible, Overtaken;
    EndKeeps(s, wait, env);
  }

  lemma RecoveredUnique(w: World)
    requires WorldOk(w)
    ensures UniqueLoaded(Recovered(w.session.store.disk))
  {
    WorldSound(w);
  }

  lemma StepKeepsOk(w: World, e: Event)
    requires WorldOk(w) && Allowed(w, e)
    ensures WorldOk(Step(w, e))
  {
    hide Sound, Inv, WaitOk, Stale, Requested, Ended, Fresh, Load;
    match e
    case DeleteRequested(id, env) =>
      RequestKeepsOk(w, id, env);
      var next := Requested(w, id, env);
      if next.wait.Some? {
        EndKeepsOk(next.session, next.wait.value, env);
      }
    case CleanupEnded(env) => EndKeepsOk(w.session, w.wait.value, env);
    case Restarted(freshId, now) =>
      RecoveredUnique(w);
      LoadOk(w.session.store.disk, freshId, now);
    case _ => OperationKeepsOk(w, e);
  }

  // So in every reachable state, also during the wait of a deletion.
  lemma {:induction false} RunKeepsInv(w: World, es: seq<Event>)
    requires WorldOk(w) && RunAllowed(w, es)
    ensures WorldOk(Run(w, es))
    decreases |es|
  {
    hide WorldOk, Step, Allowed;
    if es != [] {
      StepKeepsOk(w, es[0]);
      RunKeepsInv(Step(w, es[0]), es[1..]);
    }
  }

  /** The hook after the load of a disk. */
  function Started(d: Disk, freshId: Id, now: int): World { World(Load(d, freshId, now), None, None) }

  lemma StartsOk(d: Disk, freshId: Id, now: int)
    requires UniqueLoaded(Recovered(d)) && Lookup(Recovered(d), freshId).None?
    ensures WorldOk(Started(d, freshId, now))
  {
    hide Load, Inv, Visible, Recovered;
    LoadOk(d, freshId, now);
  }

  // Outside a wait, the session is in order exactly if no overtaken deletion left its mark.
  lemma OrderedExactly(w: World)
    requires WorldOk(w) && w.wait.None?
    ensures Inv(w.session) <==> w.stale.None?
  {
    hide Inv, Stale, Reloads;
    if w.stale.Some? {
      StaleIsNotSaved(w.session, w.stale.value, "", 0);
    }
  }

  // ---------- nothing is lost ----------

  /** The conversation is listed on disk, and both its committed and its visible body are in `bodies`. */
  ghost predicate Safe(st: Store, c: Conv, bodies: iset<Body>) {
    && Visible(st, c) in bodies
    && Committed(st.disk, c.meta.id).Some?
    && Committed(st.disk, c.meta.id).value in bodies
  }

  /** The deletion of the conversation waits, and the disk is without it. */
  predicate LeftOut(w: World, id: Id) {
    w.wait.Some? && w.wait.value.id == id && !Overtaken(w.session, w.wait.value)
  }

  ghost predicate SafeIn(w: World, id: Id, bodies: iset<Body>) {
    exists c :: c in w.session.state.convs && c.meta.id == id &&
      if LeftOut(w, id) then Visible(w.session.store, c) in bodies else Safe(w.session.store, c, bodies)
  }

  lemma WriteKeepsSafe(st: Store, v: ChatState, k: nat, c: Conv, bodies: iset<Body>)
    requires Writable(v) && c in v.convs && Tracked(st, c) && Safe(st, c, bodies)
    ensures Safe(Written(st, v, k).store, c, bodies)
  {
    WriteIsAtomic(st, v, k, c);
    VisibleIsCurrent(st, c);
    WriteKeepsVisible(st, v, k, c);
  }

  lemma FlushKeepsSafe(s: Session, k: nat, c: Conv, bodies: iset<Body>)
    requires Sound(s) && c in s.state.convs && Safe(s.store, c, bodies)
    ensures Safe(Flush(s, k).store, c, bodies)
  {
    if s.dirty {
      WriteKeepsSafe(s.store, s.state, k, c, bodies);
    }
  }

  lemma SelectKeepsSafe(s: Session, id: Id, k1: nat, k2: nat, c: Conv, bodies: iset<Body>)
    requires Sound(s) && c in s.state.convs && Safe(s.store, c, bodies)
    ensures c in Select(s, id, k1, k2).state.convs && Safe(Select(s, id, k1, k2).store, c, bodies)
  {
    if id != s.state.active && Has(s.state.convs, id) {
      FlushKeeps(s, k1);
      FlushKeepsSafe(s, k1, c, bodies);
      FlushKeepsSafe(Update(Flush(s, k1), s.state.(active := id)), k2, c, bodies);
    }
  }

  lemma CreateKeepsSafe(s: Session, serverId: string, freshId: Id, now: int, k1: nat, k2: nat, c: Conv,
      bodies: iset<Body>)
    requires Sound(s) && Fresh(s, freshId) && c in s.state.convs && Safe(s.store, c, bodies)
    ensures var s' := Create(s, serverId, freshId, now, k1, k2); c in s'.state.convs && Safe(s'.store, c, bodies)
  {
    FlushKeeps(s, k1);
    FreshAfterFlush(s, freshId, k1);
    FlushKeepsSafe(s, k1, c, bodies);
    AddKeeps(Flush(s, k1), serverId, freshId, now);
    FlushKeepsSafe(Update(Flush(s, k1), ChatState(freshId, [NewConv(freshId, serverId, now)] + s.state.convs)),
                   k2, c, bodies);
  }

  lemma SetMessagesKeepsSafe(s: Session, list: seq<UiMsg>, title: string, now: int, c: Conv, bodies: iset<Body>)
    returns (c': Conv)
    requires Sound(s) && c in s.state.convs && Safe(s.store, c, bodies)
    requires s.state.active == c.meta.id ==> DiskForm(list) in bodies
    ensures var s' := SetMessages(s, list, title, now);
            c' in s'.state.convs && c'.meta.id == c.meta.id && Safe(s'.store, c', bodies)
  {
    var s' := SetMessages(s, list, title, now);
    var i :| 0 <= i < |s.state.convs| && s.state.convs[i] == c;
    c' := s'.state.convs[i];
  }

  lemma OperateKeepsSafe(s: Session, e: Event, c: Conv, bodies: iset<Body>) returns (c': Conv)
    requires Sound(s) && Operation(e) && WithNewId(s, e) && c in s.state.convs && Safe(s.store, c, bodies)
    requires e.MessagesSet? && s.state.active == c.meta.id ==> DiskForm(e.list) in bodies
    ensures var s' := Operate(s, e);
            c' in s'.state.convs && c'.meta.id == c.meta.id && Safe(s'.store, c', bodies)
  {
    hide Safe, Sound, Fresh, Create, Select, SetMessages, Written;
    c' := c;
    match e
    case FlushTimer(k) => FlushKeepsSafe(s, k, c, bodies);
    case MessagesSet(list, title, now) => c' := SetMessagesKeepsSafe(s, list, title, now, c, bodies);
    case Selected(sel, k1, k2) => SelectKeepsSafe(s, sel, k1, k2, c, bodies);
    case Created(serverId, freshId, now, k1, k2) => CreateKeepsSafe(s, serverId, freshId, now, k1, k2, c, bodies);
    case ServerSelected(serverId, freshId, now, k1, k2) =>
      if OnServer(s.state.convs, serverId) != [] {
        SelectKeepsSafe(s, Newest(Metas(OnServer(s.state.convs, serverId))).id, k1, k2, c, bodies);
      } else {
        CreateKeepsSafe(s, serverId, freshId, now, k1, k2, c, bodies);
      }
  }

  // ---------- and not during a deletion ----------

  lemma SaveKeepsSafe(s: Session, c: Conv, env: DeleteEnv, x: Conv, bodies: iset<Body>)
    requires c in s.state.convs && x in s.state.convs && Ready(s, c.meta.id, env.freshId) && Safe(s.store, x, bodies)
    ensures var (s', how) := SaveWithout(s, c.meta.id, env);
            (x != c || !how.Waits? ==> Safe(s'.store, x, bodies)) && Visible(s'.store, x) in bodies
  {
    hide Written, StateWithout, Tracked, Mirrors, Committed, BodyAt, NewIds;
    StateWithoutOk(s.state, c, env.freshId, env.now);
    var next, w := Save(s, c, env.freshId, env.now, env.save);
    if x != c {
      WriteKeepsSafe(s.store, next, env.save, x, bodies);
    } else if !w.ok {
      WriteOmits(s.store, next, env.save, c.meta.id);
      OldIndexCommits(s.store.disk, w.store.disk, c.meta.id);
    }
    if !w.ok {
      AddedAreNew(s.state, next);
      DiscardKeeps(w.store, s.state.convs, NewIds(s.state, next), env.discarded);
    }
  }

  lemma BeginKeepsSafe(s: Session, c: Conv, env: DeleteEnv, x: Conv, bodies: iset<Body>)
    requires Sound(s) && c in s.state.convs && Fresh(s, env.freshId)
    requires x in s.state.convs && Safe(s.store, x, bodies)
    ensures var (s', how) := BeginDelete(s, c.meta.id, env);
            && s'.state == s.state
            && if x == c && how.Waits? then Visible(s'.store, x) in bodies else Safe(s'.store, x, bodies)
  {
    hide SaveWithout, Safe, Written, Visible, StateWithout, WaitOk;
    BeginWaits(s, c, env);
    var s1 := Prepare(s, c.meta.id, env);
    FlushKeeps(s, env.flush);
    FlushKeepsSafe(s, env.flush, x, bodies);
    var f := Flush(s, env.flush);
    if f.store.pending != map[] {
      WriteKeepsSafe(f.store, s.state, env.migrate, x, bodies);
    }
    if Migrated(s, env).ok {
      SaveKeepsSafe(s1, c, env, x, bodies);
    }
  }

  lemma RestoredSafe(st: Store, prev: ChatState, added: set<Id>, env: DeleteEnv, x: Conv, bodies: iset<Body>)
    requires StateOk(prev) && StoreOk(st, prev.convs) && st.pending == map[]
    requires forall id :: id in added ==> !Has(prev.convs, id)
    requires x in prev.convs && Visible(st, x) in bodies
    requires Written(st, prev, env.restore).ok || Safe(st, x, bodies)
    ensures var w := Written(st, prev, env.restore);
            Safe(if w.ok then Discard(w.store, added, env.discarded) else w.store, x, bodies)
  {
    var w := Written(st, prev, env.restore);
    RestoreKeeps(st, prev, env.restore, added, env.discarded);
    if w.ok {
      var st' := Discard(w.store, added, env.discarded);
      VisibleIsCurrent(st', x);
      ListedByMirror(st'.disk, prev, x);
    } else {
      WriteKeepsSafe(st, prev, env.restore, x, bodies);
    }
  }

  // Once a flush has overtaken the deletion, the disk has the conversation again.
  lemma OvertakenSafe(s: Session, wait: Wait, c: Conv, bodies: iset<Body>)
    requires WaitOk(s, wait) && Overtaken(s, wait) && c in s.state.convs && Visible(s.store, c) in bodies
    ensures Safe(s.store, c, bodies)
  {
    hide Mirrors, NextOk;
    ListedByMirror(s.store.disk, s.state, c);
    VisibleIsCurrent(s.store, c);
  }

  /** The end of a deletion leaves its conversation on disk. */
  predicate KeptOnDisk(s: Session, wait: Wait, env: DeleteEnv) {
    var result := EndDelete(s, wait.id, wait.next, env).1;
    result.CleanupFailed? && (result.restored || Overtaken(s, wait))
  }

  lemma EndKeepsSafe(s: Session, wait: Wait, env: DeleteEnv, x: Conv, bodies: iset<Body>)
    requires WaitOk(s, wait) && x in s.state.convs
    requires if x.meta.id == wait.id then Visible(s.store, x) in bodies && KeptOnDisk(s, wait, env)
             else Safe(s.store, x, bodies)
    ensures var s' := EndDelete(s, wait.id, wait.next, env).0; x in s'.state.convs && Safe(s'.store, x, bodies)
  {
    hide Written, Tracked, Mirrors, NewIds, Visible, Recovered, Committed, AllSaved;
    if env.cleanup.Fails? {
      AddedAreNew(s.state, wait.next);
      if x.meta.id == wait.id && Overtaken(s, wait) {
        OvertakenSafe(s, wait, x, bodies);
      }
      RestoredSafe(s.store, s.state, NewIds(s.state, wait.next), env, x, bodies);
    } else {
      var c :| c in s.state.convs && c.meta.id == wait.id;
      OthersDiffer(s.state.convs, c);
      ForgetKeeps(s.store, s.state.convs, wait.next, c, env.removeOk);
    }
  }

  // ---------- over a run ----------

  /** The bodies that the user gives a conversation during a run. */
  ghost function Given(w: World, es: seq<Event>, id: Id): iset<Body>
    decreases |es|
  {
    if es == [] then iset{}
    else
      (if es[0].MessagesSet? && w.session.state.active == id then iset{DiskForm(es[0].list)} else iset{}) +
      Given(Step(w, es[0]), es[1..], id)
  }

  /** The event does not take the conversation off the disk: its deletion ends with it there, and the
      hook does not crash while it is left out. */
  predicate Spares(w: World, e: Event, id: Id) {
    match e
    case DeleteRequested(x, env) => x == id && env.cleanup.Skipped? ==> Requested(w, id, env).wait.None?
    case CleanupEnded(env) =>
      w.wait.Some? && w.wait.value.id == id ==> KeptOnDisk(w.session, w.wait.value, env)
    case Restarted(_, _) => !LeftOut(w, id)
    case _ => true
  }

  predicate NotDeleted(w: World, es: seq<Event>, id: Id)
    decreases |es|
  {
    es == [] || (Spares(w, es[0], id) && NotDeleted(Step(w, es[0]), es[1..], id))
  }

  lemma OperationKeepsSafe(w: World, e: Event, id: Id, bodies: iset<Body>)
    requires WorldOk(w) && Operation(e) && Allowed(w, e) && SafeIn(w, id, bodies)
    requires e.MessagesSet? && w.session.state.active == id ==> DiskForm(e.list) in bodies
    ensures SafeIn(Step(w, e), id, bodies)
  {
    hide Safe, Sound, Operate, Visible, Flush, WaitOk, Overtaken, WithNewId;
    WorldSound(w);
    var c :| c in w.session.state.convs && c.meta.id == id &&
      if LeftOut(w, id) then Visible(w.session.store, c) in bodies else Safe(w.session.store, c, bodies);
    if LeftOut(w, id) {
      var wait := w.wait.value;
      FlushOperates(w.session, e.k);
      FlushInWait(w.session, wait, e.k);
      FlushVisible(w.session, wait, e.k);
      if Overtaken(Flush(w.session, e.k), wait) {
        OvertakenSafe(Flush(w.session, e.k), wait, c, bodies);
      }
    } else {
      var c' := OperateKeepsSafe(w.session, e, c, bodies);
      if w.wait.Some? {
        FlushOperates(w.session, e.k);
        FlushInWait(w.session, w.wait.value, e.k);
      }
    }
  }

  lemma RequestKeepsSafe(w: World, id: Id, env: DeleteEnv, kept: Id, bodies: iset<Body>)
    requires WorldOk(w) && w.wait.None? && Fresh(w.session, env.freshId) && SafeIn(w, kept, bodies)
    ensures SafeIn(Requested(w, id, env), kept, bodies)
  {
    hide Safe, Sound, BeginDelete, Visible, Fresh, Inv, Stale, WaitOk;
    WorldSound(w);
    var x :| x in w.session.state.convs && x.meta.id == kept && Safe(w.session.store, x, bodies);
    if found :| found in w.session.state.convs && found.meta.id == id {
      var c := if kept == id then x else found;
      BeginKeepsSafe(w.session, c, env, x, bodies);
    } else {
      BeginMissing(w.session, id, env);
    }
  }

  lemma EndedKeepsSafe(w: World, env: DeleteEnv, id: Id, bodies: iset<Body>)
    requires WorldOk(w) && w.wait.Some? && SafeIn(w, id, bodies)
    requires w.wait.value.id == id ==> KeptOnDisk(w.session, w.wait.value, env)
    ensures SafeIn(Ended(w.session, w.wait.value, env), id, bodies)
  {
    hide WaitOk, Visible, EndDelete, KeptOnDisk, Overtaken, Committed;
    var x :| x in w.session.state.convs && x.meta.id == id &&
      if LeftOut(w, id) then Visible(w.session.store, x) in bodies else Safe(w.session.store, x, bodies);
    EndKeepsSafe(w.session, w.wait.value, env, x, bodies);
  }

  lemma LoadKeepsSafe(d: Disk, freshId: Id, now: int, id: Id, bodies: iset<Body>)
    requires UniqueLoaded(Recovered(d)) && Lookup(Recovered(d), freshId).None?
    requires Committed(d, id).Some? && Committed(d, id).value in bodies
    ensures SafeIn(Started(d, freshId, now), id, bodies)
  {
    hide LoadState, Visible, Recovered, Inv, Committed;
    LoadOk(d, freshId, now);
    var r := Load(d, freshId, now);
    var x :| x in r.state.convs && x.meta.id == id;
    assert Safe(r.store, x, bodies);
  }

  lemma RequestWaitsFor(w: World, id: Id, env: DeleteEnv)
    requires w.wait.None? && Requested(w, id, env).wait.Some?
    ensures Requested(w, id, env).wait.value.id == id
  {
    hide BeginDelete;
  }

  lemma OnDisk(w: World, id: Id, bodies: iset<Body>)
    requires SafeIn(w, id, bodies) && !LeftOut(w, id)
    ensures var d := w.session.store.disk; Committed(d, id).Some? && Committed(d, id).value in bodies
  {
    hide Committed, Visible;
  }

  lemma StepKeepsSafe(w: World, e: Event, id: Id, bodies: iset<Body>)
    requires WorldOk(w) && Allowed(w, e) && SafeIn(w, id, bodies) && Spares(w, e, id)
    requires e.MessagesSet? && w.session.state.active == id ==> DiskForm(e.list) in bodies
    ensures SafeIn(Step(w, e), id, bodies)
  {
    hide SafeIn, WorldOk, Requested, Ended, KeptOnDisk, Fresh, Load;
    match e
    case DeleteRequested(x, env) =>
      RequestKeepsOk(w, x, env);
      RequestKeepsSafe(w, x, env, id, bodies);
      var next := Requested(w, x, env);
      if env.cleanup.Skipped? && next.wait.Some? {
        RequestWaitsFor(w, x, env);
        EndedKeepsSafe(next, env, id, bodies);
      }
    case CleanupEnded(env) => EndedKeepsSafe(w, env, id, bodies);
    case Restarted(freshId, now) =>
      RecoveredUnique(w);
      OnDisk(w, id, bodies);
      LoadKeepsSafe(w.session.store.disk, freshId, now, id, bodies);
    case _ => OperationKeepsSafe(w, e, id, bodies);
  }

  lemma {:induction false} RunKeepsSafe(w: World, es: seq<Event>, id: Id, bodies: iset<Body>)
    requires WorldOk(w) && RunAllowed(w, es) && NotDeleted(w, es, id) && SafeIn(w, id, bodies)
    requires Given(w, es, id) <= bodies
    ensures SafeIn(Run(w, es), id, bodies)
    decreases |es|
  {
    hide WorldOk, Step, Allowed, SafeIn, Spares, DiskForm;
    if es != [] {
      StepKeepsOk(w, es[0]);
      StepKeepsSafe(w, es[0], id, bodies);
      RunKeepsSafe(Step(w, es[0]), es[1..], id, bodies);
    }
  }

  // Over every run of operations, failed and retried writes, flushes in the wait of deletions, crashes
  // and reloads, a conversation that is on disk and not deleted stays on disk (or in memory, while its
  // deletion waits), with the body it had there, the body the user saw at the start, or a body the user
  // gave it during the run: never an empty or missing one.
  lemma NothingIsLost(w: World, es: seq<Event>, c: Conv)
    requires WorldOk(w) && RunAllowed(w, es) && NotDeleted(w, es, c.meta.id)
    requires c in w.session.state.convs && Committed(w.session.store.disk, c.meta.id).Some?
    ensures var (id, end) := (c.meta.id, Run(w, es).session);
            var bodies := iset{Committed(w.session.store.disk, id).value, Visible(w.session.store, c)}
                + Given(w, es, id);
            && (LeftOut(Run(w, es), id)
                || (Committed(end.store.disk, id).Some? && Committed(end.store.disk, id).value in bodies))
            && exists c' :: c' in end.state.convs && c'.meta.id == id && Visible(end.store, c') in bodies
  {
    hide Visible, Committed, Run, RunAllowed, NotDeleted, WorldOk, Given;
    var bodies := iset{Committed(w.session.store.disk, c.meta.id).value, Visible(w.session.store, c)}
        + Given(w, es, c.meta.id);
    assert Safe(w.session.store, c, bodies);
    RunKeepsSafe(w, es, c.meta.id, bodies);
  }

  // The same over a run in which the body is never changed: what the user sees and what the disk
  // holds both stay the body of the start.
  lemma UnchangedBodyIsStable(w: World, es: seq<Event>, c: Conv)
    requires WorldOk(w) && RunAllowed(w, es) && NotDeleted(w, es, c.meta.id)
    requires c in w.session.state.convs
    requires Committed(w.session.store.disk, c.meta.id) == Some(Visible(w.session.store, c))
    requires Given(w, es, c.meta.id) == iset{}
    ensures var (id, end, body) := (c.meta.id, Run(w, es).session, Visible(w.session.store, c));
            && (LeftOut(Run(w, es), id) || Committed(end.store.disk, id) == Some(body))
            && exists c' :: c' in end.state.convs && c'.meta.id == id && Visible(end.store, c') == body
  {
    hide Visible, Committed, Run, RunAllowed, NotDeleted, WorldOk, Given;
    var bodies := iset{Visible(w.session.store, c)};
    assert Safe(w.session.store, c, bodies);
    RunKeepsSafe(w, es, c.meta.id, bodies);
  }
}
