// The two-phase deletion: the index without the conversation is written first, the backend cleans
// up, and only then is the conversation forgotten.
module ChatDelete {
  import opened Common
  import opened ChatModel
  import opened ChatWrite
  import opened ChatCrash
  import opened ChatSession

  // ---------- the next state ----------

  lemma {:induction false} RemoveUnique(cs: seq<Conv>, id: Id)
    requires UniqueIds(cs)
    ensures UniqueIds(Remove(cs, id))
  {
    if cs != [] {
      var front := cs[..|cs| - 1];
      RemoveUnique(front, id);
      forall c | c in Remove(front, id) ensures c.meta.id != cs[|cs| - 1].meta.id {
        var i :| 0 <= i < |front| && front[i] == c;
      }
    }
  }

  lemma {:induction false} RemoveKeeps(cs: seq<Conv>, id: Id)
    requires UniqueIds(cs)
    ensures UniqueIds(Remove(cs, id))
    ensures forall x :: Has(Remove(cs, id), x) <==> Has(cs, x) && x != id
  {
    RemoveUnique(cs, id);
  }

  lemma {:induction false} ServerOfAt(cs: seq<Conv>, c: Conv)
    requires UniqueIds(cs) && c in cs && Has(cs, c.meta.id)
    ensures ServerOf(cs, c.meta.id) == c.meta.serverId
  {
    if cs[0].meta.id != c.meta.id {
      ServerOfAt(cs[1..], c);
    }
  }

  lemma OthersRemain(cs: seq<Conv>, c: Conv)
    requires UniqueIds(cs) && c in cs
    ensures forall x :: x in Remove(cs, c.meta.id) <==> x in cs && x != c
  {
    var i :| 0 <= i < |cs| && cs[i] == c;
    forall x | x in cs && x != c ensures x.meta.id != c.meta.id {
      var j :| 0 <= j < |cs| && cs[j] == x;
    }
  }

  // When the active conversation is deleted, the new active one is on the same server: the first of
  // the most recently updated of that server, or a new one when none is left.
  lemma ActiveMoves(v: ChatState, c: Conv, freshId: Id, now: int) returns (i: nat)
    requires StateOk(v) && c in v.convs && c.meta.id == v.active
    ensures var next := StateWithout(v, c.meta.id, freshId, now);
            NewestOn(next.convs, c.meta.serverId, i) && next.convs[i].meta.id == next.active
    ensures OnServer(Remove(v.convs, c.meta.id), c.meta.serverId) == [] ==>
              StateWithout(v, c.meta.id, freshId, now).convs[i] == NewConv(freshId, c.meta.serverId, now)
  {
    var rest := Remove(v.convs, c.meta.id);
    ServerOfAt(v.convs, c);
    if OnServer(rest, c.meta.serverId) != [] {
      i := NewestOfServer(rest, c.meta.serverId);
    } else {
      i := 0;
      var a := NewConv(freshId, c.meta.serverId, now);
      assert StateWithout(v, c.meta.id, freshId, now).convs == [a] + rest;
      forall x | x in rest ensures x.meta.serverId != c.meta.serverId {
        assert x !in OnServer(rest, c.meta.serverId);
      }
    }
  }

  // Deleting leaves a valid state without the conversation, every other conversation as it was,
  // and a new conversation only where the active one was the last of its server.
  lemma StateWithoutOk(v: ChatState, c: Conv, freshId: Id, now: int)
    requires StateOk(v) && c in v.convs && !Has(v.convs, freshId)
    ensures var next := StateWithout(v, c.meta.id, freshId, now);
            && StateOk(next)
            && !Has(next.convs, c.meta.id)
            && (forall x :: x in v.convs && x != c ==> x in next.convs)
            && (forall x :: x in next.convs ==> x in v.convs || x == NewConv(freshId, c.meta.serverId, now))
            && NewIds(v, next) <= {freshId}
  {
    var id := c.meta.id;
    var rest, next := Remove(v.convs, id), StateWithout(v, id, freshId, now);
    RemoveKeeps(v.convs, id);
    OthersRemain(v.convs, c);
    ServerOfAt(v.convs, c);
    if id != v.active || OnServer(rest, c.meta.serverId) != [] {
      assert next.convs == rest;
      if id == v.active {
        var i := ActiveMoves(v, c, freshId, now);
      }
    } else {
      var n := NewConv(freshId, c.meta.serverId, now);
      assert next.convs == [n] + rest;
      assert forall x :: x in next.convs <==> x == n || x in rest;
    }
  }

  // ---------- the phases ----------

  /** The session when the shortened index is about to be written. */
  predicate Ready(s: Session, id: Id, freshId: Id) {
    Sound(s) && Has(s.state.convs, id) && s.store.pending == map[] && Fresh(s, freshId)
  }

  lemma Prepare(s: Session, id: Id, env: DeleteEnv) returns (s1: Session)
    requires Sound(s) && Has(s.state.convs, id) && Fresh(s, env.freshId)
    ensures s1 == Flush(s, env.flush).(store := Migrated(s, env).store) && Sound(s1) && s1.state == s.state
    ensures s.dirty || Inv(s) ==> Inv(s1)
    ensures Migrated(s, env).ok ==> Ready(s1, id, env.freshId)
    ensures forall c :: c in s.state.convs ==> Visible(s1.store, c) == Visible(s.store, c)
  {
    hide Tracked, Mirrors, Written;
    var f := Flush(s, env.flush);
    FlushKeeps(s, env.flush);
    FreshAfterFlush(s, env.freshId, env.flush);
    s1 := f.(store := Migrated(s, env).store);
    if f.store.pending != map[] {
      WriteBooks(f.store, s.state, env.migrate);
      MirrorKept(f.store.disk, s1.store.disk.(index := f.store.disk.index), s.state);
      WriteKeepsStore(f.store, s.state, env.migrate, s.state.convs);
      RecoveredAfterWrite(f.store, s.state, env.migrate);
      FreshAfterWrite(f.store, s.state, env.migrate, env.freshId);
      if Migrated(s, env).ok {
        WriteEmptiesPlan(f.store, s.state, env.migrate);
      }
      forall c | c in s.state.convs ensures Visible(s1.store, c) == Visible(s.store, c) {
        WriteKeepsVisible(f.store, s.state, env.migrate, c);
      }
    }
  }

  // What the shortened write leaves: the bookkeeping of both states, and no key removed.
  lemma Save(s: Session, c: Conv, freshId: Id, now: int, k: nat) returns (next: ChatState, w: Outcome)
    requires c in s.state.convs && Ready(s, c.meta.id, freshId)
    ensures next == StateWithout(s.state, c.meta.id, freshId, now) && w == Written(s.store, next, k)
    ensures StateOk(next) && !Has(next.convs, c.meta.id)
    ensures StoreOk(w.store, s.state.convs) && w.store.pending == map[]
    ensures forall x :: x in next.convs ==> Tracked(w.store, x)
    ensures forall x :: x in s.state.convs ==> Visible(w.store, x) == Visible(s.store, x)
    ensures w.ok ==> Mirrors(w.store.disk, next)
    ensures !w.ok ==> w.store.disk.index == s.store.disk.index && w.store.changed == s.store.changed
    ensures w.store.disk.legacy == s.store.disk.legacy
    ensures w.ok ==> forall x :: x in next.convs ==> x.meta.id in w.store.stored && x.meta.id !in w.store.changed
    ensures NewIds(s.state, next) <= {freshId}
  {
    hide Tracked, Mirrors, Written, StateWithout;
    StateWithoutOk(s.state, c, freshId, now);
    next := StateWithout(s.state, c.meta.id, freshId, now);
    w := Written(s.store, next, k);
    WriteBooks(s.store, next, k);
    WriteKeepsStore(s.store, next, k, s.state.convs);
    RecoveredAfterWrite(s.store, next, k);
    forall x | x in next.convs ensures Tracked(w.store, x) {
      WriteKeepsTracked(s.store, next, k, x);
    }
    forall x | x in s.state.convs ensures Visible(w.store, x) == Visible(s.store, x) {
      WriteKeepsVisible(s.store, next, k, x);
    }
    if w.ok {
      WriteClears(s.store, next, k);
    }
  }

  // Undoing or forgetting a conversation's key does not touch the others.
  lemma DropKeeps(st: Store, st': Store, ids: set<Id>, c: Conv)
    requires Tracked(st, c) && c.meta.id !in ids
    requires st'.disk.index == st.disk.index && st'.disk.legacy == st.disk.legacy
    requires c.meta.id in st'.disk.bodies <==> c.meta.id in st.disk.bodies
    requires c.meta.id in st.disk.bodies ==> st'.disk.bodies[c.meta.id] == st.disk.bodies[c.meta.id]
    requires st'.stored == st.stored - ids
    requires st'.pending == st.pending == map[]
    requires st'.changed == st.changed || st'.changed == st.changed - ids
    ensures Tracked(st', c) && Visible(st', c) == Visible(st, c)
    ensures Committed(st'.disk, c.meta.id) == Committed(st.disk, c.meta.id)
  {
    assert BodyAt(st'.disk, c.meta.id) == BodyAt(st.disk, c.meta.id);
  }

  lemma DiscardKeeps(st: Store, cs: seq<Conv>, ids: set<Id>, gone: set<Id>)
    requires StoreOk(st, cs) && st.pending == map[]
    requires forall id :: id in ids ==> !Has(cs, id)
    ensures var st' := Discard(st, ids, gone);
            && StoreOk(st', cs)
            && Recovered(st'.disk) == Recovered(st.disk)
            && st'.disk.index == st.disk.index && st'.disk.legacy == st.disk.legacy
            && st'.changed == st.changed
            && forall c :: c in cs ==>
                 Visible(st', c) == Visible(st, c) && Committed(st'.disk, c.meta.id) == Committed(st.disk, c.meta.id)
  {
    var st' := Discard(st, ids, gone);
    forall c | c in cs
      ensures Tracked(st', c) && Visible(st', c) == Visible(st, c)
      ensures Committed(st'.disk, c.meta.id) == Committed(st.disk, c.meta.id)
    {
      DropKeeps(st, st', ids, c);
    }
  }

  lemma RestoreKeeps(st: Store, prev: ChatState, k: nat, added: set<Id>, gone: set<Id>)
    requires StateOk(prev) && StoreOk(st, prev.convs) && st.pending == map[]
    requires forall id :: id in added ==> !Has(prev.convs, id)
    ensures var w := Written(st, prev, k);
            && StoreOk(w.store, prev.convs)
            && (forall x :: x in prev.convs ==> Visible(w.store, x) == Visible(st, x))
            && (w.ok ==>
                  var st' := Discard(w.store, added, gone);
                  && StoreOk(st', prev.convs) && Mirrors(st'.disk, prev) && st'.changed == {}
                  && forall x :: x in prev.convs ==> Visible(st', x) == Visible(st, x))
  {
    var w := Written(st, prev, k);
    WriteKeepsStore(st, prev, k, prev.convs);
    RecoveredAfterWrite(st, prev, k);
    forall x | x in prev.convs ensures Visible(w.store, x) == Visible(st, x) {
      WriteKeepsVisible(st, prev, k, x);
    }
    if w.ok {
      WriteEmptiesPlan(st, prev, k);
      DiscardKeeps(w.store, prev.convs, added, gone);
    }
  }

  // Forgetting the conversation keeps the bookkeeping of the others.
  lemma ForgetKeeps(st: Store, prev: seq<Conv>, next: ChatState, c: Conv, removed: bool)
    requires StoreOk(st, prev) && st.pending == map[] && !Has(next.convs, c.meta.id)
    requires forall x :: x in next.convs ==> Tracked(st, x) && x.meta.id !in st.changed
    requires forall x :: x in prev && x != c ==> x in next.convs
    ensures var st' := Forget(st, c.meta.id, removed);
            && StoreOk(st', next.convs) && st'.changed == {} && st'.pending == map[]
            && Recovered(st'.disk) == Recovered(st.disk)
            && forall x :: x in next.convs ==>
                 && Visible(st', x) == Visible(st, x)
                 && Committed(st'.disk, x.meta.id) == Committed(st.disk, x.meta.id)
  {
    var st' := Forget(st, c.meta.id, removed);
    forall x | x in next.convs
      ensures Tracked(st', x) && Visible(st', x) == Visible(st, x)
      ensures Committed(st'.disk, x.meta.id) == Committed(st.disk, x.meta.id)
    {
      DropKeeps(st, st', {c.meta.id}, x);
    }
    assert Recovered(st'.disk) == Recovered(st.disk);
    assert forall y :: y in st'.changed ==> Has(prev, y);
  }
}
