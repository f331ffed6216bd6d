// The wait of a deletion for the backend. A flush can run in it, by a page event, and write the state
// with the conversation again; the end of the deletion does not know.
module ChatWait {
  import opened Common
  import opened ChatModel
  import opened ChatWrite
  import opened ChatCrash
  import opened ChatSession
  import opened ChatDelete

  /** A deletion that waits: the conversation, the state to come, and whether there was something to
      save when the wait began. */
  datatype Wait = Wait(id: Id, next: ChatState, dirty: bool)

  /** A flush has succeeded since the wait began, so the disk lists the conversation again. */
  predicate Overtaken(s: Session, wait: Wait) { wait.dirty && !s.dirty }

  /** The state to come, beside the one in memory. */
  predicate NextOk(st: Store, v: ChatState, wait: Wait) {
    && Has(v.convs, wait.id)
    && StateOk(wait.next) && !Has(wait.next.convs, wait.id)
    && (forall x :: x in v.convs && x.meta.id != wait.id ==> x in wait.next.convs)
    && (forall x :: x in wait.next.convs ==>
          Tracked(st, x) && x.meta.id !in st.changed && (x in v.convs || !Has(v.convs, x.meta.id)))
  }

  /** The disk holds exactly this state, with every body under its own key. */
  predicate AllSaved(st: Store, v: ChatState) {
    Mirrors(st.disk, v) && st.changed == {} && forall l :: l in Recovered(st.disk) ==> l.embedded == None
  }

  /** While a deletion waits, the disk holds the state to come, unless a flush has overtaken it. */
  predicate WaitOk(s: Session, wait: Wait) {
    && Sound(s) && s.store.pending == map[] && NextOk(s.store, s.state, wait)
    && (s.dirty ==> wait.dirty)
    && if Overtaken(s, wait) then AllSaved(s.store, s.state) else Mirrors(s.store.disk, wait.next)
  }

  // ---------- the beginning ----------

  lemma Beside(v: ChatState, c: Conv, next: ChatState, freshId: Id, now: int)
    requires StateOk(v) && c in v.convs && !Has(v.convs, freshId) && next == StateWithout(v, c.meta.id, freshId, now)
    ensures forall x :: x in v.convs && x.meta.id != c.meta.id ==> x in next.convs
    ensures forall x :: x in next.convs ==> x in v.convs || !Has(v.convs, x.meta.id)
  {
    StateWithoutOk(v, c, freshId, now);
  }

  lemma AddedAreNew(v: ChatState, next: ChatState)
    ensures forall id :: id in NewIds(v, next) ==> !Has(v.convs, id)
  {
  }

  lemma SaveWaits(s: Session, c: Conv, env: DeleteEnv)
    requires c in s.state.convs && Ready(s, c.meta.id, env.freshId)
    ensures var (s', how) := SaveWithout(s, c.meta.id, env);
            && s'.state == s.state && (how.Waits? || how.NotSaved?)
            && (forall x :: x in s.state.convs ==> Visible(s'.store, x) == Visible(s.store, x))
            && if how.Waits? then
                 && how.next == StateWithout(s.state, c.meta.id, env.freshId, env.now)
                 && WaitOk(s', Wait(c.meta.id, how.next, s'.dirty))
               else
                 && Sound(s') && (s.dirty || Inv(s) ==> Inv(s'))
                 && s'.dirty == s.dirty && s'.store.disk.index == s.store.disk.index
                 && s'.store.disk.legacy == s.store.disk.legacy && s'.store.pending == map[]
  {
    hide Tracked, Mirrors, Written, StateWithout, Recovered, Visible, NewIds;
    StateWithoutOk(s.state, c, env.freshId, env.now);
    var next, w := Save(s, c, env.freshId, env.now, env.save);
    if w.ok {
      Beside(s.state, c, next, env.freshId, env.now);
    } else {
      var added := NewIds(s.state, next);
      AddedAreNew(s.state, next);
      DiscardKeeps(w.store, s.state.convs, added, env.discarded);
      MirrorKept(s.store.disk, Discard(w.store, added, env.discarded).disk, s.state);
    }
  }

  // A deletion that does not get to its wait changes nothing that counts; one that does waits with
  // the shortened index on disk.
  lemma BeginWaits(s: Session, c: Conv, env: DeleteEnv)
    requires Sound(s) && c in s.state.convs && Fresh(s, env.freshId)
    ensures var (s', how) := BeginDelete(s, c.meta.id, env);
            && s'.state == s.state && !how.NotThere?
            && (forall x :: x in s.state.convs ==> Visible(s'.store, x) == Visible(s.store, x))
            && if how.Waits? then
                 && how.next == StateWithout(s.state, c.meta.id, env.freshId, env.now)
                 && WaitOk(s', Wait(c.meta.id, how.next, s'.dirty))
               else Sound(s') && (s.dirty || Inv(s) ==> Inv(s'))
  {
    hide SaveWithout, Migrated, Sound, Inv, Fresh, WaitOk, Visible, Written, StateWithout;
    var s1 := Prepare(s, c.meta.id, env);
    if Migrated(s, env).ok {
      SaveWaits(s1, c, env);
    }
  }

  // ---------- the wait ----------

  lemma SavesAll(st: Store, v: ChatState, k: nat)
    requires StateOk(v) && StoreOk(st, v.convs) && Written(st, v, k).ok
    ensures AllSaved(Written(st, v, k).store, v)
  {
    RecoveredAfterWrite(st, v, k);
    WriteEmptiesPlan(st, v, k);
    WrittenList(st, v, k);
    hide Written, Recovered, Mirrors;
  }

  lemma FlushInWait(s: Session, wait: Wait, k: nat)
    requires WaitOk(s, wait)
    ensures WaitOk(Flush(s, k), wait)
    ensures Overtaken(Flush(s, k), wait) <==> Overtaken(s, wait) || (s.dirty && !Flush(s, k).dirty)
  {
    hide Tracked, Mirrors, Written, Recovered;
    if s.dirty {
      var w := Written(s.store, s.state, k);
      FlushKeeps(s, k);
      WriteBooks(s.store, s.state, k);
      forall x | x in wait.next.convs ensures Tracked(w.store, x) && x.meta.id !in w.store.changed {
        if x !in s.state.convs {
          WriteKeepsOthers(s.store, s.state, k, x);
        }
      }
      if w.ok {
        SavesAll(s.store, s.state, k);
      } else {
        MirrorKept(s.store.disk, w.store.disk, wait.next);
      }
    }
  }

  lemma FlushVisible(s: Session, wait: Wait, k: nat)
    requires WaitOk(s, wait)
    ensures Flush(s, k).state == s.state
    ensures forall x :: x in s.state.convs ==> Visible(Flush(s, k).store, x) == Visible(s.store, x)
  {
    FlushKeeps(s, k);
  }

  lemma {:induction false} FlushesInWait(s: Session, wait: Wait, ks: seq<nat>)
    requires WaitOk(s, wait)
    ensures WaitOk(FlushAll(s, ks), wait) && FlushAll(s, ks).state == s.state
    ensures forall x :: x in s.state.convs ==> Visible(FlushAll(s, ks).store, x) == Visible(s.store, x)
    decreases |ks|
  {
    hide WaitOk, Flush, Visible;
    if ks != [] {
      var front := ks[..|ks| - 1];
      FlushesInWait(s, wait, front);
      FlushInWait(FlushAll(s, front), wait, ks[|ks| - 1]);
      FlushVisible(FlushAll(s, front), wait, ks[|ks| - 1]);
    }
  }

  // A crash during the wait reloads to the state to come, or to the one in memory once a flush has
  // overtaken the deletion.
  lemma WaitReloads(s: Session, wait: Wait, freshId: Id, now: int)
    requires WaitOk(s, wait)
    ensures Reloads(s.store, if Overtaken(s, wait) then s.state else wait.next, freshId, now)
  {
    hide Tracked, Mirrors, Recovered, Reloads;
    MirrorReloads(s.store, if Overtaken(s, wait) then s.state else wait.next, freshId, now);
  }

  // ---------- the end ----------

  /** A clean session whose disk lists a conversation that memory has not. */
  predicate Stale(s: Session, id: Id) {
    && Sound(s) && !s.dirty && s.store.pending == map[]
    && Indexed(s.store.disk) && Committed(s.store.disk, id).Some? && !Has(s.state.convs, id)
  }

  lemma StaleIsNotSaved(s: Session, id: Id, freshId: Id, now: int)
    requires Stale(s, id)
    ensures !Inv(s) && !Reloads(s.store, s.state, freshId, now)
  {
    var ls, v := Recovered(s.store.disk), s.state;
    var i :| 0 <= i < |ls| && ls[i] == Lookup(ls, id).value;
    assert forall j :: 0 <= j < |v.convs| ==> v.convs[j] in v.convs;
  }

  /** What every end of a deletion keeps: memory unless the deletion goes through, the visible messages
      of every conversation that stays, and exactly then the invariant, if no flush overtook it. */
  predicate EndOk(s: Session, wait: Wait, s': Session, result: DeleteResult) {
    && Sound(s')
    && s'.state == (if result.Deleted? then wait.next else s.state)
    && (forall x :: x in s.state.convs && (x.meta.id != wait.id || !result.Deleted?) ==>
          x in s'.state.convs && Visible(s'.store, x) == Visible(s.store, x))
    && if result.Deleted? && Overtaken(s, wait) then Stale(s', wait.id) else Inv(s')
  }

  lemma RestoreInWait(s: Session, wait: Wait, env: DeleteEnv)
    requires WaitOk(s, wait) && env.cleanup.Fails?
    ensures var (s', result) := EndDelete(s, wait.id, wait.next, env);
            && EndOk(s, wait, s', result) && !result.Deleted?
            && (result == CleanupFailed(true) ==> Mirrors(s'.store.disk, s.state) && s'.store.changed == {})
  {
    hide Tracked, Mirrors, Written, Recovered, Visible, NewIds;
    AddedAreNew(s.state, wait.next);
    RestoreKeeps(s.store, s.state, env.restore, NewIds(s.state, wait.next), env.discarded);
  }

  lemma OthersDiffer(cs: seq<Conv>, c: Conv)
    requires UniqueIds(cs) && c in cs
    ensures forall x :: x in cs && x != c ==> x.meta.id != c.meta.id
  {
    OthersRemain(cs, c);
  }

  lemma MirrorIndexed(d: Disk, v: ChatState)
    requires Mirrors(d, v)
    ensures Indexed(d)
  {
  }

  lemma ListedByMirror(d: Disk, v: ChatState, c: Conv)
    requires Mirrors(d, v) && c in v.convs
    ensures Committed(d, c.meta.id).Some?
  {
    var i :| 0 <= i < |v.convs| && v.convs[i] == c;
    assert Recovered(d)[i].meta.id == c.meta.id;
  }

  lemma ForgetInWait(s: Session, wait: Wait, removed: bool)
    requires WaitOk(s, wait)
    ensures EndOk(s, wait, Session(Forget(s.store, wait.id, removed), wait.next, false), Deleted)
  {
    hide Tracked, Recovered, Visible, Mirrors;
    var c :| c in s.state.convs && c.meta.id == wait.id;
    OthersDiffer(s.state.convs, c);
    ForgetKeeps(s.store, s.state.convs, wait.next, c, removed);
    var st' := Forget(s.store, wait.id, removed);
    MirrorKept(s.store.disk, st'.disk, wait.next);
    MirrorKept(s.store.disk, st'.disk, s.state);
    if Overtaken(s, wait) {
      assert Indexed(st'.disk) by { MirrorIndexed(st'.disk, s.state); }
      ListedByMirror(st'.disk, s.state, c);
    }
  }

  lemma EndKeeps(s: Session, wait: Wait, env: DeleteEnv)
    requires WaitOk(s, wait)
    ensures var (s', result) := EndDelete(s, wait.id, wait.next, env); EndOk(s, wait, s', result)
  {
    if env.cleanup.Fails? {
      RestoreInWait(s, wait, env);
    } else {
      ForgetInWait(s, wait, env.removeOk);
    }
  }

  // The end of a deletion keeps the invariant exactly unless the cleanup succeeded after a flush had
  // written the conversation back.
  lemma EndKeepsExactly(s: Session, wait: Wait, env: DeleteEnv)
    requires WaitOk(s, wait)
    ensures Inv(EndDelete(s, wait.id, wait.next, env).0) <==> env.cleanup.Fails? || !Overtaken(s, wait)
  {
    hide Inv, Stale, Written, Forget, Discard, NewIds, Overtaken;
    EndKeeps(s, wait, env);
    var s' := EndDelete(s, wait.id, wait.next, env).0;
    if !env.cleanup.Fails? && Overtaken(s, wait) {
      StaleIsNotSaved(s', wait.id, "", 0);
    }
  }

  // ---------- the whole of a deletion ----------

  /** The first flush of the deletion failed, a later one in the wait succeeded, and the cleanup too. */
  predicate OvertakenBy(s: Session, id: Id, env: DeleteEnv, ks: seq<nat>) {
    env.cleanup.Succeeds? && Flush(s, env.flush).dirty && !FlushAll(BeginDelete(s, id, env).0, ks).dirty
  }

  lemma BegunDirty(s: Session, id: Id, env: DeleteEnv)
    requires Has(s.state.convs, id)
    ensures BeginDelete(s, id, env).0.dirty == Flush(s, env.flush).dirty
  {
    hide Flush, StateWithout, Written, Discard, NewIds;
  }

  // A deletion that gets to its wait, cut where the backend answers.
  lemma DeleteByPhases(s: Session, c: Conv, env: DeleteEnv, ks: seq<nat>) returns (wait: Wait, before: Session)
    requires Sound(s) && c in s.state.convs && Fresh(s, env.freshId)
    requires Delete(s, c.meta.id, env, ks).1 in {CleanupFailed(true), CleanupFailed(false), Deleted}
    ensures wait.id == c.meta.id && wait.next == StateWithout(s.state, c.meta.id, env.freshId, env.now)
    ensures WaitOk(before, wait) && before.state == s.state
    ensures forall x :: x in s.state.convs ==> Visible(before.store, x) == Visible(s.store, x)
    ensures Delete(s, c.meta.id, env, ks) == EndDelete(before, wait.id, wait.next, env)
    ensures !env.cleanup.Fails? ==> (Overtaken(before, wait) <==> OvertakenBy(s, c.meta.id, env, ks))
  {
    hide WaitOk, EndDelete, StateWithout, SaveWithout, Flush, Visible, Sound, Fresh, Migrated;
    var (begun, how) := BeginDelete(s, c.meta.id, env);
    BeginWaits(s, c, env);
    BegunDirty(s, c.meta.id, env);
    wait := Wait(c.meta.id, how.next, begun.dirty);
    before := if env.cleanup.Skipped? then begun else FlushAll(begun, ks);
    FlushesInWait(begun, wait, ks);
  }

  /** What every outcome of a deletion keeps: memory unless the deletion went through, and the visible
      messages of every conversation that stays. */
  predicate DeleteOk(s: Session, c: Conv, env: DeleteEnv, s': Session, result: DeleteResult)
    requires c in s.state.convs
  {
    && Sound(s')
    && s'.state == (if result.Deleted? then StateWithout(s.state, c.meta.id, env.freshId, env.now) else s.state)
    && (forall x :: x in s.state.convs && (x.meta.id != c.meta.id || !result.Deleted?) ==>
          x in s'.state.convs && Visible(s'.store, x) == Visible(s.store, x))
  }

  lemma EndResult(s: Session, id: Id, next: ChatState, env: DeleteEnv)
    ensures EndDelete(s, id, next, env).1 in {CleanupFailed(true), CleanupFailed(false), Deleted}
    ensures EndDelete(s, id, next, env).1.Deleted? <==> !env.cleanup.Fails?
  {
  }

  // The invariant is kept exactly unless a flush overtakes the deletion.
  lemma DeleteKeeps(s: Session, c: Conv, env: DeleteEnv, ks: seq<nat>)
    requires Inv(s) && c in s.state.convs && Fresh(s, env.freshId)
    ensures var (s', result) := Delete(s, c.meta.id, env, ks);
            DeleteOk(s, c, env, s', result) && (Inv(s') <==> !result.Deleted? || !OvertakenBy(s, c.meta.id, env, ks))
  {
    hide BeginDelete, EndDelete, WaitOk, StateWithout, Visible, StoreOk, StateOk, CleanOk, Fresh, OvertakenBy, Stale,
      Overtaken;
    var (s', result) := Delete(s, c.meta.id, env, ks);
    var (begun, how) := BeginDelete(s, c.meta.id, env);
    BeginWaits(s, c, env);
    if how.Waits? {
      EndResult(if env.cleanup.Skipped? then begun else FlushAll(begun, ks), c.meta.id, how.next, env);
      var wait, before := DeleteByPhases(s, c, env, ks);
      EndKeeps(before, wait, env);
      EndKeepsExactly(before, wait, env);
    }
  }

  // ---------- the outcomes ----------

  lemma WriteKeepsKeys(st: Store, v: ChatState, k: nat, id: Id)
    requires id in st.disk.bodies
    ensures id in Written(st, v, k).store.disk.bodies
  {
  }

  lemma {:induction false} FlushesKeepKeys(s: Session, ks: seq<nat>, id: Id)
    requires id in s.store.disk.bodies
    ensures id in FlushAll(s, ks).store.disk.bodies && FlushAll(s, ks).state == s.state
    decreases |ks|
  {
    hide Written;
    if ks != [] {
      var front := FlushAll(s, ks[..|ks| - 1]);
      FlushesKeepKeys(s, ks[..|ks| - 1], id);
      WriteKeepsKeys(front.store, front.state, ks[|ks| - 1], id);
    }
  }

  lemma NotNew(v: ChatState, next: ChatState, id: Id)
    requires Has(v.convs, id)
    ensures id !in NewIds(v, next)
  {
  }

  lemma BeginKeepsKey(s: Session, id: Id, env: DeleteEnv)
    requires Has(s.state.convs, id) && id in s.store.disk.bodies
    ensures id in BeginDelete(s, id, env).0.store.disk.bodies && BeginDelete(s, id, env).0.state == s.state
  {
    hide Written, StateWithout, Has;
    var f := Flush(s, env.flush);
    WriteKeepsKeys(s.store, s.state, env.flush, id);
    WriteKeepsKeys(f.store, s.state, env.migrate, id);
    var next := StateWithout(s.state, id, env.freshId, env.now);
    WriteKeepsKeys(Migrated(s, env).store, next, env.save, id);
    NotNew(s.state, next, id);
  }

  lemma EndKeepsKey(s: Session, id: Id, next: ChatState, env: DeleteEnv)
    requires Has(s.state.convs, id) && id in s.store.disk.bodies
    ensures var (s', result) := EndDelete(s, id, next, env);
            id !in s'.store.disk.bodies ==> result.Deleted? && !env.cleanup.Fails? && env.removeOk
  {
    hide Written, Has;
    WriteKeepsKeys(s.store, s.state, env.restore, id);
    NotNew(s.state, next, id);
  }

  lemma IsThere(cs: seq<Conv>, c: Conv)
    requires c in cs
    ensures Has(cs, c.meta.id)
  {
  }

  // The body key of the conversation is removed only by a deletion that went through its cleanup.
  lemma KeyOutlivesFailure(s: Session, c: Conv, env: DeleteEnv, ks: seq<nat>)
    requires c in s.state.convs && c.meta.id in s.store.disk.bodies
    ensures var (s', result) := Delete(s, c.meta.id, env, ks);
            c.meta.id !in s'.store.disk.bodies ==> result.Deleted? && !env.cleanup.Fails? && env.removeOk
  {
    hide BeginDelete, EndDelete, Has, FlushAll;
    assert Has(s.state.convs, c.meta.id) by { IsThere(s.state.convs, c); }
    var (begun, how) := BeginDelete(s, c.meta.id, env);
    BeginKeepsKey(s, c.meta.id, env);
    FlushesKeepKeys(begun, ks, c.meta.id);
    if how.Waits? {
      EndKeepsKey(if env.cleanup.Skipped? then begun else FlushAll(begun, ks), c.meta.id, how.next, env);
    }
  }

  // A backend cleanup that fails, followed by a restoring write that succeeds, leaves a disk that
  // reloads to the state before the deletion, whatever the flushes of the wait did.
  lemma RestoredReloads(s: Session, c: Conv, env: DeleteEnv, ks: seq<nat>, freshId: Id, now: int)
    requires Sound(s) && c in s.state.convs && Fresh(s, env.freshId)
    requires Delete(s, c.meta.id, env, ks).1 == CleanupFailed(true)
    ensures var s' := Delete(s, c.meta.id, env, ks).0;
            s'.state == s.state && Reloads(s'.store, s.state, freshId, now)
  {
    hide Delete, WaitOk, Tracked, Mirrors, Written, Reloads, Visible, StateWithout, Fresh, UniqueLoaded, Recovered;
    var wait, before := DeleteByPhases(s, c, env, ks);
    RestoreInWait(before, wait, env);
    MirrorReloads(Delete(s, c.meta.id, env, ks).0.store, s.state, freshId, now);
  }

  lemma ForgottenBody(s: Session, wait: Wait, c: Conv, removed: bool)
    requires WaitOk(s, wait) && Overtaken(s, wait) && c in s.state.convs && c.meta.id == wait.id
    ensures Committed(Forget(s.store, wait.id, removed).disk, wait.id) ==
            Some(if removed then [] else Visible(s.store, c))
  {
    hide Mirrors, UniqueLoaded, UniqueIds;
    ListedByMirror(s.store.disk, s.state, c);
    VisibleIsCurrent(s.store, c);
    assert Recovered(Forget(s.store, wait.id, removed).disk) == Recovered(s.store.disk);
  }

  lemma MirrorOmits(d: Disk, v: ChatState, id: Id)
    requires Mirrors(d, v) && !Has(v.convs, id)
    ensures Committed(d, id) == None
  {
    assert forall i :: 0 <= i < |v.convs| ==> v.convs[i] in v.convs;
  }

  lemma InTime(s: Session, wait: Wait, removed: bool, freshId: Id, now: int)
    requires WaitOk(s, wait) && !Overtaken(s, wait)
    ensures var st' := Forget(s.store, wait.id, removed);
            Reloads(st', wait.next, freshId, now) && Committed(st'.disk, wait.id) == None
  {
    hide Reloads, Tracked, Committed, Recovered, Visible, Mirrors;
    var st' := Forget(s.store, wait.id, removed);
    var c :| c in s.state.convs && c.meta.id == wait.id;
    OthersDiffer(s.state.convs, c);
    ForgetKeeps(s.store, s.state.convs, wait.next, c, removed);
    MirrorKept(s.store.disk, st'.disk, wait.next);
    MirrorReloads(st', wait.next, freshId, now);
    MirrorOmits(st'.disk, wait.next, wait.id);
  }

  lemma EndReloads(s: Session, wait: Wait, c: Conv, env: DeleteEnv, freshId: Id, now: int)
    requires WaitOk(s, wait) && c in s.state.convs && c.meta.id == wait.id && !env.cleanup.Fails?
    ensures var s' := EndDelete(s, wait.id, wait.next, env).0;
            && s'.state == wait.next
            && (Reloads(s'.store, s'.state, freshId, now) <==> !Overtaken(s, wait))
            && Committed(s'.store.disk, wait.id) == (if !Overtaken(s, wait) then None
                                                    else Some(if env.removeOk then [] else Visible(s.store, c)))
  {
    hide WaitOk, Reloads, Visible, Committed, Sound, Stale, Overtaken;
    var s' := EndDelete(s, wait.id, wait.next, env).0;
    ForgetInWait(s, wait, env.removeOk);
    if Overtaken(s, wait) {
      StaleIsNotSaved(s', wait.id, freshId, now);
      ForgottenBody(s, wait, c, env.removeOk);
    } else {
      InTime(s, wait, env.removeOk, freshId, now);
    }
  }

  // A deletion that goes through leaves a disk that reloads to the state without the conversation,
  // exactly unless a flush has overtaken it: then the disk lists the conversation, without its
  // messages if its key could be removed.
  lemma DeletedReloads(s: Session, c: Conv, env: DeleteEnv, ks: seq<nat>, freshId: Id, now: int)
    requires Sound(s) && c in s.state.convs && Fresh(s, env.freshId) && Delete(s, c.meta.id, env, ks).1 == Deleted
    ensures var (s', id) := (Delete(s, c.meta.id, env, ks).0, c.meta.id);
            && s'.state == StateWithout(s.state, id, env.freshId, env.now)
            && (Reloads(s'.store, s'.state, freshId, now) <==> !OvertakenBy(s, id, env, ks))
            && Committed(s'.store.disk, id) == (if !OvertakenBy(s, id, env, ks) then None
                                               else Some(if env.removeOk then [] else Visible(s.store, c)))
  {
    hide Delete, WaitOk, EndDelete, Reloads, Visible, StateWithout, Fresh, Committed, Sound, OvertakenBy, Overtaken;
    var wait, before := DeleteByPhases(s, c, env, ks);
    EndResult(before, wait.id, wait.next, env);
    EndReloads(before, wait, c, env, freshId, now);
  }

  // ---------- progress ----------

  /** As many storage writes as a call can need. */
  function Enough(st: Store, v: ChatState): nat { 2 * |Order(st, v)| + 1 }

  lemma WriteCanFinish(st: Store, v: ChatState)
    ensures Written(st, v, Enough(st, v)).ok
  {
  }

  // Whatever the first flush does, a deletion gets to its wait while storage accepts the other writes.
  lemma BeginCanFinish(s: Session, id: Id, flush: nat, freshId: Id, now: int) returns (env: DeleteEnv)
    requires Has(s.state.convs, id)
    ensures env == DeleteEnv(flush, env.migrate, env.save, Succeeds, 0, {}, true, freshId, now)
    ensures BeginDelete(s, id, env).1.Waits?
  {
    hide Written, StateWithout, Discard, NewIds, Order;
    env := DeleteEnv(flush, 0, 0, Succeeds, 0, {}, true, freshId, now);
    var f := Flush(s, flush);
    env := env.(migrate := Enough(f.store, s.state));
    WriteCanFinish(f.store, s.state);
    var s1, next := f.(store := Migrated(s, env).store), StateWithout(f.state, id, freshId, now);
    env := env.(save := Enough(s1.store, next));
    WriteCanFinish(s1.store, next);
  }

  // From every state, while storage accepts the deletion's own writes, it goes through exactly if the
  // backend cleanup does, and is undone otherwise, whatever the flushes of the wait do.
  lemma DeletionCanFinish(s: Session, id: Id, cleanup: Cleanup, freshId: Id, now: int, ks: seq<nat>)
    returns (env: DeleteEnv)
    requires Has(s.state.convs, id)
    ensures env.cleanup == cleanup && env.freshId == freshId && env.now == now
    ensures Delete(s, id, env, ks).1 == if cleanup.Fails? then CleanupFailed(true) else Deleted
  {
    hide Written, StateWithout, Discard, Forget, Order, NewIds, FlushAll;
    env := BeginCanFinish(s, id, Enough(s.store, s.state), freshId, now);
    env := env.(cleanup := cleanup);
    var before := if cleanup.Skipped? then BeginDelete(s, id, env).0 else FlushAll(BeginDelete(s, id, env).0, ks);
    env := env.(restore := Enough(before.store, before.state));
    WriteCanFinish(before.store, before.state);
  }
}
