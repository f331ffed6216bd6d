// Runs that break two promises: one after which a write stores two conversations twice, and, from
// every state, one after which a deleted conversation comes back.
module ChatReturn {
  import opened Common
  import opened ChatModel
  import opened ChatWrite
  import opened ChatCrash
  import opened ChatDuplication
  import opened ChatSession
  import opened ChatDelete
  import opened ChatWait
  import opened ChatRuns

  function EntryMeta(id: Id): Meta { Meta(id, "local", id, "", 0, 0) }

  /** Two conversations still in the index, one already under its own key. */
  function StartDisk(): Disk {
    Disk(Index(2, "x", [Saved(EntryMeta("y"), Some(0), Elements([])),
                        Saved(EntryMeta("z"), Some(0), Elements([])),
                        Saved(EntryMeta("x"), Some(0), NotAnArray)]),
         map["x" := Elements([])], [])
  }

  function ReturnRun(): seq<Event> {
    [MessagesSet([], "", 1), FlushTimer(1), Selected("y", 0, 0)]
  }

  function StartList(): seq<Loaded> {
    [Loaded(EntryMeta("y"), Some(0), Some([])), Loaded(EntryMeta("z"), Some(0), Some([])),
     Loaded(EntryMeta("x"), Some(0), None)]
  }

  lemma StartParses()
    ensures IndexEntries(StartDisk().index) == StartList()
  {
    var es := StartDisk().index.entries;
    assert es[..2] == [es[0], es[1]] && es[..2][..1] == [es[0]] && es[..1][..0] == [];
    assert ParseEntries(2, es[..1]) == ParseEntry(2, es[0]);
    assert ParseEntries(2, es[..2]) == ParseEntry(2, es[0]) + ParseEntry(2, es[1]);
    assert ParseEntries(2, es) == ParseEntry(2, es[0]) + ParseEntry(2, es[1]) + ParseEntry(2, es[2]);
  }

  lemma StartBooks()
    ensures Pending(StartList()) == map["y" := [], "z" := []] && StoredIds(StartList()) == {"x"}
  {
    var ls := StartList();
    assert ls[..2] == [ls[0], ls[1]] && ls[..2][..1] == [ls[0]] && ls[..1][..0] == [];
    assert Pending(ls[..1]) == map["y" := []];
    assert StoredIds(ls[..1]) == StoredIds(ls[..0]) + {} == {};
    assert Pending(ls[..2]) == map["y" := [], "z" := []];
    assert StoredIds(ls[..2]) == StoredIds(ls[..1]) + {} == {};
  }

  lemma StartLoads()
    ensures var ls := Recovered(StartDisk());
            && |ls| == 3 && Indexed(StartDisk()) && UniqueLoaded(ls)
            && ls[0] == Loaded(EntryMeta("y"), Some(0), Some([]))
            && ls[1] == Loaded(EntryMeta("z"), Some(0), Some([]))
            && ls[2] == Loaded(EntryMeta("x"), Some(0), None)
            && Pending(ls) == map["y" := [], "z" := []] && StoredIds(ls) == {"x"}
            && ActiveOf("x", ls) == "x"
  {
    hide IndexEntries, Pending, StoredIds, LegacyEntries;
    StartParses();
    StartBooks();
    LookupAt(StartList(), 2);
  }

  lemma PlanOfThree(st: Store, cs: seq<Conv>)
    requires |cs| == 3 && UniqueIds(cs) && forall c :: c in cs ==> Needs(st, c)
    ensures PlanIds(st, cs) == [cs[0].meta.id, cs[1].meta.id, cs[2].meta.id]
  {
    assert cs[..2] == [cs[0], cs[1]] && cs[..2][..1] == [cs[0]] && cs[..1][..0] == [];
    assert PlanIds(st, cs[..1]) == [cs[0].meta.id];
    assert PlanIds(st, cs[..2]) == [cs[0].meta.id, cs[1].meta.id];
  }

  lemma OrderOfThree(st: Store, v: ChatState)
    requires |v.convs| == 3 && v.convs[0].meta.id == "y" && v.convs[1].meta.id == "z" && v.convs[2].meta.id == "x"
    requires forall c :: c in v.convs ==> Needs(st, c)
    requires v.active == "x" || v.active == "y"
    ensures Order(st, v) == if v.active == "x" then ["x", "y", "z"] else ["y", "z", "x"]
  {
    PlanOfThree(st, v.convs);
    hide PlanIds, Needs;
    var ids: seq<Id> := ["y", "z", "x"];
    assert ids[1..] == ["z", "x"] && ids[1..][1..] == ["x"] && ids[1..][1..][1..] == [];
    assert Without(["x"], v.active) == if v.active == "x" then [] else ["x"];
    assert Without(["z", "x"], v.active) == ["z"] + Without(["x"], v.active);
  }

  // The failed index write takes "x" out of the stored set, though its body is under its own key.
  lemma FailedIndexWrite(st: Store, v: ChatState)
    requires |v.convs| == 3 && v.convs[0].meta.id == "y" && v.convs[1].meta.id == "z" && v.convs[2].meta.id == "x"
    requires v.active == "x" && st.stored == {"x"} && st.changed == {"x"} && st.pending != map[]
    requires st.disk.bodies.Keys == {"x"}
    ensures var w := Written(st, v, 1);
            && !w.ok && w.store.stored == {} && w.store.changed == {"x"} && w.store.pending == st.pending
            && w.store.disk.index == st.disk.index && w.store.disk.bodies.Keys == {"x"}
  {
    OrderOfThree(st, v);
    hide Written, Order, PlanBodies, After;
    IndexFails(st, v, 0);
    NothingWritten(st, v);
    assert {"x"} + {"x"} - {"x"} == {};
  }

  /** The state after the run. */
  predicate Returned(s: Session) {
    && |s.state.convs| == 3 && s.state.convs[0].meta.id == "y" && s.state.convs[1].meta.id == "z"
    && s.state.convs[2].meta.id == "x" && s.state.active == "y"
    && s.store.stored == {} && s.store.pending != map[]
    && s.store.disk.index == StartDisk().index && s.store.disk.bodies.Keys == {"x"}
  }

  lemma StartSession()
    ensures var s := Load(StartDisk(), "fresh", 0);
            && |s.state.convs| == 3 && s.state.convs[0].meta.id == "y" && s.state.convs[1].meta.id == "z"
            && s.state.convs[2].meta.id == "x" && s.state.active == "x"
            && s.store.stored == {"x"} && s.store.pending != map[] && s.store.changed == {} && !s.dirty
            && s.store.disk == StartDisk()
  {
    StartLoads();
    hide Recovered, Pending, StoredIds, ActiveOf;
    assert "y" in Load(StartDisk(), "fresh", 0).store.pending;
  }

  /** After the first two events: still on "x", which the failed index write took out. */
  predicate RolledBack(s: Session) {
    s.dirty && s.state.active == "x" && Returned(s.(state := s.state.(active := "y")))
  }

  lemma FlushRollsBack(s: Session)
    requires s == SetMessages(Load(StartDisk(), "fresh", 0), [], "", 1)
    ensures RolledBack(Flush(s, 1))
  {
    hide Load;
    StartSession();
    assert s.store.changed == {"x"};
    hide Written;
    FailedIndexWrite(s.store, s.state);
  }

  lemma SelectReturns(s: Session)
    requires RolledBack(s)
    ensures Returned(Select(s, "y", 0, 0))
  {
    var s' := s.(state := s.state.(active := "y"));
    assert s.state.convs[0] in s.state.convs;
    OrderOfThree(s.store, s.state);
    OrderOfThree(s.store, s'.state);
    hide Order, Written;
    NoWriteFails(s.store, s.state);
    NoWriteFails(s.store, s'.state);
  }

  lemma RunReturnsX()
    ensures var w := Started(StartDisk(), "fresh", 0);
            RunAllowed(w, ReturnRun()) && Returned(Run(w, ReturnRun()).session)
  {
    hide Load, RolledBack, Returned, SetMessages, Select, Flush;
    var s0, es := Load(StartDisk(), "fresh", 0), ReturnRun();
    var s1 := SetMessages(s0, [], "", 1);
    FlushRollsBack(s1);
    SelectReturns(Flush(s1, 1));
    assert es[1..] == [es[1], es[2]] && es[1..][1..] == [es[2]] && es[1..][1..][1..] == [];
  }

  lemma OnlyXHasKey(d: Disk)
    requires d.index == StartDisk().index && d.bodies.Keys == {"x"}
    ensures NoDuplicate(d)
  {
    StartLoads();
    LookupAt(Recovered(StartDisk()), 2);
    assert !Embedded(d, "x");
  }

  lemma ReturnWrite(s: Session)
    requires Returned(s)
    ensures NoDuplicate(s.store.disk) && !AtMostOneDuplicate(Written(s.store, s.state, 3).store.disk)
  {
    OnlyXHasKey(s.store.disk);
    OrderOfThree(s.store, s.state);
    hide Order, AtMostOneDuplicate, Written, NoDuplicate;
    ReturningBehindNew(s.store, s.state, 2, 1);
  }

  // So a run of operations can lead to a write that, from a disk without duplicates, stores two
  // conversations twice: an index write that failed makes a body return to the index.
  lemma TwoDuplicatesReachable()
    ensures var w := Started(StartDisk(), "fresh", 0);
            var s := Run(w, ReturnRun()).session;
            && WorldOk(w) && RunAllowed(w, ReturnRun())
            && NoDuplicate(s.store.disk)
            && !AtMostOneDuplicate(Written(s.store, s.state, 3).store.disk)
  {
    StartLoads();
    StartsOk(StartDisk(), "fresh", 0);
    hide Load, WorldOk, NoDuplicate, AtMostOneDuplicate, Run, RunAllowed;
    RunReturnsX();
    ReturnWrite(Run(Started(StartDisk(), "fresh", 0), ReturnRun()).session);
  }

  // ---------- a deleted conversation comes back ----------

  /** The user writes, the deletion's first flush fails, one in its wait succeeds, and so does the cleanup. */
  function ComeBackRun(id: Id, env: DeleteEnv, k: nat): seq<Event> {
    [MessagesSet([], "", env.now), DeleteRequested(id, env), FlushTimer(k), CleanupEnded(env)]
  }

  lemma WrittenTo(w: World, id: Id, freshId: Id, now: int)
    requires WorldOk(w) && w.wait.None? && Has(w.session.state.convs, id) && Fresh(w.session, freshId)
    ensures var w1 := Step(w, MessagesSet([], "", now));
            && WorldOk(w1) && w1.wait.None? && w1.session.dirty
            && Has(w1.session.state.convs, id) && Fresh(w1.session, freshId)
  {
    hide WorldOk, Committed;
    StepKeepsOk(w, MessagesSet([], "", now));
    var s, s1 := w.session, SetMessages(w.session, [], "", now);
    var i :| 0 <= i < |s.state.convs| && s.state.convs[i].meta.id == id;
    assert s1.state.convs[i].meta.id == id;
    forall c | c in s1.state.convs ensures c.meta.id != freshId {
      var j :| 0 <= j < |s1.state.convs| && s1.state.convs[j] == c;
      assert s.state.convs[j] in s.state.convs;
    }
  }

  lemma BegunWaiting(w: World, id: Id, env: DeleteEnv)
    requires WorldOk(w) && w.wait.None? && w.session.dirty && Has(w.session.state.convs, id)
    requires Fresh(w.session, env.freshId) && env.flush == 0 && BeginDelete(w.session, id, env).1.Waits?
    ensures var next := Requested(w, id, env);
            WorldOk(next) && next.session.dirty && next.wait.Some? && next.wait.value.id == id && next.wait.value.dirty
  {
    hide WorldOk, BeginDelete, Written, Has;
    RequestKeepsOk(w, id, env);
    BegunDirty(w.session, id, env);
    NoWriteFails(w.session.store, w.session.state);
  }

  lemma Overtakes(w: World, k: nat)
    requires WorldOk(w) && w.wait.Some? && w.session.dirty && w.wait.value.dirty
    requires k == Enough(w.session.store, w.session.state)
    ensures var next := Step(w, FlushTimer(k));
            WorldOk(next) && next.wait == w.wait && Overtaken(next.session, w.wait.value)
  {
    hide WorldOk, Written, Enough;
    StepKeepsOk(w, FlushTimer(k));
    WriteCanFinish(w.session.store, w.session.state);
  }

  lemma EndsStale(w: World, id: Id, env: DeleteEnv)
    requires WorldOk(w) && w.wait.Some? && w.wait.value.id == id && Overtaken(w.session, w.wait.value)
    requires env.cleanup.Succeeds? && env.removeOk
    ensures var end := Step(w, CleanupEnded(env));
            && end.wait.None? && end.stale == Some(id) && !end.session.dirty
            && !Has(end.session.state.convs, id) && Committed(end.session.store.disk, id) == Some([])
  {
    hide Committed, Reloads, Visible, Sound, Mirrors, AllSaved, Tracked;
    var c :| c in w.session.state.convs && c.meta.id == id;
    EndReloads(w.session, w.wait.value, c, env, "", 0);
  }

  predicate Leads(ws: seq<World>, es: seq<Event>) {
    |ws| == |es| + 1 && forall i :: 0 <= i < |es| ==> Allowed(ws[i], es[i]) && Step(ws[i], es[i]) == ws[i + 1]
  }

  // A list of worlds that lead to each other is a run.
  lemma {:induction false} Chain(ws: seq<World>, es: seq<Event>, k: nat)
    requires Leads(ws, es) && k <= |es|
    ensures RunAllowed(ws[k], es[k..]) && Run(ws[k], es[k..]) == ws[|es|]
    decreases |es| - k
  {
    hide Step, Allowed;
    if k < |es| {
      Chain(ws, es, k + 1);
      assert es[k..][0] == es[k] && es[k..][1..] == es[k + 1..];
    }
  }

  // From every state in which no deletion waits, for every conversation: a run after which nothing is
  // marked to be saved, memory is without the conversation, and a reload shows it empty.
  lemma DeletedComesBack(w: World, id: Id, freshId: Id, now: int) returns (es: seq<Event>)
    requires WorldOk(w) && w.wait.None? && Has(w.session.state.convs, id) && Fresh(w.session, freshId)
    ensures RunAllowed(w, es)
    ensures var end := Run(w, es);
            && end.wait.None? && end.stale == Some(id) && !end.session.dirty
            && !Has(end.session.state.convs, id) && Committed(end.session.store.disk, id) == Some([])
  {
    hide WorldOk, Committed, Fresh, Flush, BeginDelete, EndDelete;
    var w1 := Step(w, MessagesSet([], "", now));
    WrittenTo(w, id, freshId, now);
    var env := BeginCanFinish(w1.session, id, 0, freshId, now);
    var w2 := Requested(w1, id, env);
    BegunWaiting(w1, id, env);
    var k := Enough(w2.session.store, w2.session.state);
    var w3 := Step(w2, FlushTimer(k));
    Overtakes(w2, k);
    EndsStale(w3, id, env);
    es := ComeBackRun(id, env, k);
    var ws := [w, w1, w2, w3, Step(w3, CleanupEnded(env))];
    hide Operate, Requested, Ended, Enough, RunAllowed, Run, SetMessages;
    forall i | 0 <= i < 4 ensures Allowed(ws[i], es[i]) && Step(ws[i], es[i]) == ws[i + 1] {
      if i == 0 {
      } else if i == 1 {
      } else if i == 2 {
      } else {
      }
    }
    Chain(ws, es, 0);
    assert es[0..] == es;
  }
}
