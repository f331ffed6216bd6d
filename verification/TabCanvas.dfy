// The canvases that paint through the shared frame. Each owner keeps the id of its pending paint.
module TabCanvas {
  import opened Common
  import opened FlowFrames
  import opened Picking

  /** `visible` is the answer of the owner's visibility test; `independent` chooses between a group of
      toggles and a group of tabs. */
  datatype Owner = Owner(frame: nat, disposed: bool, visible: bool, independent: bool)

  // paint, without the drawing; `reduced` is the user's wish for reduced motion
  function Paint(f: State, o: Owner, me: nat, reduced: bool): (State, Owner, bool) {
    var idle := o.(frame := 0);
    if o.disposed || !o.visible then (f, idle, false)
    else if reduced then (f, idle, true)
    else (Request(f, me), o.(frame := f.nextId + 1), true)
  }

  // requestPaint
  function RequestPaint(f: State, o: Owner, me: nat): (State, Owner) {
    if o.frame == 0 && !o.disposed && o.visible then (Request(f, me), o.(frame := f.nextId + 1)) else (f, o)
  }

  // update: `found` says whether the group has something to paint, `hidden` whether the page is hidden
  function Update(f: State, o: Owner, me: nat, found: bool, hidden: bool): (State, Owner) {
    var seen := o.(visible := found && !hidden);
    if (if o.independent then !seen.visible else !found) then
      (if o.frame != 0 then Cancel(f, o.frame) else f, seen.(frame := 0))
    else RequestPaint(f, seen, me)
  }

  // the disposer
  function Dispose(f: State, o: Owner): (State, Owner) {
    (if o.frame != 0 then Cancel(f, o.frame) else f, o.(disposed := true))
  }

  // ---------- the system ----------

  datatype Mark = Painted(owner: nat) | Disposed(owner: nat)

  datatype World = World(frames: State, owners: map<nat, Owner>, log: seq<Mark>)

  datatype Action =
    | Mount(owner: nat, independent: bool)
    | Refresh(owner: nat, found: bool, hidden: bool)
    | ThemeChange(owner: nat)
    | Unmount(owner: nat)
    | Drift(owner: nat, visible: bool)
    | NativeFrame(handle: nat)
    | NextPaint(reduced: bool)

  /** `Drift` is a change of visibility that no handler has seen yet. */
  predicate Possible(w: World, a: Action) {
    match a
    case Mount(owner, _) => owner !in w.owners
    case NativeFrame(handle) => Enabled(w.frames, Fired(handle))
    case NextPaint(_) => w.frames.batch != [] && w.frames.batch[0].owner in w.owners
    case _ => a.owner in w.owners
  }

  function With(w: World, owner: nat, next: (State, Owner), marks: seq<Mark>): World {
    World(next.0, w.owners[owner := next.1], w.log + marks)
  }

  function Act(w: World, a: Action): World
    requires Possible(w, a)
  {
    match a
    case Mount(owner, independent) => w.(owners := w.owners[owner := Owner(0, false, false, independent)])
    case Refresh(owner, found, hidden) => With(w, owner, Update(w.frames, w.owners[owner], owner, found, hidden), [])
    case ThemeChange(owner) => With(w, owner, RequestPaint(w.frames, w.owners[owner], owner), [])
    case Unmount(owner) => With(w, owner, Dispose(w.frames, w.owners[owner]), [Disposed(owner)])
    case Drift(owner, visible) => w.(owners := w.owners[owner := w.owners[owner].(visible := visible)])
    case NativeFrame(handle) => w.(frames := Dispatch(w.frames, handle))
    case NextPaint(reduced) =>
      var me := w.frames.batch[0].owner;
      var (f, o, painted) := Paint(RunNext(w.frames), w.owners[me], me, reduced);
      With(w, me, (f, o), if painted then [Painted(me)] else [])
  }

  predicate AllPossible(w: World, actions: seq<Action>)
    decreases |actions|
  {
    actions == [] || (Possible(w, actions[0]) && AllPossible(Act(w, actions[0]), actions[1..]))
  }

  function Run(w: World, actions: seq<Action>): World
    requires AllPossible(w, actions)
    decreases |actions|
  {
    if actions == [] then w else Run(Act(w, actions[0]), actions[1..])
  }

  // ---------- a disposed owner never paints ----------

  ghost predicate LogOk(w: World) {
    && (forall o :: Disposed(o) in w.log ==> o in w.owners && w.owners[o].disposed)
    && (forall i, j :: 0 <= i < j < |w.log| && w.log[i].Disposed? ==> w.log[j] != Painted(w.log[i].owner))
  }

  // Owners stay, disposal is final, and only a live owner paints.
  lemma ActLogs(w: World, a: Action)
    requires Possible(w, a)
    ensures var w' := Act(w, a);
            && w.owners.Keys <= w'.owners.Keys
            && (forall o :: o in w.owners && w.owners[o].disposed ==> w'.owners[o].disposed)
            && (w'.log == w.log
                || (a.Unmount? && w'.log == w.log + [Disposed(a.owner)] && a.owner in w'.owners
                      && w'.owners[a.owner].disposed)
                || exists o :: o in w.owners && !w.owners[o].disposed && w'.log == w.log + [Painted(o)])
  {
    hide Request, Cancel, Dispatch;
    if a.NextPaint? {
      var o := w.frames.batch[0].owner;
      assert Act(w, a).log == w.log || (!w.owners[o].disposed && Act(w, a).log == w.log + [Painted(o)]);
    }
    assert w.log + [] == w.log;
  }

  lemma ActKeepsLog(w: World, a: Action)
    requires LogOk(w) && Possible(w, a)
    ensures LogOk(Act(w, a))
  {
    hide Request, Cancel, Dispatch, RunNext;
    ActLogs(w, a);
    hide Act;
    var w' := Act(w, a);
    assert forall i :: 0 <= i < |w.log| ==> w.log[i] in w.log;
  }

  // Over every interleaving of mounts, updates, theme and visibility changes, native frames and
  // disposals, also inside a dispatch, no owner paints after it was disposed.
  lemma {:induction false} DisposedNeverPaints(w: World, actions: seq<Action>)
    requires LogOk(w) && AllPossible(w, actions)
    ensures LogOk(Run(w, actions))
    decreases |actions|
  {
    hide LogOk;
    if actions != [] {
      ActKeepsLog(w, actions[0]);
      DisposedNeverPaints(Act(w, actions[0]), actions[1..]);
    }
  }

  // ---------- one paint per owner ----------

  /** The ids that wait for an owner. */
  function Waiting(entries: seq<Entry>, owner: nat): seq<nat> {
    if entries == [] then []
    else
      var rest, last := Waiting(entries[..|entries| - 1], owner), entries[|entries| - 1];
      if last.owner == owner then rest + [last.id] else rest
  }

  /** The callbacks that run now and those that wait. */
  function Ahead(f: State): seq<Entry> { f.batch + f.pending }

  function Remembered(o: Owner): seq<nat> { if o.disposed || o.frame == 0 then [] else [o.frame] }

  /** Each live owner has exactly the request that it remembers, a disposed one has none. */
  ghost predicate Tidy(w: World) {
    && FlowFrames.Inv(w.frames)
    && (forall e :: e in Ahead(w.frames) ==> e.owner in w.owners)
    && (forall o :: o in w.owners ==>
          Waiting(Ahead(w.frames), o) == Remembered(w.owners[o]))
  }

  /** Script runs to completion: updates come between dispatches, not inside one; and the disposer
      disconnects its owner from them. */
  predicate Orderly(w: World, a: Action) {
    && (a.Mount? || a.Refresh? || a.ThemeChange? || a.Unmount? ==> w.frames.batch == [])
    && (a.Refresh? || a.ThemeChange? || a.Unmount? ==> a.owner in w.owners && !w.owners[a.owner].disposed)
  }

  lemma WaitingSnoc(entries: seq<Entry>, e: Entry, owner: nat)
    ensures Waiting(entries + [e], owner) == Waiting(entries, owner) + (if e.owner == owner then [e.id] else [])
  {
    assert (entries + [e])[..|entries|] == entries;
  }

  lemma {:induction false} WaitingTail(entries: seq<Entry>, owner: nat)
    requires entries != []
    ensures Waiting(entries, owner) ==
            (if entries[0].owner == owner then [entries[0].id] else []) + Waiting(entries[1..], owner)
  {
    var n := |entries| - 1;
    if n > 0 {
      WaitingTail(entries[..n], owner);
      assert entries[..n][1..] == entries[1..][..n - 1];
    }
  }

  function Drop(ids: seq<nat>, id: nat): seq<nat> {
    if ids == [] then []
    else Drop(ids[..|ids| - 1], id) + (if ids[|ids| - 1] == id then [] else [ids[|ids| - 1]])
  }

  lemma {:induction false} WaitingWithout(entries: seq<Entry>, id: nat, owner: nat)
    ensures Waiting(Without(entries, id), owner) == Drop(Waiting(entries, owner), id)
  {
    if entries != [] {
      var n := |entries| - 1;
      WaitingWithout(entries[..n], id, owner);
      if entries[n].id != id {
        WaitingSnoc(Without(entries[..n], id), entries[n], owner);
      }
      if entries[n].owner == owner {
        var ids := Waiting(entries[..n], owner);
        assert (ids + [entries[n].id])[..|ids|] == ids;
      }
    }
  }

  lemma {:induction false} WaitingListed(entries: seq<Entry>, id: nat, owner: nat)
    requires id in Waiting(entries, owner)
    ensures exists i :: 0 <= i < |entries| && entries[i] == Entry(id, owner)
  {
    var n := |entries| - 1;
    if id in Waiting(entries[..n], owner) {
      WaitingListed(entries[..n], id, owner);
      var i :| 0 <= i < n && entries[..n][i] == Entry(id, owner);
      assert entries[i] == Entry(id, owner);
    } else {
      assert entries[n] == Entry(id, owner);
    }
  }

  // With distinct ids, an id waits for one owner only.
  lemma OneOwner(entries: seq<Entry>, id: nat, a: nat, b: nat)
    requires Increasing(Ids(entries)) && id in Waiting(entries, a) && id in Waiting(entries, b)
    ensures a == b
  {
    WaitingListed(entries, id, a);
    WaitingListed(entries, id, b);
    var i :| 0 <= i < |entries| && entries[i] == Entry(id, a);
    var j :| 0 <= j < |entries| && entries[j] == Entry(id, b);
    assert Ids(entries)[i] == Ids(entries)[j];
  }

  lemma RequestWaiting(f: State, me: nat, x: nat)
    ensures Waiting(Ahead(Request(f, me)), x) == Waiting(Ahead(f), x) + (if x == me then [f.nextId + 1] else [])
    ensures forall e :: e in Ahead(Request(f, me)) <==> e in Ahead(f) || e == Entry(f.nextId + 1, me)
  {
    assert Ahead(Request(f, me)) == Ahead(f) + [Entry(f.nextId + 1, me)];
    WaitingSnoc(Ahead(f), Entry(f.nextId + 1, me), x);
  }

  lemma RequestTidy(w: World, me: nat, o: Owner)
    requires Tidy(w) && me in w.owners && w.owners[me].frame == 0 && !o.disposed && !w.owners[me].disposed
    requires o.frame == w.frames.nextId + 1
    ensures Tidy(w.(frames := Request(w.frames, me), owners := w.owners[me := o]))
  {
    RequestKeeps(w.frames, me);
    hide FlowFrames.Inv, Waiting, Ahead, Request;
    forall x {
      RequestWaiting(w.frames, me, x);
    }
  }

  lemma PendingIncreasing(f: State)
    requires FlowFrames.Inv(f)
    ensures Increasing(Ids(f.pending))
  {
    var front := f.fired + Ids(f.batch);
    forall i, j | 0 <= i < j < |f.pending| ensures Ids(f.pending)[i] < Ids(f.pending)[j] {
      assert Line(f)[|front| + i] == Ids(f.pending)[i] && Line(f)[|front| + j] == Ids(f.pending)[j];
    }
  }

  lemma CancelShape(f: State, id: nat)
    requires f.batch == []
    ensures Ahead(f) == f.pending && Ahead(Cancel(f, id)) == Without(f.pending, id)
  {
    assert Cancel(f, id).batch == [];
  }

  lemma DropOne(ids: seq<nat>, id: nat)
    requires |ids| <= 1
    ensures Drop(ids, id) == if ids == [id] then [] else ids
  {
    if |ids| == 1 {
      assert ids[..0] == [] && ids == [ids[0]];
    }
  }

  lemma CancelOthers(w: World, me: nat, x: nat)
    requires Tidy(w) && me in w.owners && x in w.owners && w.frames.batch == [] && !w.owners[me].disposed
    requires Increasing(Ids(w.frames.pending)) && w.owners[me].frame != 0
    ensures Drop(Waiting(w.frames.pending, x), w.owners[me].frame) ==
            if x == me then [] else Waiting(w.frames.pending, x)
  {
    hide FlowFrames.Inv, Waiting, Drop, Increasing, Ids;
    assert Ahead(w.frames) == w.frames.pending;
    var ids, id := Waiting(w.frames.pending, x), w.owners[me].frame;
    DropOne(ids, id);
    if x != me && ids == [id] {
      assert id in ids && id in Waiting(w.frames.pending, me);
      OneOwner(w.frames.pending, id, me, x);
    }
  }

  lemma CancelWaiting(w: World, me: nat)
    requires Tidy(w) && me in w.owners && w.frames.batch == [] && !w.owners[me].disposed && w.owners[me].frame != 0
    ensures var f := Cancel(w.frames, w.owners[me].frame);
            && FlowFrames.Inv(f)
            && (forall e :: e in Ahead(f) ==> e.owner in w.owners)
            && forall x :: x in w.owners ==> Waiting(Ahead(f), x) == if x == me then [] else Waiting(Ahead(w.frames), x)
  {
    hide FlowFrames.Inv, Waiting, Cancel, Without, Increasing, Remembered, Ahead;
    var f := Cancel(w.frames, w.owners[me].frame);
    CancelKeeps(w.frames, w.owners[me].frame);
    PendingIncreasing(w.frames);
    CancelShape(w.frames, w.owners[me].frame);
    forall x | x in w.owners
      ensures Waiting(Ahead(f), x) == if x == me then [] else Waiting(Ahead(w.frames), x)
    {
      WaitingWithout(w.frames.pending, w.owners[me].frame, x);
      CancelOthers(w, me, x);
    }
  }

  lemma CancelTidy(w: World, me: nat, o: Owner)
    requires Tidy(w) && me in w.owners && w.frames.batch == [] && !w.owners[me].disposed
    requires o.disposed || o.frame == 0
    ensures var was := w.owners[me];
            var frames := if was.frame != 0 then Cancel(w.frames, was.frame) else w.frames;
            Tidy(w.(frames := frames, owners := w.owners[me := o]))
  {
    var was := w.owners[me];
    if was.frame != 0 {
      CancelWaiting(w, me);
      hide FlowFrames.Inv, Waiting, Cancel, Ahead;
    }
  }

  lemma DispatchTidy(w: World, handle: nat)
    requires Tidy(w) && Enabled(w.frames, Fired(handle))
    ensures Tidy(w.(frames := Dispatch(w.frames, handle)))
  {
    DispatchKeeps(w.frames, handle);
    assert Ahead(Dispatch(w.frames, handle)) == Ahead(w.frames);
  }

  lemma CallbackWaiting(f: State, x: nat)
    requires f.batch != []
    ensures Waiting(Ahead(f), x) ==
            (if x == f.batch[0].owner then [f.batch[0].id] else []) + Waiting(Ahead(RunNext(f)), x)
    ensures forall e :: e in Ahead(RunNext(f)) ==> e in Ahead(f)
  {
    assert Ahead(f)[0] == f.batch[0] && Ahead(f)[1..] == Ahead(RunNext(f));
    WaitingTail(Ahead(f), x);
  }

  lemma CallbackOwner(w: World)
    requires Tidy(w) && w.frames.batch != [] && w.frames.batch[0].owner in w.owners
    ensures var me := w.frames.batch[0].owner;
            && !w.owners[me].disposed && w.owners[me].frame == w.frames.batch[0].id
            && Waiting(Ahead(RunNext(w.frames)), me) == []
  {
    var me, id := w.frames.batch[0].owner, w.frames.batch[0].id;
    CallbackWaiting(w.frames, me);
    hide FlowFrames.Inv, Waiting, Ahead, RunNext;
    var rest := Waiting(Ahead(RunNext(w.frames)), me);
    assert [id] + rest == Remembered(w.owners[me]);
    assert |[id] + rest| == 1 + |rest|;
    assert ([id] + rest)[0] == id;
  }

  lemma RememberedNone(o: Owner)
    requires o.disposed || o.frame == 0
    ensures Remembered(o) == []
  {
  }

  // The next callback is the one its owner remembers.
  lemma CallbackTidy(w: World)
    requires Tidy(w) && w.frames.batch != [] && w.frames.batch[0].owner in w.owners
    ensures var me := w.frames.batch[0].owner;
            Tidy(w.(frames := RunNext(w.frames), owners := w.owners[me := w.owners[me].(frame := 0)]))
    ensures var me := w.frames.batch[0].owner; !w.owners[me].disposed && w.owners[me].frame == w.frames.batch[0].id
  {
    var f, me := w.frames, w.frames.batch[0].owner;
    RunKeeps(f);
    CallbackOwner(w);
    hide FlowFrames.Inv, Waiting, Ahead, RunNext, Remembered;
    forall x | x in w.owners && x != me ensures Waiting(Ahead(RunNext(f)), x) == Remembered(w.owners[x]) {
      CallbackWaiting(f, x);
    }
    RememberedNone(w.owners[me].(frame := 0));
    CallbackWaiting(f, me);
  }

  lemma PaintAct(w: World, reduced: bool)
    requires Possible(w, NextPaint(reduced)) && !w.owners[w.frames.batch[0].owner].disposed
    ensures var me, f := w.frames.batch[0].owner, RunNext(w.frames);
            var idle := w.owners[me].(frame := 0);
            Act(w, NextPaint(reduced)) ==
            if idle.visible && !reduced then
              World(Request(f, me), w.owners[me := idle.(frame := f.nextId + 1)], w.log + [Painted(me)])
            else World(f, w.owners[me := idle], w.log + if idle.visible then [Painted(me)] else [])
  {
    hide RunNext, Request;
  }

  lemma TidyIgnoresLog(w: World, log: seq<Mark>)
    requires Tidy(w)
    ensures Tidy(w.(log := log))
  {
  }

  lemma PaintAgain(w: World, me: nat, log: seq<Mark>)
    requires Tidy(w) && me in w.owners && w.owners[me].frame == 0 && !w.owners[me].disposed
    ensures forall owners :: owners == w.owners[me := w.owners[me].(frame := w.frames.nextId + 1)] ==>
              Tidy(World(Request(w.frames, me), owners, log))
  {
    var next := w.owners[me].(frame := w.frames.nextId + 1);
    RequestTidy(w, me, next);
    TidyIgnoresLog(World(Request(w.frames, me), w.owners[me := next], w.log), log);
  }

  // Painting settles the owner or asks for its next frame.
  lemma PaintTidy(w: World, reduced: bool)
    requires Tidy(w) && Possible(w, NextPaint(reduced))
    ensures Tidy(Act(w, NextPaint(reduced)))
  {
    hide Tidy, RunNext, Request, Act, Enabled;
    CallbackTidy(w);
    PaintAct(w, reduced);
    var me, f := w.frames.batch[0].owner, RunNext(w.frames);
    var idle := w.owners[me].(frame := 0);
    var settled := World(f, w.owners[me := idle], w.log);
    if idle.visible && !reduced {
      PaintAgain(settled, me, w.log + [Painted(me)]);
    } else {
      TidyIgnoresLog(settled, w.log + if idle.visible then [Painted(me)] else []);
    }
  }

  lemma MountTidy(w: World, a: Action)
    requires Tidy(w) && a.Mount? && Possible(w, a)
    ensures Tidy(Act(w, a))
  {
    var line := Ahead(w.frames);
    hide Ahead;
    if Waiting(line, a.owner) != [] {
      WaitingListed(line, Waiting(line, a.owner)[0], a.owner);
    }
  }

  lemma RequestPaintTidy(w: World, me: nat, o: Owner)
    requires Tidy(w) && me in w.owners && !w.owners[me].disposed
    requires o == w.owners[me].(visible := o.visible)
    ensures var (f, next) := RequestPaint(w.frames, o, me); Tidy(World(f, w.owners[me := next], w.log))
  {
    hide FlowFrames.Inv, Waiting, Ahead, Request;
    if o.frame == 0 && o.visible {
      RequestTidy(w, me, o.(frame := w.frames.nextId + 1));
    }
  }

  lemma ActKeepsTidy(w: World, a: Action)
    requires Tidy(w) && Possible(w, a) && Orderly(w, a)
    ensures Tidy(Act(w, a))
  {
    match a
    case Mount(owner, _) => MountTidy(w, a);
    case Drift(owner, visible) => assert Tidy(Act(w, a));
    case NativeFrame(handle) => DispatchTidy(w, handle);
    case NextPaint(reduced) => PaintTidy(w, reduced);
    case ThemeChange(owner) => RequestPaintTidy(w, owner, w.owners[owner]);
    case Refresh(owner, found, hidden) =>
      var seen := w.owners[owner].(visible := found && !hidden);
      if (if seen.independent then !seen.visible else !found) {
        CancelTidy(w, owner, seen.(frame := 0));
      } else {
        RequestPaintTidy(w, owner, seen);
      }
    case Unmount(owner) =>
      CancelTidy(w, owner, w.owners[owner].(disposed := true));
      TidyIgnoresLog(w.(frames := Dispose(w.frames, w.owners[owner]).0,
                        owners := w.owners[owner := w.owners[owner].(disposed := true)]), w.log + [Disposed(owner)]);
  }

  lemma RemembersAhead(w: World, owner: nat)
    requires Tidy(w) && owner in w.owners
    ensures Waiting(Ahead(w.frames), owner) == Remembered(w.owners[owner])
  {
  }

  // After an update an owner with something to show has exactly one paint ahead, and one with
  // nothing to show has none.
  lemma UpdateSettles(w: World, owner: nat, found: bool, hidden: bool)
    requires Tidy(w) && Possible(w, Refresh(owner, found, hidden)) && Orderly(w, Refresh(owner, found, hidden))
    ensures var ahead := Waiting(Ahead(Act(w, Refresh(owner, found, hidden)).frames), owner);
            && (found && !hidden ==> |ahead| == 1)
            && (!found || (hidden && w.owners[owner].independent) ==> ahead == [])
  {
    hide Tidy, Waiting, Ahead, Cancel, Request;
    ActKeepsTidy(w, Refresh(owner, found, hidden));
    RemembersAhead(Act(w, Refresh(owner, found, hidden)), owner);
  }

  // It remembers whether it has something to show.
  lemma UpdateSees(w: World, owner: nat, found: bool, hidden: bool)
    requires Possible(w, Refresh(owner, found, hidden))
    ensures var o := Act(w, Refresh(owner, found, hidden)).owners[owner];
            && (o.visible <==> found && !hidden)
            && o.disposed == w.owners[owner].disposed && o.independent == w.owners[owner].independent
  {
    hide Cancel, Request;
  }

  // A change of the theme is painted, if the owner has something to show.
  lemma ThemeSettles(w: World, owner: nat)
    requires Tidy(w) && Possible(w, ThemeChange(owner)) && Orderly(w, ThemeChange(owner)) && w.owners[owner].visible
    ensures |Waiting(Ahead(Act(w, ThemeChange(owner)).frames), owner)| == 1
  {
    hide Tidy, Waiting, Ahead, Cancel, Request;
    ActKeepsTidy(w, ThemeChange(owner));
    RemembersAhead(Act(w, ThemeChange(owner)), owner);
  }

  // A callback that runs paints exactly if its owner has something to show; then it is called again with
  // the next frame, but not under reduced motion.
  lemma PaintSettles(w: World, reduced: bool)
    requires Tidy(w) && Possible(w, NextPaint(reduced))
    ensures var me := w.frames.batch[0].owner;
            var next, o := Act(w, NextPaint(reduced)), w.owners[me];
            && next.log == w.log + (if o.visible then [Painted(me)] else [])
            && |Waiting(Ahead(next.frames), me)| == (if o.visible && !reduced then 1 else 0)
  {
    hide Tidy, Waiting, Ahead, Request, RunNext;
    CallbackTidy(w);
    PaintTidy(w, reduced);
    PaintAct(w, reduced);
    RemembersAhead(Act(w, NextPaint(reduced)), w.frames.batch[0].owner);
  }

  // After its disposal an owner has no paint ahead.
  lemma DisposalSettles(w: World, owner: nat)
    requires Tidy(w) && Possible(w, Unmount(owner)) && Orderly(w, Unmount(owner))
    ensures var next := Act(w, Unmount(owner));
            && next.owners[owner].disposed && Waiting(Ahead(next.frames), owner) == []
            && next.log == w.log + [Disposed(owner)]
  {
    hide Tidy, Waiting, Ahead, Cancel;
    ActKeepsTidy(w, Unmount(owner));
    RemembersAhead(Act(w, Unmount(owner)), owner);
  }

  // A mounted owner is live, has nothing ahead, and is painted first after an update that finds something.
  lemma MountWaits(w: World, owner: nat, independent: bool)
    requires Tidy(w) && Possible(w, Mount(owner, independent))
    ensures var next := Act(w, Mount(owner, independent));
            && owner in next.owners && !next.owners[owner].disposed && !next.owners[owner].visible
            && next.owners[owner].independent == independent && Waiting(Ahead(next.frames), owner) == []
  {
    MountTidy(w, Mount(owner, independent));
    hide Waiting, Ahead;
  }

  // ---------- one frame ----------

  /** What a list of callbacks can paint: those of owners with something to show. */
  function Showing(entries: seq<Entry>, owners: map<nat, Owner>): (r: seq<Option<Mark>>)
    requires forall e :: e in entries ==> e.owner in owners
    ensures |r| == |entries|
    ensures forall i :: 0 <= i < |r| ==>
              r[i] == if owners[entries[i].owner].visible then Some(Painted(entries[i].owner)) else None
  {
    seq(|entries|, i requires 0 <= i < |entries| =>
      if owners[entries[i].owner].visible then Some(Painted(entries[i].owner)) else None)
  }

  /** The callbacks of one frame, each with the wish for reduced motion that it finds. */
  function Callbacks(wishes: seq<bool>): seq<Action> {
    if wishes == [] then [] else [NextPaint(wishes[0])] + Callbacks(wishes[1..])
  }

  // A callback leaves every owner's visibility as it is, and the callbacks behind it.
  lemma PaintLeaves(w: World, reduced: bool)
    requires Tidy(w) && Possible(w, NextPaint(reduced))
    ensures var next := Act(w, NextPaint(reduced));
            && next.owners.Keys == w.owners.Keys && next.frames.batch == w.frames.batch[1..]
            && forall o :: o in w.owners ==> next.owners[o].visible == w.owners[o].visible
  {
    CallbackOwner(w);
    PaintAct(w, reduced);
    hide Tidy;
  }

  lemma BatchIsOwned(w: World)
    requires Tidy(w)
    ensures forall e :: e in w.frames.batch || e in w.frames.pending ==> e.owner in w.owners
  {
    assert forall e :: e in w.frames.batch || e in w.frames.pending ==> e in Ahead(w.frames);
  }

  lemma ShowingTail(entries: seq<Entry>, owners: map<nat, Owner>, later: map<nat, Owner>)
    requires entries != [] && (forall e :: e in entries ==> e.owner in owners) && later.Keys == owners.Keys
    requires forall o :: o in owners ==> later[o].visible == owners[o].visible
    ensures var me := entries[0].owner;
            Showing(entries, owners) ==
            [if owners[me].visible then Some(Painted(me)) else None] + Showing(entries[1..], later)
  {
  }

  // A callback's own mark goes in front of those of the callbacks behind it.
  lemma PaintPicks(w: World, next: World, reduced: bool, later: seq<Mark>, q: seq<nat>)
    returns (marks: seq<Mark>, p: seq<nat>)
    requires Tidy(w) && Possible(w, NextPaint(reduced)) && next == Act(w, NextPaint(reduced))
    requires forall e :: e in w.frames.batch ==> e.owner in w.owners
    requires forall e :: e in next.frames.batch ==> e.owner in next.owners
    requires Picks(Showing(next.frames.batch, next.owners), later, q)
    ensures Picks(Showing(w.frames.batch, w.owners), marks, p)
    ensures w.log + marks == next.log + later
  {
    hide Tidy, Act, Picks, Showing, Waiting, Ahead, RunNext, Enabled;
    PaintLeaves(w, reduced);
    PaintSettles(w, reduced);
    ShowingTail(w.frames.batch, w.owners, next.owners);
    var x := if w.owners[w.frames.batch[0].owner].visible then Some(Painted(w.frames.batch[0].owner)) else None;
    PicksFirst(x, Showing(next.frames.batch, next.owners), later, q);
    marks, p := Then(x) + later, Place(x, 0) + Shifted(q);
  }

  lemma {:induction false} CallbacksPaint(w: World, wishes: seq<bool>) returns (marks: seq<Mark>, p: seq<nat>)
    requires Tidy(w) && |wishes| == |w.frames.batch|
    ensures forall e :: e in w.frames.batch ==> e.owner in w.owners
    ensures Picks(Showing(w.frames.batch, w.owners), marks, p)
    ensures AllPossible(w, Callbacks(wishes))
    ensures var next := Run(w, Callbacks(wishes)); next.frames.batch == [] && next.log == w.log + marks
    decreases |wishes|
  {
    BatchIsOwned(w);
    hide Tidy, Act, Picks;
    if wishes == [] {
      marks := [];
      p := NothingPicked<Mark>();
      assert Showing(w.frames.batch, w.owners) == [];
      assert w.log + [] == w.log;
    } else {
      PaintTidy(w, wishes[0]);
      PaintLeaves(w, wishes[0]);
      hide Showing;
      var later, q := CallbacksPaint(Act(w, NextPaint(wishes[0])), wishes[1..]);
      marks, p := PaintPicks(w, Act(w, NextPaint(wishes[0])), wishes[0], later, q);
      assert Callbacks(wishes)[1..] == Callbacks(wishes[1..]);
    }
  }

  // So a native frame runs all that wait for it: every owner that asked and has something to show paints
  // once, in the order they asked, and no other owner paints.
  lemma FramePaints(w: World, handle: nat, wishes: seq<bool>) returns (marks: seq<Mark>, p: seq<nat>)
    requires Tidy(w) && Possible(w, NativeFrame(handle)) && |wishes| == |w.frames.pending|
    ensures forall e :: e in w.frames.pending ==> e.owner in w.owners
    ensures Picks(Showing(w.frames.pending, w.owners), marks, p)
    ensures var actions := [NativeFrame(handle)] + Callbacks(wishes);
            && AllPossible(w, actions)
            && Run(w, actions).frames.batch == [] && Run(w, actions).log == w.log + marks
  {
    hide Tidy, Picks;
    BatchIsOwned(w);
    var actions := [NativeFrame(handle)] + Callbacks(wishes);
    DispatchTidy(w, handle);
    var next := Act(w, NativeFrame(handle));
    marks, p := CallbacksPaint(next, wishes);
    assert actions[1..] == Callbacks(wishes);
  }

  lemma WaitingOwner(entries: seq<Entry>, owner: nat)
    requires Waiting(entries, owner) != []
    ensures exists i :: 0 <= i < |entries| && entries[i].owner == owner
  {
    WaitingListed(entries, Waiting(entries, owner)[0], owner);
  }

  // What waits between dispatches has a native frame outstanding.
  lemma FrameIsDue(w: World, owner: nat)
    requires Tidy(w) && w.frames.batch == [] && Waiting(Ahead(w.frames), owner) != []
    ensures Enabled(w.frames, Fired(w.frames.frame))
    ensures exists i :: 0 <= i < |w.frames.pending| && w.frames.pending[i].owner == owner
  {
    var line := Ahead(w.frames);
    assert line == w.frames.pending;
    hide Waiting, Ahead;
    WaitingOwner(line, owner);
  }

  lemma PaintedIfVisible(entries: seq<Entry>, owners: map<nat, Owner>, marks: seq<Mark>, p: seq<nat>, owner: nat)
    requires (forall e :: e in entries ==> e.owner in owners) && Picks(Showing(entries, owners), marks, p)
    requires exists i :: 0 <= i < |entries| && entries[i].owner == owner
    ensures Painted(owner) in marks <==> owners[owner].visible
  {
    var list := Showing(entries, owners);
    var i :| 0 <= i < |entries| && entries[i].owner == owner;
    if owners[owner].visible {
      assert list[i] == Some(Painted(owner));
      var j :| 0 <= j < |p| && p[j] == i;
      assert marks[j] == Painted(owner);
    }
  }

  // An owner with a paint ahead paints with the next frame exactly if it is visible by then, whatever
  // happened to its visibility unseen.
  lemma WaitingPaints(w: World, owner: nat, visible: bool, wishes: seq<bool>) returns (marks: seq<Mark>)
    requires Tidy(w) && w.frames.batch == [] && owner in w.owners && Waiting(Ahead(w.frames), owner) != []
    requires |wishes| == |w.frames.pending|
    ensures var drifted, actions := Act(w, Drift(owner, visible)), [NativeFrame(w.frames.frame)] + Callbacks(wishes);
            AllPossible(drifted, actions) && Run(drifted, actions).log == w.log + marks
    ensures Painted(owner) in marks <==> visible
  {
    var drifted := Act(w, Drift(owner, visible));
    ActKeepsTidy(w, Drift(owner, visible));
    FrameIsDue(w, owner);
    hide Tidy, Waiting, Ahead, Run, AllPossible, Callbacks, Picks;
    var p;
    marks, p := FramePaints(drifted, w.frames.frame, wishes);
    PaintedIfVisible(drifted.frames.pending, drifted.owners, marks, p, owner);
  }

  predicate AllOrderly(w: World, actions: seq<Action>)
    requires AllPossible(w, actions)
    decreases |actions|
  {
    actions == [] || (Orderly(w, actions[0]) && AllOrderly(Act(w, actions[0]), actions[1..]))
  }

  // Between and inside dispatches, every live owner has exactly the one request whose id it
  // remembers, so its disposer cancels all it asked for, and it paints at most once a frame.
  lemma {:induction false} OneRequestPerOwner(w: World, actions: seq<Action>)
    requires Tidy(w) && AllPossible(w, actions) && AllOrderly(w, actions)
    ensures Tidy(Run(w, actions))
    decreases |actions|
  {
    hide Tidy;
    if actions != [] {
      ActKeepsTidy(w, actions[0]);
      OneRequestPerOwner(Act(w, actions[0]), actions[1..]);
    }
  }

  // ---------- the owner in place ----------

  class Canvas {
    const me: nat
    const independent: bool
    const frames: Multiplexer
    var frame: nat
    var disposed: bool
    var visible: bool

    ghost function Now(): Owner
      reads this
    {
      Owner(frame, disposed, visible, independent)
    }

    constructor (me: nat, independent: bool, frames: Multiplexer)
      ensures Now() == Owner(0, false, false, independent) && this.me == me && this.frames == frames
    {
      this.me, this.independent, this.frames := me, independent, frames;
      frame, disposed, visible := 0, false, false;
    }

    method OnPaint(reduced: bool) returns (painted: bool)
      modifies this`frame, frames
      ensures (frames.Now(), Now(), painted) == Paint(old(frames.Now()), old(Now()), me, reduced)
      ensures old(FlowFrames.Inv(frames.Now())) ==> FlowFrames.Inv(frames.Now())
    {
      frame := 0;
      if disposed || !visible {
        return false;
      }
      painted := true;
      if !reduced {
        frame := frames.RequestFlowFrame(me);
      }
    }

    method OnRequestPaint()
      modifies this`frame, frames
      ensures (frames.Now(), Now()) == RequestPaint(old(frames.Now()), old(Now()), me)
      ensures old(FlowFrames.Inv(frames.Now())) ==> FlowFrames.Inv(frames.Now())
    {
      if frame == 0 && !disposed && visible {
        frame := frames.RequestFlowFrame(me);
      }
    }

    method OnUpdate(found: bool, hidden: bool)
      modifies this`frame, this`visible, frames
      ensures (frames.Now(), Now()) == Update(old(frames.Now()), old(Now()), me, found, hidden)
      ensures old(FlowFrames.Inv(frames.Now())) ==> FlowFrames.Inv(frames.Now())
    {
      visible := found && !hidden;
      if (independent && !visible) || (!independent && !found) {
        if frame != 0 {
          frames.CancelFlowFrame(frame);
        }
        frame := 0;
      } else {
        OnRequestPaint();
      }
    }

    method OnDispose()
      modifies this`disposed, frames
      ensures (frames.Now(), Now()) == Dispose(old(frames.Now()), old(Now()))
      ensures old(FlowFrames.Inv(frames.Now())) ==> FlowFrames.Inv(frames.Now())
      ensures disposed && (old(frame) != 0 ==> !Queued(frames.pending, old(frame)))
    {
      disposed := true;
      if frame != 0 {
        frames.CancelFlowFrame(frame);
      }
    }
  }
}
