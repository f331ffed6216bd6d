// One native animation frame shared by all flowing controls.
module FlowFrames {
  import opened Common
  import opened Picking

  /** A requested callback; `owner` says whose paint it is. */
  datatype Entry = Entry(id: nat, owner: nat)

  /** `batch` holds the callbacks that a dispatch in progress still has to run. The browser's part is
      `native`, the outstanding native requests, and `lastHandle`. `fired` and `cancelled` record the
      ids that ran and those removed while they were pending. */
  datatype State = State(pending: seq<Entry>, frame: nat, nextId: nat, batch: seq<Entry>,
                         native: set<nat>, lastHandle: nat, fired: seq<nat>, cancelled: set<nat>)

  const START := State([], 0, 0, [], {}, 0, [], {})

  function Ids(entries: seq<Entry>): (ids: seq<nat>)
    ensures |ids| == |entries| && forall i :: 0 <= i < |ids| ==> ids[i] == entries[i].id
  {
    seq(|entries|, i requires 0 <= i < |entries| => entries[i].id)
  }

  // requestFlowFrame
  function Request(s: State, owner: nat): State {
    var id := s.nextId + 1;
    var queued := s.(nextId := id, pending := s.pending + [Entry(id, owner)]);
    if s.frame != 0 then queued
    else
      var handle := s.lastHandle + 1;
      queued.(frame := handle, lastHandle := handle, native := s.native + {handle})
  }

  function Without(entries: seq<Entry>, id: nat): (r: seq<Entry>)
    ensures forall e :: e in r <==> e in entries && e.id != id
  {
    if entries == [] then []
    else
      var rest, last := Without(entries[..|entries| - 1], id), entries[|entries| - 1];
      assert forall e :: e in entries <==> e == last || e in entries[..|entries| - 1];
      if last.id == id then rest else rest + [last]
  }

  predicate Queued(entries: seq<Entry>, id: nat) { exists i :: 0 <= i < |entries| && entries[i].id == id }

  // cancelFlowFrame
  function Cancel(s: State, id: nat): State {
    var removed := s.(pending := Without(s.pending, id),
                      cancelled := if Queued(s.pending, id) then s.cancelled + {id} else s.cancelled);
    if removed.pending == [] && s.frame != 0 then removed.(native := s.native - {s.frame}, frame := 0)
    else removed
  }

  /** The native frame fires; the callbacks then run one by one. */
  function Dispatch(s: State, handle: nat): State {
    s.(native := s.native - {handle}, frame := 0, batch := s.pending, pending := [])
  }

  function RunNext(s: State): State
    requires s.batch != []
  {
    s.(batch := s.batch[1..], fired := s.fired + [s.batch[0].id])
  }

  /** A native frame fires only when it is outstanding, and never inside another. */
  datatype Event = Requested(owner: nat) | Cancelled(id: nat) | Fired(handle: nat) | Ran

  predicate Enabled(s: State, e: Event) {
    match e
    case Fired(handle) => handle in s.native && s.batch == []
    case Ran => s.batch != []
    case _ => true
  }

  function Step(s: State, e: Event): State
    requires Enabled(s, e)
  {
    match e
    case Requested(owner) => Request(s, owner)
    case Cancelled(id) => Cancel(s, id)
    case Fired(handle) => Dispatch(s, handle)
    case Ran => RunNext(s)
  }

  // ---------- the invariant ----------

  /** The ids that ran, run now and wait, in this order. */
  function Line(s: State): seq<nat> { s.fired + Ids(s.batch) + Ids(s.pending) }

  ghost predicate Inv(s: State) {
    && s.native == (if s.pending == [] then {} else {s.frame})
    && (s.frame == 0 <==> s.pending == [])
    && s.frame <= s.lastHandle
    && Increasing(Line(s))
    && (forall id :: id in Line(s) ==> 1 <= id <= s.nextId && id !in s.cancelled)
    && (forall id :: 1 <= id <= s.nextId ==> id in Line(s) || id in s.cancelled)
    && (forall id :: id in s.cancelled ==> id <= s.nextId)
  }

  lemma IncreasingSnoc(ids: seq<nat>, id: nat)
    ensures Increasing(ids + [id]) <==> Increasing(ids) && forall x :: x in ids ==> x < id
  {
    var more := ids + [id];
    if Increasing(more) {
      forall i, j | 0 <= i < j < |ids| ensures ids[i] < ids[j] {
        assert more[i] < more[j];
      }
      forall i | 0 <= i < |ids| ensures ids[i] < id {
        assert more[i] < more[|ids|];
      }
    }
    if Increasing(ids) && forall x :: x in ids ==> x < id {
      forall i, j | 0 <= i < j < |more| ensures more[i] < more[j] {
        assert more[i] in ids;
      }
    }
  }

  lemma {:induction false} WithoutIds(entries: seq<Entry>, id: nat, front: seq<nat>)
    requires Increasing(front + Ids(entries))
    ensures Increasing(front + Ids(Without(entries, id)))
    ensures forall x :: x in Ids(Without(entries, id)) <==> x in Ids(entries) && x != id
  {
    if entries != [] {
      var n := |entries| - 1;
      var rest, last := Without(entries[..n], id), entries[n];
      assert Ids(entries) == Ids(entries[..n]) + [last.id];
      assert front + Ids(entries) == (front + Ids(entries[..n])) + [last.id];
      IncreasingSnoc(front + Ids(entries[..n]), last.id);
      WithoutIds(entries[..n], id, front);
      if last.id != id {
        assert Ids(rest + [last]) == Ids(rest) + [last.id];
        assert front + Ids(rest + [last]) == (front + Ids(rest)) + [last.id];
        assert forall x :: x in front + Ids(rest) ==> x in front + Ids(entries[..n]);
        IncreasingSnoc(front + Ids(rest), last.id);
      }
    }
  }

  lemma RequestKeeps(s: State, owner: nat)
    requires Inv(s)
    ensures Inv(Request(s, owner))
    ensures Line(Request(s, owner)) == Line(s) + [s.nextId + 1]
  {
    var s', id := Request(s, owner), s.nextId + 1;
    assert Ids(s'.pending) == Ids(s.pending) + [id];
    assert Line(s') == Line(s) + [id];
    IncreasingSnoc(Line(s), id);
    hide Line;
    assert forall x :: x in Line(s') <==> x in Line(s) || x == id;
  }

  lemma QueuedIsListed(entries: seq<Entry>, id: nat)
    ensures Queued(entries, id) <==> id in Ids(entries)
  {
    if id in Ids(entries) {
      var i :| 0 <= i < |Ids(entries)| && Ids(entries)[i] == id;
      assert entries[i].id == id;
    }
    if i :| 0 <= i < |entries| && entries[i].id == id {
      assert Ids(entries)[i] == id;
    }
  }

  lemma NotBoth(a: seq<nat>, b: seq<nat>, id: nat)
    requires Increasing(a + b) && id in b
    ensures id !in a
  {
    var j :| 0 <= j < |b| && b[j] == id;
    forall i | 0 <= i < |a| ensures a[i] < id {
      assert (a + b)[i] == a[i] && (a + b)[|a| + j] == id;
    }
  }

  lemma NothingWithout(id: nat)
    ensures Without([], id) == []
  {
  }

  lemma CancelKeeps(s: State, id: nat)
    requires Inv(s)
    ensures Inv(Cancel(s, id))
  {
    var s' := Cancel(s, id);
    var front := s.fired + Ids(s.batch);
    WithoutIds(s.pending, id, front);
    assert Line(s) == front + Ids(s.pending) && Line(s') == front + Ids(s'.pending);
    assert Queued(s.pending, id) <==> id in Ids(s.pending) by { QueuedIsListed(s.pending, id); }
    if Queued(s.pending, id) {
      NotBoth(front, Ids(s.pending), id);
    }
    assert forall x :: x in Line(s') <==> x in front || x in Ids(s'.pending);
    assert forall x :: x in Line(s) <==> x in front || x in Ids(s.pending);
    hide Line, Ids, Without, Queued;
    assert s.pending == [] ==> s'.pending == [] by { NothingWithout(id); }
    if s.pending != [] && s'.pending == [] {
      assert s'.native == {};
    }
  }

  lemma DispatchKeeps(s: State, handle: nat)
    requires Inv(s) && Enabled(s, Fired(handle))
    ensures Inv(Dispatch(s, handle)) && Line(Dispatch(s, handle)) == Line(s)
    ensures handle == s.frame
  {
    assert Ids([]) == [];
    assert Line(Dispatch(s, handle)) == Line(s);
  }

  lemma RunKeeps(s: State)
    requires Inv(s) && s.batch != []
    ensures Inv(RunNext(s)) && Line(RunNext(s)) == Line(s)
  {
    assert Ids(s.batch) == [s.batch[0].id] + Ids(s.batch[1..]);
    assert Line(RunNext(s)) == Line(s);
  }

  lemma StepKeeps(s: State, e: Event)
    requires Inv(s) && Enabled(s, e)
    ensures Inv(Step(s, e))
  {
    match e
    case Requested(owner) => RequestKeeps(s, owner);
    case Cancelled(id) => CancelKeeps(s, id);
    case Fired(handle) => DispatchKeeps(s, handle);
    case Ran => RunKeeps(s);
  }

  // ---------- runs ----------

  predicate RunEnabled(s: State, es: seq<Event>)
    decreases |es|
  {
    es == [] || (Enabled(s, es[0]) && RunEnabled(Step(s, es[0]), es[1..]))
  }

  function Run(s: State, es: seq<Event>): State
    requires RunEnabled(s, es)
    decreases |es|
  {
    if es == [] then s else Run(Step(s, es[0]), es[1..])
  }

  // In every reachable state, also inside a dispatch: a native frame is outstanding exactly when a
  // callback is pending, and then just one; the ids that ran, run and wait are in request order
  // without repetition; and every id requested is there or was cancelled while pending.
  lemma {:induction false} Reachable(s: State, es: seq<Event>)
    requires Inv(s) && RunEnabled(s, es)
    ensures Inv(Run(s, es))
    decreases |es|
  {
    if es != [] {
      StepKeeps(s, es[0]);
      Reachable(Step(s, es[0]), es[1..]);
    }
  }

  // From the start: a callback fires at most once, callbacks fire in request order, and a cancelled
  // one never fires.
  lemma FiredOnceInOrder(es: seq<Event>)
    requires RunEnabled(START, es)
    ensures var s := Run(START, es);
            && Increasing(s.fired)
            && (forall id :: id in s.fired ==> id !in s.cancelled)
            && |s.native| <= 1 && (s.native == {} <==> s.pending == [])
  {
    assert Ids([]) == [];
    assert Inv(START);
    Reachable(START, es);
    var s := Run(START, es);
    forall i, j | 0 <= i < j < |s.fired| ensures s.fired[i] < s.fired[j] {
      assert Line(s)[i] == s.fired[i] && Line(s)[j] == s.fired[j];
    }
    forall id | id in s.fired ensures id in Line(s) {
    }
  }

  /** The ids that have run or are about to in the current dispatch. */
  function Committed(s: State): seq<nat> { s.fired + Ids(s.batch) }

  predicate Quiet(es: seq<Event>) { forall i :: 0 <= i < |es| ==> !es[i].Fired? }

  lemma StepCommits(s: State, e: Event)
    requires Enabled(s, e) && !e.Fired?
    ensures Committed(Step(s, e)) == Committed(s)
  {
    if e.Ran? {
      assert Ids(s.batch) == [s.batch[0].id] + Ids(s.batch[1..]);
    }
  }

  // Requests and cancellations inside a dispatch do not touch its callbacks: whatever happens
  // between two native frames, the callbacks that were pending at the first run in their order.
  lemma {:induction false} DispatchCommits(s: State, es: seq<Event>)
    requires RunEnabled(s, es) && Quiet(es)
    ensures Committed(Run(s, es)) == Committed(s)
    decreases |es|
  {
    if es != [] {
      StepCommits(s, es[0]);
      hide Committed, Step, Enabled;
      DispatchCommits(Step(s, es[0]), es[1..]);
    }
  }

  // So once a native frame has fired and its callbacks have run, exactly the ids that were pending
  // have been added to those that ran.
  lemma PendingFires(s: State, handle: nat, es: seq<Event>)
    requires Inv(s) && Enabled(s, Fired(handle)) && RunEnabled(Dispatch(s, handle), es) && Quiet(es)
    requires Run(Dispatch(s, handle), es).batch == []
    ensures Run(Dispatch(s, handle), es).fired == s.fired + Ids(s.pending)
  {
    DispatchCommits(Dispatch(s, handle), es);
    assert Ids([]) == [];
  }

  // ---------- what a request and a cancellation do ----------

  // A request queues its callback behind the others under a new id, with a native frame outstanding.
  lemma RequestQueues(s: State, owner: nat)
    requires Inv(s)
    ensures var next, id := Request(s, owner), s.nextId + 1;
            && next.pending == s.pending + [Entry(id, owner)] && next.nextId == id
            && id !in Line(s) && next.native != {} && (s.native != {} ==> next.native == s.native)
            && next.batch == s.batch && next.fired == s.fired
  {
    hide Ids, Increasing;
  }

  /** The entries but for one. */
  function Others(entries: seq<Entry>, id: nat): (r: seq<Option<Entry>>)
    ensures |r| == |entries|
    ensures forall i :: 0 <= i < |r| ==> r[i] == if entries[i].id != id then Some(entries[i]) else None
  {
    seq(|entries|, i requires 0 <= i < |entries| => if entries[i].id != id then Some(entries[i]) else None)
  }

  lemma {:induction false} WithoutPicks(entries: seq<Entry>, id: nat) returns (p: seq<nat>)
    ensures Picks(Others(entries, id), Without(entries, id), p)
  {
    hide Picks;
    if entries == [] {
      p := NothingPicked<Entry>();
      assert Others(entries, id) == [];
    } else {
      var n := |entries| - 1;
      var x := if entries[n].id != id then Some(entries[n]) else None;
      var front := WithoutPicks(entries[..n], id);
      PicksLast(Others(entries[..n], id), x, Without(entries[..n], id), front);
      p := front + Place(x, n);
      assert x.None? ==> Without(entries[..n], id) + Then(x) == Without(entries[..n], id);
      assert Others(entries, id) == Others(entries[..n], id) + [x];
    }
  }

  // A cancellation takes exactly the callback with that id out of those that wait, and keeps the others in
  // their order; those that a dispatch has taken over are not touched.
  lemma CancelRemoves(s: State, id: nat) returns (p: seq<nat>)
    ensures Picks(Others(s.pending, id), Cancel(s, id).pending, p)
    ensures Cancel(s, id).batch == s.batch && Cancel(s, id).fired == s.fired && Cancel(s, id).nextId == s.nextId
  {
    p := WithoutPicks(s.pending, id);
    hide Picks, Without;
  }

  lemma StepCancelled(s: State, e: Event)
    requires Enabled(s, e)
    ensures s.cancelled <= Step(s, e).cancelled
  {
    hide Without, Queued;
  }

  lemma {:induction false} StaysCancelled(s: State, es: seq<Event>)
    requires RunEnabled(s, es)
    ensures s.cancelled <= Run(s, es).cancelled
    decreases |es|
  {
    hide Step, Enabled;
    if es != [] {
      StepCancelled(s, es[0]);
      StaysCancelled(Step(s, es[0]), es[1..]);
    }
  }

  lemma QueuedIsCancelled(s: State, id: nat)
    requires Queued(s.pending, id)
    ensures id in Cancel(s, id).cancelled
  {
    hide Without;
  }

  // So a callback that is cancelled while it waits never fires, whatever happens afterwards.
  lemma CancelledNeverFires(s: State, id: nat, es: seq<Event>)
    requires Inv(s) && (exists i :: 0 <= i < |s.pending| && s.pending[i].id == id) && RunEnabled(Cancel(s, id), es)
    ensures id !in Run(Cancel(s, id), es).fired
  {
    CancelKeeps(s, id);
    assert id in Cancel(s, id).cancelled by { QueuedIsCancelled(s, id); }
    StaysCancelled(Cancel(s, id), es);
    hide Cancel;
    Reachable(Cancel(s, id), es);
    var end := Run(Cancel(s, id), es);
    assert forall x :: x in end.fired ==> x in Line(end);
  }

  // ---------- the shared frame in place ----------

  /** The module's variables, with the browser's side of the native request. */
  class Multiplexer {
    var pending: seq<Entry>
    var frame: nat
    var nextId: nat
    var batch: seq<Entry>
    var native: set<nat>
    var lastHandle: nat
    ghost var fired: seq<nat>
    ghost var cancelled: set<nat>

    ghost function Now(): State
      reads this
    {
      State(pending, frame, nextId, batch, native, lastHandle, fired, cancelled)
    }

    constructor ()
      ensures Now() == START
    {
      pending, frame, nextId, batch, native, lastHandle := [], 0, 0, [], {}, 0;
      fired, cancelled := [], {};
    }

    method RequestFlowFrame(owner: nat) returns (id: nat)
      modifies this
      ensures Now() == Request(old(Now()), owner) && id == nextId
      ensures old(Inv(Now())) ==> Inv(Now())
    {
      ghost var was := Now();
      if Inv(was) {
        RequestKeeps(was, owner);
      }
      hide Inv;
      nextId := nextId + 1;
      id := nextId;
      pending := pending + [Entry(id, owner)];
      if frame == 0 {
        lastHandle := lastHandle + 1;
        native := native + {lastHandle};
        frame := lastHandle;
      }
    }

    method CancelFlowFrame(id: nat)
      modifies this
      ensures Now() == Cancel(old(Now()), id)
      ensures old(Inv(Now())) ==> Inv(Now())
    {
      ghost var was := Now();
      if Inv(was) {
        CancelKeeps(was, id);
      }
      hide Inv;
      if Queued(pending, id) {
        cancelled := cancelled + {id};
      }
      pending := Without(pending, id);
      if pending == [] && frame != 0 {
        native := native - {frame};
        frame := 0;
      }
    }

    method OnNativeFrame(handle: nat)
      requires handle in native && batch == []
      modifies this
      ensures Now() == Dispatch(old(Now()), handle)
    {
      native := native - {handle};
      frame := 0;
      batch := pending;
      pending := [];
    }

    method NextCallback() returns (e: Entry)
      requires batch != []
      modifies this
      ensures Now() == RunNext(old(Now())) && e == old(batch)[0]
    {
      e := batch[0];
      fired := fired + [e.id];
      batch := batch[1..];
    }

    // Whatever happens, the native frame and the pending callbacks stay in step.
    method OnEvent(e: Event)
      requires Enabled(Now(), e)
      modifies this
      ensures Now() == Step(old(Now()), e)
      ensures old(Inv(Now())) ==> Inv(Now())
    {
      hide Request, Cancel, Dispatch, RunNext, Inv;
      ghost var was := Now();
      match e {
        case Requested(owner) => var id := RequestFlowFrame(owner);
        case Cancelled(id) => CancelFlowFrame(id);
        case Fired(handle) => OnNativeFrame(handle);
        case Ran => var entry := NextCallback();
      }
      if Inv(was) {
        StepKeeps(was, e);
      }
    }
  }
}
