// What the operations do for the user: the messages that come back, the conversation that becomes
// active, and what a reload makes of a disk.
module ChatEffects {
  import opened Common
  import opened Picking
  import opened ChatModel
  import opened ChatWrite
  import opened ChatCrash
  import opened ChatSession
  import opened ChatDelete
  import opened ChatWait

  // ---------- messages ----------

  /** The stored forms of the messages on screen. */
  function Forms(list: seq<UiMsg>): (r: seq<Option<DiskMsg>>)
    ensures |r| == |list| && forall i :: 0 <= i < |r| ==> r[i] == list[i].disk
  {
    seq(|list|, i requires 0 <= i < |list| => list[i].disk)
  }

  // What is stored of a message list is each message that has a stored form, unchanged and in order.
  lemma {:induction false} FormPicks(list: seq<UiMsg>) returns (p: seq<nat>)
    ensures Picks(Forms(list), DiskForm(list), p)
  {
    hide Picks, Shifted;
    if list == [] {
      p := NothingPicked<DiskMsg>();
      assert Forms(list) == [];
    } else {
      var x := list[0].disk;
      var rest := FormPicks(list[1..]);
      PicksFirst(x, Forms(list[1..]), DiskForm(list[1..]), rest);
      p := Place(x, 0) + Shifted(rest);
      assert Forms(list) == [x] + Forms(list[1..]);
    }
  }

  function Readable(p: Payload): (r: seq<Option<DiskMsg>>) {
    match p
    case NotAnArray => []
    case Elements(items) =>
      seq(|items|, i requires 0 <= i < |items| => if items[i].Message? then Some(items[i].m) else None)
  }

  // What is read of a stored value is each usable message, unchanged and in order.
  lemma {:induction false} ReadPicks(items: seq<Element>) returns (p: seq<nat>)
    ensures Picks(Readable(Elements(items)), ReadMessages(Elements(items)), p)
  {
    hide Picks, Shifted;
    if items == [] {
      p := NothingPicked<DiskMsg>();
      assert Readable(Elements(items)) == [];
    } else {
      var x := if items[0].Message? then Some(items[0].m) else None;
      var rest := ReadPicks(items[1..]);
      PicksFirst(x, Readable(Elements(items[1..])), Usable(items[1..]), rest);
      p := Place(x, 0) + Shifted(rest);
      assert Readable(Elements(items)) == [x] + Readable(Elements(items[1..]));
    }
  }

  /** The places of the messages that count. */
  function CountedAt(list: seq<UiMsg>): set<nat> { set i: nat | i < |list| && list[i].counted }

  function ShownAt(body: Body): set<nat> {
    set i: nat | i < |body| && body[i].role != "system" && body[i].role != "tool"
  }

  lemma CountedStep(list: seq<UiMsg>)
    requires list != []
    ensures CountedAt(list) == (if list[0].counted then {0} else {}) + Up(CountedAt(list[1..]))
  {
    hide Up;
    assert forall i :: 0 < i < |list| ==> list[i] == list[1..][i - 1];
  }

  lemma ShownStep(body: Body)
    requires body != []
    ensures ShownAt(body) == (if Shown(body[0]) then {0} else {}) + Up(ShownAt(body[1..]))
  {
    hide Up;
    assert forall i :: 0 < i < |body| ==> body[i] == body[1..][i - 1];
  }

  // The count of a message list is the number of its messages that count.
  lemma {:induction false} CountIsSize(list: seq<UiMsg>)
    ensures CountUi(list) == |CountedAt(list)|
  {
    if list != [] {
      CountIsSize(list[1..]);
      CountedStep(list);
      hide CountedAt, Up;
      SizeStep(CountedAt(list[1..]), list[0].counted);
    }
  }

  // That of stored messages is the number of those of the user and the assistant.
  lemma {:induction false} ShownIsSize(body: Body)
    ensures CountDisk(body) == |ShownAt(body)|
  {
    if body != [] {
      ShownIsSize(body[1..]);
      ShownStep(body);
      hide ShownAt, Up, Shown;
      SizeStep(ShownAt(body[1..]), Shown(body[0]));
    }
  }

  // ---------- what a reload makes of a disk ----------

  function UsableEntries(es: seq<RawEntry>): (r: seq<Option<RawEntry>>)
    ensures |r| == |es| && forall i :: 0 <= i < |r| ==> r[i] == if es[i].Saved? then Some(es[i]) else None
  {
    seq(|es|, i requires 0 <= i < |es| => if es[i].Saved? then Some(es[i]) else None)
  }

  lemma {:induction false} EntriesParse(version: int, es: seq<RawEntry>) returns (used: seq<RawEntry>, p: seq<nat>)
    ensures Picks(UsableEntries(es), used, p) && |used| == |ParseEntries(version, es)|
    ensures forall j :: 0 <= j < |used| ==> ParseEntry(version, used[j]) == [ParseEntries(version, es)[j]]
  {
    hide Picks;
    if es == [] {
      used := [];
      p := NothingPicked<RawEntry>();
      assert UsableEntries(es) == [];
    } else {
      var n := |es| - 1;
      var x := if es[n].Saved? then Some(es[n]) else None;
      var front, q := EntriesParse(version, es[..n]);
      PicksLast(UsableEntries(es[..n]), x, front, q);
      used, p := front + Then(x), q + Place(x, n);
      assert UsableEntries(es) == UsableEntries(es[..n]) + [x];
    }
  }

  /** The body of an entry: in the index, or under its own key, or nothing. */
  function EntryBody(d: Disk, version: int, e: RawEntry): Body
    requires e.Saved?
  {
    if version == 1 || e.messages.Elements? then ReadMessages(e.messages)
    else if e.meta.id in d.bodies then ReadMessages(d.bodies[e.meta.id])
    else []
  }

  /** The count of an entry: that of a body in the index, else the stored one, else that of the body. */
  function EntryCount(d: Disk, version: int, e: RawEntry): nat
    requires e.Saved?
  {
    if version != 1 && e.messages.NotAnArray? && e.count.Some? then e.count.value
    else CountDisk(EntryBody(d, version, e))
  }

  lemma SomeUsable(es: seq<RawEntry>, used: seq<RawEntry>, p: seq<nat>)
    requires Picks(UsableEntries(es), used, p)
    ensures used != [] <==> exists i :: 0 <= i < |es| && es[i].Saved?
  {
    if used != [] {
      assert UsableEntries(es)[p[0]].Some?;
    }
    if i :| 0 <= i < |es| && es[i].Saved? {
      assert UsableEntries(es)[i].Some?;
    }
  }

  // An index counts exactly if its version is known and one of its entries is usable.
  lemma IndexedIs(d: Disk)
    ensures Indexed(d) <==>
            d.index.Index? && d.index.version in {1, 2} &&
            exists i :: 0 <= i < |d.index.entries| && d.index.entries[i].Saved?
  {
    hide Picks, ParseEntries, UsableEntries;
    if d.index.Index? && d.index.version in {1, 2} {
      var used, p := EntriesParse(d.index.version, d.index.entries);
      SomeUsable(d.index.entries, used, p);
    }
  }

  /** A loaded conversation is what the entry says. */
  predicate ShowsEntry(d: Disk, r: Session, c: Conv, e: RawEntry)
    requires d.index.Index?
  {
    && e.Saved? && c.meta == e.meta && c.count == EntryCount(d, d.index.version, e)
    && c.messages.Deferred? && DeferredRead(r.store, c.meta.id) == EntryBody(d, d.index.version, e)
  }

  lemma LoadedEntry(d: Disk, e: RawEntry, j: nat, freshId: Id, now: int)
    requires Indexed(d) && UniqueLoaded(Recovered(d)) && j < |Recovered(d)|
    requires ParseEntry(d.index.version, e) == [Recovered(d)[j]]
    ensures var r := Load(d, freshId, now); ShowsEntry(d, r, r.state.convs[j], e)
  {
    hide Pending, StoredIds, Usable, CountDisk, ActiveOf;
    PendingAt(Recovered(d), j);
    assert Recovered(d)[j] == ParseEntry(d.index.version, e)[0];
  }

  // With a usable index, a reload shows its usable entries, each as it was saved, in order.
  lemma LoadShowsIndex(d: Disk, freshId: Id, now: int) returns (used: seq<RawEntry>, p: seq<nat>)
    requires Indexed(d) && UniqueLoaded(Recovered(d))
    ensures var r := Load(d, freshId, now);
            && Picks(UsableEntries(d.index.entries), used, p) && |used| == |r.state.convs|
            && forall j :: 0 <= j < |used| ==> ShowsEntry(d, r, r.state.convs[j], used[j])
  {
    hide ShowsEntry, Picks, Visible;
    used, p := EntriesParse(d.index.version, d.index.entries);
    forall j | 0 <= j < |used|
      ensures ShowsEntry(d, Load(d, freshId, now), Load(d, freshId, now).state.convs[j], used[j])
    {
      LoadedEntry(d, used[j], j, freshId, now);
    }
  }

  /** The most recently updated of all, the first in the list among equals. */
  predicate NewestAt(cs: seq<Conv>, i: nat) {
    && i < |cs|
    && (forall j :: 0 <= j < |cs| ==> cs[j].meta.updatedAt <= cs[i].meta.updatedAt)
    && (forall j :: 0 <= j < i ==> cs[j].meta.updatedAt < cs[i].meta.updatedAt)
  }

  // It activates the saved conversation, or the newest one if that is not among them.
  lemma LoadActivatesIndex(d: Disk, freshId: Id, now: int) returns (i: nat)
    requires Indexed(d)
    ensures var v := Load(d, freshId, now).state;
            && i < |v.convs| && v.active == v.convs[i].meta.id
            && if Has(v.convs, d.index.active) then v.active == d.index.active else NewestAt(v.convs, i)
  {
    IndexedIs(d);
    hide LoadedCount, Pending, StoredIds, IndexEntries;
    var ls, v := Recovered(d), Load(d, freshId, now).state;
    var found := Lookup(ls, d.index.active);
    if found.Some? {
      var k :| 0 <= k < |ls| && ls[k] == found.value;
      i := k;
      assert v.convs[i] in v.convs;
    } else {
      i := NewestIsFirst(LoadedMetas(ls));
      forall c | c in v.convs ensures c.meta.id != d.index.active {
        var j :| 0 <= j < |v.convs| && v.convs[j] == c;
        assert c.meta.id == ls[j].meta.id;
      }
    }
  }

  /** The legacy histories that hold a message. */
  function Histories(ls: seq<Legacy>): (r: seq<Option<Legacy>>)
    ensures |r| == |ls|
    ensures forall i :: 0 <= i < |r| ==> r[i] == if ReadMessages(ls[i].messages) != [] then Some(ls[i]) else None
  {
    seq(|ls|, i requires 0 <= i < |ls| => if ReadMessages(ls[i].messages) != [] then Some(ls[i]) else None)
  }

  lemma {:induction false} HistoriesParse(ls: seq<Legacy>) returns (used: seq<Legacy>, p: seq<nat>)
    ensures Picks(Histories(ls), used, p) && |used| == |LegacyEntries(ls)|
    ensures forall j :: 0 <= j < |used| ==> LegacyEntry(used[j]) == [LegacyEntries(ls)[j]]
  {
    hide Picks, ReadMessages;
    if ls == [] {
      used := [];
      p := NothingPicked<Legacy>();
      assert Histories(ls) == [];
    } else {
      var n := |ls| - 1;
      var x := if ReadMessages(ls[n].messages) != [] then Some(ls[n]) else None;
      var front, q := HistoriesParse(ls[..n]);
      PicksLast(Histories(ls[..n]), x, front, q);
      used, p := front + Then(x), q + Place(x, n);
      assert Histories(ls) == Histories(ls[..n]) + [x];
    }
  }

  /** A loaded conversation is the legacy history of its server. */
  predicate ShowsHistory(r: Session, c: Conv, l: Legacy, now: int) {
    && c.meta == Meta("legacy-" + l.serverId, l.serverId, l.serverId, l.title, now, now)
    && c.messages.Deferred? && DeferredRead(r.store, c.meta.id) == ReadMessages(l.messages)
    && c.count == CountDisk(ReadMessages(l.messages))
  }

  lemma LoadedHistory(d: Disk, l: Legacy, j: nat, freshId: Id, now: int)
    requires !Indexed(d) && UniqueLoaded(Recovered(d)) && j < |Recovered(d)|
    requires LegacyEntry(l) == [Recovered(d)[j]]
    ensures var r := Load(d, freshId, now); j < |r.state.convs| && ShowsHistory(r, r.state.convs[j], l, now)
  {
    hide Pending, StoredIds, ReadMessages, CountDisk, OnServer;
    PendingAt(Recovered(d), j);
    assert Recovered(d)[j] == LegacyEntry(l)[0];
  }

  // Without a usable index, a reload shows the legacy histories that hold a message, in order, and
  // activates the first local one, or a new empty local conversation behind them if there is none.
  lemma LoadShowsLegacy(d: Disk, freshId: Id, now: int) returns (used: seq<Legacy>, p: seq<nat>, i: nat)
    requires !Indexed(d) && UniqueLoaded(Recovered(d))
    ensures var r := Load(d, freshId, now);
            && Picks(Histories(d.legacy), used, p) && |used| <= |r.state.convs|
            && (forall j :: 0 <= j < |used| ==> ShowsHistory(r, r.state.convs[j], used[j], now))
            && i < |r.state.convs| && r.state.active == r.state.convs[i].meta.id
            && r.state.convs[i].meta.serverId == "local"
            && (forall j :: 0 <= j < i ==> r.state.convs[j].meta.serverId != "local")
            && (if i < |used| then |r.state.convs| == |used|
                else i == |used| && |r.state.convs| == |used| + 1 && r.state.convs[i] == NewConv(freshId, "local", now))
  {
    hide Picks, ShowsHistory, Visible, Pending, StoredIds, LoadedCount, LegacyEntries, IndexEntries;
    hide ReadMessages, Stamped;
    used, p := HistoriesParse(d.legacy);
    assert |used| == |Recovered(d)|;
    forall j | 0 <= j < |used|
      ensures j < |Load(d, freshId, now).state.convs|
      ensures ShowsHistory(Load(d, freshId, now), Load(d, freshId, now).state.convs[j], used[j], now)
    {
      LoadedHistory(d, used[j], j, freshId, now);
    }
    var cs := LoadedConvs(d, now);
    if OnServer(cs, "local") != [] {
      i := OnServerAt(cs, "local", 0);
      assert cs[i] in OnServer(cs, "local");
      forall j | 0 <= j < i ensures cs[j].meta.serverId != "local" {
        assert cs[..i][j] !in OnServer(cs[..i], "local");
      }
    } else {
      i := |cs|;
      forall j | 0 <= j < i ensures cs[j].meta.serverId != "local" {
        assert cs[j] !in OnServer(cs, "local");
      }
    }
  }

  // ---------- what is written comes back ----------

  // The user's messages are on screen in the active conversation, with their number and the title.
  lemma MessagesShown(s: Session, list: seq<UiMsg>, title: string, now: int) returns (i: nat, p: seq<nat>)
    requires Sound(s)
    ensures var s' := SetMessages(s, list, title, now);
            && s'.dirty && s'.state.active == s.state.active && |s'.state.convs| == |s.state.convs|
            && i < |s.state.convs| && s.state.convs[i].meta.id == s.state.active
            && (forall j :: 0 <= j < |s.state.convs| && j != i ==> s'.state.convs[j] == s.state.convs[j])
            && var c := s'.state.convs[i];
               && c.meta == s.state.convs[i].meta.(title := title, updatedAt := now)
               && c.count == |CountedAt(list)|
               && c.messages == Held(list) && Picks(Forms(list), Visible(s'.store, c), p)
  {
    hide Tracked, Recovered, UniqueLoaded, Picks;
    i :| 0 <= i < |s.state.convs| && s.state.convs[i].meta.id == s.state.active;
    p := FormPicks(list);
    CountIsSize(list);
  }

  // After a flush that succeeded, a reload gives back the session with all that the user sees.
  lemma FlushedReloads(s: Session, k: nat, freshId: Id, later: int)
    requires Inv(s) && s.dirty && !Flush(s, k).dirty
    ensures Reloads(Flush(s, k).store, s.state, freshId, later) && Indexed(Flush(s, k).store.disk)
    ensures forall c :: c in s.state.convs ==> Visible(Flush(s, k).store, c) == Visible(s.store, c)
  {
    hide Tracked, UniqueLoaded, Recovered, Reloads, Mirrors, Written;
    FlushKeeps(s, k);
    RecoveredAfterWrite(s.store, s.state, k);
    assert Indexed(Flush(s, k).store.disk) by { MirrorIndexed(Flush(s, k).store.disk, s.state); }
    CleanMeansSaved(Flush(s, k), freshId, later);
  }

  lemma ReloadedAll(s: Session, k: nat, freshId: Id, later: int)
    requires Inv(s) && s.dirty && !Flush(s, k).dirty
    ensures var r := Load(Flush(s, k).store.disk, freshId, later);
            && Indexed(Flush(s, k).store.disk)
            && r.state.active == s.state.active && |r.state.convs| == |s.state.convs|
            && forall j :: 0 <= j < |s.state.convs| ==>
                 && r.state.convs[j].meta == s.state.convs[j].meta
                 && Visible(r.store, r.state.convs[j]) == Visible(s.store, s.state.convs[j])
  {
    FlushedReloads(s, k, freshId, later);
    hide Inv, Visible, Load, Flush;
    assert forall j :: 0 <= j < |s.state.convs| ==> s.state.convs[j] in s.state.convs;
  }

  lemma ReloadDefers(d: Disk, freshId: Id, now: int, i: nat)
    requires Indexed(d) && i < |Load(d, freshId, now).state.convs|
    ensures var r := Load(d, freshId, now);
            Visible(r.store, r.state.convs[i]) == DeferredRead(r.store, r.state.convs[i].meta.id)
  {
    hide Recovered, LoadedCount, ActiveOf, Pending, StoredIds;
  }

  lemma OthersShown(s: Session, list: seq<UiMsg>, title: string, now: int, i: nat, j: nat)
    requires Sound(s) && i < |s.state.convs| && j < |s.state.convs| && i != j
    requires s.state.convs[i].meta.id == s.state.active
    ensures var s' := SetMessages(s, list, title, now);
            Visible(s'.store, s'.state.convs[j]) == Visible(s.store, s.state.convs[j])
  {
    hide Tracked, UniqueLoaded, Recovered;
  }

  // Once a write succeeds, a reload shows in the active conversation exactly the messages that were
  // set: each that has a stored form, unchanged and in order. The others come back as they were.
  lemma MessagesComeBack(s: Session, list: seq<UiMsg>, title: string, now: int, k: nat, freshId: Id, later: int)
    returns (i: nat, p: seq<nat>)
    requires Sound(s) && !Flush(SetMessages(s, list, title, now), k).dirty
    ensures var r := Load(Flush(SetMessages(s, list, title, now), k).store.disk, freshId, later);
            && r.state.active == s.state.active && |r.state.convs| == |s.state.convs|
            && i < |s.state.convs| && s.state.convs[i].meta.id == s.state.active
            && r.state.convs[i].meta == s.state.convs[i].meta.(title := title, updatedAt := now)
            && Picks(Forms(list), DeferredRead(r.store, s.state.active), p)
            && forall j :: 0 <= j < |s.state.convs| && j != i ==>
                 && r.state.convs[j].meta == s.state.convs[j].meta
                 && Visible(r.store, r.state.convs[j]) == Visible(s.store, s.state.convs[j])
  {
    hide Sound, Picks, Visible, Reloads, Load, DeferredRead;
    i, p := MessagesShown(s, list, title, now);
    var s' := SetMessages(s, list, title, now);
    SetMessagesKeeps(s, list, title, now);
    FlushedReloads(s', k, freshId, later);
    ReloadedAll(s', k, freshId, later);
    ReloadDefers(Flush(s', k).store.disk, freshId, later, i);
    forall j | 0 <= j < |s.state.convs| && j != i
      ensures Visible(s'.store, s'.state.convs[j]) == Visible(s.store, s.state.convs[j])
    {
      OthersShown(s, list, title, now, i, j);
    }
  }

  // ---------- the conversation that becomes active ----------

  /** The conversation at the front is a new and empty one of the server. */
  predicate NewInFront(v: ChatState, freshId: Id, serverId: string, now: int) {
    && v.convs != []
    && var c := v.convs[0];
       && c.meta.id == freshId && c.meta.serverId == serverId && c.meta.sessionKey == freshId && c.meta.title == ""
       && c.meta.createdAt == now && c.meta.updatedAt == now && c.count == 0 && c.messages == Held([])
  }

  // Creating activates the new conversation, which is empty, on the server and in front of the others.
  lemma CreateActivates(s: Session, serverId: string, freshId: Id, now: int, k1: nat, k2: nat)
    ensures var v := Create(s, serverId, freshId, now, k1, k2).state;
            v.active == freshId && NewInFront(v, freshId, serverId, now) && v.convs[1..] == s.state.convs
  {
    hide Written;
  }

  // Whichever way a server is selected, afterwards the active conversation is on it: the most recently
  // updated of those it has, the first in the list among equals, or a new one if it has none.
  lemma ServerActivates(s: Session, serverId: string, freshId: Id, now: int, k1: nat, k2: nat) returns (i: nat)
    requires Sound(s)
    ensures var v := SelectServer(s, serverId, freshId, now, k1, k2).state;
            && i < |v.convs| && v.convs[i].meta.id == v.active && v.convs[i].meta.serverId == serverId
            && (if exists c :: c in s.state.convs && c.meta.serverId == serverId
                then v.convs == s.state.convs && NewestOn(v.convs, serverId, i)
                else i == 0 && NewInFront(v, freshId, serverId, now) && v.convs[1..] == s.state.convs)
  {
    hide Written, Tracked, Recovered, UniqueLoaded, Create, Select;
    var existing := OnServer(s.state.convs, serverId);
    if existing != [] {
      assert existing[0] in existing;
      i := SelectsNewest(s, serverId, freshId, now, k1, k2);
    } else {
      forall c | c in s.state.convs ensures c.meta.serverId != serverId {
        assert c !in existing;
      }
      i := 0;
      CreateActivates(s, serverId, freshId, now, k1, k2);
    }
  }

  // ---------- both flushes of a switch ----------

  // Selecting or creating saves at once: when the write after the switch succeeds, a reload shows the
  // new state.
  lemma SwitchIsSaved(s: Session, next: ChatState, k: nat, freshId: Id, later: int)
    requires Sound(Update(s, next)) && !Flush(Update(s, next), k).dirty
    ensures Reloads(Flush(Update(s, next), k).store, next, freshId, later)
  {
    hide Sound, Reloads, Flush;
    FlushedReloads(Update(s, next), k, freshId, later);
  }

  lemma SelectIsSaved(s: Session, id: Id, k1: nat, k2: nat, freshId: Id, later: int)
    requires Sound(s) && Has(s.state.convs, id) && id != s.state.active && !Select(s, id, k1, k2).dirty
    ensures var s' := Select(s, id, k1, k2);
            s'.state == s.state.(active := id) && Reloads(s'.store, s'.state, freshId, later)
  {
    hide Reloads, StoreOk, Has, UniqueIds, Written;
    FlushKeeps(s, k1);
    SwitchIsSaved(Flush(s, k1), s.state.(active := id), k2, freshId, later);
  }

  lemma CreateIsSaved(s: Session, serverId: string, newId: Id, now: int, k1: nat, k2: nat, freshId: Id, later: int)
    requires Sound(s) && Fresh(s, newId) && !Create(s, serverId, newId, now, k1, k2).dirty
    ensures var s' := Create(s, serverId, newId, now, k1, k2); Reloads(s'.store, s'.state, freshId, later)
  {
    hide Reloads, Sound, Fresh, Written;
    FlushKeeps(s, k1);
    FreshAfterFlush(s, newId, k1);
    AddKeeps(Flush(s, k1), serverId, newId, now);
    SwitchIsSaved(Flush(s, k1), ChatState(newId, [NewConv(newId, serverId, now)] + s.state.convs), k2, freshId, later);
  }

  // And what was there before is saved first: even if no write after the switch succeeds, a reload
  // shows the state before it.
  lemma SavedBefore(s: Session, next: ChatState, k: nat, freshId: Id, later: int)
    requires Inv(s) && s.dirty && !Flush(s, k).dirty
    ensures Reloads(Flush(Update(Flush(s, k), next), 0).store, s.state, freshId, later)
  {
    hide Inv, Reloads, Written;
    FlushedReloads(s, k, freshId, later);
    NoWriteFails(Flush(s, k).store, next);
  }

  lemma SelectSavesFirst(s: Session, id: Id, k: nat, freshId: Id, later: int)
    requires Inv(s) && s.dirty && !Flush(s, k).dirty
    ensures Reloads(Select(s, id, k, 0).store, s.state, freshId, later) || Select(s, id, k, 0) == s
  {
    hide Inv, Reloads, Flush;
    SavedBefore(s, s.state.(active := id), k, freshId, later);
  }

  lemma CreateSavesFirst(s: Session, serverId: string, newId: Id, now: int, k: nat, freshId: Id, later: int)
    requires Inv(s) && s.dirty && !Flush(s, k).dirty
    ensures Reloads(Create(s, serverId, newId, now, k, 0).store, s.state, freshId, later)
  {
    hide Inv, Reloads, Flush;
    SavedBefore(s, ChatState(newId, [NewConv(newId, serverId, now)] + s.state.convs), k, freshId, later);
  }

  // ---------- the order after a deletion ----------

  /** The conversations but for one. */
  function Others(cs: seq<Conv>, id: Id): (r: seq<Option<Conv>>)
    ensures |r| == |cs| && forall i :: 0 <= i < |r| ==> r[i] == if cs[i].meta.id != id then Some(cs[i]) else None
  {
    seq(|cs|, i requires 0 <= i < |cs| => if cs[i].meta.id != id then Some(cs[i]) else None)
  }

  lemma {:induction false} RemovePicks(cs: seq<Conv>, id: Id) returns (p: seq<nat>)
    ensures Picks(Others(cs, id), Remove(cs, id), p)
  {
    hide Picks;
    if cs == [] {
      p := NothingPicked<Conv>();
      assert Others(cs, id) == [];
    } else {
      var n := |cs| - 1;
      var x := if cs[n].meta.id != id then Some(cs[n]) else None;
      var front := RemovePicks(cs[..n], id);
      PicksLast(Others(cs[..n], id), x, Remove(cs[..n], id), front);
      p := front + Place(x, n);
      assert Others(cs, id) == Others(cs[..n], id) + [x];
    }
  }

  // A deletion that goes through leaves the others as they were, in their order, behind a new and empty
  // conversation if the active one was the last of its server.
  lemma DeletedKeepsOrder(v: ChatState, c: Conv, freshId: Id, now: int) returns (left: seq<Conv>, p: seq<nat>)
    requires StateOk(v) && c in v.convs
    ensures Picks(Others(v.convs, c.meta.id), left, p)
    ensures var next := StateWithout(v, c.meta.id, freshId, now);
            if c.meta.id == v.active && forall x :: x in left ==> x.meta.serverId != c.meta.serverId then
              next.active == freshId && NewInFront(next, freshId, c.meta.serverId, now) && next.convs[1..] == left
            else
              next.convs == left && (c.meta.id != v.active ==> next.active == v.active)
  {
    p := RemovePicks(v.convs, c.meta.id);
    left := Remove(v.convs, c.meta.id);
    ServerOfAt(v.convs, c);
    hide Remove, ServerOf, Picks;
    var same := OnServer(left, c.meta.serverId);
    if same != [] {
      assert same[0] in same && same[0] in left;
    }
    forall x | x in left && x.meta.serverId == c.meta.serverId ensures same != [] {
      assert x in same;
    }
  }

  // ---------- the keys after a deletion ----------

  // A deletion that is given up, before the backend is asked or after its failure, takes back what only the
  // abandoned state has: it does not count as stored, and its key goes if the removal works.
  lemma GivenUpDropsNew(s: Session, id: Id, env: DeleteEnv, next: ChatState, x: Id)
    requires Has(s.state.convs, id) && !Has(s.state.convs, x)
    ensures var (s', how) := SaveWithout(s, id, env);
            how.NotSaved? && Has(StateWithout(s.state, id, env.freshId, env.now).convs, x) ==>
              x !in s'.store.stored && (x in env.discarded ==> x !in s'.store.disk.bodies)
    ensures var (s', result) := EndDelete(s, id, next, env);
            result == CleanupFailed(true) && Has(next.convs, x) ==>
              x !in s'.store.stored && (x in env.discarded ==> x !in s'.store.disk.bodies)
  {
    hide Written, StateWithout;
  }

  // What the failed write did to the others before it failed stays done.
  lemma GivenUpKeepsOthers(s: Session, id: Id, env: DeleteEnv, y: Id)
    requires Has(s.state.convs, id) && Has(s.state.convs, y)
    requires SaveWithout(s, id, env).1.NotSaved?
    ensures var w := Written(s.store, StateWithout(s.state, id, env.freshId, env.now), env.save).store;
            var st := SaveWithout(s, id, env).0.store;
            && (y in st.stored <==> y in w.stored) && st.pending == w.pending && st.changed == w.changed
            && (y in st.disk.bodies <==> y in w.disk.bodies)
            && (y in w.disk.bodies ==> st.disk.bodies[y] == w.disk.bodies[y])
            && st.disk == w.disk.(bodies := st.disk.bodies)
  {
    hide Written, StateWithout;
  }

  // While the backend is waited for, the first flush that succeeds saves the session, and later ones leave it.
  lemma {:induction false} WaitSavesOnce(s: Session, ks: seq<nat>, j: nat)
    requires j < |ks| && !Flush(FlushAll(s, ks[..j]), ks[j]).dirty
    ensures FlushAll(s, ks) == Flush(FlushAll(s, ks[..j]), ks[j])
  {
    var n := |ks| - 1;
    if j < n {
      assert ks[..n][..j] == ks[..j];
      WaitSavesOnce(s, ks[..n], j);
      assert !FlushAll(s, ks[..n]).dirty;
    }
  }

  // One that goes through leaves nothing of the conversation but a key that could not be removed, and
  // everything of the others.
  lemma DeletedLeavesOthers(s: Session, id: Id, next: ChatState, env: DeleteEnv)
    requires EndDelete(s, id, next, env).1.Deleted?
    ensures var st, st' := s.store, EndDelete(s, id, next, env).0.store;
            && id !in st'.stored && id !in st'.pending && id !in st'.changed
            && (env.removeOk ==> id !in st'.disk.bodies)
            && st'.stored + {id} == st.stored + {id} && st'.changed + {id} == st.changed + {id}
            && st'.pending == st.pending - {id} && st'.disk.bodies - {id} == st.disk.bodies - {id}
            && st'.disk == st.disk.(bodies := st'.disk.bodies)
  {
  }
}
