// The hook itself: fields updated in place over a key/value store whose writes may fail. Each method
// is proved against the operation of ChatSession; its ghost results say how many of its storage
// writes succeeded.
module ChatPersistence {
  import opened Common
  import opened ChatModel
  import opened ChatWrite
  import opened ChatSession

  /** The part of local storage that the hook uses. Any write or removal may throw. */
  class LocalStorage {
    var index: RawIndex
    var bodies: map<Id, Payload>
    const legacy: seq<Legacy>

    constructor (disk: Disk)
      ensures Content() == disk
    {
      index, bodies, legacy := disk.index, disk.bodies, disk.legacy;
    }

    function Content(): Disk
      reads this
    {
      Disk(index, bodies, legacy)
    }

    method SetIndex(value: RawIndex) returns (ok: bool)
      modifies this`index
      ensures index == if ok then value else old(index)
    {
      ok := *;
      if ok {
        index := value;
      }
    }

    method SetBody(id: Id, body: Body) returns (ok: bool)
      modifies this`bodies
      ensures bodies == if ok then old(bodies)[id := ToPayload(body)] else old(bodies)
    {
      ok := *;
      if ok {
        bodies := bodies[id := ToPayload(body)];
      }
    }

    method RemoveBody(id: Id) returns (ok: bool)
      modifies this`bodies
      ensures bodies == if ok then old(bodies) - {id} else old(bodies)
    {
      ok := *;
      if ok {
        bodies := bodies - {id};
      }
    }
  }

  lemma {:induction false} PrefixParses(version: int, entries: seq<RawEntry>, i: nat)
    requires i <= |entries|
    ensures ParseEntries(version, entries[..i]) <= ParseEntries(version, entries)
  {
    if i < |entries| {
      PrefixParses(version, entries[..|entries| - 1], i);
      assert entries[..|entries| - 1][..i] == entries[..i];
    } else {
      assert entries[..i] == entries;
    }
  }

  lemma NewIdNotPending(version: int, entries: seq<RawEntry>, i: nat)
    requires i < |entries| && entries[i].Saved? && UniqueLoaded(ParseEntries(version, entries))
    ensures entries[i].meta.id !in Pending(ParseEntries(version, entries[..i]))
  {
    var id, before, all := entries[i].meta.id, ParseEntries(version, entries[..i]), ParseEntries(version, entries);
    PrefixParses(version, entries, i + 1);
    assert entries[..i + 1][..i] == entries[..i];
    assert all[|before|].meta.id == id;
    assert forall j :: 0 <= j < |before| ==> before[j] == all[j];
    PendingMember(before, id);
  }

  lemma ScanStep(ls: seq<Loaded>, l: Loaded)
    ensures Pending(ls + [l]) == if l.embedded.Some? then Pending(ls)[l.meta.id := l.embedded.value] else Pending(ls)
    ensures StoredIds(ls + [l]) == StoredIds(ls) + (if l.embedded.None? then {l.meta.id} else {})
  {
    assert (ls + [l])[..|ls|] == ls;
  }

  // The beginning of a deletion that gets to its wait does not depend on what comes after it.
  lemma BeginIgnores(s: Session, id: Id, env: DeleteEnv, env': DeleteEnv)
    requires ChatSession.BeginDelete(s, id, env).1.Waits?
    requires env' == env.(cleanup := env'.cleanup, restore := env'.restore, discarded := env'.discarded,
                          removeOk := env'.removeOk)
    ensures ChatSession.BeginDelete(s, id, env') == ChatSession.BeginDelete(s, id, env)
  {
    hide Written, StateWithout, NewIds, Discard;
  }

  class Chat {
    const storage: LocalStorage
    var pending: map<Id, Body>
    var stored: set<Id>
    var changed: set<Id>
    var active: Id
    var convs: seq<Conv>
    var dirty: bool

    function Books(): Store
      reads this, storage
    {
      Store(storage.Content(), pending, stored, changed)
    }

    ghost function Current(): Session
      reads this, storage
    {
      Session(Books(), ChatState(active, convs), dirty)
    }

    // loadConversations: the index first, then the legacy keys, then at least a local conversation.
    constructor (storage: LocalStorage, freshId: Id, now: int)
      requires UniqueLoaded(Recovered(storage.Content()))
      ensures this.storage == storage
      ensures Current() == Load(storage.Content(), freshId, now)
    {
      this.storage := storage;
      pending, stored, changed, dirty, active, convs := map[], {}, {}, false, freshId, [];
      new;
      assert Scanned([]) && ScannedLegacy([], now);
      LoadConversations(freshId, now);
      assert changed == {} && !dirty;
    }

    method LoadConversations(freshId: Id, now: int)
      requires UniqueLoaded(Recovered(storage.Content())) && Scanned([]) && ScannedLegacy([], now)
      modifies this`pending, this`stored, this`convs, this`active
      ensures Session(Books().(changed := {}), ChatState(active, convs), false) == Load(storage.Content(), freshId, now)
    {
      hide LoadState, Pending, StoredIds;
      var found := LoadIndex(freshId, now);
      if !found {
        LoadLegacy(now);
        ActivateLocal(freshId, now);
      }
    }

    // The first half of the load: the index, if it has a usable entry.
    method LoadIndex(freshId: Id, now: int) returns (found: bool)
      requires UniqueLoaded(Recovered(storage.Content())) && Scanned([])
      modifies this`pending, this`stored, this`convs, this`active
      ensures found == Indexed(storage.Content())
      ensures found ==> ChatState(active, convs) == LoadState(storage.Content(), freshId, now)
      ensures found ==> var ls := Recovered(storage.Content()); pending == Pending(ls) && stored == StoredIds(ls)
      ensures !found ==> ScannedLegacy([], now)
    {
      var index := storage.index;
      if index.Index? && (index.version == 1 || index.version == 2) {
        LoadEntries(index.version, index.entries);
        if convs != [] {
          ActivateSaved(now);
          return true;
        }
      }
      return false;
    }

    method ActivateSaved(now: int)
      requires var ls := IndexEntries(storage.index); ls != [] && Scanned(ls)
      modifies this`active
      ensures var d := storage.Content();
              && Indexed(d) && convs == LoadedConvs(d, now)
              && active == ActiveOf(d.index.active, Recovered(d))
              && pending == Pending(Recovered(d)) && stored == StoredIds(Recovered(d))
    {
      var d := storage.Content();
      active := ActiveOf(d.index.active, Recovered(d));
      assert convs == LoadedConvs(d, now);
    }

    method ActivateLocal(freshId: Id, now: int)
      requires !Indexed(storage.Content()) && ScannedLegacy(LegacyEntries(storage.legacy), now)
      modifies this`active, this`convs
      ensures ChatState(active, convs) == LoadState(storage.Content(), freshId, now)
    {
      assert convs == LoadedConvs(storage.Content(), now);
      var local := OnServer(convs, "local");
      if local != [] {
        active := local[0].meta.id;
      } else {
        active := freshId;
        convs := convs + [NewConv(freshId, "local", now)];
      }
    }

    /** The conversations loaded so far, with their bookkeeping. */
    ghost predicate Scanned(ls: seq<Loaded>)
      reads this, storage
    {
      && pending == Pending(ls) && stored == StoredIds(ls)
      && |convs| == |ls|
      && forall j :: 0 <= j < |ls| ==> convs[j] == LoadedConv(storage.Content(), ls[j])
    }

    method LoadEntries(version: int, entries: seq<RawEntry>)
      requires UniqueLoaded(ParseEntries(version, entries)) && Scanned([])
      modifies this`pending, this`stored, this`convs
      ensures Scanned(ParseEntries(version, entries))
    {
      hide Pending, StoredIds, LoadedConv, UniqueLoaded;
      for i := 0 to |entries|
        invariant Scanned(ParseEntries(version, entries[..i]))
      {
        ghost var ls := ParseEntries(version, entries[..i]);
        assert entries[..i + 1][..i] == entries[..i];
        if entries[i].Saved? {
          NewIdNotPending(version, entries, i);
          PendingMember(ls, entries[i].meta.id);
          LoadEntry(version, entries[i].meta, entries[i].count, entries[i].messages, ls);
        } else {
          assert ls + [] == ls;
        }
      }
      assert entries[..|entries|] == entries;
    }

    method LoadEntry(version: int, meta: Meta, count: Option<nat>, messages: Payload, ghost ls: seq<Loaded>)
      requires Scanned(ls) && meta.id !in pending
      modifies this`pending, this`stored, this`convs
      ensures Scanned(ls + ParseEntry(version, Saved(meta, count, messages)))
    {
      ScanStep(ls, ParseEntry(version, Saved(meta, count, messages))[0]);
      if version == 1 || messages.Elements? {
        var body := ReadMessages(messages);
        pending := pending[meta.id := body];
        convs := convs + [Conv(meta, CountDisk(body), Deferred)];
      } else {
        stored := stored + {meta.id};
        var body := DeferredRead(Books(), meta.id);
        convs := convs + [Conv(meta, if count.Some? then count.value else CountDisk(body), Deferred)];
      }
    }

    /** The legacy histories loaded so far. */
    ghost predicate ScannedLegacy(ls: seq<Loaded>, now: int)
      reads this, storage
    {
      && pending == Pending(ls) && stored == StoredIds(ls)
      && |convs| == |ls|
      && forall j :: 0 <= j < |ls| ==> convs[j] == Stamped(LoadedConv(storage.Content(), ls[j]), now)
    }

    method LoadLegacy(now: int)
      requires ScannedLegacy([], now)
      modifies this`pending, this`convs
      ensures ScannedLegacy(LegacyEntries(storage.legacy), now)
    {
      for i := 0 to |storage.legacy|
        invariant ScannedLegacy(LegacyEntries(storage.legacy[..i]), now)
      {
        assert storage.legacy[..i + 1][..i] == storage.legacy[..i];
        LoadLegacyEntry(storage.legacy[i], now, LegacyEntries(storage.legacy[..i]));
      }
      assert storage.legacy[..|storage.legacy|] == storage.legacy;
    }

    method LoadLegacyEntry(l: Legacy, now: int, ghost ls: seq<Loaded>)
      requires ScannedLegacy(ls, now)
      modifies this`pending, this`convs
      ensures ScannedLegacy(ls + LegacyEntry(l), now)
    {
      var body := ReadMessages(l.messages);
      if body == [] {
        assert ls + [] == ls;
        return;
      }
      ScanStep(ls, LegacyEntry(l)[0]);
      var meta := Meta("legacy-" + l.serverId, l.serverId, l.serverId, l.title, now, now);
      pending := pending[meta.id := body];
      convs := convs + [Conv(meta, CountDisk(body), Deferred)];
    }

    method CollectBodies(cs: seq<Conv>) returns (bodies: map<Id, Body>, keys: seq<Id>)
      ensures bodies == PlanBodies(Books(), cs) && keys == PlanIds(Books(), cs)
    {
      bodies, keys := map[], [];
      for i := 0 to |cs|
        invariant bodies == PlanBodies(Books(), cs[..i]) && keys == PlanIds(Books(), cs[..i])
      {
        var c := cs[i];
        assert cs[..i + 1][..i] == cs[..i];
        if c.meta.id in changed || c.meta.id !in stored {
          var body;
          if c.meta.id in changed || c.meta.id !in pending {
            body := match c.messages
              case Held(list) => DiskForm(list)
              case Deferred => DeferredRead(Books(), c.meta.id);
          } else {
            body := pending[c.meta.id];
          }
          bodies := bodies[c.meta.id := body];
          if c.meta.id !in keys {
            keys := keys + [c.meta.id];
          }
        }
      }
      assert cs[..|cs|] == cs;
    }

    // One turn of the write loop: a body, and in a migration the index without it. `n` counts the
    // writes that succeeded.
    method WriteBody(value: ChatState, bodies: map<Id, Body>, id: Id, migrating: bool) returns (ok: bool, ghost n: nat)
      requires id in bodies
      modifies this`pending, this`stored, storage
      ensures ok ==> n == if migrating then 2 else 1
      ensures !ok ==> n == 0 || (n == 1 && migrating)
      ensures var put := Put(old(Books()), id, bodies[id]);
              Books() == if ok then Settle(if migrating then Reindex(put, value, bodies) else put, id)
                         else if n == 0 then old(Books()) else Unstore(put, id)
    {
      n := 0;
      ok := storage.SetBody(id, bodies[id]);
      if !ok {
        return;
      }
      n := 1;
      stored := stored + {id};
      if migrating {
        ok := storage.SetIndex(IndexOf(value, bodies, stored));
        if !ok {
          stored := stored - {id};
          return;
        }
        n := 2;
      }
      pending := pending - {id};
    }

    // writeStored
    method WriteStored(value: ChatState) returns (ok: bool, ghost k: nat)
      modifies this`pending, this`stored, this`changed, storage
      ensures Written(old(Books()), value, k) == Outcome(Books(), ok)
    {
      hide Written, After, IndexOf, WriteOrder, PlanBodies, PlanIds;
      ghost var st := Books();
      var bodies, keys := CollectBodies(value.convs);
      var migrating := pending != map[];
      var order := WriteOrder(keys, value.active);
      k := 0;
      NothingWritten(st, value);
      for i := 0 to |order|
        invariant k == if migrating then 2 * i else i
        invariant Books() == After(st, value, i)
      {
        ghost var n;
        BodyFails(st, value, i);
        if migrating {
          BodyMigrated(st, value, i);
          IndexFails(st, value, i);
        } else {
          BodyWritten(st, value, i);
        }
        ok, n := WriteBody(value, bodies, order[i], migrating);
        k := k + n;
        if !ok {
          return;
        }
      }
      AllBodiesWritten(st, value);
      if !migrating || order == [] {
        ok := storage.SetIndex(IndexOf(value, bodies, stored));
        if !ok {
          return;
        }
        k := k + 1;
      }
      ok := true;
      changed := changed - bodies.Keys;
    }

    // flush
    method Flush() returns (ghost k: nat)
      modifies this, storage
      ensures Current() == ChatSession.Flush(old(Current()), k)
    {
      k := 0;
      if !dirty {
        return;
      }
      var ok;
      ok, k := WriteStored(ChatState(active, convs));
      if ok {
        dirty := false;
      }
    }

    // setMessages; `same` says that the list is the very one on screen
    method SetMessages(list: seq<UiMsg>, same: bool, title: string, now: int)
      modifies this
      ensures Current() == if same then old(Current()) else ChatSession.SetMessages(old(Current()), list, title, now)
    {
      if same {
        return;
      }
      changed := changed + {active};
      convs := ReplaceMessages(convs, active, list, title, now);
      dirty := true;
    }

    // selectConversation
    method SelectConversation(id: Id) returns (ghost k1: nat, ghost k2: nat)
      modifies this, storage
      ensures Current() == ChatSession.Select(old(Current()), id, k1, k2)
    {
      k1, k2 := 0, 0;
      if id == active || !Has(convs, id) {
        return;
      }
      k1 := Flush();
      active, dirty := id, true;
      k2 := Flush();
    }

    // createConversation
    method CreateConversation(serverId: string, freshId: Id, now: int) returns (ghost k1: nat, ghost k2: nat)
      modifies this, storage
      ensures Current() == ChatSession.Create(old(Current()), serverId, freshId, now, k1, k2)
    {
      k1 := Flush();
      active, convs, dirty := freshId, [NewConv(freshId, serverId, now)] + convs, true;
      k2 := Flush();
    }

    // selectServer
    method SelectServer(serverId: string, freshId: Id, now: int) returns (ghost k1: nat, ghost k2: nat)
      modifies this, storage
      ensures Current() == ChatSession.SelectServer(old(Current()), serverId, freshId, now, k1, k2)
    {
      var existing := OnServer(convs, serverId);
      if existing != [] {
        k1, k2 := SelectConversation(Newest(Metas(existing)).id);
      } else {
        k1, k2 := CreateConversation(serverId, freshId, now);
      }
    }

    // discardNewBodies
    method DiscardNewBodies(prev: ChatState, next: ChatState) returns (ghost gone: set<Id>)
      modifies this`stored, storage`bodies
      ensures Books() == Discard(old(Books()), NewIds(prev, next), gone)
    {
      gone := {};
      ghost var ids := {};
      for i := 0 to |next.convs|
        invariant ids == set j | 0 <= j < i && !Has(prev.convs, next.convs[j].meta.id) :: next.convs[j].meta.id
        invariant gone <= ids && stored == old(stored) - ids
        invariant storage.bodies == old(storage.bodies) - gone
      {
        var id := next.convs[i].meta.id;
        if !Has(prev.convs, id) {
          var removed := storage.RemoveBody(id);
          stored := stored - {id};
          ids := ids + {id};
          if removed {
            gone := gone + {id};
          }
        }
      }
      assert ids * gone == gone;
    }

    // deleteConversation up to the first `await`
    method BeginDelete(id: Id, freshId: Id, now: int) returns (begun: Begun, ghost env: DeleteEnv)
      modifies this, storage
      ensures env.freshId == freshId && env.now == now
      ensures (Current(), begun) == ChatSession.BeginDelete(old(Current()), id, env)
    {
      hide Written, ChatSession.SaveWithout;
      env := DeleteEnv(0, 0, 0, Skipped, 0, {}, true, freshId, now);
      if !Has(convs, id) {
        return NotThere, env;
      }
      ghost var k := Flush();
      env := env.(flush := k);
      if pending != map[] {
        var ok;
        ok, k := WriteStored(ChatState(active, convs));
        env := env.(migrate := k);
        if !ok {
          return NotMigrated, env;
        }
      }
      begun, env := SaveWithout(id, freshId, now, env);
    }

    method SaveWithout(id: Id, freshId: Id, now: int, ghost before: DeleteEnv)
      returns (begun: Begun, ghost env: DeleteEnv)
      requires Has(convs, id) && before.freshId == freshId && before.now == now
      modifies this, storage
      ensures env == before.(save := env.save, discarded := env.discarded)
      ensures (Current(), begun) == ChatSession.SaveWithout(old(Current()), id, env)
    {
      hide Written, StateWithout, NewIds;
      env := before;
      var prev := ChatState(active, convs);
      var next := StateWithout(prev, id, freshId, now);
      var ok;
      ghost var k;
      ok, k := WriteStored(next);
      env := env.(save := k);
      if !ok {
        ghost var gone := DiscardNewBodies(prev, next);
        return NotSaved, env.(discarded := gone);
      }
      return Waits(next), env;
    }

    // deleteConversation after the `await`; `cleanup` is how the backend cleanup ended
    method EndDelete(id: Id, next: ChatState, cleanup: Cleanup, ghost before: DeleteEnv)
      returns (result: DeleteResult, ghost env: DeleteEnv)
      modifies this, storage
      ensures env == before.(cleanup := cleanup, restore := env.restore, discarded := env.discarded,
                             removeOk := env.removeOk)
      ensures (Current(), result) == ChatSession.EndDelete(old(Current()), id, next, env)
    {
      hide Written, NewIds;
      env := before.(cleanup := cleanup);
      if cleanup.Fails? {
        var prev := ChatState(active, convs);
        var ok;
        ghost var k;
        ok, k := WriteStored(prev);
        env := env.(restore := k);
        if ok {
          ghost var gone := DiscardNewBodies(prev, next);
          env := env.(discarded := gone);
        } else {
          dirty := true;
        }
        return CleanupFailed(ok), env;
      }
      active, convs, dirty := next.active, next.convs, false;
      var removed := storage.RemoveBody(id);
      stored, pending, changed := stored - {id}, pending - {id}, changed - {id};
      return Deleted, env.(removeOk := removed);
    }

    // deleteConversation; `flushes` page events come while it waits for the cleanup. The caller runs
    // no other operation meanwhile.
    method DeleteConversation(id: Id, cleanup: Cleanup, freshId: Id, now: int, flushes: nat)
      returns (result: DeleteResult, ghost env: DeleteEnv, ghost ks: seq<nat>)
      modifies this, storage
      ensures env.freshId == freshId && env.now == now
      ensures !result.Missing? && !result.MigrationFailed? && !result.SaveFailed? ==>
                env.cleanup == cleanup && |ks| == if cleanup.Skipped? then 0 else flushes
      ensures (Current(), result) == ChatSession.Delete(old(Current()), id, env, ks)
    {
      hide ChatSession.BeginDelete, ChatSession.EndDelete, ChatSession.Flush;
      var begun;
      begun, env := BeginDelete(id, freshId, now);
      ks := [];
      match begun {
        case NotThere => return Missing, env, ks;
        case NotMigrated => return MigrationFailed, env, ks;
        case NotSaved => return SaveFailed, env, ks;
        case Waits(next) =>
          ghost var waiting, first := Current(), env;
          if !cleanup.Skipped? {
            for i := 0 to flushes
              invariant |ks| == i && Current() == FlushAll(waiting, ks)
            {
              ghost var k := Flush();
              ks := ks + [k];
            }
          }
          result, env := EndDelete(id, next, cleanup, env);
          BeginIgnores(old(Current()), id, first, env);
      }
    }
  }
}
