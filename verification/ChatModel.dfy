// The data of the conversation store: what local storage can hold, how a reload reads it,
// and the state that the hook keeps in memory.
module ChatModel {
  import opened Common

  type Id = string

  /** One message as it is written to storage; `chips` stands for the optional attachment list. */
  datatype DiskMsg = DiskMsg(role: string, content: string, chips: string)

  type Body = seq<DiskMsg>

  /** An element of a stored JSON array is a usable message or anything else. */
  datatype Element = Message(m: DiskMsg) | Junk

  /** A stored value that should be a message array: an array, or anything else (absent, damaged). */
  datatype Payload = Elements(items: seq<Element>) | NotAnArray

  /** A message on screen, seen through the two callbacks of the hook: its stored form, if it has
      one, and whether it counts as a message. */
  datatype UiMsg = UiMsg(disk: Option<DiskMsg>, counted: bool)

  datatype Meta = Meta(id: Id, serverId: string, sessionKey: string, title: string,
                       createdAt: int, updatedAt: int)

  /** `Deferred` is the lazy getter of a loaded conversation, `Held` a plain message list. */
  datatype Messages = Deferred | Held(list: seq<UiMsg>)

  datatype Conv = Conv(meta: Meta, count: nat, messages: Messages)

  datatype ChatState = ChatState(active: Id, convs: seq<Conv>)

  /** An index entry that fails the field checks is `Rejected`; otherwise its message count may be
      missing and its `messages` field may be no array. */
  datatype RawEntry = Rejected | Saved(meta: Meta, count: Option<nat>, messages: Payload)

  datatype RawIndex = NoIndex | Unreadable | Index(version: int, active: Id, entries: seq<RawEntry>)

  /** A history under a legacy key, with the title derived from its first user message. */
  datatype Legacy = Legacy(serverId: string, title: string, messages: Payload)

  datatype Disk = Disk(index: RawIndex, bodies: map<Id, Payload>, legacy: seq<Legacy>)

  /** A conversation that a reload finds; `embedded` is its body when the index or a legacy key
      holds it, and None when the body is in its own key. */
  datatype Loaded = Loaded(meta: Meta, count: Option<nat>, embedded: Option<Body>)

  /** Storage together with the three bookkeeping sets of the hook. */
  datatype Store = Store(disk: Disk, pending: map<Id, Body>, stored: set<Id>, changed: set<Id>)

  datatype Session = Session(store: Store, state: ChatState, dirty: bool)

  // ---------- messages ----------

  function Usable(items: seq<Element>): Body {
    if items == [] then [] else (if items[0].Message? then [items[0].m] else []) + Usable(items[1..])
  }

  function ReadMessages(p: Payload): Body {
    match p
    case NotAnArray => []
    case Elements(items) => Usable(items)
  }

  function ToPayload(body: Body): Payload {
    Elements(seq(|body|, i requires 0 <= i < |body| => Message(body[i])))
  }

  lemma {:induction false} ReadBack(body: Body)
    ensures ReadMessages(ToPayload(body)) == body
  {
    if body != [] {
      ReadBack(body[1..]);
      assert ToPayload(body).items[1..] == ToPayload(body[1..]).items;
    }
  }

  predicate Shown(m: DiskMsg) { m.role != "system" && m.role != "tool" }

  function CountDisk(body: Body): nat {
    if body == [] then 0 else (if Shown(body[0]) then 1 else 0) + CountDisk(body[1..])
  }

  /** The stored form of a message list: each message mapped, those without a form dropped. */
  function DiskForm(list: seq<UiMsg>): Body {
    if list == [] then [] else (if list[0].disk.Some? then [list[0].disk.value] else []) + DiskForm(list[1..])
  }

  function CountUi(list: seq<UiMsg>): nat {
    if list == [] then 0 else (if list[0].counted then 1 else 0) + CountUi(list[1..])
  }

  /** The default counter of the hook: a message counts when its stored form is shown. */
  predicate DefaultCounter(list: seq<UiMsg>) {
    forall i :: 0 <= i < |list| ==> (list[i].counted <==> list[i].disk.Some? && Shown(list[i].disk.value))
  }

  // With the default counter, the count kept in memory is the count a reload computes.
  lemma {:induction false} DefaultCountIsDiskCount(list: seq<UiMsg>)
    requires DefaultCounter(list)
    ensures CountUi(list) == CountDisk(DiskForm(list))
  {
    if list != [] {
      DefaultCountIsDiskCount(list[1..]);
      if list[0].disk.Some? {
        assert DiskForm(list)[0] == list[0].disk.value && DiskForm(list)[1..] == DiskForm(list[1..]);
      } else {
        assert DiskForm(list) == DiskForm(list[1..]);
      }
    }
  }

  // ---------- conversations ----------

  predicate Has(cs: seq<Conv>, id: Id) { exists c :: c in cs && c.meta.id == id }

  predicate UniqueIds(cs: seq<Conv>) {
    forall i, j :: 0 <= i < j < |cs| ==> cs[i].meta.id != cs[j].meta.id
  }

  function Metas(cs: seq<Conv>): (ms: seq<Meta>)
    ensures |ms| == |cs| && forall i :: 0 <= i < |cs| ==> ms[i] == cs[i].meta
  {
    seq(|cs|, i requires 0 <= i < |cs| => cs[i].meta)
  }

  /** The first of the most recently updated: the head of a stable descending sort. */
  function Newest(ms: seq<Meta>): (m: Meta)
    requires ms != []
    ensures m in ms
    ensures forall x :: x in ms ==> x.updatedAt <= m.updatedAt
  {
    var last := ms[|ms| - 1];
    if |ms| == 1 then last
    else
      var best := Newest(ms[..|ms| - 1]);
      assert forall x :: x in ms ==> x == last || x in ms[..|ms| - 1];
      if last.updatedAt > best.updatedAt then last else best
  }

  // It is the head of the stable descending sort: nothing is newer, and nothing before it as new.
  lemma {:induction false} NewestIsFirst(ms: seq<Meta>) returns (i: nat)
    requires ms != []
    ensures i < |ms| && ms[i] == Newest(ms)
    ensures forall j :: 0 <= j < |ms| ==> ms[j].updatedAt <= ms[i].updatedAt
    ensures forall j :: 0 <= j < i ==> ms[j].updatedAt < ms[i].updatedAt
  {
    var n := |ms| - 1;
    i := 0;
    if n > 0 {
      i := NewestIsFirst(ms[..n]);
      assert forall j :: 0 <= j < n ==> ms[..n][j] == ms[j];
      if ms[n].updatedAt > ms[i].updatedAt {
        i := n;
      }
    }
  }

  function OnServer(cs: seq<Conv>, serverId: string): (r: seq<Conv>)
    ensures forall c :: c in r <==> c in cs && c.meta.serverId == serverId
  {
    if cs == [] then []
    else
      var rest := OnServer(cs[..|cs| - 1], serverId);
      var last := cs[|cs| - 1];
      assert forall c :: c in cs <==> c == last || c in cs[..|cs| - 1];
      if last.meta.serverId == serverId then rest + [last] else rest
  }

  // The conversations of a server keep their order.
  lemma {:induction false} OnServerAt(cs: seq<Conv>, serverId: string, p: nat) returns (i: nat)
    requires p < |OnServer(cs, serverId)|
    ensures i < |cs| && cs[i] == OnServer(cs, serverId)[p] && OnServer(cs[..i], serverId) == OnServer(cs, serverId)[..p]
  {
    var n := |cs| - 1;
    var front := OnServer(cs[..n], serverId);
    if p < |front| {
      i := OnServerAt(cs[..n], serverId, p);
      assert cs[..n][..i] == cs[..i];
    } else {
      i := n;
    }
  }

  lemma {:induction false} OnServerHas(cs: seq<Conv>, serverId: string, j: nat) returns (q: nat)
    requires j < |cs| && cs[j].meta.serverId == serverId
    ensures q < |OnServer(cs, serverId)| && OnServer(cs, serverId)[q] == cs[j]
  {
    var n := |cs| - 1;
    if j < n {
      q := OnServerHas(cs[..n], serverId, j);
    } else {
      q := |OnServer(cs[..n], serverId)|;
    }
  }

  /** The most recently updated conversation of the server, the first in the list among equals. */
  predicate NewestOn(cs: seq<Conv>, serverId: string, i: nat) {
    && i < |cs| && cs[i].meta.serverId == serverId
    && (forall j :: 0 <= j < |cs| && cs[j].meta.serverId == serverId ==> cs[j].meta.updatedAt <= cs[i].meta.updatedAt)
    && (forall j :: 0 <= j < i && cs[j].meta.serverId == serverId ==> cs[j].meta.updatedAt < cs[i].meta.updatedAt)
  }

  lemma NewestOfServer(cs: seq<Conv>, serverId: string) returns (i: nat)
    requires OnServer(cs, serverId) != []
    ensures NewestOn(cs, serverId, i) && cs[i].meta == Newest(Metas(OnServer(cs, serverId)))
  {
    var same := OnServer(cs, serverId);
    var p := NewestIsFirst(Metas(same));
    i := OnServerAt(cs, serverId, p);
    forall j | 0 <= j < |cs| && cs[j].meta.serverId == serverId ensures cs[j].meta.updatedAt <= cs[i].meta.updatedAt {
      var q := OnServerHas(cs, serverId, j);
      assert Metas(same)[q].updatedAt <= Metas(same)[p].updatedAt;
    }
    forall j | 0 <= j < i && cs[j].meta.serverId == serverId ensures cs[j].meta.updatedAt < cs[i].meta.updatedAt {
      var q := OnServerHas(cs[..i], serverId, j);
      assert Metas(same)[q].updatedAt < Metas(same)[p].updatedAt;
    }
  }

  function NewConv(id: Id, serverId: string, now: int): Conv {
    Conv(Meta(id, serverId, id, "", now, now), 0, Held([]))
  }

  // ---------- reload ----------

  function ParseEntry(version: int, e: RawEntry): seq<Loaded> {
    match e
    case Rejected => []
    case Saved(meta, count, p) =>
      [Loaded(meta, count, if version == 1 || p.Elements? then Some(ReadMessages(p)) else None)]
  }

  function ParseEntries(version: int, es: seq<RawEntry>): seq<Loaded> {
    if es == [] then [] else ParseEntries(version, es[..|es| - 1]) + ParseEntry(version, es[|es| - 1])
  }

  function IndexEntries(index: RawIndex): seq<Loaded> {
    if index.Index? && (index.version == 1 || index.version == 2)
    then ParseEntries(index.version, index.entries) else []
  }

  function LegacyEntry(l: Legacy): seq<Loaded> {
    var body := ReadMessages(l.messages);
    if body == [] then []
    else [Loaded(Meta("legacy-" + l.serverId, l.serverId, l.serverId, l.title, 0, 0), None, Some(body))]
  }

  function LegacyEntries(ls: seq<Legacy>): seq<Loaded> {
    if ls == [] then [] else LegacyEntries(ls[..|ls| - 1]) + LegacyEntry(ls[|ls| - 1])
  }

  /** An index counts when at least one of its entries passes the checks. */
  predicate Indexed(d: Disk) { IndexEntries(d.index) != [] }

  /** The conversations a reload finds; the legacy keys are read only without a usable index. */
  function Recovered(d: Disk): seq<Loaded> {
    if Indexed(d) then IndexEntries(d.index) else LegacyEntries(d.legacy)
  }

  predicate UniqueLoaded(ls: seq<Loaded>) {
    forall i, j :: 0 <= i < j < |ls| ==> ls[i].meta.id != ls[j].meta.id
  }

  function Lookup(ls: seq<Loaded>, id: Id): (r: Option<Loaded>)
    ensures r.None? <==> forall i :: 0 <= i < |ls| ==> ls[i].meta.id != id
    ensures r.Some? ==> r.value in ls && r.value.meta.id == id
  {
    if ls == [] then None
    else if ls[0].meta.id == id then Some(ls[0])
    else Lookup(ls[1..], id)
  }

  lemma LookupAt(ls: seq<Loaded>, i: nat)
    requires UniqueLoaded(ls) && i < |ls|
    ensures Lookup(ls, ls[i].meta.id) == Some(ls[i])
  {
    var r := Lookup(ls, ls[i].meta.id);
    var j :| 0 <= j < |ls| && ls[j] == r.value;
  }

  /** The content of a conversation's own key; a missing or damaged one reads as no messages. */
  function BodyAt(d: Disk, id: Id): Body {
    if id in d.bodies then ReadMessages(d.bodies[id]) else []
  }

  function LoadedBody(d: Disk, l: Loaded): Body {
    match l.embedded
    case Some(body) => body
    case None => BodyAt(d, l.meta.id)
  }

  /** The body that a reload of this disk gives a conversation, if the disk lists it. */
  function Committed(d: Disk, id: Id): Option<Body> {
    match Lookup(Recovered(d), id)
    case None => None
    case Some(l) => Some(LoadedBody(d, l))
  }

  function LoadedCount(d: Disk, l: Loaded): nat {
    match l.embedded
    case Some(body) => CountDisk(body)
    case None => if l.count.Some? then l.count.value else CountDisk(BodyAt(d, l.meta.id))
  }

  function LoadedConv(d: Disk, l: Loaded): Conv {
    Conv(l.meta, LoadedCount(d, l), Deferred)
  }

  function Stamped(c: Conv, now: int): Conv {
    c.(meta := c.meta.(createdAt := now, updatedAt := now))
  }

  function LoadedConvs(d: Disk, now: int): (cs: seq<Conv>)
    ensures |cs| == |Recovered(d)|
    ensures forall i :: 0 <= i < |cs| ==>
              cs[i] == (if Indexed(d) then LoadedConv(d, Recovered(d)[i])
                        else Stamped(LoadedConv(d, Recovered(d)[i]), now))
  {
    var ls := Recovered(d);
    seq(|ls|, i requires 0 <= i < |ls| =>
      if Indexed(d) then LoadedConv(d, ls[i]) else Stamped(LoadedConv(d, ls[i]), now))
  }

  function LoadedMetas(ls: seq<Loaded>): (ms: seq<Meta>)
    ensures |ms| == |ls| && forall i :: 0 <= i < |ls| ==> ms[i] == ls[i].meta
  {
    seq(|ls|, i requires 0 <= i < |ls| => ls[i].meta)
  }

  /** The saved active conversation, or the newest one when the saved id is not listed. */
  function ActiveOf(active: Id, ls: seq<Loaded>): Id
    requires ls != []
  {
    if Lookup(ls, active).Some? then active else Newest(LoadedMetas(ls)).id
  }

  function Pending(ls: seq<Loaded>): map<Id, Body> {
    if ls == [] then map[]
    else
      var rest := Pending(ls[..|ls| - 1]);
      var l := ls[|ls| - 1];
      if l.embedded.Some? then rest[l.meta.id := l.embedded.value] else rest
  }

  function StoredIds(ls: seq<Loaded>): set<Id> {
    if ls == [] then {}
    else
      var l := ls[|ls| - 1];
      StoredIds(ls[..|ls| - 1]) + (if l.embedded.None? then {l.meta.id} else {})
  }

  /** The conversations and the active one after a reload. `freshId` names the conversation that is
      created when neither the index nor the legacy keys offer a local one. */
  function LoadState(d: Disk, freshId: Id, now: int): ChatState {
    var cs := LoadedConvs(d, now);
    if Indexed(d) then
      ChatState(ActiveOf(d.index.active, Recovered(d)), cs)
    else
      var local := OnServer(cs, "local");
      if local != [] then ChatState(local[0].meta.id, cs)
      else ChatState(freshId, cs + [NewConv(freshId, "local", now)])
  }

  function Load(d: Disk, freshId: Id, now: int): Session {
    Session(Store(d, Pending(Recovered(d)), StoredIds(Recovered(d)), {}), LoadState(d, freshId, now), false)
  }

  /** The deferred read of a loaded conversation: the pending body first, then its own key. */
  function DeferredRead(st: Store, id: Id): Body {
    if id in st.pending then st.pending[id] else BodyAt(st.disk, id)
  }

  lemma {:induction false} PendingMember(ls: seq<Loaded>, id: Id)
    ensures id in Pending(ls) || id in StoredIds(ls) <==> exists i :: 0 <= i < |ls| && ls[i].meta.id == id
  {
    if ls != [] {
      var n := |ls| - 1;
      PendingMember(ls[..n], id);
      if i :| 0 <= i < n && ls[..n][i].meta.id == id {
        assert ls[i].meta.id == id;
      }
      if i :| 0 <= i < |ls| && ls[i].meta.id == id && i != n {
        assert ls[..n][i].meta.id == id;
      }
    }
  }

  lemma {:induction false} PendingAt(ls: seq<Loaded>, i: nat)
    requires UniqueLoaded(ls) && i < |ls|
    ensures ls[i].meta.id in Pending(ls) <==> ls[i].embedded.Some?
    ensures ls[i].embedded.Some? ==> Pending(ls)[ls[i].meta.id] == ls[i].embedded.value
    ensures ls[i].meta.id in StoredIds(ls) <==> ls[i].embedded.None?
  {
    var n := |ls| - 1;
    PendingMember(ls[..n], ls[i].meta.id);
    if i < n {
      PendingAt(ls[..n], i);
    }
  }
}
