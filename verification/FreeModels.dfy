// The add-only refresh of the free-model catalog. `lower` stands for the case folding of strings and
// `isDate` for the date pattern; nothing is assumed of either unless a lemma says so.
module FreeModels {
  import opened Common
  import opened Picking
  import opened Sorting

  /** A catalog entry; `complete` says that it has all required fields, `details` holds the rest. */
  datatype Model = Model(id: string, providerId: string, modelId: string, baseUrl: string, verifiedAt: string,
                         details: string, complete: bool)

  datatype Catalog = Catalog(version: int, updatedAt: string, models: seq<Model>)

  /** The ids that one provider's own endpoint lists, in iteration order. */
  datatype Official = Official(provider: string, ids: seq<string>)

  datatype Addition = Addition(entry: Model, sources: set<string>)

  // ---------- validate_catalog ----------

  datatype Problem = BadShape | MissingFields | DuplicateId | BadUrl | BadDate

  predicate UrlOk(url: string) { "https://" <= url && '{' !in url }

  function EntryProblem(isDate: string -> bool, m: Model, seen: set<string>): Option<Problem> {
    if !m.complete then Some(MissingFields)
    else if m.id in seen then Some(DuplicateId)
    else if !UrlOk(m.baseUrl) then Some(BadUrl)
    else if !isDate(m.verifiedAt) then Some(BadDate)
    else None
  }

  predicate Distinct(ms: seq<Model>) { forall i, j :: 0 <= i < j < |ms| ==> ms[i].id != ms[j].id }

  /** What a catalog has to be. */
  predicate Valid(isDate: string -> bool, c: Catalog) {
    && c.version == 1
    && Distinct(c.models)
    && forall i :: 0 <= i < |c.models| ==>
         c.models[i].complete && UrlOk(c.models[i].baseUrl) && isDate(c.models[i].verifiedAt)
  }

  // The loop accepts exactly the valid catalogs, and reports the first problem of the others.
  method Validate(isDate: string -> bool, c: Catalog) returns (problem: Option<Problem>, index: nat)
    ensures problem.None? <==> Valid(isDate, c)
    ensures problem.Some? && c.version == 1 ==>
              && index < |c.models|
              && Valid(isDate, c.(models := c.models[..index]))
              && problem == EntryProblem(isDate, c.models[index], set i | 0 <= i < index :: c.models[i].id)
  {
    index := 0;
    if c.version != 1 {
      return Some(BadShape), index;
    }
    var seen := {};
    while index < |c.models|
      invariant index <= |c.models|
      invariant seen == set i | 0 <= i < index :: c.models[i].id
      invariant Valid(isDate, c.(models := c.models[..index]))
    {
      problem := EntryProblem(isDate, c.models[index], seen);
      if problem.Some? {
        return;
      }
      seen := seen + {c.models[index].id};
      index := index + 1;
    }
    assert c.models[..index] == c.models;
    return None, index;
  }

  // ---------- merge_candidate_maps ----------

  /** The merged candidates: provider, folded id, sources. */
  type Table = map<string, map<string, set<string>>>

  function Sources(table: Table, provider: string, folded: string): set<string> {
    if provider in table && folded in table[provider] then table[provider][folded] else {}
  }

  function WithSource(table: Table, provider: string, folded: string, source: string): Table {
    var inner := if provider in table then table[provider] else map[];
    table[provider := inner[folded := Sources(table, provider, folded) + {source}]]
  }

  /** Some id of the list folds to `folded`. */
  predicate Spelled(lower: string -> string, ids: seq<string>, folded: string) {
    exists k :: 0 <= k < |ids| && lower(ids[k]) == folded
  }

  predicate Lists(lower: string -> string, candidates: seq<Official>, provider: string, folded: string) {
    exists i :: 0 <= i < |candidates| && candidates[i].provider == provider && Spelled(lower, candidates[i].ids, folded)
  }

  /** The sources of a merged table: the old ones, and the new one for each id its list spells. */
  ghost predicate Merged(lower: string -> string, before: Table, after: Table, source: string,
      candidates: seq<Official>) {
    && (forall p, l :: Sources(after, p, l) ==
          Sources(before, p, l) + (if Lists(lower, candidates, p, l) then {source} else {}))
    && before.Keys <= after.Keys
    && (forall p :: p in after && p !in before ==>
          exists i :: 0 <= i < |candidates| && candidates[i].provider == p && candidates[i].ids != [])
  }

  lemma MergedNothing(lower: string -> string, table: Table, source: string, provider: string)
    ensures Merged(lower, table, table, source, []) && Merged(lower, table, table, source, [Official(provider, [])])
  {
  }

  lemma ListsOne(lower: string -> string, one: seq<Official>, p: string, l: string)
    requires |one| == 1
    ensures Lists(lower, one, p, l) <==> p == one[0].provider && Spelled(lower, one[0].ids, l)
  {
  }

  lemma MergeStep(lower: string -> string, before: Table, middle: Table, after: Table, source: string,
                  candidates: seq<Official>, next: Official)
    requires Merged(lower, before, middle, source, candidates) && Merged(lower, middle, after, source, [next])
    ensures Merged(lower, before, after, source, candidates + [next])
  {
    var all := candidates + [next];
    forall p, l
      ensures Sources(after, p, l) == Sources(before, p, l) + (if Lists(lower, all, p, l) then {source} else {})
    {
      ListsOne(lower, [next], p, l);
      assert all[|candidates|] == next;
      if i :| 0 <= i < |candidates| && candidates[i].provider == p && Spelled(lower, candidates[i].ids, l) {
        assert all[i].provider == p && Spelled(lower, all[i].ids, l);
      }
    }
    forall p | p in after && p !in before
      ensures exists i :: 0 <= i < |all| && all[i].provider == p && all[i].ids != []
    {
      if p in middle {
        var i :| 0 <= i < |candidates| && candidates[i].provider == p && candidates[i].ids != [];
        assert all[i].provider == p && all[i].ids != [];
      } else {
        assert all[|candidates|] == next;
      }
    }
  }

  lemma SourceAdded(table: Table, provider: string, folded: string, source: string, p: string, l: string)
    ensures Sources(WithSource(table, provider, folded, source), p, l) ==
            Sources(table, p, l) + (if p == provider && l == folded then {source} else {})
    ensures p in WithSource(table, provider, folded, source) <==> p in table || p == provider
  {
  }

  lemma SpelledStep(lower: string -> string, ids: seq<string>, id: string, folded: string)
    ensures Spelled(lower, ids + [id], folded) <==> Spelled(lower, ids, folded) || lower(id) == folded
  {
    var more := ids + [id];
    assert more[|ids|] == id;
    if k :| 0 <= k < |ids| && lower(ids[k]) == folded {
      assert lower(more[k]) == folded;
    }
  }

  lemma IdStep(lower: string -> string, before: Table, sofar: Table, source: string, provider: string,
               ids: seq<string>, id: string)
    requires Merged(lower, before, sofar, source, [Official(provider, ids)])
    ensures Merged(lower, before, WithSource(sofar, provider, lower(id), source), source,
        [Official(provider, ids + [id])])
  {
    hide Sources, WithSource, Lists, Spelled;
    var one, two := [Official(provider, ids)], [Official(provider, ids + [id])];
    var after := WithSource(sofar, provider, lower(id), source);
    forall p, l
      ensures Sources(after, p, l) == Sources(before, p, l) + (if Lists(lower, two, p, l) then {source} else {})
    {
      SourceAdded(sofar, provider, lower(id), source, p, l);
      SpelledStep(lower, ids, id, l);
      ListsOne(lower, one, p, l);
      ListsOne(lower, two, p, l);
    }
    forall p ensures p in after <==> p in sofar || p == provider {
      SourceAdded(sofar, provider, lower(id), source, p, "");
    }
    forall p | p in after && p !in before
      ensures exists i :: 0 <= i < |two| && two[i].provider == p && two[i].ids != []
    {
      assert two[0].provider == provider && two[0].ids != [];
    }
  }

  class Candidates {
    var table: Table

    constructor ()
      ensures table == map[]
    {
      table := map[];
    }

    // An id has the source exactly when the source lists some spelling of it; all other sources are
    // as before. The order of iteration plays no part.
    method Merge(lower: string -> string, source: string, candidates: seq<Official>)
      modifies this
      ensures Merged(lower, old(table), table, source, candidates)
    {
      ghost var before := table;
      hide Merged;
      MergedNothing(lower, table, source, "");
      for i := 0 to |candidates|
        invariant Merged(lower, before, table, source, candidates[..i])
      {
        ghost var sofar := table;
        MergeProvider(lower, source, candidates[i]);
        MergeStep(lower, before, sofar, table, source, candidates[..i], candidates[i]);
        assert candidates[..i + 1] == candidates[..i] + [candidates[i]];
      }
      assert candidates[..|candidates|] == candidates;
    }

    method MergeProvider(lower: string -> string, source: string, official: Official)
      modifies this
      ensures Merged(lower, old(table), table, source, [official])
    {
      ghost var before := table;
      var ids := official.ids;
      hide Merged, WithSource;
      MergedNothing(lower, table, source, official.provider);
      for j := 0 to |ids|
        invariant Merged(lower, before, table, source, [Official(official.provider, ids[..j])])
      {
        ghost var sofar := table;
        table := WithSource(table, official.provider, lower(ids[j]), source);
        IdStep(lower, before, sofar, source, official.provider, ids[..j], ids[j]);
        assert ids[..j + 1] == ids[..j] + [ids[j]];
      }
      assert official == Official(official.provider, ids[..|ids|]);
    }
  }

  // Merging two sources in either order gives every id the same sources.
  lemma MergeCommutes(lower: string -> string, start: Table, a: Table, ab: Table, b: Table, ba: Table,
                      sourceA: string, listA: seq<Official>, sourceB: string, listB: seq<Official>, p: string,
                          l: string)
    requires Merged(lower, start, a, sourceA, listA) && Merged(lower, a, ab, sourceB, listB)
    requires Merged(lower, start, b, sourceB, listB) && Merged(lower, b, ba, sourceA, listA)
    ensures Sources(ab, p, l) == Sources(ba, p, l)
  {
    hide Lists;
    assert Sources(a, p, l) == Sources(start, p, l) + (if Lists(lower, listA, p, l) then {sourceA} else {});
    assert Sources(ab, p, l) == Sources(a, p, l) + (if Lists(lower, listB, p, l) then {sourceB} else {});
    assert Sources(ba, p, l) == Sources(b, p, l) + (if Lists(lower, listA, p, l) then {sourceA} else {});
    assert Sources(b, p, l) == Sources(start, p, l) + (if Lists(lower, listB, p, l) then {sourceB} else {});
  }

  // ---------- add_verified_candidates ----------

  /** One run: the catalog's models, the candidates, the folding and the date of today. */
  datatype Job = Job(lower: string -> string, models: seq<Model>, candidates: Table, today: string)

  /** The folded ids taken so far, and the additions. */
  datatype Progress = Progress(existing: set<string>, added: seq<Addition>)

  function EntryId(provider: string, official: string): string { provider + ":" + official }

  ghost function FoldedIds(lower: string -> string, ms: seq<Model>): set<string> { set m | m in ms :: lower(m.id) }

  /** The first model of each provider. */
  function Templates(ms: seq<Model>): map<string, Model> {
    if ms == [] then map[]
    else
      var rest := Templates(ms[..|ms| - 1]);
      var last := ms[|ms| - 1];
      if last.providerId in rest then rest else rest[last.providerId := last]
  }

  /** The official spelling of each folded id; the last one iterated wins. */
  function BySpelling(lower: string -> string, ids: seq<string>): map<string, string> {
    if ids == [] then map[] else BySpelling(lower, ids[..|ids| - 1])[lower(ids[|ids| - 1]) := ids[|ids| - 1]]
  }

  function CandidatesOf(job: Job, provider: string): map<string, set<string>> {
    if provider in job.candidates then job.candidates[provider] else map[]
  }

  function NewEntry(job: Job, provider: string, official: string): Model
    requires provider in Templates(job.models)
  {
    Templates(job.models)[provider].(id := EntryId(provider, official), modelId := official, verifiedAt := job.today)
  }

  function AddOne(job: Job, o: Official, key: string, r: Progress): Progress
    requires o.provider in Templates(job.models) && key in CandidatesOf(job, o.provider)
  {
    var bySpelling := BySpelling(job.lower, o.ids);
    var official := if key in bySpelling then bySpelling[key] else "";
    if official == "" || job.lower(EntryId(o.provider, official)) in r.existing then r
    else Progress(r.existing + {job.lower(EntryId(o.provider, official))},
                  r.added + [Addition(NewEntry(job, o.provider, official), CandidatesOf(job, o.provider)[key])])
  }

  function AddKeys(job: Job, o: Official, keys: seq<string>, r: Progress): Progress
    requires o.provider in Templates(job.models) && forall k :: k in keys ==> k in CandidatesOf(job, o.provider)
  {
    if keys == [] then r
    else AddOne(job, o, keys[|keys| - 1], AddKeys(job, o, keys[..|keys| - 1], r))
  }

  ghost function AddProvider(job: Job, o: Official, r: Progress): Progress {
    if o.provider in Templates(job.models) then
      SortedListMembers(CandidatesOf(job, o.provider).Keys);
      AddKeys(job, o, SortedList(CandidatesOf(job, o.provider).Keys), r)
    else r
  }

  ghost function AddAll(job: Job, officials: seq<Official>, r: Progress): Progress {
    if officials == [] then r
    else AddProvider(job, officials[|officials| - 1], AddAll(job, officials[..|officials| - 1], r))
  }

  function AdditionLe(lower: string -> string): (Addition, Addition) -> bool {
    (a: Addition, b: Addition) =>
      if a.entry.providerId != b.entry.providerId then StringLe(a.entry.providerId, b.entry.providerId)
      else StringLe(lower(a.entry.modelId), lower(b.entry.modelId))
  }

  function Entries(added: seq<Addition>): (r: seq<Model>)
    ensures |r| == |added| && forall i :: 0 <= i < |r| ==> r[i] == added[i].entry
  {
    seq(|added|, i requires 0 <= i < |added| => added[i].entry)
  }

  ghost function Start(job: Job): Progress { Progress(FoldedIds(job.lower, job.models), []) }

  /** The additions of a run, in the order in which they join the catalog. */
  ghost function Additions(job: Job, officials: seq<Official>): seq<Addition> {
    Sort(AdditionLe(job.lower), AddAll(job, officials, Start(job)).added)
  }

  ghost function Refreshed(job: Job, officials: seq<Official>, c: Catalog): Catalog
    requires c.models == job.models
  {
    var added := Additions(job, officials);
    Catalog(c.version, if added != [] then job.today else c.updatedAt, c.models + Entries(added))
  }

  // ---------- what is added ----------

  predicate JustifiedBy(job: Job, o: Official, key: string, a: Addition) {
    && o.provider in Templates(job.models) && key in CandidatesOf(job, o.provider)
    && a.entry.modelId in o.ids && a.entry.modelId != "" && job.lower(a.entry.modelId) == key
    && a == Addition(NewEntry(job, o.provider, a.entry.modelId), CandidatesOf(job, o.provider)[key])
  }

  /** An addition is a candidate, is official, and comes from the provider's first model. */
  ghost predicate Justified(job: Job, officials: seq<Official>, a: Addition) {
    exists o, key :: o in officials && JustifiedBy(job, o, key, a)
  }

  function AdditionKey(lower: string -> string): Addition -> string { (a: Addition) => lower(a.entry.id) }

  ghost predicate ProgressOk(job: Job, officials: seq<Official>, r: Progress) {
    && r.existing == FoldedIds(job.lower, job.models) + FoldedIds(job.lower, Entries(r.added))
    && DistinctBy(AdditionKey(job.lower), r.added)
    && (forall a :: a in r.added ==> job.lower(a.entry.id) !in FoldedIds(job.lower, job.models))
    && (forall a :: a in r.added ==> Justified(job, officials, a))
  }

  lemma {:induction false} BySpellingMember(lower: string -> string, ids: seq<string>, key: string)
    ensures key in BySpelling(lower, ids) <==> Spelled(lower, ids, key)
    ensures key in BySpelling(lower, ids) ==>
              BySpelling(lower, ids)[key] in ids && lower(BySpelling(lower, ids)[key]) == key
  {
    if ids != [] {
      var n := |ids| - 1;
      BySpellingMember(lower, ids[..n], key);
      SpelledStep(lower, ids[..n], ids[n], key);
      assert ids == ids[..n] + [ids[n]];
    }
  }

  lemma FoldedAppend(lower: string -> string, added: seq<Addition>, a: Addition)
    ensures FoldedIds(lower, Entries(added + [a])) == FoldedIds(lower, Entries(added)) + {lower(a.entry.id)}
  {
    assert Entries(added + [a]) == Entries(added) + [a.entry];
  }

  lemma AddOneOk(job: Job, officials: seq<Official>, o: Official, key: string, r: Progress)
    requires ProgressOk(job, officials, r) && o in officials
    requires o.provider in Templates(job.models) && key in CandidatesOf(job, o.provider)
    ensures ProgressOk(job, officials, AddOne(job, o, key, r)) && r.existing <= AddOne(job, o, key, r).existing
  {
    var next := AddOne(job, o, key, r);
    BySpellingMember(job.lower, o.ids, key);
    if next != r {
      var a := next.added[|r.added|];
      assert JustifiedBy(job, o, key, a);
      FoldedAppend(job.lower, r.added, a);
      forall b | b in r.added ensures job.lower(b.entry.id) != job.lower(a.entry.id) {
        var i :| 0 <= i < |r.added| && r.added[i] == b;
        assert Entries(r.added)[i] in Entries(r.added);
      }
      DistinctSnoc(AdditionKey(job.lower), r.added, a);
    }
  }

  lemma {:induction false} AddKeysOk(job: Job, officials: seq<Official>, o: Official, keys: seq<string>, r: Progress)
    requires ProgressOk(job, officials, r) && o in officials
    requires o.provider in Templates(job.models) && forall k :: k in keys ==> k in CandidatesOf(job, o.provider)
    ensures ProgressOk(job, officials, AddKeys(job, o, keys, r)) && r.existing <= AddKeys(job, o, keys, r).existing
  {
    hide ProgressOk;
    if keys != [] {
      var n := |keys| - 1;
      AddKeysOk(job, officials, o, keys[..n], r);
      AddOneOk(job, officials, o, keys[n], AddKeys(job, o, keys[..n], r));
    }
  }

  lemma {:induction false} AddAllOk(job: Job, officials: seq<Official>, part: seq<Official>, r: Progress)
    requires ProgressOk(job, officials, r) && forall o :: o in part ==> o in officials
    ensures ProgressOk(job, officials, AddAll(job, part, r)) && r.existing <= AddAll(job, part, r).existing
  {
    hide ProgressOk;
    if part != [] {
      var n := |part| - 1;
      AddAllOk(job, officials, part[..n], r);
      var o, mid := part[n], AddAll(job, part[..n], r);
      if o.provider in Templates(job.models) {
        var keys := SortedList(CandidatesOf(job, o.provider).Keys);
        SortedListMembers(CandidatesOf(job, o.provider).Keys);
        AddKeysOk(job, officials, o, keys, mid);
      }
    }
  }

  lemma RunOk(job: Job, officials: seq<Official>)
    ensures ProgressOk(job, officials, AddAll(job, officials, Start(job)))
  {
    assert ProgressOk(job, officials, Start(job));
    AddAllOk(job, officials, officials, Start(job));
  }

  lemma AdditionsOk(job: Job, officials: seq<Official>)
    ensures DistinctBy(AdditionKey(job.lower), Additions(job, officials))
    ensures forall a :: a in Additions(job, officials) ==>
              Justified(job, officials, a) && job.lower(a.entry.id) !in FoldedIds(job.lower, job.models)
  {
    var added := AddAll(job, officials, Start(job)).added;
    RunOk(job, officials);
    SortKeepsElements(AdditionLe(job.lower), added);
    SortKeepsDistinct(AdditionLe(job.lower), AdditionKey(job.lower), added);
  }

  lemma AdditionLePreorder(lower: string -> string)
    ensures Preorder(AdditionLe(lower))
  {
    hide StringLe;
    var le := AdditionLe(lower);
    forall x, y ensures le(x, y) || le(y, x) {
      StringLeTotal(x.entry.providerId, y.entry.providerId);
      StringLeTotal(lower(x.entry.modelId), lower(y.entry.modelId));
    }
    forall x, y, z | le(x, y) && le(y, z) ensures le(x, z) {
      var p, q, r := x.entry.providerId, y.entry.providerId, z.entry.providerId;
      if p == q == r {
        StringLeTransitive(lower(x.entry.modelId), lower(y.entry.modelId), lower(z.entry.modelId));
      } else if p != q && q != r {
        StringLeTransitive(p, q, r);
        if p == r {
          StringLeAntisymmetric(p, q);
        }
      }
    }
  }

  // The additions come by provider, then by folded model id.
  lemma AdditionsInOrder(job: Job, officials: seq<Official>)
    ensures SortedBy(AdditionLe(job.lower), Additions(job, officials))
  {
    AdditionLePreorder(job.lower);
    SortSorts(AdditionLe(job.lower), AddAll(job, officials, Start(job)).added);
  }

  // ---------- what the catalog keeps ----------

  predicate FoldedDistinct(lower: string -> string, ms: seq<Model>) {
    forall i, j :: 0 <= i < j < |ms| ==> lower(ms[i].id) != lower(ms[j].id)
  }

  lemma {:induction false} NoTemplate(ms: seq<Model>, provider: string)
    ensures provider !in Templates(ms) <==> forall j :: 0 <= j < |ms| ==> ms[j].providerId != provider
  {
    if ms != [] {
      var n := |ms| - 1;
      NoTemplate(ms[..n], provider);
      assert forall j :: 0 <= j < n ==> ms[j] == ms[..n][j];
    }
  }

  lemma {:induction false} TemplateIsFirst(ms: seq<Model>, provider: string) returns (i: nat)
    requires provider in Templates(ms)
    ensures i < |ms| && ms[i] == Templates(ms)[provider] && ms[i].providerId == provider
    ensures forall j :: 0 <= j < i ==> ms[j].providerId != provider
  {
    var n := |ms| - 1;
    if provider in Templates(ms[..n]) {
      i := TemplateIsFirst(ms[..n], provider);
    } else {
      i := n;
      NoTemplate(ms[..n], provider);
      assert forall j :: 0 <= j < n ==> ms[j] == ms[..n][j];
    }
  }

  /** The entry is official and a candidate, and is like `t` but for its id, model id and date. */
  predicate Repeats(job: Job, o: Official, t: Model, entry: Model) {
    && t.providerId == o.provider
    && entry.modelId in o.ids && entry.id == EntryId(o.provider, entry.modelId)
    && o.provider in job.candidates && job.lower(entry.modelId) in job.candidates[o.provider]
    && entry == t.(id := entry.id, modelId := entry.modelId, verifiedAt := job.today)
  }

  lemma AdditionRepeats(job: Job, officials: seq<Official>, a: Addition) returns (o: Official, t: Model)
    requires a in Additions(job, officials)
    ensures o in officials && t in job.models && Repeats(job, o, t, a.entry)
  {
    hide Additions, FoldedIds;
    AdditionsOk(job, officials);
    var key;
    o, key :| o in officials && JustifiedBy(job, o, key, a);
    var i := TemplateIsFirst(job.models, o.provider);
    t := job.models[i];
  }

  // The old entries stay as they are, in front; every addition repeats the provider's first entry
  // except for its id, model id and date, and is both a candidate and official.
  lemma RefreshAddsOnly(job: Job, officials: seq<Official>, c: Catalog, i: nat)
    requires c.models == job.models
    ensures var r := Refreshed(job, officials, c).models;
            && c.models <= r
            && (|c.models| <= i < |r| ==>
                  exists o, t :: o in officials && t in c.models && Repeats(job, o, t, r[i]))
  {
    hide Additions, Repeats;
    var r, added := Refreshed(job, officials, c).models, Additions(job, officials);
    if |c.models| <= i < |r| {
      var o, t := AdditionRepeats(job, officials, added[i - |c.models|]);
    }
  }

  // If no two old ids agree when folded, no two new ones do.
  lemma RefreshKeepsFoldedDistinct(job: Job, officials: seq<Official>, c: Catalog)
    requires c.models == job.models && FoldedDistinct(job.lower, c.models)
    ensures FoldedDistinct(job.lower, Refreshed(job, officials, c).models)
  {
    var before, added := c.models, Additions(job, officials);
    AdditionsOk(job, officials);
    hide Additions, Justified;
    var r := Refreshed(job, officials, c).models;
    forall i, j | 0 <= i < j < |r| ensures job.lower(r[i].id) != job.lower(r[j].id) {
      if j >= |before| {
        assert added[j - |before|] in added && r[j] == added[j - |before|].entry;
        if i >= |before| {
          assert AdditionKey(job.lower)(added[i - |before|]) != AdditionKey(job.lower)(added[j - |before|]);
        } else {
          assert r[i] in before;
        }
      }
    }
  }

  // A valid catalog stays valid, whatever the folding.
  lemma RefreshKeepsValid(job: Job, officials: seq<Official>, c: Catalog, isDate: string -> bool)
    requires c.models == job.models && Valid(isDate, c) && isDate(job.today)
    ensures Valid(isDate, Refreshed(job, officials, c))
  {
    var added, r := Additions(job, officials), Refreshed(job, officials, c).models;
    AdditionsOk(job, officials);
    forall j | |c.models| <= j < |r|
      ensures r[j].complete && UrlOk(r[j].baseUrl) && isDate(r[j].verifiedAt)
    {
      RefreshAddsOnly(job, officials, c, j);
    }
    forall i, j | 0 <= i < j < |r| ensures r[i].id != r[j].id {
      if j >= |c.models| {
        var b := added[j - |c.models|];
        assert b in added;
        if i >= |c.models| {
          assert AdditionKey(job.lower)(added[i - |c.models|]) != AdditionKey(job.lower)(b);
        } else {
          assert r[i] in c.models;
        }
      }
    }
  }

  // ---------- the second run ----------

  /** Nothing is left to add for this provider. */
  ghost predicate Settled(job: Job, o: Official, existing: set<string>) {
    o.provider in Templates(job.models) ==>
      forall key :: key in CandidatesOf(job, o.provider) && key in BySpelling(job.lower, o.ids) ==>
        BySpelling(job.lower, o.ids)[key] == "" ||
        job.lower(EntryId(o.provider, BySpelling(job.lower, o.ids)[key])) in existing
  }

  lemma {:induction false} KeysSettle(job: Job, officials: seq<Official>, o: Official, keys: seq<string>, r: Progress)
    requires ProgressOk(job, officials, r) && o in officials
    requires o.provider in Templates(job.models) && forall k :: k in keys ==> k in CandidatesOf(job, o.provider)
    ensures forall key :: key in keys && key in BySpelling(job.lower, o.ids) ==>
              BySpelling(job.lower, o.ids)[key] == "" ||
              job.lower(EntryId(o.provider, BySpelling(job.lower, o.ids)[key])) in AddKeys(job, o, keys, r).existing
  {
    hide ProgressOk, NewEntry, Templates;
    if keys != [] {
      var n := |keys| - 1;
      KeysSettle(job, officials, o, keys[..n], r);
      AddKeysOk(job, officials, o, keys[..n], r);
      AddOneOk(job, officials, o, keys[n], AddKeys(job, o, keys[..n], r));
      assert keys == keys[..n] + [keys[n]];
    }
  }

  lemma {:induction false} AllSettle(job: Job, officials: seq<Official>, part: seq<Official>, r: Progress)
    requires ProgressOk(job, officials, r) && forall o :: o in part ==> o in officials
    ensures forall o :: o in part ==> Settled(job, o, AddAll(job, part, r).existing)
  {
    if part != [] {
      var n := |part| - 1;
      AllSettle(job, officials, part[..n], r);
      AddAllOk(job, officials, part[..n], r);
      var o, mid := part[n], AddAll(job, part[..n], r);
      if o.provider in Templates(job.models) {
        var keys := SortedList(CandidatesOf(job, o.provider).Keys);
        SortedListMembers(CandidatesOf(job, o.provider).Keys);
        KeysSettle(job, officials, o, keys, mid);
        AddKeysOk(job, officials, o, keys, mid);
      }
      assert part == part[..n] + [o];
    }
  }

  lemma {:induction false} SettledKeysAddNothing(job: Job, o: Official, keys: seq<string>, r: Progress)
    requires Settled(job, o, r.existing) && o.provider in Templates(job.models)
    requires forall k :: k in keys ==> k in CandidatesOf(job, o.provider)
    ensures AddKeys(job, o, keys, r) == r
  {
    if keys != [] {
      SettledKeysAddNothing(job, o, keys[..|keys| - 1], r);
    }
  }

  lemma {:induction false} SettledAddsNothing(job: Job, part: seq<Official>, r: Progress)
    requires forall o :: o in part ==> Settled(job, o, r.existing)
    ensures AddAll(job, part, r) == r
  {
    if part != [] {
      var n := |part| - 1;
      var o := part[n];
      SettledAddsNothing(job, part[..n], r);
      if o.provider in Templates(job.models) {
        SortedListMembers(CandidatesOf(job, o.provider).Keys);
        SettledKeysAddNothing(job, o, SortedList(CandidatesOf(job, o.provider).Keys), r);
      }
    }
  }

  lemma SortedEntries(le: (Addition, Addition) -> bool, added: seq<Addition>)
    ensures forall m :: m in Entries(Sort(le, added)) <==> m in Entries(added)
  {
    var sorted := Sort(le, added);
    SortKeepsElements(le, added);
    hide Sort;
    forall m | m in Entries(added) ensures m in Entries(sorted) {
      var i :| 0 <= i < |added| && added[i].entry == m;
      assert added[i] in multiset(sorted);
      var j :| 0 <= j < |sorted| && sorted[j] == added[i];
      assert Entries(sorted)[j] == m;
    }
    forall m | m in Entries(sorted) ensures m in Entries(added) {
      var i :| 0 <= i < |sorted| && sorted[i].entry == m;
      assert sorted[i] in multiset(added);
      var j :| 0 <= j < |added| && added[j] == sorted[i];
      assert Entries(added)[j] == m;
    }
  }

  lemma FoldedConcat(lower: string -> string, a: seq<Model>, b: seq<Model>, c: seq<Model>)
    requires forall m :: m in b <==> m in c
    ensures FoldedIds(lower, a + b) == FoldedIds(lower, a) + FoldedIds(lower, c)
  {
  }

  lemma RefreshedFolded(job: Job, officials: seq<Official>, c: Catalog)
    requires c.models == job.models
    ensures FoldedIds(job.lower, Refreshed(job, officials, c).models) == AddAll(job, officials, Start(job)).existing
  {
    RunOk(job, officials);
    var added := AddAll(job, officials, Start(job)).added;
    hide FoldedIds;
    SortedEntries(AdditionLe(job.lower), added);
    FoldedConcat(job.lower, c.models, Entries(Additions(job, officials)), Entries(added));
  }

  // Every candidate that is official and has a provider entry ends up in the catalog.
  lemma NothingVerifiedIsMissed(job: Job, officials: seq<Official>, c: Catalog, o: Official, key: string)
    requires c.models == job.models && o in officials && o.provider in Templates(job.models)
    requires o.provider in job.candidates && key in job.candidates[o.provider] && key in BySpelling(job.lower, o.ids)
    requires BySpelling(job.lower, o.ids)[key] != ""
    ensures job.lower(EntryId(o.provider, BySpelling(job.lower, o.ids)[key])) in
            FoldedIds(job.lower, Refreshed(job, officials, c).models)
  {
    RunOk(job, officials);
    assert ProgressOk(job, officials, Start(job));
    AllSettle(job, officials, officials, Start(job));
    RefreshedFolded(job, officials, c);
  }

  /** Two listings of a provider's ids that lead to the same folded entry ids. */
  predicate SameSpelling(lower: string -> string, a: Official, b: Official) {
    && a.provider == b.provider
    && forall key :: key in BySpelling(lower, b.ids) ==>
         && key in BySpelling(lower, a.ids)
         && (BySpelling(lower, a.ids)[key] == "" ==> BySpelling(lower, b.ids)[key] == "")
         && lower(EntryId(b.provider, BySpelling(lower, b.ids)[key])) ==
              lower(EntryId(a.provider, BySpelling(lower, a.ids)[key]))
  }

  lemma SameTemplates(job: Job, officials: seq<Official>, c: Catalog, provider: string)
    requires c.models == job.models && provider in Templates(Refreshed(job, officials, c).models)
    ensures provider in Templates(job.models)
  {
    var r := Refreshed(job, officials, c).models;
    var i := TemplateIsFirst(r, provider);
    if i < |c.models| {
      assert c.models[i].providerId == provider;
    } else {
      RefreshAddsOnly(job, officials, c, i);
    }
    NoTemplate(c.models, provider);
  }

  // A second run on the same candidates adds nothing and leaves the catalog as it is.
  lemma SecondRunAddsNothing(job: Job, officials: seq<Official>, c: Catalog, today: string, again: seq<Official>)
    requires c.models == job.models
    requires forall b :: b in again ==> exists a :: a in officials && SameSpelling(job.lower, a, b)
    ensures var r := Refreshed(job, officials, c);
            Refreshed(Job(job.lower, r.models, job.candidates, today), again, r) == r
  {
    var r := Refreshed(job, officials, c);
    var job2 := Job(job.lower, r.models, job.candidates, today);
    RefreshedFolded(job, officials, c);
    assert ProgressOk(job, officials, Start(job));
    AllSettle(job, officials, officials, Start(job));
    forall b | b in again ensures Settled(job2, b, Start(job2).existing) {
      var a :| a in officials && SameSpelling(job.lower, a, b);
      if b.provider in Templates(job2.models) {
        SameTemplates(job, officials, c, b.provider);
        assert Settled(job, a, Start(job2).existing);
      }
    }
    SettledAddsNothing(job2, again, Start(job2));
    assert Entries([]) == [];
  }

  // The condition holds for the same listing, in any run and for any folding; and for a listing of
  // the same ids in another order when the folding of an entry id depends only on that of the id.
  lemma SameListingSpellsSame(lower: string -> string, a: Official)
    ensures SameSpelling(lower, a, a)
  {
  }

  lemma ReorderedListingSpellsSame(lower: string -> string, a: Official, b: Official)
    requires a.provider == b.provider && forall id :: id in a.ids <==> id in b.ids
    requires forall x, y :: lower(x) == lower(y) ==>
               (x == "" <==> y == "") && lower(EntryId(a.provider, x)) == lower(EntryId(a.provider, y))
    ensures SameSpelling(lower, a, b)
  {
    forall key | key in BySpelling(lower, b.ids) ensures key in BySpelling(lower, a.ids) {
      BySpellingMember(lower, b.ids, key);
      var k :| 0 <= k < |b.ids| && lower(b.ids[k]) == key;
      assert b.ids[k] in a.ids;
      BySpellingMember(lower, a.ids, key);
    }
    forall key | key in BySpelling(lower, b.ids)
      ensures lower(BySpelling(lower, a.ids)[key]) == key == lower(BySpelling(lower, b.ids)[key])
    {
      BySpellingMember(lower, a.ids, key);
      BySpellingMember(lower, b.ids, key);
    }
  }

  // ---------- find_models_needing_review ----------

  function OfficialFolds(lower: string -> string, officials: seq<Official>, provider: string): Option<set<string>> {
    if officials == [] then None
    else
      var last := officials[|officials| - 1];
      if last.provider == provider then Some(set id | id in last.ids :: lower(id))
      else OfficialFolds(lower, officials[..|officials| - 1], provider)
  }

  predicate Unlisted(lower: string -> string, officials: seq<Official>, m: Model) {
    var folds := OfficialFolds(lower, officials, m.providerId);
    folds.Some? && lower(m.modelId) !in folds.value
  }

  function UnlistedIds(lower: string -> string, officials: seq<Official>, ms: seq<Model>): seq<string> {
    if ms == [] then []
    else UnlistedIds(lower, officials, ms[..|ms| - 1]) +
         (if Unlisted(lower, officials, ms[|ms| - 1]) then [ms[|ms| - 1].id] else [])
  }

  function NeedsReview(lower: string -> string, officials: seq<Official>, ms: seq<Model>): seq<string> {
    Sort(StringLe, UnlistedIds(lower, officials, ms))
  }

  lemma {:induction false} AppendListed(lower: string -> string, officials: seq<Official>, ms: seq<Model>,
      more: seq<Model>)
    requires forall m :: m in more ==> !Unlisted(lower, officials, m)
    ensures UnlistedIds(lower, officials, ms + more) == UnlistedIds(lower, officials, ms)
  {
    if more == [] {
      assert ms + more == ms;
    } else {
      var n := |more| - 1;
      assert (ms + more)[..|ms + more| - 1] == ms + more[..n];
      AppendListed(lower, officials, ms, more[..n]);
    }
  }

  lemma {:induction false} FoldsOfListed(lower: string -> string, officials: seq<Official>, o: Official)
    requires o in officials
    requires forall i, j :: 0 <= i < j < |officials| ==> officials[i].provider != officials[j].provider
    ensures OfficialFolds(lower, officials, o.provider) == Some(set id | id in o.ids :: lower(id))
  {
    var n := |officials| - 1;
    if officials[n] != o {
      var i :| 0 <= i < |officials| && officials[i] == o;
      assert officials[..n][i] == o;
      FoldsOfListed(lower, officials[..n], o);
    }
  }

  // The refresh does not change which models need review.
  lemma ReviewUnchanged(job: Job, officials: seq<Official>, c: Catalog)
    requires c.models == job.models
    requires forall i, j :: 0 <= i < j < |officials| ==> officials[i].provider != officials[j].provider
    ensures NeedsReview(job.lower, officials, Refreshed(job, officials, c).models) ==
            NeedsReview(job.lower, officials, c.models)
  {
    var added := Additions(job, officials);
    AdditionsOk(job, officials);
    forall m | m in Entries(added) ensures !Unlisted(job.lower, officials, m) {
      var i :| 0 <= i < |added| && added[i].entry == m;
      assert added[i] in added;
      var o, key :| o in officials && JustifiedBy(job, o, key, added[i]);
      var t := TemplateIsFirst(job.models, o.provider);
      FoldsOfListed(job.lower, officials, o);
    }
    AppendListed(job.lower, officials, c.models, Entries(added));
  }

  // ---------- what a valid entry is, what is reviewed, what a run records ----------

  lemma UrlIs(url: string)
    ensures UrlOk(url) <==> exists rest: string :: url == "https://" + rest && '{' !in url
  {
    if UrlOk(url) {
      assert url == "https://" + url[8..];
    }
  }

  // The first thing wrong with an entry is reported: a missing field before a repeated id before the
  // address before the date.
  lemma ProblemIs(isDate: string -> bool, m: Model, seen: set<string>)
    ensures match EntryProblem(isDate, m, seen)
            case None => m.complete && m.id !in seen && UrlOk(m.baseUrl) && isDate(m.verifiedAt)
            case Some(problem) =>
              match problem
              case BadShape => false
              case MissingFields => !m.complete
              case DuplicateId => m.complete && m.id in seen
              case BadUrl => m.complete && m.id !in seen && !UrlOk(m.baseUrl)
              case BadDate => m.complete && m.id !in seen && UrlOk(m.baseUrl) && !isDate(m.verifiedAt)
  {
  }

  /** A model needs review: its provider's endpoint was read, and lists no spelling of the model. */
  predicate Gone(lower: string -> string, officials: seq<Official>, m: Model) {
    exists i :: 0 <= i < |officials| && officials[i].provider == m.providerId &&
      !Spelled(lower, officials[i].ids, lower(m.modelId))
  }

  lemma {:induction false} NotRead(lower: string -> string, officials: seq<Official>, provider: string)
    requires forall i :: 0 <= i < |officials| ==> officials[i].provider != provider
    ensures OfficialFolds(lower, officials, provider).None?
  {
    if officials != [] {
      NotRead(lower, officials[..|officials| - 1], provider);
    }
  }

  lemma UnlistedIsGone(lower: string -> string, officials: seq<Official>, m: Model)
    requires forall i, j :: 0 <= i < j < |officials| ==> officials[i].provider != officials[j].provider
    ensures Unlisted(lower, officials, m) <==> Gone(lower, officials, m)
  {
    hide OfficialFolds;
    if i :| 0 <= i < |officials| && officials[i].provider == m.providerId {
      FoldsOfListed(lower, officials, officials[i]);
      if lower(m.modelId) in (set id | id in officials[i].ids :: lower(id)) {
        var id :| id in officials[i].ids && lower(id) == lower(m.modelId);
        var k :| 0 <= k < |officials[i].ids| && officials[i].ids[k] == id;
        assert Spelled(lower, officials[i].ids, lower(m.modelId));
      }
    } else {
      NotRead(lower, officials, m.providerId);
    }
  }

  /** The ids of the models that need review. */
  ghost function GoneIds(lower: string -> string, officials: seq<Official>, ms: seq<Model>): (r: seq<Option<string>>)
    ensures |r| == |ms|
    ensures forall i :: 0 <= i < |r| ==> r[i] == if Gone(lower, officials, ms[i]) then Some(ms[i].id) else None
  {
    seq(|ms|, i requires 0 <= i < |ms| => if Gone(lower, officials, ms[i]) then Some(ms[i].id) else None)
  }

  lemma {:induction false} UnlistedPicks(lower: string -> string, officials: seq<Official>, ms: seq<Model>)
    returns (p: seq<nat>)
    requires forall i, j :: 0 <= i < j < |officials| ==> officials[i].provider != officials[j].provider
    ensures Picks(GoneIds(lower, officials, ms), UnlistedIds(lower, officials, ms), p)
  {
    hide Picks, Gone, Unlisted;
    if ms == [] {
      p := NothingPicked<string>();
      assert GoneIds(lower, officials, ms) == [];
    } else {
      var n := |ms| - 1;
      UnlistedIsGone(lower, officials, ms[n]);
      var x := if Gone(lower, officials, ms[n]) then Some(ms[n].id) else None;
      var front := UnlistedPicks(lower, officials, ms[..n]);
      PicksLast(GoneIds(lower, officials, ms[..n]), x, UnlistedIds(lower, officials, ms[..n]), front);
      p := front + Place(x, n);
      assert GoneIds(lower, officials, ms) == GoneIds(lower, officials, ms[..n]) + [x];
    }
  }

  // The review list holds the ids of exactly the models that need review, each as often as it does, sorted.
  lemma ReviewListIs(lower: string -> string, officials: seq<Official>, ms: seq<Model>)
    returns (ids: seq<string>, p: seq<nat>)
    requires forall i, j :: 0 <= i < j < |officials| ==> officials[i].provider != officials[j].provider
    ensures Picks(GoneIds(lower, officials, ms), ids, p)
    ensures var review := NeedsReview(lower, officials, ms);
            multiset(review) == multiset(ids) && SortedBy(StringLe, review)
  {
    p := UnlistedPicks(lower, officials, ms);
    ids := UnlistedIds(lower, officials, ms);
    hide Picks, UnlistedIds, StringLe;
    StringLePreorder();
    SortSorts(StringLe, ids);
  }

  // A run keeps the version, and moves the date to today exactly if it added something.
  lemma RefreshDates(job: Job, officials: seq<Official>, c: Catalog)
    requires c.models == job.models
    ensures var r := Refreshed(job, officials, c);
            r.version == c.version && r.updatedAt == if |r.models| > |c.models| then job.today else c.updatedAt
  {
    hide Additions;
  }

  // An addition names all sources that list it, and its template is the provider's first entry.
  lemma AdditionNames(job: Job, officials: seq<Official>, a: Addition) returns (i: nat)
    requires a in Additions(job, officials)
    ensures a.sources == Sources(job.candidates, a.entry.providerId, job.lower(a.entry.modelId))
    ensures i < |job.models| && a.entry == job.models[i].(id := a.entry.providerId + ":" + a.entry.modelId,
                                                          modelId := a.entry.modelId, verifiedAt := job.today)
    ensures forall j :: 0 <= j < i ==> job.models[j].providerId != a.entry.providerId
  {
    hide Additions, FoldedIds;
    AdditionsOk(job, officials);
    var o, key :| o in officials && JustifiedBy(job, o, key, a);
    i := TemplateIsFirst(job.models, o.provider);
  }

  // Of several spellings of an id the last one that the endpoint lists is used.
  lemma {:induction false} SpellingIsLast(lower: string -> string, ids: seq<string>, key: string) returns (k: nat)
    requires Spelled(lower, ids, key)
    ensures key in BySpelling(lower, ids) && k < |ids| && ids[k] == BySpelling(lower, ids)[key] && lower(ids[k]) == key
    ensures forall j :: k < j < |ids| ==> lower(ids[j]) != key
  {
    var n := |ids| - 1;
    if lower(ids[n]) == key {
      k := n;
    } else {
      assert ids == ids[..n] + [ids[n]];
      SpelledStep(lower, ids[..n], ids[n], key);
      k := SpellingIsLast(lower, ids[..n], key);
      assert forall j :: 0 <= j < n ==> ids[j] == ids[..n][j];
    }
  }

  // ---------- the refresh in place ----------

  method Scan(lower: string -> string, models: seq<Model>)
      returns (existing: set<string>, templates: map<string, Model>)
    ensures existing == FoldedIds(lower, models) && templates == Templates(models)
  {
    existing, templates := {}, map[];
    for i := 0 to |models|
      invariant existing == FoldedIds(lower, models[..i]) && templates == Templates(models[..i])
    {
      assert models[..i + 1][..i] == models[..i] && models[..i + 1] == models[..i] + [models[i]];
      existing := existing + {lower(models[i].id)};
      if models[i].providerId !in templates {
        templates := templates[models[i].providerId := models[i]];
      }
    }
    assert models[..|models|] == models;
  }

  method AddFrom(job: Job, o: Official, start: Progress) returns (r: Progress)
    requires o.provider in Templates(job.models)
    ensures r == AddProvider(job, o, start)
  {
    var items := CandidatesOf(job, o.provider);
    var keys := SortSet(items.Keys);
    SortedListMembers(items.Keys);
    var bySpelling := BySpelling(job.lower, o.ids);
    r := start;
    for i := 0 to |keys|
      invariant r == AddKeys(job, o, keys[..i], start)
    {
      assert keys[..i + 1][..i] == keys[..i];
      var official := if keys[i] in bySpelling then bySpelling[keys[i]] else "";
      if official != "" && job.lower(EntryId(o.provider, official)) !in r.existing {
        r := Progress(r.existing + {job.lower(EntryId(o.provider, official))},
                      r.added + [Addition(NewEntry(job, o.provider, official), items[keys[i]])]);
      }
    }
    assert keys[..|keys|] == keys;
  }

  class CatalogFile {
    var version: int
    var updatedAt: string
    var models: seq<Model>

    function Content(): Catalog
      reads this
    {
      Catalog(version, updatedAt, models)
    }

    method AddVerified(lower: string -> string, candidates: Table, officials: seq<Official>, today: string)
      returns (additions: seq<Addition>)
      modifies this
      ensures var job := Job(lower, old(models), candidates, today);
              additions == Additions(job, officials) && Content() == Refreshed(job, officials, old(Content()))
    {
      var job := Job(lower, models, candidates, today);
      var existing, templates := Scan(lower, models);
      var r := Progress(existing, []);
      for i := 0 to |officials|
        invariant r == AddAll(job, officials[..i], Start(job))
        invariant Content() == old(Content())
      {
        assert officials[..i + 1][..i] == officials[..i];
        if officials[i].provider in templates {
          r := AddFrom(job, officials[i], r);
        }
      }
      assert officials[..|officials|] == officials;
      hide AddAll, FoldedIds, Templates, AdditionLe;
      additions := Sort(AdditionLe(lower), r.added);
      models := models + Entries(additions);
      if additions != [] {
        updatedAt := today;
      }
    }
  }
}
