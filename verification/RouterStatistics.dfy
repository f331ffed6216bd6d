// The statistics table: saved rows are grouped by account into display rows and sorted.
module RouterStatistics {
  import opened Common
  import opened Sorting

  datatype Counts = Counts(attempts: int, completed: int, failed: int, cancelled: int,
                           protections: seq<int>, errors: seq<int>)

  datatype Saved = Saved(id: string, group: string, account: string, model: string, lastUsedAt: int, counts: Counts)

  datatype Source = Source(id: string, group: string, account: string, model: string, name: string,
                           modelName: string, provider: string, enabled: bool)

  datatype ModelAttempts = ModelAttempts(name: string, attempts: int)

  datatype Row = Row(id: string, account: string, name: string, model: string, provider: string, enabled: bool,
                     archived: bool, lastUsedAt: int, groups: seq<string>, models: seq<ModelAttempts>, counts: Counts)

  // emptyStatisticsCounts
  const NO_COUNTS := Counts(0, 0, 0, 0, [0, 0, 0, 0, 0], [0, 0, 0, 0, 0, 0])

  /** The counters of a row: four totals, five protections, six errors. */
  datatype Counter = Attempts | Completed | Failed | Cancelled | Protection(index: nat) | ErrorKind(index: nat)

  predicate IsCounter(k: Counter) { (k.Protection? ==> k.index < 5) && (k.ErrorKind? ==> k.index < 6) }

  function At(values: seq<int>, i: nat): int { if i < |values| then values[i] else 0 }

  /** The value of a counter; a list that is too short counts as zero. */
  function Value(c: Counts, k: Counter): int {
    match k
    case Attempts => c.attempts
    case Completed => c.completed
    case Failed => c.failed
    case Cancelled => c.cancelled
    case Protection(i) => At(c.protections, i)
    case ErrorKind(i) => At(c.errors, i)
  }

  // ---------- aggregation ----------

  /** The catalog's source with this id; of several, the last. */
  function Find(sources: seq<Source>, id: string): Option<Source> {
    if sources == [] then None
    else if sources[|sources| - 1].id == id then Some(sources[|sources| - 1])
    else Find(sources[..|sources| - 1], id)
  }

  /** The source of a saved row, or a nameless one made from the row itself. */
  function SourceOf(sources: seq<Source>, saved: Saved): Source {
    var found := Find(sources, saved.id);
    if found.Some? then found.value
    else Source(saved.id, saved.group, saved.account, saved.model, "", "", "", false)
  }

  predicate Kept(group: string, saved: Saved) { group == "" || saved.group == group }

  function NewRow(source: Source): Row {
    Row(source.account, source.account, source.name, source.modelName, source.provider, false, source.name == "", 0,
        [], [], NO_COUNTS)
  }

  function AddLists(a: seq<int>, b: seq<int>): (r: seq<int>)
    ensures |r| == |a|
    ensures forall i :: 0 <= i < |a| ==> r[i] == a[i] + At(b, i)
  {
    seq(|a|, i requires 0 <= i < |a| => a[i] + At(b, i))
  }

  function AddCounts(a: Counts, b: Counts): Counts {
    Counts(a.attempts + b.attempts, a.completed + b.completed, a.failed + b.failed, a.cancelled + b.cancelled,
           AddLists(a.protections, b.protections), AddLists(a.errors, b.errors))
  }

  function AddModel(models: seq<ModelAttempts>, name: string, attempts: int): seq<ModelAttempts> {
    if models == [] then [ModelAttempts(name, attempts)]
    else if models[0].name == name then [ModelAttempts(name, models[0].attempts + attempts)] + models[1..]
    else [models[0]] + AddModel(models[1..], name, attempts)
  }

  function Join(row: Row, source: Source, saved: Saved): Row {
    var named := if row.archived && source.name != ""
                 then row.(name := source.name, model := source.modelName, provider := source.provider,
                     archived := false)
                 else row;
    named.(enabled := row.enabled || source.enabled,
           lastUsedAt := if row.lastUsedAt < saved.lastUsedAt then saved.lastUsedAt else row.lastUsedAt,
           groups := if source.group in row.groups then row.groups else row.groups + [source.group],
           models := AddModel(row.models, source.modelName, saved.counts.attempts),
           counts := AddCounts(row.counts, saved.counts))
  }

  function IndexOf(rows: seq<Row>, id: string): (r: Option<nat>)
    ensures r.Some? ==> r.value < |rows| && rows[r.value].id == id
    ensures r.None? ==> forall i :: 0 <= i < |rows| ==> rows[i].id != id
  {
    if rows == [] then None
    else if rows[|rows| - 1].id == id then Some(|rows| - 1)
    else IndexOf(rows[..|rows| - 1], id)
  }

  function AddSaved(sources: seq<Source>, group: string, rows: seq<Row>, saved: Saved): seq<Row> {
    if !Kept(group, saved) then rows
    else
      var source := SourceOf(sources, saved);
      var at := IndexOf(rows, source.account);
      if at.Some? then rows[at.value := Join(rows[at.value], source, saved)]
      else rows + [Join(NewRow(source), source, saved)]
  }

  /** The rows in the order in which their accounts first appear. */
  function Aggregate(sources: seq<Source>, group: string, saved: seq<Saved>): seq<Row> {
    if saved == [] then []
    else AddSaved(sources, group, Aggregate(sources, group, saved[..|saved| - 1]), saved[|saved| - 1])
  }

  /** More attempts first, then the later use, then the id in the order `before` of the locale. */
  predicate RowBefore(before: (string, string) -> bool, a: Row, b: Row) {
    if a.counts.attempts != b.counts.attempts then a.counts.attempts > b.counts.attempts
    else if a.lastUsedAt != b.lastUsedAt then a.lastUsedAt > b.lastUsedAt
    else before(a.id, b.id)
  }

  function RowLe(before: (string, string) -> bool): (Row, Row) -> bool {
    (a: Row, b: Row) => RowBefore(before, a, b)
  }

  function Rows(sources: seq<Source>, group: string, saved: seq<Saved>, before: (string, string) -> bool): seq<Row> {
    Sort(RowLe(before), Aggregate(sources, group, saved))
  }

  // ---------- the loop ----------

  method CountModel(models: seq<ModelAttempts>, name: string, attempts: int) returns (r: seq<ModelAttempts>)
    ensures r == AddModel(models, name, attempts)
  {
    var i := 0;
    while i < |models| && models[i].name != name
      invariant i <= |models|
      invariant AddModel(models, name, attempts) == models[..i] + AddModel(models[i..], name, attempts)
    {
      assert models[..i + 1] == models[..i] + [models[i]];
      assert models[i..][1..] == models[i + 1..];
      i := i + 1;
    }
    if i == |models| {
      r := models + [ModelAttempts(name, attempts)];
      assert models[..i] == models;
    } else {
      r := models[i := ModelAttempts(name, models[i].attempts + attempts)];
      assert models[i..][1..] == models[i + 1..];
    }
  }

  method JoinRow(start: Row, source: Source, saved: Saved) returns (row: Row)
    ensures row == Join(start, source, saved)
  {
    row := start;
    if row.archived && source.name != "" {
      row := row.(name := source.name, model := source.modelName, provider := source.provider, archived := false);
    }
    row := row.(enabled := row.enabled || source.enabled);
    if row.lastUsedAt < saved.lastUsedAt {
      row := row.(lastUsedAt := saved.lastUsedAt);
    }
    if source.group !in row.groups {
      row := row.(groups := row.groups + [source.group]);
    }
    var models := CountModel(row.models, source.modelName, saved.counts.attempts);
    row := row.(models := models, counts := AddCounts(row.counts, saved.counts));
  }

  // statisticsRows
  method StatisticsRows(snapshot: Option<seq<Saved>>, catalog: Option<seq<Source>>, group: string,
                        before: (string, string) -> bool)
    returns (result: seq<Row>)
    ensures result == Rows(if catalog.Some? then catalog.value else [], group,
                           if snapshot.Some? then snapshot.value else [], before)
  {
    var sources := if catalog.Some? then catalog.value else [];
    var saved := if snapshot.Some? then snapshot.value else [];
    var rows: seq<Row> := [];
    for i := 0 to |saved|
      invariant rows == Aggregate(sources, group, saved[..i])
    {
      hide Find;
      assert saved[..i + 1][..i] == saved[..i];
      var s := saved[i];
      if group != "" && s.group != group {
        continue;
      }
      var source := SourceOf(sources, s);
      var at := IndexOf(rows, source.account);
      var row := JoinRow(if at.Some? then rows[at.value] else NewRow(source), source, s);
      rows := if at.Some? then rows[at.value := row] else rows + [row];
    }
    assert saved[..|saved|] == saved;
    result := Sort(RowLe(before), rows);
  }

  // ---------- one row is a fold over its contributions ----------

  /** The kept rows that contribute to an account, in order. */
  function Contributions(sources: seq<Source>, group: string, saved: seq<Saved>, account: string): seq<Saved> {
    if saved == [] then []
    else
      var rest, last := Contributions(sources, group, saved[..|saved| - 1], account), saved[|saved| - 1];
      if Kept(group, last) && SourceOf(sources, last).account == account then rest + [last] else rest
  }

  function Fold(sources: seq<Source>, part: seq<Saved>): Row
    requires part != []
  {
    var last := part[|part| - 1];
    Join(if |part| == 1 then NewRow(SourceOf(sources, last)) else Fold(sources, part[..|part| - 1]),
         SourceOf(sources, last), last)
  }

  lemma {:induction false} ContributionsAre(sources: seq<Source>, group: string, saved: seq<Saved>, account: string)
    ensures forall s :: s in Contributions(sources, group, saved, account) ==>
              s in saved && Kept(group, s) && SourceOf(sources, s).account == account
    ensures forall s :: s in saved && Kept(group, s) && SourceOf(sources, s).account == account ==>
              s in Contributions(sources, group, saved, account)
  {
    if saved != [] {
      var n := |saved| - 1;
      ContributionsAre(sources, group, saved[..n], account);
      assert saved == saved[..n] + [saved[n]];
    }
  }

  lemma {:induction false} FoldKeepsId(sources: seq<Source>, part: seq<Saved>)
    requires part != []
    ensures Fold(sources, part).id == SourceOf(sources, part[0]).account
    ensures Fold(sources, part).account == Fold(sources, part).id
  {
    if |part| > 1 {
      FoldKeepsId(sources, part[..|part| - 1]);
    }
  }

  ghost predicate HasRow(rows: seq<Row>, account: string) { exists i :: 0 <= i < |rows| && rows[i].id == account }

  predicate IsFold(sources: seq<Source>, part: seq<Saved>, row: Row) { part != [] && row == Fold(sources, part) }

  /** Distinct ids, and each row the fold of its account's contributions. */
  ghost predicate Folds(sources: seq<Source>, group: string, saved: seq<Saved>, rows: seq<Row>) {
    && (forall i, j :: 0 <= i < j < |rows| ==> rows[i].id != rows[j].id)
    && (forall i :: 0 <= i < |rows| ==> IsFold(sources, Contributions(sources, group, saved, rows[i].id), rows[i]))
    && (forall account :: Contributions(sources, group, saved, account) != [] ==> HasRow(rows, account))
  }

  lemma JoinKeepsId(row: Row, source: Source, saved: Saved)
    ensures Join(row, source, saved).id == row.id
  {
  }

  lemma OtherContributions(sources: seq<Source>, group: string, saved: seq<Saved>, account: string)
    requires saved != [] && account != SourceOf(sources, saved[|saved| - 1]).account
    ensures Contributions(sources, group, saved, account) ==
        Contributions(sources, group, saved[..|saved| - 1], account)
  {
  }

  // What one more row contributes.
  lemma FoldStep(sources: seq<Source>, group: string, saved: seq<Saved>, row: Row)
    requires saved != [] && Kept(group, saved[|saved| - 1])
    requires row.id == SourceOf(sources, saved[|saved| - 1]).account
    requires var part := Contributions(sources, group, saved[..|saved| - 1], row.id);
             IsFold(sources, part, row) || (part == [] && row == NewRow(SourceOf(sources, saved[|saved| - 1])))
    ensures var joined := Join(row, SourceOf(sources, saved[|saved| - 1]), saved[|saved| - 1]);
            IsFold(sources, Contributions(sources, group, saved, row.id), joined) && joined.id == row.id
  {
    hide SourceOf, Join;
    var last := saved[|saved| - 1];
    JoinKeepsId(row, SourceOf(sources, last), last);
    var part := Contributions(sources, group, saved[..|saved| - 1], row.id);
    var all := part + [last];
    assert Contributions(sources, group, saved, row.id) == all;
    assert all[..|all| - 1] == part;
  }

  lemma RowRemains(sources: seq<Source>, group: string, saved: seq<Saved>, account: string)
    requires saved != [] && Kept(group, saved[|saved| - 1])
    requires Folds(sources, group, saved[..|saved| - 1], Aggregate(sources, group, saved[..|saved| - 1]))
    requires Contributions(sources, group, saved, account) != []
    ensures HasRow(Aggregate(sources, group, saved), account)
  {
    hide SourceOf, Join, Fold, Contributions, IsFold;
    var n := |saved| - 1;
    var rows, next := Aggregate(sources, group, saved[..n]), Aggregate(sources, group, saved);
    var source := SourceOf(sources, saved[n]);
    var at := IndexOf(rows, source.account);
    if account == source.account {
      JoinKeepsId(if at.Some? then rows[at.value] else NewRow(source), source, saved[n]);
      assert next[if at.Some? then at.value else |rows|].id == account;
    } else {
      OtherContributions(sources, group, saved, account);
      var i :| 0 <= i < |rows| && rows[i].id == account;
      JoinKeepsId(rows[i], source, saved[n]);
      assert next[i].id == account;
    }
  }

  lemma RowIsFold(sources: seq<Source>, group: string, saved: seq<Saved>, i: nat)
    requires saved != [] && Kept(group, saved[|saved| - 1]) && i < |Aggregate(sources, group, saved)|
    requires Folds(sources, group, saved[..|saved| - 1], Aggregate(sources, group, saved[..|saved| - 1]))
    ensures var row := Aggregate(sources, group, saved)[i];
            IsFold(sources, Contributions(sources, group, saved, row.id), row)
  {
    hide SourceOf, Join, Fold, Contributions, IsFold;
    var n := |saved| - 1;
    var rows, next := Aggregate(sources, group, saved[..n]), Aggregate(sources, group, saved);
    var source := SourceOf(sources, saved[n]);
    var at := IndexOf(rows, source.account);
    var from := if at.Some? then rows[at.value] else NewRow(source);
    JoinKeepsId(from, source, saved[n]);
    if next[i].id == source.account {
      FoldStep(sources, group, saved, from);
    } else {
      OtherContributions(sources, group, saved, next[i].id);
    }
  }

  lemma IdsStayDistinct(sources: seq<Source>, group: string, saved: seq<Saved>)
    requires saved != [] && Kept(group, saved[|saved| - 1])
    requires Folds(sources, group, saved[..|saved| - 1], Aggregate(sources, group, saved[..|saved| - 1]))
    ensures var next := Aggregate(sources, group, saved);
            forall i, j :: 0 <= i < j < |next| ==> next[i].id != next[j].id
  {
    hide SourceOf, Join, Fold, Contributions, IsFold;
    var n := |saved| - 1;
    var rows := Aggregate(sources, group, saved[..n]);
    var source := SourceOf(sources, saved[n]);
    var at := IndexOf(rows, source.account);
    JoinKeepsId(if at.Some? then rows[at.value] else NewRow(source), source, saved[n]);
  }

  lemma RowJoins(sources: seq<Source>, group: string, saved: seq<Saved>)
    requires saved != [] && Kept(group, saved[|saved| - 1])
    requires Folds(sources, group, saved[..|saved| - 1], Aggregate(sources, group, saved[..|saved| - 1]))
    ensures Folds(sources, group, saved, Aggregate(sources, group, saved))
  {
    hide Contributions, IsFold, Aggregate, Kept, HasRow;
    var next := Aggregate(sources, group, saved);
    IdsStayDistinct(sources, group, saved);
    forall i | 0 <= i < |next| ensures IsFold(sources, Contributions(sources, group, saved, next[i].id), next[i]) {
      RowIsFold(sources, group, saved, i);
    }
    forall account | Contributions(sources, group, saved, account) != [] ensures HasRow(next, account) {
      RowRemains(sources, group, saved, account);
    }
  }

  // Each row is the fold of its account's contributions; ids are distinct; an account has a row
  // exactly when something contributes to it.
  lemma {:induction false} RowsAreFolds(sources: seq<Source>, group: string, saved: seq<Saved>)
    ensures Folds(sources, group, saved, Aggregate(sources, group, saved))
  {
    if saved != [] {
      var n := |saved| - 1;
      RowsAreFolds(sources, group, saved[..n]);
      if Kept(group, saved[n]) {
        RowJoins(sources, group, saved);
      }
    }
  }

  // ---------- what a row says about its contributions ----------

  function Sum(part: seq<Saved>, k: Counter): int {
    if part == [] then 0 else Sum(part[..|part| - 1], k) + Value(part[|part| - 1].counts, k)
  }

  function SumModels(models: seq<ModelAttempts>): int {
    if models == [] then 0 else models[0].attempts + SumModels(models[1..])
  }

  predicate FullLists(c: Counts) { |c.protections| == 5 && |c.errors| == 6 }

  predicate AllFull(rows: seq<Row>) { forall i :: 0 <= i < |rows| ==> FullLists(rows[i].counts) }

  lemma AddCountsAdds(a: Counts, b: Counts, k: Counter)
    requires FullLists(a) && IsCounter(k)
    ensures FullLists(AddCounts(a, b)) && Value(AddCounts(a, b), k) == Value(a, k) + Value(b, k)
  {
  }

  // Every counter of a row is the sum over the account's kept rows.
  lemma {:induction false} FoldSums(sources: seq<Source>, part: seq<Saved>, k: Counter)
    requires part != [] && IsCounter(k)
    ensures FullLists(Fold(sources, part).counts) && Value(Fold(sources, part).counts, k) == Sum(part, k)
  {
    hide SourceOf, AddModel;
    var n := |part| - 1;
    if n > 0 {
      FoldSums(sources, part[..n], k);
      AddCountsAdds(Fold(sources, part[..n]).counts, part[n].counts, k);
    } else {
      AddCountsAdds(NO_COUNTS, part[n].counts, k);
      assert part[..0] == [];
      assert Value(NO_COUNTS, k) == 0;
    }
  }

  predicate DistinctModels(models: seq<ModelAttempts>) {
    forall i, j :: 0 <= i < j < |models| ==> models[i].name != models[j].name
  }

  predicate Names(models: seq<ModelAttempts>, name: string) { exists i :: 0 <= i < |models| && models[i].name == name }

  lemma NamesStep(models: seq<ModelAttempts>)
    requires models != []
    ensures forall x :: Names(models, x) <==> models[0].name == x || Names(models[1..], x)
  {
    forall x | Names(models, x) && models[0].name != x ensures Names(models[1..], x) {
      var i :| 0 <= i < |models| && models[i].name == x;
      assert models[1..][i - 1].name == x;
    }
    forall x | Names(models[1..], x) ensures Names(models, x) {
      var i :| 0 <= i < |models| - 1 && models[1..][i].name == x;
      assert models[i + 1].name == x;
    }
  }

  lemma {:induction false} AddModelAdds(models: seq<ModelAttempts>, name: string, attempts: int)
    requires DistinctModels(models)
    ensures DistinctModels(AddModel(models, name, attempts))
    ensures SumModels(AddModel(models, name, attempts)) == SumModels(models) + attempts
    ensures forall x :: Names(AddModel(models, name, attempts), x) <==> Names(models, x) || x == name
  {
    var r := AddModel(models, name, attempts);
    if models == [] {
      assert r[0].name == name && r[1..] == [];
    } else {
      assert r[0].name == models[0].name;
      assert forall x :: Names(models, x) <==> models[0].name == x || Names(models[1..], x) by { NamesStep(models); }
      if models[0].name == name {
        assert r[1..] == models[1..];
      } else {
        AddModelAdds(models[1..], name, attempts);
        assert r[1..] == AddModel(models[1..], name, attempts);
        forall j | 0 < j < |r| ensures r[j].name != r[0].name {
          assert Names(r[1..], r[1..][j - 1].name);
        }
      }
      assert forall x :: Names(r, x) <==> r[0].name == x || Names(r[1..], x) by { NamesStep(r); }
    }
  }

  // A row's attempts are the sum over its models, whose names are distinct.
  lemma {:induction false} FoldModels(sources: seq<Source>, part: seq<Saved>)
    requires part != []
    ensures var row := Fold(sources, part); DistinctModels(row.models) && row.counts.attempts == SumModels(row.models)
  {
    hide SourceOf, AddModel;
    var n := |part| - 1;
    if n > 0 {
      FoldModels(sources, part[..n]);
    }
    AddModelAdds(if n > 0 then Fold(sources, part[..n]).models else [], SourceOf(sources, part[n]).modelName,
                 part[n].counts.attempts);
  }

  /** The attempts under one model name. */
  function AttemptsOf(models: seq<ModelAttempts>, name: string): int {
    if models == [] then 0
    else (if models[0].name == name then models[0].attempts else 0) + AttemptsOf(models[1..], name)
  }

  function SumFor(sources: seq<Source>, part: seq<Saved>, name: string): int {
    if part == [] then 0
    else
      var last := part[|part| - 1];
      SumFor(sources, part[..|part| - 1], name) +
      (if SourceOf(sources, last).modelName == name then last.counts.attempts else 0)
  }

  lemma {:induction false} AddModelAttempts(models: seq<ModelAttempts>, added: string, attempts: int, name: string)
    ensures AttemptsOf(AddModel(models, added, attempts), name) ==
            AttemptsOf(models, name) + (if name == added then attempts else 0)
  {
    var r := AddModel(models, added, attempts);
    if models == [] {
      assert r[1..] == [];
    } else if models[0].name == added {
      assert r[1..] == models[1..];
    } else {
      AddModelAttempts(models[1..], added, attempts, name);
      assert r[1..] == AddModel(models[1..], added, attempts);
    }
  }

  // Under each model name a row has the sum over the contributions of that model.
  lemma {:induction false} FoldModelAttempts(sources: seq<Source>, part: seq<Saved>, name: string)
    requires part != []
    ensures AttemptsOf(Fold(sources, part).models, name) == SumFor(sources, part, name)
  {
    hide SourceOf, AddModel;
    var n := |part| - 1;
    if n > 0 {
      FoldModelAttempts(sources, part[..n], name);
    } else {
      assert part[..0] == [];
      assert SumFor(sources, [], name) == 0;
    }
    AddModelAttempts(if n > 0 then Fold(sources, part[..n]).models else [], SourceOf(sources, part[n]).modelName,
                     part[n].counts.attempts, name);
  }

  /** The row shows what this source is called. */
  predicate Titled(row: Row, source: Source) {
    row.name == source.name && row.model == source.modelName && row.provider == source.provider
  }

  /** The first contribution whose source has a name, or the first one if none has. */
  predicate FirstNamed(sources: seq<Source>, part: seq<Saved>, i: nat) {
    && i < |part|
    && (forall j :: 0 <= j < i ==> SourceOf(sources, part[j]).name == "")
    && (SourceOf(sources, part[i]).name == "" ==> i == 0 && forall j :: 0 <= j < |part| ==>
          SourceOf(sources, part[j]).name == "")
  }

  // A row is archived exactly when no contributing source has a name, and enabled exactly when one
  // is enabled.
  lemma {:induction false} FoldFlags(sources: seq<Source>, part: seq<Saved>)
    requires part != []
    ensures Fold(sources, part).archived <==> forall s :: s in part ==> SourceOf(sources, s).name == ""
    ensures Fold(sources, part).archived <==> Fold(sources, part).name == ""
    ensures Fold(sources, part).enabled <==> exists s :: s in part && SourceOf(sources, s).enabled
  {
    hide SourceOf, AddModel, AddCounts;
    var n := |part| - 1;
    assert part == part[..n] + [part[n]];
    if n > 0 {
      FoldFlags(sources, part[..n]);
    }
  }

  // A row is called as the first contributing source that has a name.
  lemma {:induction false} FoldTitle(sources: seq<Source>, part: seq<Saved>) returns (i: nat)
    requires part != []
    ensures FirstNamed(sources, part, i) && Titled(Fold(sources, part), SourceOf(sources, part[i]))
  {
    hide SourceOf, AddModel, AddCounts;
    var n := |part| - 1;
    i := 0;
    if n > 0 {
      FoldFlags(sources, part[..n]);
      i := FoldTitle(sources, part[..n]);
      assert forall j :: 0 <= j < n ==> part[..n][j] == part[j];
      if SourceOf(sources, part[i]).name == "" && SourceOf(sources, part[n]).name != "" {
        i := n;
      }
    }
  }

  predicate DistinctStrings(s: seq<string>) { forall i, j :: 0 <= i < j < |s| ==> s[i] != s[j] }

  // A row's groups are the groups of its contributing sources, each once.
  lemma {:induction false} FoldGroups(sources: seq<Source>, part: seq<Saved>)
    requires part != []
    ensures DistinctStrings(Fold(sources, part).groups)
    ensures forall g :: g in Fold(sources, part).groups <==> exists s :: s in part && SourceOf(sources, s).group == g
  {
    hide SourceOf, AddModel, AddCounts;
    var n := |part| - 1;
    assert part == part[..n] + [part[n]];
    if n > 0 {
      FoldGroups(sources, part[..n]);
    }
  }

  // A row was last used when the latest of its contributions was.
  lemma {:induction false} FoldLastUsed(sources: seq<Source>, part: seq<Saved>)
    requires part != []
    ensures forall s :: s in part ==> s.lastUsedAt <= Fold(sources, part).lastUsedAt
    ensures Fold(sources, part).lastUsedAt >= 0
    ensures Fold(sources, part).lastUsedAt == 0 ||
            exists s :: s in part && s.lastUsedAt == Fold(sources, part).lastUsedAt
  {
    hide SourceOf, AddModel, AddCounts;
    var n := |part| - 1;
    assert part == part[..n] + [part[n]];
    if n > 0 {
      FoldLastUsed(sources, part[..n]);
    }
  }

  // ---------- conservation ----------

  function KeptRows(group: string, saved: seq<Saved>): seq<Saved> {
    if saved == [] then []
    else KeptRows(group, saved[..|saved| - 1]) + (if Kept(group, saved[|saved| - 1]) then [saved[|saved| - 1]] else [])
  }

  function SumRows(rows: seq<Row>, k: Counter): int {
    if rows == [] then 0 else SumRows(rows[..|rows| - 1], k) + Value(rows[|rows| - 1].counts, k)
  }

  lemma {:induction false} SumRowsUpdate(rows: seq<Row>, i: nat, row: Row, k: Counter)
    requires i < |rows|
    ensures SumRows(rows[i := row], k) == SumRows(rows, k) - Value(rows[i].counts, k) + Value(row.counts, k)
  {
    var n := |rows| - 1;
    if i == n {
      assert rows[i := row][..n] == rows[..n];
    } else {
      assert rows[i := row][..n] == rows[..n][i := row];
      SumRowsUpdate(rows[..n], i, row, k);
    }
  }

  lemma JoinConserves(sources: seq<Source>, rows: seq<Row>, last: Saved, group: string, k: Counter)
    requires IsCounter(k) && Kept(group, last) && AllFull(rows)
    ensures var next := AddSaved(sources, group, rows, last);
            AllFull(next) && SumRows(next, k) == SumRows(rows, k) + Value(last.counts, k)
  {
    hide SourceOf, AddModel, AddCounts;
    var source := SourceOf(sources, last);
    var at := IndexOf(rows, source.account);
    if at.Some? {
      AddCountsAdds(rows[at.value].counts, last.counts, k);
      SumRowsUpdate(rows, at.value, Join(rows[at.value], source, last), k);
    } else {
      AddCountsAdds(NO_COUNTS, last.counts, k);
      assert Value(NO_COUNTS, k) == 0;
      var row := Join(NewRow(source), source, last);
      assert (rows + [row])[..|rows|] == rows;
    }
  }

  lemma NotKept(sources: seq<Source>, group: string, rows: seq<Row>, last: Saved)
    requires !Kept(group, last)
    ensures AddSaved(sources, group, rows, last) == rows
  {
  }

  lemma {:induction false} AggregateConserves(sources: seq<Source>, group: string, saved: seq<Saved>, k: Counter)
    requires IsCounter(k)
    ensures AllFull(Aggregate(sources, group, saved))
    ensures SumRows(Aggregate(sources, group, saved), k) == Sum(KeptRows(group, saved), k)
  {
    hide AddSaved, FullLists, Value, IsCounter;
    if saved != [] {
      var n := |saved| - 1;
      AggregateConserves(sources, group, saved[..n], k);
      var rows, last := Aggregate(sources, group, saved[..n]), saved[n];
      var kept := KeptRows(group, saved[..n]);
      if Kept(group, last) {
        assert (kept + [last])[..|kept|] == kept;
        JoinConserves(sources, rows, last, group, k);
      } else {
        assert kept + [] == kept;
        NotKept(sources, group, rows, last);
      }
    }
  }

  lemma {:induction false} SumRowsInsert(le: (Row, Row) -> bool, rows: seq<Row>, row: Row, k: Counter)
    ensures SumRows(Insert(le, rows, row), k) == SumRows(rows, k) + Value(row.counts, k)
  {
    if rows == [] {
      assert [row][..0] == [];
    } else {
      var n := |rows| - 1;
      if le(rows[n], row) {
        assert (rows + [row])[..|rows|] == rows;
      } else {
        SumRowsInsert(le, rows[..n], row, k);
        var inserted := Insert(le, rows[..n], row);
        assert (inserted + [rows[n]])[..|inserted|] == inserted;
      }
    }
  }

  lemma {:induction false} SumRowsSort(le: (Row, Row) -> bool, rows: seq<Row>, k: Counter)
    ensures SumRows(Sort(le, rows), k) == SumRows(rows, k)
  {
    if rows != [] {
      SumRowsSort(le, rows[..|rows| - 1], k);
      SumRowsInsert(le, Sort(le, rows[..|rows| - 1]), rows[|rows| - 1], k);
    }
  }

  // The lists are added place by place; what the added one lacks counts as zero.
  lemma ListsAdd(a: Counts, b: Counts, i: nat)
    ensures i < |a.protections| ==>
              AddCounts(a, b).protections[i] ==
              a.protections[i] + if i < |b.protections| then b.protections[i] else 0
    ensures i < |a.errors| ==>
              AddCounts(a, b).errors[i] == a.errors[i] + if i < |b.errors| then b.errors[i] else 0
  {
  }

  // What the counters of a row are read from.
  lemma CountersRead(c: Counts, i: nat)
    ensures i < |c.protections| ==> Value(c, Protection(i)) == c.protections[i]
    ensures i < |c.errors| ==> Value(c, ErrorKind(i)) == c.errors[i]
    ensures Value(c, Attempts) == c.attempts && Value(c, Completed) == c.completed
    ensures Value(c, Failed) == c.failed && Value(c, Cancelled) == c.cancelled
  {
  }

  // Summed over the displayed rows, every counter equals its sum over the kept rows of the snapshot.
  lemma CountersAreConserved(sources: seq<Source>, group: string, saved: seq<Saved>,
                             before: (string, string) -> bool, k: Counter)
    requires IsCounter(k)
    ensures SumRows(Rows(sources, group, saved, before), k) == Sum(KeptRows(group, saved), k)
  {
    AggregateConserves(sources, group, saved, k);
    SumRowsSort(RowLe(before), Aggregate(sources, group, saved), k);
  }

  // ---------- the displayed rows ----------

  lemma RowLePreorder(before: (string, string) -> bool)
    requires Preorder(before)
    ensures Preorder(RowLe(before))
  {
    forall x, y ensures RowLe(before)(x, y) || RowLe(before)(y, x) {
      assert before(x.id, y.id) || before(y.id, x.id);
    }
    forall x, y, z | RowLe(before)(x, y) && RowLe(before)(y, z) ensures RowLe(before)(x, z) {
      assert before(x.id, y.id) && before(y.id, z.id) ==> before(x.id, z.id);
    }
  }

  // The displayed rows are the aggregated ones, sorted by attempts, last use and id.
  lemma DisplayedInOrder(sources: seq<Source>, group: string, saved: seq<Saved>, before: (string, string) -> bool)
    requires Preorder(before)
    ensures SortedBy(RowLe(before), Rows(sources, group, saved, before))
    ensures multiset(Rows(sources, group, saved, before)) == multiset(Aggregate(sources, group, saved))
  {
    RowLePreorder(before);
    SortSorts(RowLe(before), Aggregate(sources, group, saved));
  }

  // Each displayed row stands for one account and says about it what its contributions say.
  lemma DisplayedRow(sources: seq<Source>, group: string, saved: seq<Saved>, before: (string, string) -> bool, row: Row)
    requires row in Rows(sources, group, saved, before)
    ensures var part := Contributions(sources, group, saved, row.id);
            && part != []
            && (forall k :: IsCounter(k) ==> Value(row.counts, k) == Sum(part, k))
            && row.counts.attempts == SumModels(row.models)
            && (forall name :: AttemptsOf(row.models, name) == SumFor(sources, part, name))
            && DistinctModels(row.models) && DistinctStrings(row.groups)
            && (exists i: nat :: i < |part| && FirstNamed(sources, part, i) && Titled(row, SourceOf(sources, part[i])))
            && (forall s :: s in part ==> s.lastUsedAt <= row.lastUsedAt)
            && (row.lastUsedAt == 0 || exists s :: s in part && s.lastUsedAt == row.lastUsedAt)
            && (row.archived <==> forall s :: s in part ==> SourceOf(sources, s).name == "")
            && (row.enabled <==> exists s :: s in part && SourceOf(sources, s).enabled)
            && (forall g :: g in row.groups <==> exists s :: s in part && SourceOf(sources, s).group == g)
  {
    var rows := Aggregate(sources, group, saved);
    SortKeepsElements(RowLe(before), rows);
    assert row in multiset(rows);
    RowsAreFolds(sources, group, saved);
    var part := Contributions(sources, group, saved, row.id);
    hide Contributions, Aggregate, SourceOf, Fold, FirstNamed, Titled;
    FoldModels(sources, part);
    FoldLastUsed(sources, part);
    var i := FoldTitle(sources, part);
    forall name ensures AttemptsOf(row.models, name) == SumFor(sources, part, name) {
      FoldModelAttempts(sources, part, name);
    }
    FoldGroups(sources, part);
    FoldFlags(sources, part);
    forall k | IsCounter(k) ensures Value(row.counts, k) == Sum(part, k) {
      FoldSums(sources, part, k);
    }
  }

  // No two displayed rows have the same id, and every account with a kept row is displayed.
  lemma DisplayedAccounts(sources: seq<Source>, group: string, saved: seq<Saved>, before: (string, string) -> bool)
    ensures DistinctBy((row: Row) => row.id, Rows(sources, group, saved, before))
    ensures forall s :: s in saved && Kept(group, s) ==>
              exists row :: row in Rows(sources, group, saved, before) && row.id == SourceOf(sources, s).account
  {
    var rows := Aggregate(sources, group, saved);
    RowsAreFolds(sources, group, saved);
    SortKeepsDistinct(RowLe(before), (row: Row) => row.id, rows);
    SortKeepsElements(RowLe(before), rows);
    forall s | s in saved && Kept(group, s)
      ensures exists row :: row in Rows(sources, group, saved, before) && row.id == SourceOf(sources, s).account
    {
      ContributionsAre(sources, group, saved, SourceOf(sources, s).account);
      assert HasRow(rows, SourceOf(sources, s).account);
      var i :| 0 <= i < |rows| && rows[i].id == SourceOf(sources, s).account;
      assert rows[i] in multiset(rows);
    }
  }

  // ---------- sources, groups and order ----------

  // A saved row counts for the source of the catalog with its id, the last one of several; without one it
  // counts for its own account and group, and has no name.
  lemma {:induction false} FindLast(sources: seq<Source>, id: string)
    ensures match Find(sources, id)
            case None => forall i :: 0 <= i < |sources| ==> sources[i].id != id
            case Some(source) =>
              exists i :: 0 <= i < |sources| && sources[i] == source && source.id == id &&
                forall j :: i < j < |sources| ==> sources[j].id != id
  {
    if sources != [] {
      var n := |sources| - 1;
      FindLast(sources[..n], id);
      if sources[n].id != id && Find(sources, id).Some? {
        var i :| 0 <= i < n && sources[..n][i] == Find(sources, id).value
            && forall j :: i < j < n ==> sources[..n][j].id != id;
        assert sources[i] == Find(sources, id).value;
        assert forall j :: i < j < n ==> sources[j] == sources[..n][j];
      } else if sources[n].id != id {
        assert forall j :: 0 <= j < n ==> sources[j] == sources[..n][j];
      }
    }
  }

  lemma SourceIs(sources: seq<Source>, saved: Saved)
    ensures var source := SourceOf(sources, saved);
            if exists i :: 0 <= i < |sources| && sources[i].id == saved.id then
              exists i :: 0 <= i < |sources| && sources[i] == source && source.id == saved.id &&
                forall j :: i < j < |sources| ==> sources[j].id != saved.id
            else
              && source.account == saved.account && source.group == saved.group
              && source.name == "" && source.modelName == "" && source.provider == "" && !source.enabled
  {
    FindLast(sources, saved.id);
  }

  // Without a group every saved row is shown in the row of its account; with one, those of the group are,
  // and no other.
  lemma FilteredAccounts(sources: seq<Source>, group: string, saved: seq<Saved>, before: (string, string) -> bool)
    ensures var rows := Rows(sources, group, saved, before);
            && (forall s :: s in saved && (group == "" || s.group == group) ==>
                  HasRow(rows, SourceOf(sources, s).account))
            && (forall row :: row in rows ==>
                  exists s :: s in saved && (group == "" || s.group == group) && SourceOf(sources, s).account == row.id)
  {
    DisplayedAccounts(sources, group, saved, before);
    var rows := Rows(sources, group, saved, before);
    forall row | row in rows
      ensures exists s :: s in saved && (group == "" || s.group == group) && SourceOf(sources, s).account == row.id
    {
      DisplayedRow(sources, group, saved, before, row);
      ContributionsAre(sources, group, saved, row.id);
      var part := Contributions(sources, group, saved, row.id);
      assert part[0] in part;
    }
  }

  // Of two rows the one with more attempts comes first, of equals the one used later, and of those the one
  // whose id comes first.
  lemma DisplayedDescending(sources: seq<Source>, group: string, saved: seq<Saved>, before: (string, string) -> bool,
      i: nat, j: nat)
    requires i < j < |Rows(sources, group, saved, before)|
    requires forall a, b :: before(a, b) || before(b, a)
    requires forall a, b, c :: before(a, b) && before(b, c) ==> before(a, c)
    ensures var a, b := Rows(sources, group, saved, before)[i], Rows(sources, group, saved, before)[j];
            && a.counts.attempts >= b.counts.attempts
            && (a.counts.attempts == b.counts.attempts ==> a.lastUsedAt >= b.lastUsedAt)
            && (a.counts.attempts == b.counts.attempts && a.lastUsedAt == b.lastUsedAt ==> before(a.id, b.id))
  {
    DisplayedInOrder(sources, group, saved, before);
    hide Aggregate;
  }

  predicate Extends(more: Row, row: Row) {
    row.groups <= more.groups && |row.models| <= |more.models|
    && forall i :: 0 <= i < |row.models| ==> more.models[i].name == row.models[i].name
  }

  lemma {:induction false} AddModelExtends(models: seq<ModelAttempts>, name: string, attempts: int)
    ensures var more := AddModel(models, name, attempts);
            |models| <= |more| <= |models| + 1 && forall i :: 0 <= i < |models| ==> more[i].name == models[i].name
  {
    if models != [] && models[0].name != name {
      AddModelExtends(models[1..], name, attempts);
    }
  }

  // The groups and the models of a row come in the order in which its contributions name them.
  lemma FoldExtends(sources: seq<Source>, part: seq<Saved>)
    requires |part| > 1
    ensures Extends(Fold(sources, part), Fold(sources, part[..|part| - 1]))
  {
    var front, last := Fold(sources, part[..|part| - 1]), part[|part| - 1];
    AddModelExtends(front.models, SourceOf(sources, last).modelName, last.counts.attempts);
    hide SourceOf, AddModel, AddCounts;
  }
}
