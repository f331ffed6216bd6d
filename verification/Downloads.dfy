// The table of model downloads: rows, tracked statuses, cleanup timers and start attempts.
module Downloads {
  import opened Common

  datatype Status = Downloading | SpeedTest | Installing | Paused | Completed | Error | Cancelled

  predicate Active(s: Status) { s == Downloading || s == SpeedTest || s == Installing }

  /** A row in one of these is cleaned up after a while. */
  predicate Finished(s: Status) { s == Completed || s == Error || s == Cancelled }

  datatype Item = Item(fileName: string, repo: Option<string>, files: Option<seq<string>>, progress: int,
      downloaded: int,
                       total: int, status: Status, shardIndex: Option<nat>, shardCount: Option<nat>)

  /** A progress event of the backend. */
  datatype Data = Data(fileName: string, progress: int, downloaded: int, total: int, status: Status,
                       shardIndex: Option<nat>, shardCount: Option<nat>)

  /** A call of the backend's start command; the attempt is one more than its place in the list. */
  datatype Call = Call(repo: string, files: seq<string>)

  /** `timers` are the timeouts that have been set and neither fired nor cleared, `calls` the start
      commands sent so far. */
  datatype State = State(downloads: map<string, Item>, cleanupTimers: map<string, nat>, statuses: map<string, Status>,
                         attempt: nat, timers: map<nat, string>, lastTimer: nat, calls: seq<Call>)

  const START := State(map[], map[], map[], 0, map[], 0, [])

  /** What follows the last slash. */
  function Basename(path: string): string {
    if path == [] then [] else if path[|path| - 1] == '/' then [] else Basename(path[..|path| - 1]) + [path[|path| - 1]]
  }

  function Primary(c: Call): string
    requires c.files != []
  {
    Basename(c.files[0])
  }

  function ClearTimer(s: State, file: string): State {
    if file !in s.cleanupTimers then s
    else s.(timers := s.timers - {s.cleanupTimers[file]}, cleanupTimers := s.cleanupTimers - {file})
  }

  function SetTimer(s: State, file: string): State {
    var id := s.lastTimer + 1;
    s.(timers := s.timers[id := file], lastTimer := id, cleanupTimers := s.cleanupTimers[file := id])
  }

  // the progress handler
  function Progress(s: State, d: Data): State {
    var repo := if d.fileName in s.downloads then s.downloads[d.fileName].repo else None;
    var files := if d.fileName in s.downloads then s.downloads[d.fileName].files else None;
    var item := Item(d.fileName, repo, files, d.progress, d.downloaded, d.total, d.status, d.shardIndex, d.shardCount);
    var next := ClearTimer(s.(statuses := s.statuses[d.fileName := d.status]), d.fileName)
                .(downloads := s.downloads[d.fileName := item]);
    if Finished(d.status) then SetTimer(next, d.fileName) else next
  }

  predicate AnyActive(s: State) { exists file :: file in s.statuses && Active(s.statuses[file]) }

  function FirstItem(c: Call): Item
    requires c.files != []
  {
    var shards := |c.files| > 1;
    Item(Primary(c), Some(c.repo), Some(c.files), 0, 0, 0, Downloading,
         if shards then Some(1) else None, if shards then Some(|c.files|) else None)
  }

  // startDownload up to its `await`
  function Start(s: State, c: Call): State {
    if c.files == [] || AnyActive(s) then s
    else
      ClearTimer(s.(statuses := s.statuses[Primary(c) := Downloading]), Primary(c))
      .(attempt := s.attempt + 1, downloads := s.downloads[Primary(c) := FirstItem(c)], calls := s.calls + [c])
  }

  // startDownload when the call it awaits is rejected
  function Reject(s: State, attempt: nat, primary: string): State {
    if attempt != s.attempt || (primary in s.statuses && s.statuses[primary] in {Paused, Cancelled, Completed}) then s
    else
      var rows := if primary in s.downloads then s.downloads[primary := s.downloads[primary].(status := Error)]
                  else s.downloads;
      SetTimer(ClearTimer(s.(statuses := s.statuses[primary := Error]), primary).(downloads := rows), primary)
  }

  // a cleanup timer's callback
  function Clean(s: State, id: nat): State
    requires id in s.timers
  {
    var file := s.timers[id];
    s.(downloads := s.downloads - {file}, cleanupTimers := s.cleanupTimers - {file}, statuses := s.statuses - {file},
       timers := s.timers - {id})
  }

  // The bar's resume button: the call it makes for a row.
  function Resumed(row: Item): Option<Call> {
    if row.repo.None? || row.repo.value == "" then None
    else
      var files := if row.files.Some? && row.files.value != [] then row.files.value else [row.fileName];
      Some(Call(row.repo.value, files))
  }

  datatype Event = Progressed(data: Data) | Started(call: Call) | Resume(file: string) | Rejected(index: nat)
      | Fired(timer: nat)

  /** A call may be rejected at any time; a timer fires only while it is set. */
  predicate Enabled(s: State, e: Event) {
    match e
    case Rejected(i) => i < |s.calls| && s.calls[i].files != []
    case Fired(id) => id in s.timers
    case Resume(file) => file in s.downloads
    case _ => true
  }

  function Step(s: State, e: Event): State
    requires Enabled(s, e)
  {
    match e
    case Progressed(data) => Progress(s, data)
    case Started(call) => Start(s, call)
    case Resume(file) =>
      var call := Resumed(s.downloads[file]);
      if call.Some? then Start(s, call.value) else s
    case Rejected(i) => Reject(s, i + 1, Primary(s.calls[i]))
    case Fired(id) => Clean(s, id)
  }

  // ---------- the invariant ----------

  /** Exactly the files with a finished status have a timer, and exactly these timers are set. */
  ghost predicate Timed(s: State) {
    && (forall file :: file in s.cleanupTimers <==> file in s.statuses && Finished(s.statuses[file]))
    && (forall file :: file in s.cleanupTimers ==>
          s.cleanupTimers[file] in s.timers && s.timers[s.cleanupTimers[file]] == file)
    && (forall id :: id in s.timers ==>
          1 <= id <= s.lastTimer && s.timers[id] in s.cleanupTimers && s.cleanupTimers[s.timers[id]] == id)
  }

  /** Every row shows the tracked status of its file. */
  predicate Agreeing(s: State) {
    forall file :: file in s.downloads ==>
      file in s.statuses && s.downloads[file].status == s.statuses[file] && s.downloads[file].fileName == file
  }

  /** The last call that began a download shown as `file`. */
  function LastCall(calls: seq<Call>, file: string): Option<Call> {
    if calls == [] then None
    else
      var last := calls[|calls| - 1];
      if last.files != [] && Primary(last) == file then Some(last) else LastCall(calls[..|calls| - 1], file)
  }

  /** A row knows the repository and the shards its download was last started with, or neither. */
  predicate Remembering(s: State) {
    && s.attempt == |s.calls|
    && (forall i :: 0 <= i < |s.calls| ==> s.calls[i].files != [])
    && (forall file :: file in s.downloads ==>
          var row := s.downloads[file];
          if row.repo.Some? then row.files.Some?
              && LastCall(s.calls, file) == Some(Call(row.repo.value, row.files.value))
          else row.files.None?)
  }

  ghost predicate Inv(s: State) { Timed(s) && Agreeing(s) && Remembering(s) }

  lemma ClearTimed(s: State, file: string, status: Status)
    requires Timed(s) && !Finished(status)
    ensures Timed(ClearTimer(s.(statuses := s.statuses[file := status]), file))
  {
  }

  lemma ResetTimed(s: State, file: string, status: Status)
    requires Timed(s) && Finished(status)
    ensures Timed(SetTimer(ClearTimer(s.(statuses := s.statuses[file := status]), file), file))
  {
  }

  lemma TimedAlike(s: State, t: State)
    requires Timed(s) && s.statuses == t.statuses && s.cleanupTimers == t.cleanupTimers
    requires s.timers == t.timers && s.lastTimer == t.lastTimer
    ensures Timed(t)
  {
  }

  lemma ProgressAgrees(s: State, d: Data)
    requires Agreeing(s)
    ensures Agreeing(Progress(s, d))
  {
    hide Finished;
    assert Progress(s, d).statuses == s.statuses[d.fileName := d.status];
  }

  // However many events come, the row keeps the repository and the shards of its start.
  lemma ProgressRemembers(s: State, d: Data)
    requires Remembering(s)
    ensures Remembering(Progress(s, d))
  {
    hide LastCall, Finished;
    var next := Progress(s, d);
    assert next.calls == s.calls && next.attempt == s.attempt;
    assert next.downloads.Keys == s.downloads.Keys + {d.fileName};
  }

  lemma ProgressKeeps(s: State, d: Data)
    requires Inv(s)
    ensures Inv(Progress(s, d))
  {
    ProgressAgrees(s, d);
    ProgressRemembers(s, d);
    hide Timed, Agreeing, Remembering;
    if Finished(d.status) {
      ResetTimed(s, d.fileName, d.status);
      TimedAlike(SetTimer(ClearTimer(s.(statuses := s.statuses[d.fileName := d.status]), d.fileName), d.fileName),
          Progress(s, d));
    } else {
      ClearTimed(s, d.fileName, d.status);
      TimedAlike(ClearTimer(s.(statuses := s.statuses[d.fileName := d.status]), d.fileName), Progress(s, d));
    }
  }

  lemma StartRows(s: State, c: Call)
    requires Agreeing(s) && Remembering(s) && c.files != [] && !AnyActive(s)
    ensures Agreeing(Start(s, c)) && Remembering(Start(s, c))
  {
    hide AnyActive, Basename;
    var next := Start(s, c);
    assert next.calls == s.calls + [c] && next.statuses == s.statuses[Primary(c) := Downloading];
    assert next.calls[..|s.calls|] == s.calls;
  }

  lemma StartKeeps(s: State, c: Call)
    requires Inv(s)
    ensures Inv(Start(s, c))
  {
    hide AnyActive;
    if c.files != [] && !AnyActive(s) {
      StartRows(s, c);
      hide Timed, Agreeing, Remembering;
      ClearTimed(s, Primary(c), Downloading);
      TimedAlike(ClearTimer(s.(statuses := s.statuses[Primary(c) := Downloading]), Primary(c)), Start(s, c));
    }
  }

  lemma RejectAgrees(s: State, attempt: nat, primary: string)
    requires Agreeing(s)
    ensures Agreeing(Reject(s, attempt, primary))
  {
    var next := Reject(s, attempt, primary);
    if next != s {
      assert next.statuses == s.statuses[primary := Error];
    }
  }

  lemma RejectRemembers(s: State, attempt: nat, primary: string)
    requires Remembering(s)
    ensures Remembering(Reject(s, attempt, primary))
  {
    hide LastCall;
    var next := Reject(s, attempt, primary);
    assert next.calls == s.calls && next.attempt == s.attempt && next.downloads.Keys == s.downloads.Keys;
  }

  lemma RejectKeeps(s: State, attempt: nat, primary: string)
    requires Inv(s)
    ensures Inv(Reject(s, attempt, primary))
  {
    RejectAgrees(s, attempt, primary);
    RejectRemembers(s, attempt, primary);
    hide Timed, Agreeing, Remembering;
    if Reject(s, attempt, primary) != s {
      ResetTimed(s, primary, Error);
      TimedAlike(SetTimer(ClearTimer(s.(statuses := s.statuses[primary := Error]), primary), primary),
          Reject(s, attempt, primary));
    }
  }

  lemma CleanKeeps(s: State, id: nat)
    requires Inv(s) && id in s.timers
    ensures Inv(Clean(s, id))
  {
  }

  lemma StepKeeps(s: State, e: Event)
    requires Inv(s) && Enabled(s, e)
    ensures Inv(Step(s, e))
  {
    hide Inv, Progress, Start, Reject, Clean, Resumed;
    match e
    case Progressed(data) => ProgressKeeps(s, data);
    case Started(call) => StartKeeps(s, call);
    case Resume(file) =>
      var call := Resumed(s.downloads[file]);
      if call.Some? {
        StartKeeps(s, call.value);
      }
    case Rejected(i) => RejectKeeps(s, i + 1, Primary(s.calls[i]));
    case Fired(id) => CleanKeeps(s, id);
  }

  // ---------- runs ----------

  predicate AllEnabled(s: State, es: seq<Event>)
    decreases |es|
  {
    es == [] || (Enabled(s, es[0]) && AllEnabled(Step(s, es[0]), es[1..]))
  }

  function Run(s: State, es: seq<Event>): State
    requires AllEnabled(s, es)
    decreases |es|
  {
    if es == [] then s else Run(Step(s, es[0]), es[1..])
  }

  // Over every run: a file has a timer exactly when its tracked status is a finished one, the
  // timeouts that are set are those timers, every row shows its tracked status, and every row
  // remembers the last start of its file.
  lemma {:induction false} EveryRun(s: State, es: seq<Event>)
    requires Inv(s) && AllEnabled(s, es)
    ensures Inv(Run(s, es))
    decreases |es|
  {
    hide Inv, Step, Enabled;
    if es != [] {
      StepKeeps(s, es[0]);
      EveryRun(Step(s, es[0]), es[1..]);
    }
  }

  lemma StartsInvariant()
    ensures Inv(START)
  {
  }

  // A timer that fires cleans up a file whose status is finished, so never an active or a paused
  // row, and touches no other file.
  lemma TimerCleansFinished(s: State, id: nat)
    requires Inv(s) && id in s.timers
    ensures var file, next := s.timers[id], Clean(s, id);
            && file in s.statuses && Finished(s.statuses[file])
            && (file in s.downloads ==> Finished(s.downloads[file].status))
            && file !in next.downloads && file !in next.statuses
            && (forall other :: other != file ==>
                  && (other in next.downloads <==> other in s.downloads)
                  && (other in next.statuses <==> other in s.statuses)
                  && (other in s.downloads ==> next.downloads[other] == s.downloads[other])
                  && (other in s.statuses ==> next.statuses[other] == s.statuses[other]))
  {
  }

  // The start command is sent by nothing but a start or a resume, and only while no status and no
  // row is active.
  lemma StartsAlone(s: State, e: Event)
    requires Inv(s) && Enabled(s, e)
    ensures var next := Step(s, e);
            && (next.calls == s.calls || exists c :: next.calls == s.calls + [c])
            && (next.calls != s.calls ==>
                  && (e.Started? || e.Resume?)
                  && (forall file :: file in s.statuses ==> !Active(s.statuses[file]))
                  && (forall file :: file in s.downloads ==> !Active(s.downloads[file].status)))
  {
  }

  // A rejection of any attempt but the newest changes nothing; one of the newest touches its own
  // file only, and never a paused one.
  lemma RejectionsAreLocal(s: State, i: nat)
    requires Inv(s) && Enabled(s, Rejected(i))
    ensures var next, primary := Step(s, Rejected(i)), Primary(s.calls[i]);
            && (i + 1 < |s.calls| ==> next == s)
            && (primary in s.statuses && s.statuses[primary] == Paused ==> next == s)
            && (forall other :: other != primary ==>
                  && (other in next.downloads <==> other in s.downloads)
                  && (other in s.downloads ==> next.downloads[other] == s.downloads[other])
                  && (other in next.statuses <==> other in s.statuses)
                  && (other in s.statuses ==> next.statuses[other] == s.statuses[other]))
  {
  }

  /** The event neither reports on the file, nor rejects its newest call, nor starts it again. */
  predicate Elsewhere(s: State, e: Event, file: string)
    requires Enabled(s, e)
  {
    match e
    case Progressed(data) => data.fileName != file
    case Started(call) => call.files != [] ==> Primary(call) != file
    case Resume(f) => Resumed(s.downloads[f]).Some? ==> Primary(Resumed(s.downloads[f]).value) != file
    case Rejected(i) => i + 1 < |s.calls| || Primary(s.calls[i]) != file
    case Fired(_) => true
  }

  predicate AllElsewhere(s: State, es: seq<Event>, file: string)
    requires AllEnabled(s, es)
    decreases |es|
  {
    es == [] || (Elsewhere(s, es[0], file) && AllElsewhere(Step(s, es[0]), es[1..], file))
  }

  lemma StaysPut(s: State, e: Event, file: string)
    requires Inv(s) && Enabled(s, e) && Elsewhere(s, e, file) && file in s.downloads && !Finished(s.statuses[file])
    ensures var next := Step(s, e);
            && file in next.downloads && next.downloads[file] == s.downloads[file]
            && file in next.statuses && next.statuses[file] == s.statuses[file]
  {
    match e
    case Fired(id) =>
      hide Remembering;
      TimerCleansFinished(s, id);
    case Rejected(i) =>
      hide Timed, Finished, LastCall, Basename;
      RejectionsAreLocal(s, i);
    case Progressed(_) => hide Timed, Finished, LastCall, Basename, Remembering, Agreeing;
    case Started(call) =>
      hide Timed, Finished, LastCall, Basename, AnyActive, Remembering, Agreeing;
    case Resume(f) => hide Timed, Finished, LastCall, Basename, AnyActive, Resumed, Remembering, Agreeing;
  }

  // Whatever happens to other files, and whichever timers fire, the row of an active or paused
  // download stays as it is.
  lemma {:induction false} RowSurvives(s: State, es: seq<Event>, file: string)
    requires Inv(s) && AllEnabled(s, es) && AllElsewhere(s, es, file)
    requires file in s.downloads && !Finished(s.statuses[file])
    ensures var now := Run(s, es);
            && file in now.downloads && now.downloads[file] == s.downloads[file]
            && file in now.statuses && now.statuses[file] == s.statuses[file]
    decreases |es|
  {
    if es != [] {
      StaysPut(s, es[0], file);
      StepKeeps(s, es[0]);
      hide Inv, Step, Enabled, Elsewhere, Finished;
      RowSurvives(Step(s, es[0]), es[1..], file);
    }
  }

  /** The figures of a row are those of the event. */
  predicate Reports(row: Item, d: Data) {
    && row.progress == d.progress && row.downloaded == d.downloaded && row.total == d.total
    && row.shardIndex == d.shardIndex && row.shardCount == d.shardCount
  }

  /** The event neither reports on the file nor starts it. */
  predicate NoNews(s: State, e: Event, file: string)
    requires Enabled(s, e)
  {
    match e
    case Progressed(data) => data.fileName != file
    case Started(call) => call.files != [] ==> Primary(call) != file
    case Resume(f) => Resumed(s.downloads[f]).Some? ==> Primary(Resumed(s.downloads[f]).value) != file
    case _ => true
  }

  predicate AllNoNews(s: State, es: seq<Event>, file: string)
    requires AllEnabled(s, es)
    decreases |es|
  {
    es == [] || (NoNews(s, es[0], file) && AllNoNews(Step(s, es[0]), es[1..], file))
  }

  lemma {:induction false} FiguresStay(s: State, es: seq<Event>, file: string, d: Data)
    requires AllEnabled(s, es) && AllNoNews(s, es, file)
    requires file in s.downloads ==> Reports(s.downloads[file], d)
    ensures file in Run(s, es).downloads ==> Reports(Run(s, es).downloads[file], d)
    decreases |es|
  {
    if es != [] {
      hide Basename, AnyActive, Finished;
      FiguresStay(Step(s, es[0]), es[1..], file, d);
    }
  }

  // As long as a row is shown, it shows the figures of the last event about its file, whatever
  // rejections, timers and other downloads do since.
  lemma RowReports(s: State, d: Data, es: seq<Event>)
    requires AllEnabled(Progress(s, d), es) && AllNoNews(Progress(s, d), es, d.fileName)
    ensures var now := Run(Progress(s, d), es);
            d.fileName in now.downloads ==> Reports(now.downloads[d.fileName], d)
  {
    FiguresStay(Progress(s, d), es, d.fileName, d);
  }

  lemma {:induction false} LastCallOf(calls: seq<Call>, file: string)
    requires forall i :: 0 <= i < |calls| ==> calls[i].files != []
    ensures var c := LastCall(calls, file); c.Some? ==>
        c.value in calls && c.value.files != [] && Primary(c.value) == file
  {
    if calls != [] {
      LastCallOf(calls[..|calls| - 1], file);
    }
  }

  // Resuming in any reachable state sends again exactly the call that last started this row.
  lemma ResumeRepeats(s: State, file: string)
    requires Inv(s) && file in s.downloads && Resumed(s.downloads[file]).Some?
    ensures LastCall(s.calls, file) == Resumed(s.downloads[file])
    ensures !AnyActive(s) ==>
              && Step(s, Resume(file)).calls == s.calls + [LastCall(s.calls, file).value]
              && Primary(LastCall(s.calls, file).value) == file
  {
    LastCallOf(s.calls, file);
  }

  // ---------- what each event does ----------

  // The name under which a file is tracked is what follows the last slash of its path.
  lemma {:induction false} BasenameIs(path: string) returns (folder: string)
    ensures path == folder + Basename(path) && '/' !in Basename(path)
    ensures folder == [] || folder[|folder| - 1] == '/'
  {
    folder := path;
    if path != [] && path[|path| - 1] != '/' {
      var front, last := path[..|path| - 1], path[|path| - 1];
      folder := BasenameIs(front);
      assert path == front + [last] == folder + (Basename(front) + [last]);
    }
  }

  /** Nothing is known differently about the other files. */
  ghost predicate OthersSame(s: State, next: State, file: string) {
    forall other :: other != file ==>
      && (other in next.downloads <==> other in s.downloads)
      && (other in s.downloads ==> next.downloads[other] == s.downloads[other])
      && (other in next.statuses <==> other in s.statuses)
      && (other in s.statuses ==> next.statuses[other] == s.statuses[other])
  }

  lemma OnlyAt(s: State, next: State, file: string, rows: map<string, Item>, status: Status)
    requires next.downloads == s.downloads + rows && rows.Keys <= {file} && next.statuses == s.statuses[file := status]
    ensures OthersSame(s, next, file)
  {
  }

  /** A timeout that will clean the file up is set. */
  predicate CleanupSet(s: State, file: string) { exists id :: id in s.timers && s.timers[id] == file }

  lemma CleanupIsFinished(s: State, file: string)
    requires Inv(s)
    ensures CleanupSet(s, file) <==> file in s.statuses && Finished(s.statuses[file])
  {
    if file in s.cleanupTimers {
      assert s.timers[s.cleanupTimers[file]] == file;
    }
  }

  lemma FinishedIs(status: Status)
    ensures Finished(status) <==> status in {Completed, Error, Cancelled}
  {
  }

  lemma TimersOnly(s: State, file: string)
    ensures var cleared, timed := ClearTimer(s, file), SetTimer(s, file);
            && cleared == s.(timers := cleared.timers, cleanupTimers := cleared.cleanupTimers)
            && timed == s.(timers := timed.timers, cleanupTimers := timed.cleanupTimers, lastTimer := timed.lastTimer)
  {
  }

  lemma PutIsPlus<T>(m: map<string, T>, k: string, v: T)
    ensures m[k := v] == m + map[k := v] && m[k := v].Keys == m.Keys + {k} && m[k := v][k] == v
  {
  }

  lemma ProgressMaps(s: State, d: Data)
    ensures var file, next := d.fileName, Progress(s, d);
            && next.statuses == s.statuses[file := d.status] && next.calls == s.calls && file in next.downloads
            && next.downloads == s.downloads + map[file := next.downloads[file]]
            && next.downloads[file] ==
               Item(file, if file in s.downloads then s.downloads[file].repo else None,
                    if file in s.downloads then s.downloads[file].files else None,
                    d.progress, d.downloaded, d.total, d.status, d.shardIndex, d.shardCount)
  {
    hide Finished, ClearTimer, SetTimer;
    var file := d.fileName;
    var repo := if file in s.downloads then s.downloads[file].repo else None;
    var files := if file in s.downloads then s.downloads[file].files else None;
    var item := Item(file, repo, files, d.progress, d.downloaded, d.total, d.status, d.shardIndex, d.shardCount);
    TimersOnly(s.(statuses := s.statuses[file := d.status]), file);
    var next := ClearTimer(s.(statuses := s.statuses[file := d.status]), file);
    TimersOnly(next.(downloads := s.downloads[file := item]), file);
    PutIsPlus(s.downloads, file, item);
  }

  // A progress event shows its figures and its status in the row of its file, which keeps what it was
  // started with; the file is to be cleaned up exactly after completion, an error or a cancellation.
  lemma ProgressShows(s: State, d: Data)
    requires Inv(s)
    ensures var file, next := d.fileName, Progress(s, d);
            && file in next.downloads && file in next.statuses && next.statuses[file] == d.status
            && Reports(next.downloads[file], d) && next.downloads[file].status == d.status
            && next.downloads[file].fileName == file
            && (if file in s.downloads
                then next.downloads[file].repo == s.downloads[file].repo
                     && next.downloads[file].files == s.downloads[file].files
                else next.downloads[file].repo.None? && next.downloads[file].files.None?)
            && (CleanupSet(next, file) <==> d.status in {Completed, Error, Cancelled})
            && OthersSame(s, next, file) && next.calls == s.calls
  {
    hide Inv, OthersSame, CleanupSet, Finished, Progress;
    var next := Progress(s, d);
    ProgressMaps(s, d);
    ProgressKeeps(s, d);
    CleanupIsFinished(next, d.fileName);
    FinishedIs(d.status);
    OnlyAt(s, next, d.fileName, map[d.fileName := next.downloads[d.fileName]], d.status);
  }

  /** A download that is running; no other may be started beside it. */
  predicate Running(s: State, file: string) {
    file in s.statuses && (s.statuses[file] == Downloading || s.statuses[file] == SpeedTest
        || s.statuses[file] == Installing)
  }

  ghost predicate AnyRunning(s: State) { exists file :: Running(s, file) }

  lemma ActiveIsRunning(s: State)
    ensures AnyActive(s) <==> AnyRunning(s)
  {
    if file :| file in s.statuses && Active(s.statuses[file]) {
      assert Running(s, file);
    }
    if file :| Running(s, file) {
      assert file in s.statuses && Active(s.statuses[file]);
    }
  }

  lemma CallsCounted(s: State)
    requires Inv(s)
    ensures s.attempt == |s.calls|
  {
    hide Timed, Agreeing, LastCall;
  }

  // A start beside no running download sends its call and shows a fresh row under the base name of the
  // first file, at nothing and without a cleanup; the row remembers the call, and its shards if there
  // are several. Otherwise nothing happens.
  lemma StartShows(s: State, c: Call)
    requires Inv(s)
    ensures c.files == [] || AnyRunning(s) ==> Start(s, c) == s
    ensures c.files != [] && !AnyRunning(s) ==>
              var file, next := Basename(c.files[0]), Start(s, c);
              && next.calls == s.calls + [c] && next.attempt == |next.calls|
              && file in next.downloads && next.statuses == s.statuses[file := Downloading]
              && (var row := next.downloads[file];
                  && row.fileName == file && row.status == Downloading
                  && row.repo == Some(c.repo) && row.files == Some(c.files)
                  && row.progress == 0 && row.downloaded == 0 && row.total == 0
                  && (if |c.files| > 1 then row.shardIndex == Some(1) && row.shardCount == Some(|c.files|)
                      else row.shardIndex.None? && row.shardCount.None?))
              && !CleanupSet(next, file) && Running(next, file) && OthersSame(s, next, file)
  {
    hide Inv, Basename, CleanupSet, AnyActive, AnyRunning, OthersSame;
    ActiveIsRunning(s);
    if c.files != [] && !AnyRunning(s) {
      var file, next := Basename(c.files[0]), Start(s, c);
      StartKeeps(s, c);
      CleanupIsFinished(next, file);
      CallsCounted(next);
      OnlyAt(s, next, file, map[file := FirstItem(c)], Downloading);
    }
  }

  // A rejection of the newest attempt makes its file an error to be cleaned up, with its row as it was
  // otherwise, unless the download was paused, cancelled or completed meanwhile; nothing else changes.
  lemma RejectionFails(s: State, i: nat)
    requires Inv(s) && Enabled(s, Rejected(i))
    ensures var file, next := Primary(s.calls[i]), Step(s, Rejected(i));
            var settled := file in s.statuses && s.statuses[file] in {Paused, Cancelled, Completed};
            && (i + 1 != |s.calls| || settled ==> next == s)
            && (i + 1 == |s.calls| && !settled ==>
                  && next.statuses == s.statuses[file := Error]
                  && next.downloads.Keys == s.downloads.Keys
                  && (file in s.downloads ==> next.downloads[file] == s.downloads[file].(status := Error))
                  && CleanupSet(next, file) && !Running(next, file) && OthersSame(s, next, file)
                  && next.calls == s.calls)
  {
    hide Inv, Primary, CleanupSet, OthersSame;
    var file, next := Primary(s.calls[i]), Step(s, Rejected(i));
    CallsCounted(s);
    RejectKeeps(s, i + 1, file);
    CleanupIsFinished(next, file);
    if i + 1 == |s.calls| && !(file in s.statuses && s.statuses[file] in {Paused, Cancelled, Completed}) {
      var rows := if file in s.downloads then map[file := s.downloads[file].(status := Error)] else map[];
      assert next.downloads == s.downloads + rows;
      OnlyAt(s, next, file, rows, Error);
    }
  }

  // So after it any file can be started again, if no other one is running.
  lemma RejectionFrees(s: State, i: nat, c: Call)
    requires Inv(s) && Enabled(s, Rejected(i)) && i + 1 == |s.calls| && c.files != []
    requires forall other :: Running(s, other) ==> other == Primary(s.calls[i])
    ensures Step(Step(s, Rejected(i)), Started(c)).calls == s.calls + [c]
  {
    var file, next := Primary(s.calls[i]), Step(s, Rejected(i));
    RejectionFails(s, i);
    RejectKeeps(s, i + 1, file);
    hide Inv, Primary, Reject, CleanupSet;
    forall other ensures !Running(next, other) {
      assert other != file ==> !Running(s, other);
    }
    StartShows(next, c);
  }

  // Resuming is possible exactly for a row that has a repository: it sends the files of the row again.
  lemma ResumeSends(s: State, file: string)
    requires Inv(s) && file in s.downloads && !AnyRunning(s)
    ensures var row, next := s.downloads[file], Step(s, Resume(file));
            if row.repo.Some? && row.repo.value != "" then
              row.files.Some? && next.calls == s.calls + [Call(row.repo.value, row.files.value)]
            else next == s
  {
    var row := s.downloads[file];
    ActiveIsRunning(s);
    hide Timed, AnyActive, AnyRunning;
    if row.repo.Some? && row.repo.value != "" {
      LastCallOf(s.calls, file);
    }
  }

  // ---------- the provider in place ----------

  class DownloadProvider {
    var downloads: map<string, Item>
    var cleanupTimers: map<string, nat>
    var statuses: map<string, Status>
    var attempt: nat
    var timers: map<nat, string>
    var lastTimer: nat
    var calls: seq<Call>

    ghost function Now(): State
      reads this
    {
      State(downloads, cleanupTimers, statuses, attempt, timers, lastTimer, calls)
    }

    constructor ()
      ensures Now() == START && Inv(Now())
    {
      downloads, cleanupTimers, statuses, attempt, timers, lastTimer := map[], map[], map[], 0, map[], 0;
      calls := [];
    }

    // clearTimeout and the removal of the entry
    method DropTimer(file: string)
      modifies this`timers, this`cleanupTimers
      ensures Now() == ClearTimer(old(Now()), file)
    {
      if file in cleanupTimers {
        timers := timers - {cleanupTimers[file]};
        cleanupTimers := cleanupTimers - {file};
      }
    }

    // setTimeout and the entry
    method AddTimer(file: string)
      modifies this`timers, this`cleanupTimers, this`lastTimer
      ensures Now() == SetTimer(old(Now()), file)
    {
      lastTimer := lastTimer + 1;
      timers := timers[lastTimer := file];
      cleanupTimers := cleanupTimers[file := lastTimer];
    }

    method OnProgress(d: Data)
      modifies this
      ensures Now() == Progress(old(Now()), d)
    {
      statuses := statuses[d.fileName := d.status];
      DropTimer(d.fileName);
      var repo, files := None, None;
      if d.fileName in downloads {
        repo, files := downloads[d.fileName].repo, downloads[d.fileName].files;
      }
      downloads := downloads[d.fileName := Item(d.fileName, repo, files, d.progress, d.downloaded, d.total, d.status,
                                                d.shardIndex, d.shardCount)];
      if Finished(d.status) {
        AddTimer(d.fileName);
      }
    }

    // startDownload up to its `await`; `attempt` and the primary name are kept for its failure path
    method StartDownload(repo: string, files: seq<string>) returns (sent: Option<(nat, string)>)
      modifies this
      ensures Now() == Start(old(Now()), Call(repo, files))
      ensures sent.Some? <==> files != [] && !old(AnyActive(Now()))
      ensures sent.Some? ==> sent.value == (attempt, Primary(Call(repo, files)))
    {
      if files == [] || exists file <- statuses :: Active(statuses[file]) {
        return None;
      }
      var c := Call(repo, files);
      var primary := Primary(c);
      attempt := attempt + 1;
      statuses := statuses[primary := Downloading];
      DropTimer(primary);
      downloads := downloads[primary := FirstItem(c)];
      calls := calls + [c];
      return Some((attempt, primary));
    }

    // the failure path of startDownload
    method OnRejected(of: nat, primary: string)
      modifies this
      ensures Now() == Reject(old(Now()), of, primary)
    {
      if of != attempt {
        return;
      }
      if primary in statuses && statuses[primary] in {Paused, Cancelled, Completed} {
        return;
      }
      statuses := statuses[primary := Error];
      if primary in downloads {
        downloads := downloads[primary := downloads[primary].(status := Error)];
      }
      DropTimer(primary);
      AddTimer(primary);
    }

    // a cleanup timer's callback
    method OnTimer(id: nat)
      requires id in timers
      modifies this
      ensures Now() == Clean(old(Now()), id)
    {
      var file := timers[id];
      timers := timers - {id};
      downloads := downloads - {file};
      cleanupTimers := cleanupTimers - {file};
      statuses := statuses - {file};
    }

    // Whatever happens, timers, statuses, rows and remembered starts agree.
    method OnEvent(e: Event)
      requires Enabled(Now(), e)
      modifies this
      ensures Now() == Step(old(Now()), e)
      ensures old(Inv(Now())) ==> Inv(Now())
    {
      hide Progress, Start, Reject, Clean, Inv, Basename, AnyActive;
      ghost var was := Now();
      match e {
        case Progressed(data) => OnProgress(data);
        case Started(call) => var sent := StartDownload(call.repo, call.files);
        case Resume(file) =>
          var call := Resumed(downloads[file]);
          if call.Some? {
            var sent := StartDownload(call.value.repo, call.value.files);
          }
        case Rejected(i) => OnRejected(i + 1, Primary(calls[i]));
        case Fired(id) => OnTimer(id);
      }
      if Inv(was) {
        StepKeeps(was, e);
      }
    }
  }
}
