// The tokens of plugin previews: the backend keeps an unpacked plugin for every token until the
// token is cancelled, so the import dialog must cancel every token it does not show.
module PluginTokens {
  import opened Common

  /** The fields of the dialog's `lifecycle`, then what happened around it: the revisions of the
      previews under way, the tokens that were returned, those that were cancelled, and the number
      of installations under way. The candidate on screen is always the lifecycle's. */
  datatype State = State(active: bool, revision: nat, pending: bool, candidate: Option<nat>,
                         waiting: seq<nat>, issued: set<nat>, cancelled: set<nat>, installs: nat)

  const CLOSED := State(true, 0, false, None, [], {}, {}, 0)

  // preview up to its `await`
  function Preview(s: State, blank: bool): State {
    if s.pending || blank then s else s.(pending := true, waiting := s.waiting + [s.revision])
  }

  // A preview returns a token: the dialog keeps it, or cancels it because it came too late.
  function Reply(s: State, i: nat, token: nat): State
    requires i < |s.waiting|
  {
    var rest := s.(waiting := RemoveAt(s.waiting, i), issued := s.issued + {token});
    if s.revision != s.waiting[i] then rest.(cancelled := s.cancelled + {token})
    else if !s.active then rest.(cancelled := s.cancelled + {token}, pending := false)
    else rest.(candidate := Some(token), pending := false)
  }

  function Fail(s: State, i: nat): State
    requires i < |s.waiting|
  {
    s.(waiting := RemoveAt(s.waiting, i), pending := if s.revision == s.waiting[i] then false else s.pending)
  }

  // the effect; one of the catalog previews at once
  function Effect(s: State, catalog: bool): State {
    if catalog then s.(active := true, pending := true, waiting := s.waiting + [s.revision]) else s.(active := true)
  }

  // the effect's cleanup
  function Cleanup(s: State): State {
    s.(active := false, revision := s.revision + 1, pending := false,
       cancelled := if s.candidate.Some? then s.cancelled + {s.candidate.value} else s.cancelled)
  }

  // commit up to its `await`, and after it
  function Commit(s: State): State {
    if s.candidate.None? || s.pending then s else s.(pending := true, installs := s.installs + 1)
  }

  function EndCommit(s: State): State
    requires s.installs > 0
  {
    s.(pending := false, installs := s.installs - 1)
  }

  datatype Event =
    | Previewed(blank: bool)
    | Replied(i: nat, token: nat)
    | Failed(i: nat)
    | Rerun(catalog: bool)
    | Unmounted
    | Committed
    | CommitEnded

  /** What can happen at all: handlers run only while the dialog is mounted, and the backend never
      returns the same token twice. */
  predicate Possible(s: State, e: Event) {
    match e
    case Previewed(_) => s.active
    case Replied(i, token) => i < |s.waiting| && token !in s.issued
    case Failed(i) => i < |s.waiting|
    case Rerun(_) => s.active
    case Unmounted => s.active
    case Committed => s.active
    case CommitEnded => s.installs > 0
  }

  /** The dialog offers a preview only while it shows no candidate. */
  predicate Offered(s: State, e: Event) { e.Previewed? ==> s.candidate.None? }

  function Step(s: State, e: Event): State
    requires Possible(s, e)
  {
    match e
    case Previewed(blank) => Preview(s, blank)
    case Replied(i, token) => Reply(s, i, token)
    case Failed(i) => Fail(s, i)
    case Rerun(catalog) => Effect(Cleanup(s), catalog)
    case Unmounted => Cleanup(s)
    case Committed => Commit(s)
    case CommitEnded => EndCommit(s)
  }

  // ---------- the invariant ----------

  /** Every token that was returned is the candidate or was cancelled. */
  predicate Accounted(s: State) {
    && (forall token :: token in s.issued ==> token in s.cancelled || s.candidate == Some(token))
    && s.cancelled <= s.issued && (s.candidate.Some? ==> s.candidate.value in s.issued)
  }

  /** At most one preview of the present revision is under way, and its token will not replace one
      that is still to be cancelled. */
  predicate OneCurrent(s: State) {
    && (forall i :: 0 <= i < |s.waiting| ==> s.waiting[i] <= s.revision)
    && (forall i, j :: 0 <= i < j < |s.waiting| ==> s.waiting[i] != s.revision || s.waiting[j] != s.revision)
    && (s.revision in s.waiting ==>
          s.active && if s.candidate.None? then s.pending else s.candidate.value in s.cancelled)
    && (!s.active && s.candidate.Some? ==> s.candidate.value in s.cancelled)
    && (s.installs > 0 ==> s.candidate.Some?)
  }

  predicate Inv(s: State) { Accounted(s) && OneCurrent(s) }

  lemma WithoutCurrent(waiting: seq<nat>, i: nat, r: nat)
    requires i < |waiting| && forall a, b :: 0 <= a < b < |waiting| ==> waiting[a] != r || waiting[b] != r
    ensures var rest := RemoveAt(waiting, i);
            && (forall a, b :: 0 <= a < b < |rest| ==> rest[a] != r || rest[b] != r)
            && (forall x :: x in rest ==> x in waiting)
            && (waiting[i] == r ==> r !in rest)
            && (waiting[i] != r ==> (r in rest <==> r in waiting))
  {
    var rest := RemoveAt(waiting, i);
    assert forall a :: 0 <= a < |rest| ==> rest[a] == waiting[if a < i then a else a + 1];
    if waiting[i] != r && r in waiting {
      var k :| 0 <= k < |waiting| && waiting[k] == r;
      assert rest[if k < i then k else k - 1] == r;
    }
  }

  lemma StepKeeps(s: State, e: Event)
    requires Inv(s) && Possible(s, e) && Offered(s, e)
    ensures Inv(Step(s, e))
  {
    if e.Replied? || e.Failed? {
      WithoutCurrent(s.waiting, e.i, s.revision);
      hide RemoveAt;
    }
  }

  // ---------- runs ----------

  predicate AllPossible(s: State, es: seq<Event>)
    decreases |es|
  {
    es == [] || (Possible(s, es[0]) && AllPossible(Step(s, es[0]), es[1..]))
  }

  predicate AllOffered(s: State, es: seq<Event>)
    requires AllPossible(s, es)
    decreases |es|
  {
    es == [] || (Offered(s, es[0]) && AllOffered(Step(s, es[0]), es[1..]))
  }

  function Run(s: State, es: seq<Event>): State
    requires AllPossible(s, es)
    decreases |es|
  {
    if es == [] then s else Run(Step(s, es[0]), es[1..])
  }

  lemma {:induction false} RunKeeps(s: State, es: seq<Event>)
    requires Inv(s) && AllPossible(s, es) && AllOffered(s, es)
    ensures Inv(Run(s, es))
    decreases |es|
  {
    hide Inv, Step, Possible, Offered;
    if es != [] {
      StepKeeps(s, es[0]);
      RunKeeps(Step(s, es[0]), es[1..]);
    }
  }

  // Over every run from the first effect, whichever replies come late: each token that came back is
  // the candidate or was cancelled, and none is left once the dialog has gone.
  lemma NoTokenLeaks(catalog: bool, es: seq<Event>)
    requires AllPossible(Effect(CLOSED, catalog), es) && AllOffered(Effect(CLOSED, catalog), es)
    ensures var s := Run(Effect(CLOSED, catalog), es);
            && Accounted(s)
            && (!s.active ==> s.issued == s.cancelled)
  {
    assert Inv(Effect(CLOSED, catalog));
    RunKeeps(Effect(CLOSED, catalog), es);
  }

  // Nothing takes a valid candidate away or cancels it but the effect's cleanup, so what is on
  // screen can be installed until the sources change or the dialog closes.
  lemma CandidateStays(s: State, e: Event)
    requires Inv(s) && Possible(s, e) && Offered(s, e) && !e.Rerun? && !e.Unmounted?
    requires s.candidate.Some? && s.candidate.value !in s.cancelled
    ensures Step(s, e).candidate == s.candidate && s.candidate.value !in Step(s, e).cancelled
  {
    if e.Replied? {
      assert s.waiting[e.i] in s.waiting;
    }
  }

  // ---------- what each event does ----------

  // A preview is asked for exactly when a source is given and nothing is pending; then something is.
  lemma PreviewAsks(s: State, blank: bool)
    requires Inv(s) && s.active
    ensures var next := Step(s, Previewed(blank));
            if blank || s.pending then next == s
            else next.waiting == s.waiting + [s.revision] && next.pending && next.candidate == s.candidate
  {
  }

  // The reply to a preview of the present sources is shown by a dialog that is still there; any other token
  // is cancelled at once and changes nothing that is shown. The waiting ends with a reply of these sources.
  lemma ReplyShows(s: State, i: nat, token: nat)
    requires Possible(s, Replied(i, token))
    ensures var next := Step(s, Replied(i, token));
            && next.pending == (s.pending && s.waiting[i] != s.revision)
            && if s.active && s.waiting[i] == s.revision then
                 next.candidate == Some(token) && next.cancelled == s.cancelled
               else next.candidate == s.candidate && next.cancelled == s.cancelled + {token}
  {
  }

  // A failed preview changes nothing that is shown, and ends the waiting if it was of the present sources.
  lemma FailureEndsWaiting(s: State, i: nat)
    requires Inv(s) && Possible(s, Failed(i))
    ensures var next := Step(s, Failed(i));
            && next.candidate == s.candidate && next.cancelled == s.cancelled && next.issued == s.issued
            && next.pending == (s.pending && s.waiting[i] != s.revision)
  {
  }

  // New sources take the candidate of the old ones back and make every preview under way a stale one; a
  // plugin of the catalog is previewed at once.
  lemma SourcesChange(s: State, catalog: bool)
    requires Inv(s) && s.active
    ensures var next := Step(s, Rerun(catalog));
            && next.active && next.pending == catalog
            && (s.candidate.Some? ==> s.candidate.value in next.cancelled)
            && (forall r :: r in s.waiting ==> r != next.revision)
            && next.waiting == (if catalog then s.waiting + [next.revision] else s.waiting)
  {
  }

  // An installation begins exactly with a candidate and nothing pending, and ends with nothing pending.
  lemma InstallationRuns(s: State)
    ensures s.active ==> Step(s, Committed).installs == s.installs + (if s.candidate.Some? && !s.pending then 1 else 0)
    ensures s.active && s.candidate.Some? && !s.pending ==> Step(s, Committed).pending
    ensures s.installs > 0 ==> !Step(s, CommitEnded).pending && Step(s, CommitEnded).installs == s.installs - 1
  {
  }

  /** Whatever the dialog waits for is under way. */
  predicate Waits(s: State) { s.pending ==> s.revision in s.waiting || s.installs > 0 }

  lemma StepWaits(s: State, e: Event)
    requires Inv(s) && Waits(s) && Possible(s, e)
    ensures Waits(Step(s, e))
  {
    if e.Replied? || e.Failed? {
      WithoutCurrent(s.waiting, e.i, s.revision);
      hide RemoveAt;
    }
  }

  lemma {:induction false} RunWaits(s: State, es: seq<Event>)
    requires Inv(s) && Waits(s) && AllPossible(s, es) && AllOffered(s, es)
    ensures Inv(Run(s, es)) && Waits(Run(s, es))
    decreases |es|
  {
    hide Inv, Waits, Step, Possible, Offered;
    if es != [] {
      StepKeeps(s, es[0]);
      StepWaits(s, es[0]);
      RunWaits(Step(s, es[0]), es[1..]);
    }
  }

  // So the dialog never waits for nothing: in every reachable state in which something is pending, a
  // call is under way whose end, by success or failure, lets it go on.
  lemma WaitingEnds(catalog: bool, es: seq<Event>) returns (e: Event)
    requires AllPossible(Effect(CLOSED, catalog), es) && AllOffered(Effect(CLOSED, catalog), es)
    ensures var s := Run(Effect(CLOSED, catalog), es);
            s.pending ==> Possible(s, e) && (e.Failed? || e.CommitEnded?) && !Step(s, e).pending
  {
    assert Inv(Effect(CLOSED, catalog)) && Waits(Effect(CLOSED, catalog));
    RunWaits(Effect(CLOSED, catalog), es);
    var s := Run(Effect(CLOSED, catalog), es);
    hide Inv, Run, AllPossible, AllOffered;
    e := CommitEnded;
    if s.revision in s.waiting {
      var i :| 0 <= i < |s.waiting| && s.waiting[i] == s.revision;
      e := Failed(i);
    }
  }

  /** A run in which previews are asked for while a candidate is on screen. */
  const UNGUARDED: seq<Event> :=
    [Previewed(false), Replied(0, 1), Committed, Rerun(false), Previewed(false), CommitEnded, Previewed(false),
     Replied(0, 2), Replied(0, 3), Unmounted]

  /** Its states: an installation ends after the sources changed and allows a second preview. */
  const UNGUARDED_STATES: seq<State> :=
    [State(true, 0, false, None, [], {}, {}, 0), State(true, 0, true, None, [0], {}, {}, 0),
     State(true, 0, false, Some(1), [], {1}, {}, 0), State(true, 0, true, Some(1), [], {1}, {}, 1),
     State(true, 1, false, Some(1), [], {1}, {1}, 1), State(true, 1, true, Some(1), [1], {1}, {1}, 1),
     State(true, 1, false, Some(1), [1], {1}, {1}, 0), State(true, 1, true, Some(1), [1, 1], {1}, {1}, 0),
     State(true, 1, false, Some(2), [1], {1, 2}, {1}, 0), State(true, 1, false, Some(3), [], {1, 2, 3}, {1}, 0),
     State(false, 2, false, Some(3), [], {1, 2, 3}, {1, 3}, 0)]

  lemma UnguardedFirst(k: nat)
    requires k < 5
    ensures Possible(UNGUARDED_STATES[k], UNGUARDED[k])
    ensures Step(UNGUARDED_STATES[k], UNGUARDED[k]) == UNGUARDED_STATES[k + 1]
  {
    if k == 0 {
    } else if k == 1 {
    } else if k == 2 {
    } else if k == 3 {
    } else {
    }
  }

  lemma UnguardedSecond(k: nat)
    requires 5 <= k < 8
    ensures Possible(UNGUARDED_STATES[k], UNGUARDED[k])
    ensures Step(UNGUARDED_STATES[k], UNGUARDED[k]) == UNGUARDED_STATES[k + 1]
  {
    if k == 5 {
    } else if k == 6 {
    } else {
    }
  }

  lemma UnguardedThird(k: nat)
    requires 8 <= k < 10
    ensures Possible(UNGUARDED_STATES[k], UNGUARDED[k])
    ensures Step(UNGUARDED_STATES[k], UNGUARDED[k]) == UNGUARDED_STATES[k + 1]
  {
    if k == 8 {
    } else {
    }
  }

  lemma UnguardedStep(k: nat)
    requires k < 10
    ensures Possible(UNGUARDED_STATES[k], UNGUARDED[k])
    ensures Step(UNGUARDED_STATES[k], UNGUARDED[k]) == UNGUARDED_STATES[k + 1]
  {
    hide Possible, Step, UNGUARDED_STATES, UNGUARDED;
    if k < 5 {
      UnguardedFirst(k);
    } else if k < 8 {
      UnguardedSecond(k);
    } else {
      UnguardedThird(k);
    }
  }

  lemma {:induction false} UnguardedRun(k: nat)
    requires k <= 10
    ensures AllPossible(UNGUARDED_STATES[k], UNGUARDED[k..])
        && Run(UNGUARDED_STATES[k], UNGUARDED[k..]) == UNGUARDED_STATES[10]
    ensures k <= 4 ==> !AllOffered(UNGUARDED_STATES[k], UNGUARDED[k..])
    decreases 10 - k
  {
    if k < 10 {
      UnguardedStep(k);
      assert k == 4 ==> UNGUARDED[k] == Previewed(false) && UNGUARDED_STATES[k].candidate == Some(1);
      hide Step, Possible, UNGUARDED_STATES;
      UnguardedRun(k + 1);
      assert UNGUARDED[k..][0] == UNGUARDED[k] && UNGUARDED[k..][1..] == UNGUARDED[k + 1..];
    }
  }

  // The dialog's guard matters: without it there is a run that ends with the dialog gone and no
  // reply to come, and with a token that was returned and never cancelled.
  lemma UnguardedLeak()
    ensures var start := Effect(CLOSED, false);
            && AllPossible(start, UNGUARDED) && !AllOffered(start, UNGUARDED)
            && var s := Run(start, UNGUARDED); !s.active && s.waiting == [] && 2 in s.issued && 2 !in s.cancelled
  {
    UnguardedRun(0);
    assert UNGUARDED[0..] == UNGUARDED;
    hide Run, AllPossible, AllOffered;
    assert UNGUARDED_STATES[10] == State(false, 2, false, Some(3), [], {1, 2, 3}, {1, 3}, 0);
  }

  // ---------- the dialog in place ----------

  class ImportDialog {
    var active: bool
    var revision: nat
    var pending: bool
    var candidate: Option<nat>
    var waiting: seq<nat>
    ghost var issued: set<nat>
    ghost var cancelled: set<nat>
    var installs: nat

    ghost function Now(): State
      reads this
    {
      State(active, revision, pending, candidate, waiting, issued, cancelled, installs)
    }

    constructor ()
      ensures Now() == CLOSED
    {
      active, revision, pending, candidate := true, 0, false, None;
      waiting, issued, cancelled, installs := [], {}, {}, 0;
    }

    // preview up to its `await`; the revision is kept for the reply
    method BeginPreview(blank: bool) returns (sent: Option<nat>)
      modifies this`pending, this`waiting
      ensures Now() == Preview(old(Now()), blank)
      ensures sent == if old(pending) || blank then None else Some(revision)
    {
      if pending || blank {
        return None;
      }
      pending := true;
      waiting := waiting + [revision];
      return Some(revision);
    }

    // a preview of revision `of` returns; the result says whether the token has to be cancelled
    method OnReply(of: nat, token: nat, i: nat) returns (cancel: bool)
      requires i < |waiting| && waiting[i] == of
      modifies this
      ensures Now() == Reply(old(Now()), i, token)
      ensures cancel <==> !active || revision != of
    {
      waiting := RemoveAt(waiting, i);
      issued := issued + {token};
      cancel := !active || revision != of;
      if cancel {
        cancelled := cancelled + {token};
      } else {
        candidate := Some(token);
      }
      if revision == of {
        pending := false;
      }
    }

    // a preview of revision `of` fails
    method OnFailure(of: nat, i: nat)
      requires i < |waiting| && waiting[i] == of
      modifies this`waiting, this`pending
      ensures Now() == Fail(old(Now()), i)
    {
      waiting := RemoveAt(waiting, i);
      if revision == of {
        pending := false;
      }
    }

    method RunEffect(catalog: bool) returns (sent: Option<nat>)
      modifies this`active, this`pending, this`waiting
      ensures Now() == Effect(old(Now()), catalog)
      ensures sent == if catalog then Some(revision) else None
    {
      active := true;
      sent := None;
      if catalog {
        pending := true;
        waiting := waiting + [revision];
        sent := Some(revision);
      }
    }

    // the effect's cleanup; the result is the token to cancel
    method RunCleanup() returns (cancel: Option<nat>)
      modifies this
      ensures Now() == Cleanup(old(Now())) && cancel == old(candidate)
    {
      active := false;
      revision := revision + 1;
      pending := false;
      cancel := candidate;
      if candidate.Some? {
        cancelled := cancelled + {candidate.value};
      }
    }

    // commit up to its `await`
    method BeginCommit() returns (begun: bool)
      modifies this`pending, this`installs
      ensures Now() == Commit(old(Now())) && begun == (candidate.Some? && !old(pending))
    {
      begun := candidate.Some? && !pending;
      if begun {
        pending := true;
        installs := installs + 1;
      }
    }

    // commit after its `await`
    method FinishCommit()
      requires installs > 0
      modifies this`pending, this`installs
      ensures Now() == EndCommit(old(Now()))
    {
      pending := false;
      installs := installs - 1;
    }

    // Whatever happens, every token that was returned is the candidate or was cancelled, as long as
    // previews are asked for only where they are offered.
    method OnEvent(e: Event)
      requires Possible(Now(), e)
      modifies this
      ensures Now() == Step(old(Now()), e)
      ensures old(Inv(Now()) && Offered(Now(), e)) ==> Inv(Now())
    {
      hide Preview, Reply, Fail, Effect, Cleanup, Commit, EndCommit, Inv;
      ghost var was := Now();
      match e {
        case Previewed(blank) => var sent := BeginPreview(blank);
        case Replied(i, token) => var cancel := OnReply(waiting[i], token, i);
        case Failed(i) => OnFailure(waiting[i], i);
        case Rerun(catalog) =>
          var cancel := RunCleanup();
          var sent := RunEffect(catalog);
        case Unmounted => var cancel := RunCleanup();
        case Committed => var begun := BeginCommit();
        case CommitEnded => FinishCommit();
      }
      if Inv(was) && Offered(was, e) {
        StepKeeps(was, e);
      }
    }
  }
}
