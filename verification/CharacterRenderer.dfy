// When the character background draws: a timer leads to an animation frame, the frame draws and sets
// the next timer, and lag leads to an ever longer pause. Times are in milliseconds.
module CharacterRenderer {
  import opened Common
  import opened Picking

  const IDLE := 180_000.0
  const SETTLE := 8_000.0
  const FIRST_DELAY := 60_000.0
  const LAST_DELAY := 480_000.0
  const CALM_STEP := 40.0
  const LAGGING_STEP := 83.0

  datatype Mark = Drew(at: real) | BackedOff(at: real, until: real) | Released

  /** What is counted to tell that drawing is too slow. */
  datatype Lag = Lag(faults: nat, slowFrames: nat, gpuLate: nat, draws: nat, fence: bool, lateFrames: seq<bool>)

  /** `frame` and `timer` are the outstanding requests, the latter with its due time. `foreground` is
      the answer of the visibility test and `unseen` says that it changed and no handler ran yet.
      A `retryAt` of zero means that no pause is on. `log` records what happened. */
  datatype State = State(
    frame: bool, timer: Option<real>, disposed: bool, calm: bool, foreground: bool, unseen: bool,
    retryAt: real, retryDelay: real, idleDeadline: real, lastTick: real, lag: Lag, clock: real, log: seq<Mark>)

  const NO_LAG := Lag(0, 0, 0, 0, false, [])

  function Cancel(s: State): State { s.(timer := None, frame := false) }

  function Schedule(s: State, now: real): State {
    if s.disposed || s.calm || !s.foreground || s.frame || s.timer.Some? then s
    else
      var delay := if s.retryAt != 0.0 then (if s.retryAt > now then s.retryAt - now else 0.0)
                   else if s.lag.faults > 0 then LAGGING_STEP else CALM_STEP;
      s.(timer := Some(now + delay))
  }

  function Backoff(s: State, now: real): State {
    if s.retryAt != 0.0 then s
    else
      var until := now + s.retryDelay;
      Cancel(s.(retryAt := until,
                retryDelay := if s.retryDelay * 2.0 > LAST_DELAY then LAST_DELAY else s.retryDelay * 2.0,
                log := s.log + [BackedOff(now, until)]))
  }

  function NoteLag(s: State, now: real): State {
    var noted := s.(lag := s.lag.(faults := s.lag.faults + 1));
    if noted.lag.faults >= 2 then Backoff(noted, now) else noted
  }

  function Wake(s: State, now: real): State {
    if s.disposed || !s.foreground then s
    else
      var awake := s.(idleDeadline := now + IDLE, calm := false, lastTick := if s.calm then now else s.lastTick);
      Schedule(awake, now)
  }

  function OnVisibility(s: State, now: real): State {
    if !s.foreground then Cancel(s) else Wake(s.(lastTick := now), now)
  }

  function Redraw(s: State): State {
    if s.disposed || !s.foreground || s.retryAt != 0.0 || s.frame then s
    else s.(timer := None, frame := true)
  }

  /** A pause ends with its counters. */
  function EndPause(s: State, now: real): State {
    if s.retryAt == 0.0 then s
    else s.(retryAt := 0.0, lag := s.lag.(faults := 0, slowFrames := 0, gpuLate := 0, lateFrames := []),
            lastTick := now, idleDeadline := now + IDLE)
  }

  /** The callback of the timer. */
  function TimerFires(s: State, now: real): State {
    var fired := s.(timer := None);
    if s.disposed || !s.foreground then fired else EndPause(fired, now).(frame := true)
  }

  /** The measurements of one draw: the frame's own time, three clock readings, and whether the
      previous fence was signalled. */
  datatype Measure = Measure(frameTime: real, started: real, noted: real, ended: real, signalled: bool)

  function Late(frames: seq<bool>): nat {
    if frames == [] then 0 else (if frames[0] then 1 else 0) + Late(frames[1..])
  }

  function CheckFence(s: State, m: Measure): State {
    if !s.lag.fence then s
    else
      var late := if m.signalled then 0 else s.lag.gpuLate + 1;
      if late >= 2 then NoteLag(s.(lag := s.lag.(fence := false, gpuLate := 0)), m.noted)
      else s.(lag := s.lag.(fence := false, gpuLate := late))
  }

  function CountDraw(s: State): State {
    s.(lag := s.lag.(draws := s.lag.draws + 1, fence := s.lag.fence || (s.lag.draws + 1) % 4 == 0))
  }

  function CheckLate(s: State, m: Measure): State {
    var before := s.lag.lateFrames;
    var kept := if |before| > 9 then before[|before| - 9..] else before;
    var frames := kept + [m.started - m.frameTime > 17.0];
    if Late(frames) >= 5 then NoteLag(s.(lag := s.lag.(lateFrames := [])), m.noted)
    else s.(lag := s.lag.(lateFrames := frames))
  }

  function CheckSlow(s: State, m: Measure): State {
    var slow := if m.ended - m.started > 50.0 then s.lag.slowFrames + 1 else 0;
    var counted := s.(lag := s.lag.(slowFrames := slow));
    if slow >= 3 then Backoff(counted, m.ended) else counted
  }

  /** The state after the measurements of a draw. */
  function Measured(s: State, m: Measure): State {
    CheckSlow(CheckLate(CountDraw(CheckFence(s, m)), m), m)
  }

  function Calm(s: State, started: real): State {
    if started - s.idleDeadline >= SETTLE then s.(calm := true, retryDelay := FIRST_DELAY) else s
  }

  /** The control part of a draw. */
  function Draw(s: State, m: Measure): State {
    var ran := s.(frame := false);
    if s.disposed || !s.foreground then ran
    else
      var drawn := ran.(lastTick := m.started, log := s.log + [Drew(m.started)]);
      Schedule(Calm(Measured(drawn, m), m.started), m.ended)
  }

  function Release(s: State): State {
    if s.disposed then s else s.(disposed := true, frame := false, timer := None, log := s.log + [Released])
  }

  // ---------- runs ----------

  datatype Event =
    | FocusChanged(foreground: bool)
    | VisibilityHandled
    | Activity
    | RedrawAsked
    | TimerDue
    | FrameDue(m: Measure)
    | Dispose

  /** Time does not run back; a timer is never early; only an outstanding request fires. */
  predicate Enabled(s: State, e: Event, now: real) {
    && s.clock <= now
    && (e.TimerDue? ==> s.timer.Some? && s.timer.value <= now)
    && (e.FrameDue? ==> s.frame && s.clock <= e.m.started <= e.m.noted <= e.m.ended <= now)
  }

  function Step(s: State, e: Event, now: real): State {
    var next := match e
      case FocusChanged(foreground) => s.(foreground := foreground, unseen := true)
      case VisibilityHandled => OnVisibility(s, now).(unseen := false)
      case Activity => Wake(s, now)
      case RedrawAsked => Redraw(s)
      case TimerDue => TimerFires(s, now)
      case FrameDue(m) => Draw(s, m)
      case Dispose => Release(s);
    next.(clock := now)
  }

  /** The state at the end of the constructor's body, before its first `schedule`. */
  predicate Fresh(s: State) {
    && !s.frame && s.timer.None? && !s.disposed && !s.calm && s.retryAt == 0.0 && s.retryDelay == FIRST_DELAY
    && s.log == [] && s.clock >= 0.0 && s.lag == NO_LAG && s.lastTick == s.clock && s.idleDeadline == s.clock + IDLE
         && !s.unseen
  }

  predicate Delay(d: real) { d == 60_000.0 || d == 120_000.0 || d == 240_000.0 || d == 480_000.0 }

  // ---------- the invariant ----------

  /** What holds at every moment, also in the middle of a draw. */
  predicate Core(s: State) {
    && !(s.frame && s.timer.Some?)
    && (s.disposed ==> !s.frame && s.timer.None?)
    && (s.timer.Some? ==> !s.calm)
    && Delay(s.retryDelay)
    && (s.frame ==> s.retryAt == 0.0)
    && (s.timer.Some? && s.retryAt != 0.0 ==> s.timer.value >= s.retryAt)
    && s.clock >= 0.0
  }

  /** Someone is going to draw: exactly one request is out, or none is due. */
  predicate Alive(s: State) {
    !s.disposed && s.foreground && !s.calm && !s.unseen ==> s.frame || s.timer.Some?
  }

  /** Every pause that was started is over by now or is the one that is on. */
  predicate Held(s: State, now: real) {
    forall i :: 0 <= i < |s.log| && s.log[i].BackedOff? ==>
      Delay(s.log[i].until - s.log[i].at) &&
      (s.log[i].until <= now || (s.retryAt != 0.0 && s.log[i].until <= s.retryAt))
  }

  /** No draw came before the end of an earlier pause or after the release. */
  predicate LogOk(log: seq<Mark>) {
    forall i, j :: 0 <= i < j < |log| && log[j].Drew? ==>
      !log[i].Released? && (log[i].BackedOff? ==> log[j].at >= log[i].until)
  }

  predicate Gone(s: State) { Released in s.log ==> s.disposed }

  predicate Inv(s: State) { Core(s) && Alive(s) && Held(s, s.clock) && LogOk(s.log) && Gone(s) }

  /** The two states differ at most in what is counted. */
  predicate Alike(s: State, t: State) { t == s.(lag := t.lag) }

  /** In the middle of a draw. */
  predicate Drawing(s: State, clock: real) {
    && Core(s) && Held(s, clock) && LogOk(s.log) && Gone(s) && !s.disposed
    && s.timer.None? && !s.frame && 0.0 <= s.clock <= clock
  }

  lemma AlikeKeeps(s: State, t: State, clock: real)
    requires Drawing(s, clock) && Alike(s, t)
    ensures Drawing(t, clock)
  {
  }

  lemma BackoffKeeps(s: State, now: real, clock: real)
    requires Drawing(s, clock) && clock <= now
    ensures Drawing(Backoff(s, now), clock)
  {
    if s.retryAt == 0.0 {
      var b := Backoff(s, now);
      assert b.log == s.log + [BackedOff(now, b.retryAt)];
      assert b.retryAt == now + s.retryDelay > 0.0;
    }
  }

  /** A measurement either only counts, or starts a pause unless one is on. */
  predicate Outcome(s: State, next: State, now: real) { Alike(s, next) || Alike(Backoff(s, now), next) }

  lemma OutcomeKeeps(s: State, next: State, now: real, clock: real)
    requires Drawing(s, clock) && clock <= now && Outcome(s, next, now)
    ensures Drawing(next, clock)
  {
    hide Drawing, Alike, Backoff;
    BackoffKeeps(s, now, clock);
    if Alike(s, next) {
      AlikeKeeps(s, next, clock);
    } else {
      AlikeKeeps(Backoff(s, now), next, clock);
    }
  }

  lemma BackoffIgnoresLag(s: State, t: State, now: real)
    requires Alike(s, t)
    ensures Alike(Backoff(s, now), Backoff(t, now))
  {
  }

  lemma NoteLagOutcome(s: State, t: State, now: real)
    requires Alike(s, t)
    ensures Outcome(s, NoteLag(t, now), now)
  {
    BackoffIgnoresLag(s, t.(lag := t.lag.(faults := t.lag.faults + 1)), now);
  }

  lemma DrawOutcomes(s: State, m: Measure)
    ensures Outcome(s, CheckFence(s, m), m.noted)
    ensures Outcome(s, CountDraw(s), m.noted)
    ensures Outcome(s, CheckLate(s, m), m.noted)
    ensures Outcome(s, CheckSlow(s, m), m.ended)
  {
    hide NoteLag, Late, Backoff;
    NoteLagOutcome(s, s.(lag := s.lag.(fence := false, gpuLate := 0)), m.noted);
    NoteLagOutcome(s, s.(lag := s.lag.(lateFrames := [])), m.noted);
    var slow := if m.ended - m.started > 50.0 then s.lag.slowFrames + 1 else 0;
    BackoffIgnoresLag(s, s.(lag := s.lag.(slowFrames := slow)), m.ended);
  }

  lemma MeasuredKeeps(s: State, m: Measure)
    requires Drawing(s, m.started) && m.started <= m.noted <= m.ended
    ensures Drawing(Measured(s, m), m.started)
  {
    hide Drawing, Outcome, CheckFence, CountDraw, CheckLate, CheckSlow;
    var a := CheckFence(s, m);
    DrawOutcomes(s, m);
    OutcomeKeeps(s, a, m.noted, m.started);
    var b := CountDraw(a);
    DrawOutcomes(a, m);
    OutcomeKeeps(a, b, m.noted, m.started);
    var c := CheckLate(b, m);
    DrawOutcomes(b, m);
    OutcomeKeeps(b, c, m.noted, m.started);
    DrawOutcomes(c, m);
    OutcomeKeeps(c, CheckSlow(c, m), m.ended, m.started);
  }

  /** The invariant but for the moment it speaks of. */
  predicate Whole(s: State, now: real) {
    Core(s) && Alive(s) && Held(s, now) && LogOk(s.log) && Gone(s) && now >= 0.0
  }

  lemma WholeLater(s: State, now: real, later: real)
    requires Whole(s, now) && now <= later
    ensures Inv(s.(clock := later)) && Whole(s, later)
  {
  }

  lemma HeldAlike(s: State, t: State, now: real)
    requires Held(s, now) && s.log == t.log && s.retryAt == t.retryAt
    ensures Held(t, now)
  {
  }

  lemma ScheduleKeeps(s: State, now: real)
    requires Core(s) && Held(s, now) && LogOk(s.log) && Gone(s) && now >= 0.0
    ensures Whole(Schedule(s, now), now)
  {
    hide Held, LogOk;
    var next := Schedule(s, now);
    assert next.log == s.log && next.retryAt == s.retryAt;
    HeldAlike(s, next, now);
  }

  lemma CalmKeeps(s: State, started: real, ended: real)
    requires Drawing(s, started) && started <= ended
    ensures var next := Calm(s, started); Core(next) && Held(next, ended) && LogOk(next.log) && Gone(next)
  {
  }

  lemma FirstDraw(s: State, m: Measure)
    requires Inv(s) && s.frame && s.clock <= m.started
    ensures Drawing(s.(frame := false, lastTick := m.started, log := s.log + [Drew(m.started)]), m.started)
  {
    var log := s.log + [Drew(m.started)];
    assert forall i :: 0 <= i < |s.log| ==> log[i] == s.log[i] && s.log[i] in s.log;
  }

  lemma EndedIsPositive(s: State, m: Measure)
    requires Inv(s) && s.clock <= m.started <= m.noted <= m.ended
    ensures m.ended >= 0.0
  {
  }

  lemma DrawInFront(s: State, m: Measure, now: real)
    requires Inv(s) && Enabled(s, FrameDue(m), now) && !s.disposed && s.foreground
    ensures Inv(Draw(s, m).(clock := now))
  {
    hide Inv, Whole, Core, Held, LogOk, Gone, Drawing, CheckFence, CountDraw, CheckLate, CheckSlow, Calm, Schedule;
    FirstDraw(s, m);
    var drawn := s.(frame := false, lastTick := m.started, log := s.log + [Drew(m.started)]);
    MeasuredKeeps(drawn, m);
    var calm := Calm(Measured(drawn, m), m.started);
    CalmKeeps(Measured(drawn, m), m.started, m.ended);
    EndedIsPositive(s, m);
    ScheduleKeeps(calm, m.ended);
    WholeLater(Schedule(calm, m.ended), m.ended, now);
  }

  lemma DrawKeeps(s: State, m: Measure, now: real)
    requires Inv(s) && Enabled(s, FrameDue(m), now)
    ensures Inv(Step(s, FrameDue(m), now))
  {
    if s.disposed || !s.foreground {
      WholeLater(s.(frame := false), s.clock, now);
    } else {
      DrawInFront(s, m, now);
    }
  }

  lemma ReleaseKeeps(s: State, now: real)
    requires Inv(s) && s.clock <= now
    ensures Inv(Step(s, Dispose, now))
  {
    var next := Release(s);
    if !s.disposed {
      assert next.log[..|s.log|] == s.log;
    }
    WholeLater(next, s.clock, now);
  }

  lemma WakeKeeps(s: State, now: real)
    requires Inv(s) && s.clock <= now
    ensures Whole(Wake(s, now), now)
  {
    WholeLater(s, s.clock, now);
    var awake := s.(idleDeadline := now + IDLE, calm := false, lastTick := if s.calm then now else s.lastTick);
    HeldAlike(s, awake, now);
    hide Held, LogOk, Schedule, Inv;
    if !s.disposed && s.foreground {
      ScheduleKeeps(awake, now);
    }
  }

  lemma TickKeeps(s: State, now: real)
    requires Inv(s)
    ensures Inv(s.(lastTick := now))
  {
  }

  lemma WakeForeground(s: State, now: real)
    requires s.foreground
    ensures var next := Wake(s, now); !next.disposed && !next.calm ==> next.frame || next.timer.Some?
  {
  }

  // The handler leaves someone to draw, so the change counts as seen.
  lemma SeenKeeps(s: State, now: real)
    requires Whole(s, now) && (!s.disposed && !s.calm ==> s.frame || s.timer.Some?)
    ensures Inv(s.(unseen := false, clock := now))
  {
    WholeLater(s, now, now);
  }

  lemma CancelKeeps(s: State, now: real)
    requires Inv(s) && s.clock <= now && !s.foreground
    ensures Inv(Cancel(s).(unseen := false, clock := now))
  {
    WholeLater(s, s.clock, now);
  }

  lemma VisibilityKeeps(s: State, now: real)
    requires Inv(s) && s.clock <= now
    ensures Inv(Step(s, VisibilityHandled, now))
  {
    hide Held, LogOk, Schedule, Inv;
    if s.foreground {
      var ticked := s.(lastTick := now);
      TickKeeps(s, now);
      WakeKeeps(ticked, now);
      WakeForeground(ticked, now);
      var next := Wake(ticked, now);
      SeenKeeps(next, now);
    } else {
      CancelKeeps(s, now);
    }
  }

  lemma RedrawKeeps(s: State, now: real)
    requires Inv(s) && s.clock <= now
    ensures Inv(Step(s, RedrawAsked, now))
  {
    WholeLater(Redraw(s), s.clock, now);
  }

  lemma FocusKeeps(s: State, foreground: bool, now: real)
    requires Inv(s) && s.clock <= now
    ensures Inv(Step(s, FocusChanged(foreground), now))
  {
    WholeLater(s.(foreground := foreground, unseen := true), s.clock, now);
  }

  lemma TimerKeeps(s: State, now: real)
    requires Inv(s) && Enabled(s, TimerDue, now)
    ensures Inv(Step(s, TimerDue, now))
  {
    var next := TimerFires(s, now);
    assert next.log == s.log;
    if s.foreground && s.retryAt != 0.0 {
      assert s.retryAt <= s.timer.value <= now;
    }
  }

  lemma StepKeeps(s: State, e: Event, now: real)
    requires Inv(s) && Enabled(s, e, now)
    ensures Inv(Step(s, e, now))
  {
    hide Inv, Whole, OnVisibility, Wake, Redraw, TimerFires, Draw, Release;
    match e
    case FocusChanged(foreground) => FocusKeeps(s, foreground, now);
    case VisibilityHandled => VisibilityKeeps(s, now);
    case Activity =>
      WakeKeeps(s, now);
      WholeLater(Wake(s, now), now, now);
    case RedrawAsked => RedrawKeeps(s, now);
    case TimerDue => TimerKeeps(s, now);
    case FrameDue(m) => DrawKeeps(s, m, now);
    case Dispose => ReleaseKeeps(s, now);
  }

  // ---------- what a pause means ----------

  /** The window of late frames holds at most ten and fewer than five late ones, and at most one
      fence in a row was late. */
  predicate InBounds(lag: Lag) { |lag.lateFrames| <= 10 && Late(lag.lateFrames) < 5 && lag.gpuLate < 2 }

  /** A pause is on exactly when two faults were noted or three slow frames came in a row. */
  predicate Counted(s: State) {
    (s.retryAt != 0.0 <==> s.lag.faults >= 2 || s.lag.slowFrames >= 3) && InBounds(s.lag)
  }

  /** In the middle of a draw: slowness is measured last. */
  predicate Counting(s: State) {
    Delay(s.retryDelay) && (s.retryAt != 0.0 <==> s.lag.faults >= 2) && s.lag.slowFrames < 3 && InBounds(s.lag)
  }

  lemma NoteLagCounts(s: State, now: real)
    requires Counting(s) && now >= 0.0
    ensures Counting(NoteLag(s, now))
  {
    hide Late;
    assert NoteLag(s, now).lag == s.lag.(faults := s.lag.faults + 1);
  }

  lemma FenceCounts(s: State, m: Measure)
    requires Counting(s) && m.noted >= 0.0
    ensures Counting(CheckFence(s, m))
  {
    hide NoteLag, Late;
    if s.lag.fence && !m.signalled && s.lag.gpuLate == 1 {
      NoteLagCounts(s.(lag := s.lag.(fence := false, gpuLate := 0)), m.noted);
    }
  }

  lemma LateCounts(s: State, m: Measure)
    requires Counting(s) && m.noted >= 0.0
    ensures Counting(CheckLate(s, m))
  {
    hide NoteLag;
    assert Late([]) == 0;
    NoteLagCounts(s.(lag := s.lag.(lateFrames := [])), m.noted);
  }

  lemma SlowCounts(s: State, m: Measure)
    requires Counting(s) && m.ended >= 0.0
    ensures Counted(CheckSlow(s, m))
  {
    hide Late;
  }

  lemma MeasuredCounts(s: State, m: Measure)
    requires Counting(s) && 0.0 <= m.noted <= m.ended
    ensures Counted(Measured(s, m))
  {
    hide CheckFence, CheckLate, CheckSlow, Late, Delay;
    FenceCounts(s, m);
    var b := CountDraw(CheckFence(s, m));
    assert b.lag.lateFrames == CheckFence(s, m).lag.lateFrames;
    LateCounts(b, m);
    SlowCounts(CheckLate(b, m), m);
  }

  lemma ScheduleCounts(s: State, now: real)
    requires Counted(s)
    ensures Counted(Schedule(s, now))
  {
  }

  lemma NoneLate()
    ensures Late([]) == 0
  {
  }

  lemma DrawCounts(s: State, m: Measure, now: real)
    requires Inv(s) && Counted(s) && Enabled(s, FrameDue(m), now)
    ensures Counted(Draw(s, m))
  {
    hide Measured, Schedule, Held, LogOk, InBounds;
    if !s.disposed && s.foreground {
      var drawn := s.(frame := false, lastTick := m.started, log := s.log + [Drew(m.started)]);
      MeasuredCounts(drawn, m);
      ScheduleCounts(Calm(Measured(drawn, m), m.started), m.ended);
    }
  }

  // Every step keeps the meaning of a pause.
  lemma StepCounts(s: State, e: Event, now: real)
    requires Inv(s) && Counted(s) && Enabled(s, e, now)
    ensures Counted(Step(s, e, now))
  {
    if e.FrameDue? {
      DrawCounts(s, e.m, now);
    } else {
      NoneLate();
      hide Draw, Held, LogOk, Late;
    }
  }

  // ---------- how soon the next wake-up comes ----------

  /** A pending timer fires within the longest frame delay, or at the end of the pause. */
  predicate Prompt(s: State, now: real) {
    s.timer.Some? ==>
      s.timer.value <= (if s.retryAt == 0.0 then now + 83.0 else if s.retryAt > now then s.retryAt else now)
  }

  lemma PromptLater(s: State, now: real, later: real)
    requires Prompt(s, now) && now <= later
    ensures Prompt(s, later)
  {
  }

  lemma DrawingHasNoTimer(s: State, clock: real)
    requires Drawing(s, clock)
    ensures s.timer.None?
  {
  }

  lemma DrawIsPrompt(s: State, m: Measure, now: real)
    requires Inv(s) && s.frame && !s.disposed && s.foreground && s.clock <= m.started <= m.noted <= m.ended <= now
    ensures Prompt(Draw(s, m), now)
  {
    hide Inv, Drawing, Measured, Held, LogOk, Core;
    FirstDraw(s, m);
    var drawn := s.(frame := false, lastTick := m.started, log := s.log + [Drew(m.started)]);
    MeasuredKeeps(drawn, m);
    var calm := Calm(Measured(drawn, m), m.started);
    assert calm.timer.None? by { DrawingHasNoTimer(Measured(drawn, m), m.started); }
    PromptLater(Schedule(calm, m.ended), m.ended, now);
  }

  lemma StepIsPrompt(s: State, e: Event, now: real)
    requires Inv(s) && Prompt(s, s.clock) && Enabled(s, e, now)
    ensures Prompt(Step(s, e, now), now)
  {
    hide Held, LogOk, Gone, Alive, Delay, Measured, NoteLag, Backoff;
    PromptLater(s, s.clock, now);
    if e.FrameDue? {
      if !s.disposed && s.foreground {
        DrawIsPrompt(s, e.m, now);
      }
    } else {
      hide Draw;
    }
  }

  datatype Timed = Timed(e: Event, now: real)

  predicate AllEnabled(s: State, es: seq<Timed>)
    decreases |es|
  {
    es == [] || (Enabled(s, es[0].e, es[0].now) && AllEnabled(Step(s, es[0].e, es[0].now), es[1..]))
  }

  function Run(s: State, es: seq<Timed>): State
    decreases |es|
  {
    if es == [] then s else Run(Step(s, es[0].e, es[0].now), es[1..])
  }

  lemma {:induction false} RunKeeps(s: State, es: seq<Timed>)
    requires Inv(s) && Counted(s) && Prompt(s, s.clock) && AllEnabled(s, es)
    ensures Inv(Run(s, es)) && Counted(Run(s, es)) && Prompt(Run(s, es), Run(s, es).clock)
    decreases |es|
  {
    hide Inv, Counted, Prompt, Enabled, OnVisibility, Wake, Redraw, TimerFires, Draw, Release;
    if es != [] {
      StepIsPrompt(s, es[0].e, es[0].now);
      StepKeeps(s, es[0].e, es[0].now);
      StepCounts(s, es[0].e, es[0].now);
      RunKeeps(Step(s, es[0].e, es[0].now), es[1..]);
    }
  }

  // Over every run from the start: never a frame and a timer together; exactly one of them while the
  // renderer is live, in front, not calm and up to date; the delay is one of four; no draw runs
  // before the end of a pause or after the release; a pause is on exactly when two faults or three
  // slow frames in a row were counted; and a pending timer is due within 83 ms or at the pause's end.
  lemma EveryRun(start: State, es: seq<Timed>)
    requires Fresh(start) && AllEnabled(Schedule(start, start.clock), es)
    ensures var s := Run(Schedule(start, start.clock), es);
            && !(s.frame && s.timer.Some?)
            && (!s.disposed && s.foreground && !s.calm && !s.unseen ==> s.frame != s.timer.Some?)
            && Delay(s.retryDelay)
            && (s.disposed ==> !s.frame && s.timer.None?)
            && Prompt(s, s.clock)
            && (s.retryAt != 0.0 <==> s.lag.faults >= 2 || s.lag.slowFrames >= 3)
            && (forall i, j :: 0 <= i < j < |s.log| && s.log[j].Drew? && s.log[i].BackedOff? ==>
                  s.log[j].at >= s.log[i].until)
            && (forall i, j :: 0 <= i < j < |s.log| && s.log[j].Drew? ==> !s.log[i].Released?)
            && (forall i :: 0 <= i < |s.log| && s.log[i].BackedOff? ==> Delay(s.log[i].until - s.log[i].at))
  {
    ScheduleKeeps(start, start.clock);
    WholeLater(Schedule(start, start.clock), start.clock, start.clock);
    RunKeeps(Schedule(start, start.clock), es);
  }

  // ---------- when the background comes to rest ----------

  /** Someone is there, as far as the renderer knows: activity, a return to the front or the end of a
      pause, while it is live and in front. */
  predicate Sign(s: State, e: Event) {
    !s.disposed && s.foreground && (e.Activity? || e.VisibilityHandled? || (e.TimerDue? && s.retryAt != 0.0))
  }

  /** The time of the last sign in a run, or of the one before it. */
  function LastSign(s: State, before: real, es: seq<Timed>): real
    decreases |es|
  {
    if es == [] then before
    else LastSign(Step(s, es[0].e, es[0].now), if Sign(s, es[0].e) then es[0].now else before, es[1..])
  }

  /** There was a draw at least 188 seconds after that time. */
  predicate LateDraw(log: seq<Mark>, sign: real) {
    exists i :: 0 <= i < |log| && log[i].Drew? && log[i].at >= sign + 188_000.0
  }

  /** The renderer rests exactly if it drew that long after the last sign. */
  predicate Resting(s: State, sign: real) {
    && s.idleDeadline == sign + 180_000.0 && sign <= s.clock
    && (forall i :: 0 <= i < |s.log| && s.log[i].Drew? ==> s.log[i].at <= s.clock)
    && (s.calm <==> LateDraw(s.log, sign))
    && (s.calm ==> s.retryDelay == 60_000.0)
  }

  /** The draws in the log are the same. */
  predicate SameDraws(a: seq<Mark>, b: seq<Mark>) {
    a <= b && forall i :: |a| <= i < |b| ==> !b[i].Drew?
  }

  lemma QuietDraws(s: State, next: State, now: real)
    requires Outcome(s, next, now)
    ensures next.calm == s.calm && next.idleDeadline == s.idleDeadline && next.clock == s.clock
    ensures next.lastTick == s.lastTick
    ensures SameDraws(s.log, next.log)
  {
  }

  lemma DrawsChain(a: seq<Mark>, b: seq<Mark>, c: seq<Mark>)
    requires SameDraws(a, b) && SameDraws(b, c)
    ensures SameDraws(a, c)
  {
    assert forall i :: |a| <= i < |b| ==> c[i] == b[i];
  }

  lemma MeasuredQuiet(s: State, m: Measure)
    ensures var t := Measured(s, m);
            && t.calm == s.calm && t.idleDeadline == s.idleDeadline && t.clock == s.clock
            && t.lastTick == s.lastTick && SameDraws(s.log, t.log)
  {
    hide Outcome, CheckFence, CountDraw, CheckLate, CheckSlow, SameDraws;
    var a := CheckFence(s, m);
    var b := CountDraw(a);
    var c := CheckLate(b, m);
    DrawOutcomes(s, m);
    QuietDraws(s, a, m.noted);
    DrawOutcomes(a, m);
    QuietDraws(a, b, m.noted);
    DrawOutcomes(b, m);
    QuietDraws(b, c, m.noted);
    DrawOutcomes(c, m);
    QuietDraws(c, CheckSlow(c, m), m.ended);
    DrawsChain(s.log, a.log, b.log);
    DrawsChain(s.log, b.log, c.log);
    DrawsChain(s.log, c.log, Measured(s, m).log);
  }

  lemma LateWith(log: seq<Mark>, at: real, more: seq<Mark>, sign: real)
    requires SameDraws(log + [Drew(at)], more)
    ensures LateDraw(more, sign) <==> LateDraw(log, sign) || at >= sign + 188_000.0
    ensures forall i :: 0 <= i < |more| && more[i].Drew? ==> more[i] == Drew(at) || (i < |log| && more[i] == log[i])
  {
    assert more[|log|] == Drew(at);
    if i :| 0 <= i < |log| && log[i].Drew? && log[i].at >= sign + 188_000.0 {
      assert more[i] == log[i];
    }
  }

  lemma Scheduled(s: State, now: real)
    ensures Schedule(s, now) == s.(timer := Schedule(s, now).timer)
  {
  }

  lemma DrawRests(s: State, m: Measure, now: real, sign: real)
    requires Resting(s, sign) && Enabled(s, FrameDue(m), now) && !s.disposed && s.foreground
    ensures Resting(Step(s, FrameDue(m), now), sign)
  {
    hide Measured, SameDraws, Schedule;
    var drawn := s.(frame := false, lastTick := m.started, log := s.log + [Drew(m.started)]);
    MeasuredQuiet(drawn, m);
    var measured := Measured(drawn, m);
    LateWith(s.log, m.started, measured.log, sign);
    Scheduled(Calm(measured, m.started), m.ended);
    if s.calm {
      assert m.started >= sign + 188_000.0;
    }
  }

  lemma NoDrawYet(s: State, sign: real, now: real)
    requires Resting(s, sign) && s.clock <= now
    ensures !LateDraw(s.log, now)
  {
  }

  lemma ReleasedDraws(s: State, sign: real)
    ensures LateDraw(s.log + [Released], sign) <==> LateDraw(s.log, sign)
    ensures forall i :: 0 <= i < |s.log| ==> (s.log + [Released])[i] == s.log[i]
  {
    if i :| 0 <= i < |s.log| && s.log[i].Drew? && s.log[i].at >= sign + 188_000.0 {
      assert (s.log + [Released])[i] == s.log[i];
    }
  }

  lemma StepRests(s: State, e: Event, now: real, sign: real)
    requires Core(s) && Resting(s, sign) && Enabled(s, e, now)
    ensures Resting(Step(s, e, now), if Sign(s, e) then now else sign)
  {
    if e.FrameDue? && !s.disposed && s.foreground {
      DrawRests(s, e.m, now, sign);
    } else if e.Dispose? {
      ReleasedDraws(s, sign);
    } else {
      NoDrawYet(s, sign, now);
      hide LateDraw, Draw, Delay;
    }
  }

  lemma InvCore(s: State)
    requires Inv(s)
    ensures Core(s)
  {
  }

  lemma {:induction false} RunRests(s: State, es: seq<Timed>, sign: real)
    requires Inv(s) && Resting(s, sign) && AllEnabled(s, es)
    ensures Resting(Run(s, es), LastSign(s, sign, es))
    decreases |es|
  {
    hide Inv, Resting, Step, Enabled, Sign;
    if es != [] {
      assert Core(s) by { InvCore(s); }
      StepRests(s, es[0].e, es[0].now, sign);
      StepKeeps(s, es[0].e, es[0].now);
      RunRests(Step(s, es[0].e, es[0].now), es[1..], if Sign(s, es[0].e) then es[0].now else sign);
    }
  }

  lemma NothingDrawn(sign: real)
    ensures !LateDraw([], sign)
  {
  }

  lemma StartsInv(start: State)
    requires Fresh(start)
    ensures Inv(Schedule(start, start.clock))
  {
    ScheduleKeeps(start, start.clock);
    WholeLater(Schedule(start, start.clock), start.clock, start.clock);
  }

  // Over every run from the start: the renderer is at rest exactly if it drew at least 188 seconds
  // after the last activity, return to the front or end of a pause. Until it has, a live renderer in
  // front is about to draw. And at rest the next pause is a short one again.
  lemma RestsExactly(start: State, es: seq<Timed>)
    requires Fresh(start) && AllEnabled(Schedule(start, start.clock), es)
    ensures var first := Schedule(start, start.clock);
            var s, sign := Run(first, es), LastSign(first, start.clock, es);
            && (s.calm <==> LateDraw(s.log, sign))
            && (!s.disposed && s.foreground && !s.unseen && !LateDraw(s.log, sign) ==> s.frame != s.timer.Some?)
            && (s.calm ==> s.retryDelay == 60_000.0)
  {
    hide Held, LogOk, LateDraw, Sign;
    var first := Schedule(start, start.clock);
    EveryRun(start, es);
    Scheduled(start, start.clock);
    assert !LateDraw(first.log, start.clock) by { NothingDrawn(start.clock); }
    StartsInv(start);
    hide Inv, Schedule;
    RunRests(first, es, start.clock);
  }

  lemma CalmIsLate(s: State, sign: real)
    requires Resting(s, sign) && s.calm
    ensures s.clock >= sign + 188_000.0
  {
  }

  // So the rest begins at a draw and at no other event: at one that starts that late.
  lemma RestBegins(s: State, e: Event, now: real, sign: real)
    requires Core(s) && Resting(s, sign) && Enabled(s, e, now)
    ensures !s.calm && Step(s, e, now).calm ==>
              e.FrameDue? && !s.disposed && s.foreground && e.m.started >= sign + 188_000.0
    ensures e.FrameDue? && !s.disposed && s.foreground ==>
              (Step(s, e, now).calm <==> e.m.started >= sign + 188_000.0)
  {
    hide LateDraw;
    if e.FrameDue? {
      if !s.disposed && s.foreground {
        hide Measured, Schedule;
        var drawn := s.(frame := false, lastTick := e.m.started, log := s.log + [Drew(e.m.started)]);
        MeasuredQuiet(drawn, e.m);
        Scheduled(Calm(Measured(drawn, e.m), e.m.started), e.m.ended);
        if s.calm {
          CalmIsLate(s, sign);
        }
      }
    } else {
      hide Draw;
    }
  }

  /** The event is a draw of a live renderer in front. */
  predicate DrawsNow(s: State, e: Event) { e.FrameDue? && !s.disposed && s.foreground }

  // ---------- the time a draw counts ----------

  /** The animation goes on from here: a draw, a return to the front, the end of a pause or of the rest. */
  predicate Resumes(s: State, e: Event) {
    && s.foreground
    && (e.VisibilityHandled? ||
        (!s.disposed && (e.FrameDue? || (e.TimerDue? && s.retryAt != 0.0) || (e.Activity? && s.calm))))
  }

  function ResumedAt(e: Event, now: real): real { if e.FrameDue? then e.m.started else now }

  function LastResumed(s: State, before: real, es: seq<Timed>): real
    decreases |es|
  {
    if es == [] then before
    else
      var Timed(e, now) := es[0];
      LastResumed(Step(s, e, now), if Resumes(s, e) then ResumedAt(e, now) else before, es[1..])
  }

  lemma Undrawn(s: State, m: Measure)
    requires s.disposed || !s.foreground
    ensures Draw(s, m) == s.(frame := false)
  {
  }

  lemma StepTicks(s: State, e: Event, now: real)
    requires Enabled(s, e, now)
    ensures Step(s, e, now).lastTick == if Resumes(s, e) then ResumedAt(e, now) else s.lastTick
  {
    if DrawsNow(s, e) {
      hide Measured;
      MeasuredQuiet(s.(frame := false, lastTick := e.m.started, log := s.log + [Drew(e.m.started)]), e.m);
    } else if e.FrameDue? {
      Undrawn(s, e.m);
    } else {
      hide Draw;
    }
  }

  // A draw counts the time since the last of these, so none in the background, in a pause or at rest.
  lemma {:induction false} CountsFromResumed(s: State, es: seq<Timed>)
    requires AllEnabled(s, es)
    ensures Run(s, es).lastTick == LastResumed(s, s.lastTick, es)
    decreases |es|
  {
    hide Step, Enabled, Resumes, ResumedAt;
    if es != [] {
      StepTicks(s, es[0].e, es[0].now);
      CountsFromResumed(Step(s, es[0].e, es[0].now), es[1..]);
    }
  }

  // ---------- what each event does ----------

  // In the background nothing stays requested once the change is handled.
  lemma HiddenStops(s: State, now: real)
    requires !s.foreground
    ensures var next := Step(s, VisibilityHandled, now);
            !next.frame && next.timer.None? && !next.unseen && next.calm == s.calm && next.log == s.log
  {
  }

  // Any sign but the end of a pause leaves a live renderer in front about to draw, also out of the rest.
  lemma SignWakes(s: State, e: Event, now: real)
    requires Sign(s, e)
    ensures var next := Step(s, e, now);
            !next.calm || e.TimerDue?
    ensures var next := Step(s, e, now); next.frame || next.timer.Some?
  {
  }

  // A change of the visibility, once handled, stops the renderer behind and starts it in front.
  lemma ChangeIsHandled(s: State, foreground: bool, changed: real, handled: real)
    requires Core(s)
    ensures var next := Step(Step(s, FocusChanged(foreground), changed), VisibilityHandled, handled);
            if foreground && !s.disposed then !next.calm && (next.frame || next.timer.Some?)
            else !next.frame && next.timer.None?
  {
  }

  // A redraw in front is drawn with the next frame, but never during a pause.
  lemma RedrawDraws(s: State, now: real)
    requires Core(s) && !s.disposed && s.foreground
    ensures var next := Step(s, RedrawAsked, now);
            if s.retryAt == 0.0 then next.frame && next.timer.None? else next == s.(clock := now)
  {
  }

  // The release is for good: nothing is requested, and it is noted once.
  lemma ReleaseEnds(s: State, now: real)
    requires Core(s)
    ensures var next := Step(s, Dispose, now);
            next.disposed && !next.frame && next.timer.None? &&
            next.log == if s.disposed then s.log else s.log + [Released]
  {
  }

  // A timer that comes due in front leads to a frame, and ends a pause with all that was counted.
  lemma TimerDraws(s: State, now: real)
    requires Core(s) && Enabled(s, TimerDue, now) && s.foreground
    ensures var next := Step(s, TimerDue, now);
            && next.frame && next.timer.None? && next.retryAt == 0.0 && next.log == s.log
            && next.lag == (if s.retryAt == 0.0 then s.lag else Lag(0, 0, 0, s.lag.draws, s.lag.fence, []))
  {
  }

  /** When a timer is set, and for when: at the end of the pause, or 40 ms later, or 83 ms after a fault. */
  predicate DueAt(next: State, at: real) {
    next.timer.Some? ==>
      next.timer.value == (if next.retryAt != 0.0 then (if next.retryAt > at then next.retryAt else at)
                           else if next.lag.faults == 0 then at + 40.0 else at + 83.0)
  }

  lemma ScheduleDue(s: State, at: real)
    requires s.timer.None?
    ensures DueAt(Schedule(s, at), at)
  {
  }

  lemma DueLater(s: State, now: real, at: real)
    requires DueAt(s, at)
    ensures DueAt(s.(clock := now), at)
  {
  }

  lemma DrawDue(s: State, m: Measure, now: real)
    requires Inv(s) && Enabled(s, FrameDue(m), now) && !s.disposed && s.foreground
    ensures DueAt(Step(s, FrameDue(m), now), m.ended)
  {
    hide Inv, Drawing, Measured, Schedule, DueAt;
    FirstDraw(s, m);
    var drawn := s.(frame := false, lastTick := m.started, log := s.log + [Drew(m.started)]);
    MeasuredKeeps(drawn, m);
    DrawingHasNoTimer(Measured(drawn, m), m.started);
    var calm := Calm(Measured(drawn, m), m.started);
    ScheduleDue(calm, m.ended);
    DueLater(Schedule(calm, m.ended), now, m.ended);
  }

  lemma TimerIsSet(s: State, e: Event, now: real)
    requires Inv(s) && Enabled(s, e, now) && s.timer.None?
    ensures DueAt(Step(s, e, now), if e.FrameDue? then e.m.ended else now)
  {
    hide Held, LogOk, Gone, Alive, Core;
    if DrawsNow(s, e) {
      DrawDue(s, e.m, now);
    } else {
      hide Draw;
    }
  }

  /** How many of the frames are late. */
  function LateAt(frames: seq<bool>): set<nat> { set i: nat | i < |frames| && frames[i] }

  lemma LateStep(frames: seq<bool>)
    requires frames != []
    ensures LateAt(frames) == (if frames[0] then {0} else {}) + Up(LateAt(frames[1..]))
  {
    hide Up;
    assert forall i :: 0 < i < |frames| ==> frames[i] == frames[1..][i - 1];
  }

  lemma {:induction false} LateIsSize(frames: seq<bool>)
    ensures Late(frames) == |LateAt(frames)|
  {
    if frames != [] {
      LateIsSize(frames[1..]);
      LateStep(frames);
      hide LateAt, Up;
      SizeStep(LateAt(frames[1..]), frames[0]);
    }
  }

  /** The last nine frames at most. */
  function LastNine(frames: seq<bool>): seq<bool> { if |frames| > 9 then frames[|frames| - 9..] else frames }

  /** What a draw finds wrong: it started too late for the fifth time among ten frames, the second fence
      in a row was not signalled, or it took too long. */
  predicate FoundLate(s: State, m: Measure) {
    |LateAt(LastNine(s.lag.lateFrames) + [m.started - m.frameTime > 17.0])| >= 5
  }

  predicate FoundFence(s: State, m: Measure) { s.lag.fence && !m.signalled && s.lag.gpuLate >= 1 }

  predicate FoundSlow(m: Measure) { m.ended - m.started > 50.0 }

  /** What is counted after a draw. */
  function LagFound(lag: Lag, late: bool, fence: bool, slow: bool, signalled: bool, frames: seq<bool>): Lag {
    Lag(lag.faults + (if late then 1 else 0) + (if fence then 1 else 0), if slow then lag.slowFrames + 1 else 0,
        if !lag.fence then lag.gpuLate else if signalled || fence then 0 else lag.gpuLate + 1,
        lag.draws + 1, (lag.draws + 1) % 4 == 0, if late then [] else frames)
  }

  lemma NoteLagAfter(s: State, now: real)
    ensures NoteLag(s, now).lag == s.lag.(faults := s.lag.faults + 1)
  {
  }

  lemma FenceLag(s: State, m: Measure)
    ensures CheckFence(s, m).lag ==
            s.lag.(faults := s.lag.faults + (if FoundFence(s, m) then 1 else 0), fence := false,
                   gpuLate := if !s.lag.fence then s.lag.gpuLate
                              else if m.signalled || FoundFence(s, m) then 0 else s.lag.gpuLate + 1)
  {
    hide NoteLag;
    NoteLagAfter(s.(lag := s.lag.(fence := false, gpuLate := 0)), m.noted);
  }

  lemma LateLag(s: State, m: Measure)
    ensures var frames := LastNine(s.lag.lateFrames) + [m.started - m.frameTime > 17.0];
            CheckLate(s, m).lag ==
            s.lag.(faults := s.lag.faults + (if Late(frames) >= 5 then 1 else 0),
                   lateFrames := if Late(frames) >= 5 then [] else frames)
  {
    hide NoteLag, Late;
    NoteLagAfter(s.(lag := s.lag.(lateFrames := [])), m.noted);
  }

  lemma SlowLag(s: State, m: Measure)
    ensures CheckSlow(s, m).lag == s.lag.(slowFrames := if FoundSlow(m) then s.lag.slowFrames + 1 else 0)
  {
  }

  lemma MeasuredLag(s: State, m: Measure)
    ensures var frames := LastNine(s.lag.lateFrames) + [m.started - m.frameTime > 17.0];
            Measured(s, m).lag ==
            LagFound(s.lag, Late(frames) >= 5, FoundFence(s, m), FoundSlow(m), m.signalled, frames)
  {
    hide Late, CheckFence, CheckLate, CheckSlow, LastNine, FoundFence, FoundSlow;
    FenceLag(s, m);
    var counted := CountDraw(CheckFence(s, m));
    LateLag(counted, m);
    SlowLag(CheckLate(counted, m), m);
  }

  lemma LagAfter(s: State, m: Measure)
    requires !s.disposed && s.foreground
    ensures var frames := LastNine(s.lag.lateFrames) + [m.started - m.frameTime > 17.0];
            Draw(s, m).lag == LagFound(s.lag, Late(frames) >= 5, FoundFence(s, m), FoundSlow(m), m.signalled, frames)
  {
    hide Late, Measured, LastNine, FoundSlow, LagFound;
    var drawn := s.(frame := false, lastTick := m.started, log := s.log + [Drew(m.started)]);
    MeasuredLag(drawn, m);
    Scheduled(Calm(Measured(drawn, m), m.started), m.ended);
  }

  // A draw counts exactly what it finds wrong, and starts a pause exactly when that makes two faults or
  // three slow draws in a row. Every fourth draw leaves a fence for the next one to look at.
  lemma DrawMeasures(s: State, m: Measure, now: real)
    requires Inv(s) && Counted(s) && Enabled(s, FrameDue(m), now) && !s.disposed && s.foreground
    ensures var next := Step(s, FrameDue(m), now);
            && next.lag.faults ==
               s.lag.faults + (if FoundLate(s, m) then 1 else 0) + (if FoundFence(s, m) then 1 else 0)
            && next.lag.slowFrames == (if FoundSlow(m) then s.lag.slowFrames + 1 else 0)
            && next.lag.lateFrames == (if FoundLate(s, m) then []
                                      else LastNine(s.lag.lateFrames) + [m.started - m.frameTime > 17.0])
            && next.lag.gpuLate == (if !s.lag.fence then s.lag.gpuLate
                                   else if m.signalled || FoundFence(s, m) then 0 else s.lag.gpuLate + 1)
            && next.lag.draws == s.lag.draws + 1 && (next.lag.fence <==> next.lag.draws % 4 == 0)
            && (next.retryAt != 0.0 <==> next.lag.faults >= 2 || next.lag.slowFrames >= 3)
  {
    LagAfter(s, m);
    DrawCounts(s, m, now);
    LateIsSize(LastNine(s.lag.lateFrames) + [m.started - m.frameTime > 17.0]);
    hide LateAt, Late;
  }

  // A pause doubles the next one up to the limit, and while it is on no other starts.
  lemma BackoffDoubles(s: State, now: real)
    requires Core(s) && s.retryAt == 0.0 && now >= 0.0
    ensures var b := Backoff(s, now);
            && b.retryAt - now == s.retryDelay && !b.frame && b.timer.None?
            && b.log == s.log + [BackedOff(now, now + s.retryDelay)]
            && (s.retryDelay < LAST_DELAY ==> b.retryDelay == 2.0 * s.retryDelay)
            && (s.retryDelay == LAST_DELAY ==> b.retryDelay == LAST_DELAY)
            && forall later :: Backoff(b, later) == b
  {
    assert Delay(s.retryDelay);
  }

  lemma StaysSound(s: State, e: Event, now: real)
    requires Inv(s) && Counted(s) && Prompt(s, s.clock) && Enabled(s, e, now)
    ensures var next := Step(s, e, now); Inv(next) && Counted(next) && Prompt(next, now)
  {
    hide Inv, Counted, Prompt, Enabled, Step;
    StepKeeps(s, e, now);
    StepCounts(s, e, now);
    StepIsPrompt(s, e, now);
  }

  lemma ClockMoves(s: State, e: Event, now: real)
    requires Enabled(s, e, now)
    ensures Step(s, e, now).clock == now
  {
    hide OnVisibility, Wake, Redraw, TimerFires, Draw, Release, Enabled;
  }

  // ---------- the renderer in place ----------

  /** The variables the renderer's closures share. */
  class Renderer {
    var frame: bool
    var timer: Option<real>
    var disposed: bool
    var calm: bool
    var foreground: bool
    ghost var unseen: bool
    var faults: nat
    var slowFrames: nat
    var gpuLate: nat
    var draws: nat
    var fence: bool
    var lateFrames: seq<bool>
    var retryAt: real
    var retryDelay: real
    var idleDeadline: real
    var lastTick: real
    ghost var clock: real
    ghost var log: seq<Mark>

    ghost function Now(): State
      reads this
    {
      State(frame, timer, disposed, calm, foreground, unseen, retryAt, retryDelay, idleDeadline, lastTick,
            Counts(), clock, log)
    }

    ghost function Counts(): Lag
      reads this`faults, this`slowFrames, this`gpuLate, this`draws, this`fence, this`lateFrames
    {
      Lag(faults, slowFrames, gpuLate, draws, fence, lateFrames)
    }

    constructor (now: real, foreground: bool)
      requires now >= 0.0
      ensures exists start ::
                Fresh(start) && start.clock == now && start.foreground == foreground && Now() == Schedule(start, now)
    {
      frame, timer, disposed, calm, this.foreground := false, None, false, false, foreground;
      faults, slowFrames, gpuLate, draws, fence, lateFrames := 0, 0, 0, 0, false, [];
      retryAt, retryDelay, idleDeadline, lastTick := 0.0, FIRST_DELAY, now + IDLE, now;
      unseen, clock, log := false, now, [];
      new;
      ghost var start := Now();
      assert Fresh(start);
      SetTimer(now);
    }

    // schedule
    method SetTimer(now: real)
      modifies this`timer
      ensures Now() == Schedule(old(Now()), now)
    {
      if disposed || calm || !foreground || frame || timer.Some? {
        return;
      }
      if retryAt != 0.0 {
        timer := Some(now + if retryAt > now then retryAt - now else 0.0);
      } else if faults > 0 {
        timer := Some(now + LAGGING_STEP);
      } else {
        timer := Some(now + CALM_STEP);
      }
    }

    // cancel
    method ClearRequests()
      modifies this`timer, this`frame
      ensures Now() == Cancel(old(Now()))
      ensures old(Core(Now())) ==> Core(Now())
    {
      timer := None;
      frame := false;
    }

    // backoff
    method Pause(now: real)
      modifies this
      ensures Now() == Backoff(old(Now()), now)
    {
      if retryAt != 0.0 {
        return;
      }
      retryAt := now + retryDelay;
      log := log + [BackedOff(now, retryAt)];
      retryDelay := retryDelay * 2.0;
      if retryDelay > LAST_DELAY {
        retryDelay := LAST_DELAY;
      }
      ClearRequests();
    }

    // noteLag
    method CountFault(now: real)
      modifies this
      ensures Now() == NoteLag(old(Now()), now)
    {
      faults := faults + 1;
      if faults >= 2 {
        Pause(now);
      }
    }

    // wake
    method OnActivity(now: real)
      modifies this`idleDeadline, this`calm, this`lastTick, this`timer
      ensures Now() == Wake(old(Now()), now)
    {
      if disposed || !foreground {
        return;
      }
      idleDeadline := now + IDLE;
      if calm {
        calm := false;
        lastTick := now;
      }
      SetTimer(now);
    }

    // onVisibility
    method OnFocusOrVisibility(now: real)
      modifies this
      ensures Now() == OnVisibility(old(Now()), now).(unseen := false)
    {
      if !foreground {
        ClearRequests();
      } else {
        lastTick := now;
        OnActivity(now);
      }
      unseen := false;
    }

    // redraw
    method AskRedraw()
      modifies this`timer, this`frame
      ensures Now() == Redraw(old(Now()))
      ensures old(Core(Now())) ==> Core(Now())
    {
      if disposed || !foreground || retryAt != 0.0 || frame {
        return;
      }
      timer := None;
      frame := true;
    }

    // the timer's callback
    method OnTimer(now: real)
      modifies this
      ensures Now() == TimerFires(old(Now()), now)
    {
      hide EndPause;
      timer := None;
      if disposed || !foreground {
        return;
      }
      Resume(now);
      frame := true;
    }

    method Resume(now: real)
      modifies this`retryAt, this`faults, this`slowFrames, this`gpuLate, this`lateFrames, this`lastTick,
          this`idleDeadline
      ensures Now() == EndPause(old(Now()), now)
    {
      hide Counts;
      if retryAt == 0.0 {
        return;
      }
      ResetCounts();
      retryAt := 0.0;
      lastTick := now;
      idleDeadline := lastTick + IDLE;
    }

    method ResetCounts()
      modifies this`faults, this`slowFrames, this`gpuLate, this`lateFrames
      ensures Counts() == old(Counts()).(faults := 0, slowFrames := 0, gpuLate := 0, lateFrames := [])
    {
      faults, slowFrames, gpuLate := 0, 0, 0;
      lateFrames := [];
    }

    // draw
    method OnFrame(m: Measure)
      modifies this
      ensures Now() == Draw(old(Now()), m)
    {
      hide Measured, Calm, Schedule;
      frame := false;
      if disposed || !foreground {
        return;
      }
      lastTick := m.started;
      log := log + [Drew(m.started)];
      MeasureDraw(m);
      Settle(m.started);
      SetTimer(m.ended);
    }

    method MeasureDraw(m: Measure)
      modifies this
      ensures Now() == Measured(old(Now()), m)
    {
      hide CheckFence, CountDraw, CheckLate, CheckSlow;
      MeasureFence(m);
      CountOneDraw();
      MeasureLate(m);
      MeasureSlow(m);
    }

    method Settle(started: real)
      modifies this`calm, this`retryDelay
      ensures Now() == Calm(old(Now()), started)
    {
      if started - idleDeadline >= SETTLE {
        calm := true;
        retryDelay := FIRST_DELAY;
      }
    }

    method MeasureFence(m: Measure)
      modifies this
      ensures Now() == CheckFence(old(Now()), m)
    {
      if fence {
        gpuLate := if m.signalled then 0 else gpuLate + 1;
        fence := false;
        if gpuLate >= 2 {
          gpuLate := 0;
          CountFault(m.noted);
        }
      }
    }

    method CountOneDraw()
      modifies this`draws, this`fence
      ensures Now() == CountDraw(old(Now()))
    {
      draws := draws + 1;
      if draws % 4 == 0 {
        fence := true;
      }
    }

    method MeasureLate(m: Measure)
      modifies this
      ensures Now() == CheckLate(old(Now()), m)
    {
      if |lateFrames| > 9 {
        lateFrames := lateFrames[|lateFrames| - 9..];
      }
      lateFrames := lateFrames + [m.started - m.frameTime > 17.0];
      var late := Late(lateFrames);
      if late >= 5 {
        lateFrames := [];
        CountFault(m.noted);
      }
    }

    method MeasureSlow(m: Measure)
      modifies this
      ensures Now() == CheckSlow(old(Now()), m)
    {
      slowFrames := if m.ended - m.started > 50.0 then slowFrames + 1 else 0;
      if slowFrames >= 3 {
        Pause(m.ended);
      }
    }

    // release
    method Dispose()
      modifies this`disposed, this`frame, this`timer, this`log
      ensures Now() == Release(old(Now()))
    {
      if disposed {
        return;
      }
      disposed := true;
      frame := false;
      timer := None;
      log := log + [Released];
    }

    ghost predicate Sound()
      reads this
    {
      Inv(Now()) && Counted(Now()) && Prompt(Now(), clock)
    }

    method Handle(e: Event, now: real)
      requires Enabled(Now(), e, now)
      modifies this
      ensures Now() == Step(old(Now()), e, now)
    {
      hide OnVisibility, Wake, Redraw, TimerFires, Draw, Release, Enabled;
      match e {
        case FocusChanged(front) =>
          foreground := front;
          unseen := true;
        case VisibilityHandled => OnFocusOrVisibility(now);
        case Activity => OnActivity(now);
        case RedrawAsked => AskRedraw();
        case TimerDue => OnTimer(now);
        case FrameDue(m) => OnFrame(m);
        case Dispose => Dispose();
      }
      clock := now;
    }

    // Whatever happens to it, the renderer stays sound.
    method OnEvent(e: Event, now: real)
      requires Enabled(Now(), e, now)
      modifies this
      ensures Now() == Step(old(Now()), e, now)
      ensures old(Sound()) ==> Sound()
    {
      hide Step, Inv, Counted, Prompt, Enabled;
      ghost var was := Now();
      Handle(e, now);
      assert clock == now by { ClockMoves(was, e, now); }
      if Inv(was) && Counted(was) && Prompt(was, was.clock) {
        StaysSound(was, e, now);
      }
    }
  }
}
