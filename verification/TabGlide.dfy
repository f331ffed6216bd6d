// Where a group of tabs paints its highlight: it glides from the place it was painted at to the
// selected tab. Coordinates are in pixels, times in milliseconds.
module TabGlide {
  import opened Common

  datatype Rect = Rect(x: real, y: real, width: real, height: real)

  datatype Key = X | Y | Width | Height

  function At(r: Rect, key: Key): real {
    match key
    case X => r.x
    case Y => r.y
    case Width => r.width
    case Height => r.height
  }

  /** `current` is the rectangle painted last, `started` the time of the last change of target. */
  datatype Glide = Glide(target: Option<Rect>, from: Option<Rect>, current: Option<Rect>, started: real)

  const START := Glide(None, None, None, 0.0)
  const DURATION := 220.0

  function Ease(progress: real): real { 1.0 - (1.0 - progress) * (1.0 - progress) * (1.0 - progress) }

  function Progress(g: Glide, now: real, reduced: bool): real {
    var progress := (now - g.started) / DURATION;
    if reduced || progress > 1.0 then 1.0 else progress
  }

  function Mix(a: real, b: real, ease: real): real { a + (b - a) * ease }

  function MixRect(a: Rect, b: Rect, ease: real): Rect {
    Rect(Mix(a.x, b.x, ease), Mix(a.y, b.y, ease), Mix(a.width, b.width, ease), Mix(a.height, b.height, ease))
  }

  // paint: the rectangle that is painted, if there is a target
  function Paint(g: Glide, now: real, reduced: bool): Glide {
    var progress := Progress(g, now, reduced);
    if g.target.None? then g
    else if g.from.Some? && progress < 1.0
        then g.(current := Some(MixRect(g.from.value, g.target.value, Ease(progress))))
    else g.(current := g.target)
  }

  predicate Moved(a: Rect, b: Rect) {
    exists key :: key in {X, Y, Width, Height} && (At(a, key) - At(b, key) > 0.01 || At(b, key) - At(a, key) > 0.01)
  }

  // update: `next` is the selected tab, if it shows; `remembered` is where an earlier mount left off
  function Update(g: Glide, next: Option<Rect>, remembered: Option<Rect>, now: real): Glide {
    if next.None? then g.(target := None)
    else if g.target.None? || Moved(next.value, g.target.value) then
      var from := if g.current.Some? then g.current else if remembered.Some? then remembered else next;
      Glide(next, from, g.current, now)
    else g
  }

  /** The insets of the group, in the order of the four sides. */
  datatype Insets = Insets(top: real, right: real, bottom: real, left: real)

  // update: the tab's rectangle reaches to the edges of the group that it nearly touches
  function Extend(r: Rect, insets: Insets, width: real, height: real): Rect {
    var top := if r.y <= insets.top + 0.5 then r.(height := r.height + r.y, y := 0.0) else r;
    var bottom := if height - (top.y + top.height) <= insets.bottom + 0.5 then top.(height := height - top.y) else top;
    var left := if bottom.x <= insets.left + 0.5 then bottom.(width := bottom.width + bottom.x, x := 0.0) else bottom;
    if width - (left.x + left.width) <= insets.right + 0.5 then left.(width := width - left.x) else left
  }

  predicate Within(r: Rect, left: real, top: real, right: real, bottom: real) {
    left <= r.x && top <= r.y && r.x + r.width <= right && r.y + r.height <= bottom
  }

  // A tab inside its group still covers all it covered, and is still inside; and a side reaches its
  // edge whenever it was within the inset of it.
  lemma ExtendCovers(r: Rect, insets: Insets, width: real, height: real)
    requires Within(r, 0.0, 0.0, width, height)
    ensures var e := Extend(r, insets, width, height);
            && Within(e, 0.0, 0.0, width, height)
            && Within(r, e.x, e.y, e.x + e.width, e.y + e.height)
            && (e.x == if r.x <= insets.left + 0.5 then 0.0 else r.x)
            && (e.y == if r.y <= insets.top + 0.5 then 0.0 else r.y)
            && (e.x + e.width == if width - (r.x + r.width) <= insets.right + 0.5 then width else r.x + r.width)
            && (e.y + e.height == if height - (r.y + r.height) <= insets.bottom + 0.5 then height else r.y + r.height)
  {
  }

  // ---------- easing ----------

  lemma Square(q: real)
    ensures q * q >= 0.0
  {
  }

  lemma Shrink(a: real, q: real)
    requires a >= 0.0 && 0.0 <= q <= 1.0
    ensures a * q <= a
  {
    assert a * (1.0 - q) >= 0.0;
  }

  lemma SmallSquare(q: real)
    requires 0.0 <= q <= 1.0
    ensures q * q <= 1.0
  {
    Shrink(q, q);
  }

  lemma Grow(a: real, q: real)
    requires a > 1.0 && q > 1.0
    ensures a * q > 1.0
  {
    assert (a - 1.0) * q >= 0.0;
  }

  lemma LargeSquare(q: real)
    requires q > 1.0
    ensures q * q > 1.0
  {
    Grow(q, q);
  }

  lemma EaseBounds(p: real)
    requires p <= 1.0
    ensures Ease(p) <= 1.0 && (p >= 0.0 <==> Ease(p) >= 0.0)
    ensures Ease(0.0) == 0.0 && Ease(1.0) == 1.0
  {
    var q := 1.0 - p;
    assert Ease(p) == 1.0 - q * q * q;
    Square(q);
    assert q * q * q >= 0.0;
    if p >= 0.0 {
      assert q * q <= 1.0 by { SmallSquare(q); }
      assert q * q * q <= q * q by { Shrink(q * q, q); }
    } else {
      assert q * q > 1.0 by { LargeSquare(q); }
      assert q * q * q > 1.0 by { Grow(q * q, q); }
    }
  }

  lemma Positive(a: real, b: real)
    requires a > 0.0 && b > 0.0
    ensures a * b > 0.0
  {
    var product := a * b;
    assert product / b == a;
  }

  predicate Between(v: real, a: real, b: real) { (a <= v <= b) || (b <= v <= a) }

  lemma MixBetween(a: real, b: real, ease: real)
    requires ease <= 1.0
    ensures Between(Mix(a, b, ease), a, b) <==> ease >= 0.0 || a == b
  {
    var d := b - a;
    var moved := d * ease;
    assert Mix(a, b, ease) == a + moved;
    if ease >= 0.0 {
      if d >= 0.0 {
        Shrink(d, ease);
        assert d * ease >= 0.0;
      } else {
        Shrink(-d, ease);
        assert (-d) * ease >= 0.0;
        assert (-d) * ease == -(d * ease);
      }
    } else if d > 0.0 {
      Positive(d, -ease);
      assert d * (-ease) == -moved;
      assert moved < 0.0;
    } else if d < 0.0 {
      Positive(-d, -ease);
      assert (-d) * (-ease) == moved;
    } else {
      assert moved == 0.0;
    }
  }

  // ---------- one paint ----------

  // Each painted coordinate lies between those of the start and of the target, exactly unless the
  // frame's time is before the change of target; such a frame paints beyond the start.
  lemma PaintBetween(g: Glide, now: real, reduced: bool, key: Key)
    requires g.target.Some? && g.from.Some?
    ensures var painted := Paint(g, now, reduced).current;
            && painted.Some?
            && (Between(At(painted.value, key), At(g.from.value, key), At(g.target.value, key)) <==>
                reduced || now >= g.started || At(g.from.value, key) == At(g.target.value, key))
  {
    var progress := Progress(g, now, reduced);
    EaseBounds(progress);
    hide Ease;
    assert progress >= 0.0 <==> reduced || now >= g.started;
    if progress < 1.0 {
      MixBetween(At(g.from.value, key), At(g.target.value, key), Ease(progress));
    }
  }

  lemma MixLeft(a: real, b: real, p: real)
    ensures b - Mix(a, b, Ease(p)) == (b - a) * ((1.0 - p) * (1.0 - p) * (1.0 - p))
  {
    var cube := (1.0 - p) * (1.0 - p) * (1.0 - p);
    assert Ease(p) == 1.0 - cube;
    hide Ease;
    assert (b - a) * (1.0 - cube) == (b - a) - (b - a) * cube;
  }

  // On the way, what is left of it is the cube of the time that is left of the 220 ms.
  lemma PaintEases(g: Glide, now: real, key: Key)
    requires g.target.Some? && g.from.Some? && now < g.started + 220.0
    ensures var left := 1.0 - (now - g.started) / 220.0;
            var painted := Paint(g, now, false).current;
            painted.Some? && At(g.target.value, key) - At(painted.value, key) ==
            (At(g.target.value, key) - At(g.from.value, key)) * (left * left * left)
  {
    MixLeft(At(g.from.value, key), At(g.target.value, key), (now - g.started) / 220.0);
  }

  /** The rectangles differ by a hundredth of a pixel at most. */
  predicate Near(a: Rect, b: Rect) {
    && -0.01 <= a.x - b.x <= 0.01 && -0.01 <= a.y - b.y <= 0.01
    && -0.01 <= a.width - b.width <= 0.01 && -0.01 <= a.height - b.height <= 0.01
  }

  lemma MovedIsNotNear(a: Rect, b: Rect)
    ensures Moved(a, b) <==> !Near(a, b)
  {
    if !Near(a, b) {
      assert At(a, X) - At(b, X) > 0.01 || At(b, X) - At(a, X) > 0.01
          || At(a, Y) - At(b, Y) > 0.01 || At(b, Y) - At(a, Y) > 0.01
          || At(a, Width) - At(b, Width) > 0.01 || At(b, Width) - At(a, Width) > 0.01
          || At(a, Height) - At(b, Height) > 0.01 || At(b, Height) - At(a, Height) > 0.01;
    }
  }

  // A tab that stays near its target disturbs no glide. Any other starts one now, from the place painted
  // last, else from where an earlier mount left off, else from the tab itself. Without a tab there is no
  // target, and nothing is painted until there is one again.
  lemma TargetMoves(g: Glide, next: Rect, remembered: Option<Rect>, now: real)
    ensures var u := Update(g, Some(next), remembered, now);
            && u.current == g.current
            && if g.target.Some? && Near(next, g.target.value) then u == g
               else
                 && u.target == Some(next) && u.started == now
                 && u.from == (if g.current.Some? then g.current
                               else if remembered.Some? then remembered else Some(next))
    ensures var u := Update(g, None, remembered, now);
            u.target.None? && u == g.(target := None) && forall at: real, reduced :: Paint(u, at, reduced) == u
  {
    if g.target.Some? {
      MovedIsNotNear(next, g.target.value);
    }
    hide Moved, Near, Ease;
  }

  // A change of target does not make the highlight jump: at that moment it is painted where it was
  // painted last; and after 220 ms, or at once under reduced motion, it is painted on the target.
  lemma GlideIsContinuous(g: Glide, next: Rect, remembered: Option<Rect>, started: real, now: real, reduced: bool)
    requires g.target.None? || Moved(next, g.target.value)
    ensures var u := Update(g, Some(next), remembered, started);
            && (g.current.Some? ==> Paint(u, started, false).current == g.current)
            && (g.current.None? && remembered.Some? ==> Paint(u, started, false).current == remembered)
            && (reduced || now >= started + DURATION ==> Paint(u, now, reduced).current == Some(next))
  {
    var u := Update(g, Some(next), remembered, started);
    EaseBounds(0.0);
    assert Progress(u, started, false) == 0.0;
    hide Ease;
    assert forall a: real, b: real :: Mix(a, b, 0.0) == a;
  }

  // ---------- runs ----------

  datatype Event = Painted(now: real, reduced: bool) | Updated(next: Option<Rect>, remembered: Option<Rect>, now: real)

  function Step(g: Glide, e: Event): Glide {
    match e
    case Painted(now, reduced) => Paint(g, now, reduced)
    case Updated(next, remembered, now) => Update(g, next, remembered, now)
  }

  function Run(g: Glide, es: seq<Event>): Glide
    decreases |es|
  {
    if es == [] then g else Run(Step(g, es[0]), es[1..])
  }

  predicate In(r: Option<Rect>, key: Key, low: real, high: real) { r.Some? ==> low <= At(r.value, key) <= high }

  predicate InBounds(g: Glide, key: Key, low: real, high: real) {
    && In(g.target, key, low, high) && In(g.from, key, low, high) && In(g.current, key, low, high)
    && (g.target.Some? ==> g.from.Some?)
  }

  /** The tabs of the run stay within the bounds, and no frame comes with a time before the last
      change of target. */
  predicate Tame(g: Glide, es: seq<Event>, key: Key, low: real, high: real)
    decreases |es|
  {
    es == [] ||
    ((match es[0]
      case Painted(now, reduced) => reduced || g.target.None? || now >= g.started
      case Updated(next, remembered, _) => In(next, key, low, high) && In(remembered, key, low, high)) &&
     Tame(Step(g, es[0]), es[1..], key, low, high))
  }

  lemma StepInBounds(g: Glide, e: Event, key: Key, low: real, high: real)
    requires InBounds(g, key, low, high) && Tame(g, [e], key, low, high)
    ensures InBounds(Step(g, e), key, low, high)
  {
    hide Ease, Mix, Moved;
    if e.Painted? && g.target.Some? {
      PaintBetween(g, e.now, e.reduced, key);
    }
  }

  // Over every run of selections, scrolls and frames the highlight never leaves the range of the
  // places it was sent to.
  lemma {:induction false} NeverOvershoots(g: Glide, es: seq<Event>, key: Key, low: real, high: real)
    requires InBounds(g, key, low, high) && Tame(g, es, key, low, high)
    ensures InBounds(Run(g, es), key, low, high)
    decreases |es|
  {
    if es != [] {
      StepInBounds(g, es[0], key, low, high);
      hide Step, InBounds;
      NeverOvershoots(Step(g, es[0]), es[1..], key, low, high);
    }
  }

  const HERE := Rect(0.0, 0.0, 100.0, 20.0)
  const THERE := Rect(110.0, 0.0, 100.0, 20.0)

  /** A frame whose time is 5 ms before the selection of the second tab. */
  const EARLY: seq<Event> :=
    [Updated(Some(HERE), None, 0.0), Painted(300.0, false), Updated(Some(THERE), None, 310.0), Painted(305.0, false)]

  const BEFORE_FRAME := Glide(Some(THERE), Some(HERE), Some(HERE), 310.0)

  lemma EarlySteps()
    ensures Step(Step(Step(START, EARLY[0]), EARLY[1]), EARLY[2]) == BEFORE_FRAME
  {
    hide Ease, Mix;
    assert At(THERE, X) - At(HERE, X) > 0.01;
    assert Moved(THERE, HERE);
  }

  lemma RunFirst(g: Glide, e: Event, es: seq<Event>)
    ensures Run(g, [e] + es) == Run(Step(g, e), es)
  {
    assert ([e] + es)[1..] == es;
  }

  lemma RunOfFour(g: Glide, a: Event, b: Event, c: Event, d: Event)
    ensures Run(g, [a, b, c, d]) == Step(Step(Step(Step(g, a), b), c), d)
  {
    hide Step;
    RunFirst(g, a, [b, c, d]);
    RunFirst(Step(g, a), b, [c, d]);
    RunFirst(Step(Step(g, a), b), c, [d]);
    RunFirst(Step(Step(Step(g, a), b), c), d, []);
    assert [a, b, c, d] == [a] + [b, c, d] && [b, c, d] == [b] + [c, d] && [c, d] == [c] + [d] && [d] == [d] + [];
  }

  lemma PaintKeeps(g: Glide, now: real, reduced: bool)
    ensures Paint(g, now, reduced).target == g.target && Paint(g, now, reduced).from == g.from
  {
    hide Ease, Mix;
  }

  lemma PaintedStep(g: Glide, now: real, reduced: bool)
    ensures Step(g, Painted(now, reduced)) == Paint(g, now, reduced)
  {
  }

  // A frame that was due before a tab was selected, and runs after, paints the highlight outside
  // the way from the old tab to the new one.
  lemma EarlyFrameOvershoots()
    ensures var g := Run(START, EARLY);
            && g.target == Some(THERE) && g.from == Some(HERE) && g.current.Some?
            && !Between(g.current.value.x, HERE.x, THERE.x)
  {
    hide Step, Paint, Between;
    RunOfFour(START, EARLY[0], EARLY[1], EARLY[2], EARLY[3]);
    EarlySteps();
    PaintBetween(BEFORE_FRAME, 305.0, false, X);
    PaintKeeps(BEFORE_FRAME, 305.0, false);
    PaintedStep(BEFORE_FRAME, 305.0, false);
  }

  // The target is never further than a hundredth of a pixel from the tab that was seen last.
  lemma TargetIsClose(g: Glide, next: Rect, remembered: Option<Rect>, now: real, key: Key)
    ensures var u := Update(g, Some(next), remembered, now);
            u.target.Some? && -0.01 <= At(u.target.value, key) - At(next, key) <= 0.01
  {
    if g.target.Some? {
      assert key in {X, Y, Width, Height} by { match key { case X => case Y => case Width => case Height => } }
    }
  }

  // ---------- the highlight in place ----------

  class Highlight {
    var target: Option<Rect>
    var from: Option<Rect>
    var current: Option<Rect>
    var started: real

    ghost function Now(): Glide
      reads this
    {
      Glide(target, from, current, started)
    }

    constructor ()
      ensures Now() == START
    {
      target, from, current, started := None, None, None, 0.0;
    }

    method OnPaint(now: real, reduced: bool)
      modifies this`current
      ensures Now() == Paint(old(Now()), now, reduced)
    {
      var progress := if reduced || (now - started) / DURATION > 1.0 then 1.0 else (now - started) / DURATION;
      if target.Some? {
        current := target;
        if from.Some? && progress < 1.0 {
          current := Some(MixRect(from.value, target.value, Ease(progress)));
        }
      }
    }

    method OnUpdate(next: Option<Rect>, remembered: Option<Rect>, now: real)
      modifies this`target, this`from, this`started
      ensures Now() == Update(old(Now()), next, remembered, now)
    {
      if next.None? {
        target := None;
        return;
      }
      if target.None? || Moved(next.value, target.value) {
        from := if current.Some? then current else if remembered.Some? then remembered else next;
        target := next;
        started := now;
      }
    }
  }
}
