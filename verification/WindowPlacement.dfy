// Restoring the main window: how much of a saved window each monitor's work area shows, which
// monitor is chosen, and where the window ends up on it.
module WindowPlacement {
  import opened Common

  type I32 = x: int | -0x8000_0000 <= x <= 0x7fff_ffff
  type U32 = x: int | 0 <= x <= 0xffff_ffff witness 0

  const I32_MIN := -0x8000_0000
  const I32_MAX := 0x7fff_ffff
  const MIN_WIDTH: U32 := 800
  const MIN_HEIGHT: U32 := 600

  datatype Box = Box(x: I32, y: I32, width: U32, height: U32)

  datatype WindowState = WindowState(box: Box, maximized: bool)

  function Min(a: int, b: int): int { if a < b then a else b }
  function Max(a: int, b: int): int { if a > b then a else b }

  /** The cast from i64 to i32 keeps the low 32 bits. */
  function ToI32(x: int): (r: I32)
    ensures I32_MIN <= x <= I32_MAX ==> r == x
    ensures r == x || r <= x - 0x1_0000_0000 || r >= x + 0x1_0000_0000
  {
    (x + 0x8000_0000) % 0x1_0000_0000 - 0x8000_0000
  }

  // ---------- overlap ----------

  /** The length that two intervals share. */
  function Shared(a: int, aLength: int, b: int, bLength: int): nat {
    Max(0, Min(a + aLength, b + bLength) - Max(a, b))
  }

  function Overlap(window: Box, area: Box): int {
    Shared(window.x, window.width, area.x, area.width) * Shared(window.y, window.height, area.y, area.height)
  }

  ghost function Grid(left: int, right: int, top: int, bottom: int): set<(int, int)> {
    set x, y | left <= x < right && top <= y < bottom :: (x, y)
  }

  ghost function Cells(b: Box): set<(int, int)> {
    Grid(b.x, b.x + b.width, b.y, b.y + b.height)
  }

  lemma {:induction false} ColumnSize(x: int, top: int, bottom: int)
    requires top <= bottom
    ensures |Grid(x, x + 1, top, bottom)| == bottom - top
    decreases bottom - top
  {
    if top == bottom {
      assert Grid(x, x + 1, top, bottom) == {};
    } else {
      ColumnSize(x, top, bottom - 1);
      assert Grid(x, x + 1, top, bottom) == Grid(x, x + 1, top, bottom - 1) + {(x, bottom - 1)};
    }
  }

  lemma {:induction false} GridSize(left: int, right: int, top: int, bottom: int)
    requires left <= right && top <= bottom
    ensures |Grid(left, right, top, bottom)| == (right - left) * (bottom - top)
    decreases right - left
  {
    if left == right {
      assert Grid(left, right, top, bottom) == {};
    } else {
      GridSize(left, right - 1, top, bottom);
      ColumnSize(right - 1, top, bottom);
      assert Grid(left, right, top, bottom) == Grid(left, right - 1, top, bottom) + Grid(right - 1, right, top, bottom);
      assert Grid(left, right - 1, top, bottom) !! Grid(right - 1, right, top, bottom);
      assert (right - 1 - left) * (bottom - top) + (bottom - top) == (right - left) * (bottom - top);
    }
  }

  lemma GridsMeet(a: Box, b: Box)
    ensures Cells(a) * Cells(b) == Grid(Max(a.x, b.x), Min(a.x + a.width, b.x + b.width),
                                        Max(a.y, b.y), Min(a.y + a.height, b.y + b.height))
  {
  }

  lemma EmptyGrid(left: int, right: int, top: int, bottom: int)
    requires left >= right || top >= bottom
    ensures Grid(left, right, top, bottom) == {}
  {
  }

  // The overlap is the number of pixels that the window and the area share.
  lemma OverlapCountsCells(window: Box, area: Box)
    ensures Overlap(window, area) == |Cells(window) * Cells(area)|
  {
    var left, right := Max(window.x, area.x), Min(window.x + window.width, area.x + area.width);
    var top, bottom := Max(window.y, area.y), Min(window.y + window.height, area.y + area.height);
    GridsMeet(window, area);
    hide Cells, Grid;
    var w := Shared(window.x, window.width, area.x, area.width);
    var h := Shared(window.y, window.height, area.y, area.height);
    if left < right && top < bottom {
      GridSize(left, right, top, bottom);
      assert w == right - left && h == bottom - top;
    } else {
      EmptyGrid(left, right, top, bottom);
      assert w == 0 || h == 0;
    }
  }

  lemma SharedBound(window: Box, area: Box)
    ensures Shared(window.x, window.width, area.x, area.width) <= area.width
    ensures Shared(window.y, window.height, area.y, area.height) <= area.height
  {
  }

  lemma ProductBound(a: nat, b: nat, bound: nat)
    requires a <= bound && b <= bound
    ensures 0 <= a * b <= bound * bound
  {
    assert (bound - a) * b >= 0;
    assert bound * (bound - b) >= 0;
  }

  // The product of the two lengths never exceeds a u64.
  lemma OverlapFits(window: Box, area: Box)
    ensures 0 <= Overlap(window, area) < 0x1_0000_0000_0000_0000
  {
    var w := Shared(window.x, window.width, area.x, area.width);
    var h := Shared(window.y, window.height, area.y, area.height);
    hide Shared;
    assert w <= 0xffff_ffff && h <= 0xffff_ffff by { SharedBound(window, area); }
    ProductBound(w, h, 0xffff_ffff);
  }

  lemma OverlapPositive(window: Box, area: Box)
    ensures Overlap(window, area) > 0 <==>
              Shared(window.x, window.width, area.x, area.width) > 0 &&
              Shared(window.y, window.height, area.y, area.height) > 0
  {
  }

  // ---------- fitting ----------

  predicate NonEmpty(area: Box) { area.width > 0 && area.height > 0 }

  function FitLength(length: U32, minimum: U32, available: U32): U32 {
    Min(Max(length, minimum), Max(available, 1))
  }

  function Clamp(v: int, low: int, high: int): int
    requires low <= high
  {
    if v < low then low else if v > high then high else v
  }

  /** The upper clamp bound of one coordinate. */
  function HighBound(start: I32, available: U32, length: U32): int { start + available - length }

  /** The centred coordinate before it is cast; the subtraction saturates at zero. */
  function Centre(start: I32, available: U32, length: U32): int { start + Max(available - length, 0) / 2 }

  function FitSize(s: WindowState, area: Box): (U32, U32) {
    (FitLength(s.box.width, MIN_WIDTH, area.width), FitLength(s.box.height, MIN_HEIGHT, area.height))
  }

  /** The clamp panics on crossed bounds, so keeping the position needs a non-empty area. */
  function Fit(s: WindowState, area: Box, preserve: bool): WindowState
    requires preserve ==> NonEmpty(area)
  {
    var (w, h) := FitSize(s, area);
    if preserve then
      WindowState(Box(ToI32(Clamp(s.box.x, area.x, HighBound(area.x, area.width, w))),
                      ToI32(Clamp(s.box.y, area.y, HighBound(area.y, area.height, h))), w, h), s.maximized)
    else
      WindowState(Box(ToI32(Centre(area.x, area.width, w)), ToI32(Centre(area.y, area.height, h)), w, h), s.maximized)
  }

  predicate Allowed(length: int, minimum: int, available: int) {
    Min(minimum, Max(available, 1)) <= length <= Max(available, 1)
  }

  function Distance(a: int, b: int): int { if a < b then b - a else a - b }

  ghost predicate NearestAllowed(saved: int, length: int, minimum: int, available: int) {
    Allowed(length, minimum, available) &&
    forall x :: Allowed(x, minimum, available) ==> Distance(saved, length) <= Distance(saved, x)
  }

  // The fitted size is the allowed one nearest to the saved size, in each direction: at least the
  // minimum where the area has room for it, and never more than the area.
  lemma FittedSize(s: WindowState, area: Box, preserve: bool)
    requires preserve ==> NonEmpty(area)
    ensures var b := Fit(s, area, preserve).box;
            && NearestAllowed(s.box.width, b.width, 800, area.width)
            && NearestAllowed(s.box.height, b.height, 600, area.height)
    ensures Fit(s, area, preserve).maximized == s.maximized
  {
  }

  predicate Inside(b: Box, area: Box) {
    && area.x <= b.x && b.x + b.width <= area.x + area.width
    && area.y <= b.y && b.y + b.height <= area.y + area.height
  }

  // The clamp bounds are in order exactly when the area is not empty; a window that shows on the
  // area at all guarantees it.
  lemma ClampBoundsOrdered(s: WindowState, area: Box)
    ensures var (w, h) := FitSize(s, area);
            (area.x <= HighBound(area.x, area.width, w) && area.y <= HighBound(area.y, area.height, h)) <==>
                NonEmpty(area)
    ensures Overlap(s.box, area) > 0 ==> NonEmpty(area)
  {
    OverlapPositive(s.box, area);
  }

  /** Centring does not leave the i32 range. */
  predicate CentreFits(s: WindowState, area: Box) {
    var (w, h) := FitSize(s, area);
    Centre(area.x, area.width, w) <= I32_MAX && Centre(area.y, area.height, h) <= I32_MAX
  }

  // Keeping the position never loses bits in the cast, and moves each coordinate the least distance
  // that puts the window inside the area.
  lemma PreservedPosition(s: WindowState, area: Box)
    requires NonEmpty(area)
    ensures var (w, h) := FitSize(s, area);
            && Fit(s, area, true).box.x == Clamp(s.box.x, area.x, HighBound(area.x, area.width, w))
            && Fit(s, area, true).box.y == Clamp(s.box.y, area.y, HighBound(area.y, area.height, h))
    ensures Inside(Fit(s, area, true).box, area)
    ensures forall x: int :: area.x <= x && x + Fit(s, area, true).box.width <= area.x + area.width ==>
              Distance(s.box.x, Fit(s, area, true).box.x) <= Distance(s.box.x, x)
    ensures forall y: int :: area.y <= y && y + Fit(s, area, true).box.height <= area.y + area.height ==>
              Distance(s.box.y, Fit(s, area, true).box.y) <= Distance(s.box.y, y)
  {
  }

  lemma CentreWraps(start: I32, available: U32, length: U32)
    requires length <= available
    ensures var c := Centre(start, available, length);
            && (c <= I32_MAX ==> ToI32(c) == c)
            && (c > I32_MAX ==> ToI32(c) == c - 0x1_0000_0000 < start)
  {
    var c := Centre(start, available, length);
    assert start <= c <= I32_MAX + 0x7fff_ffff;
    if c > I32_MAX {
      assert (c + 0x8000_0000) % 0x1_0000_0000 == c + 0x8000_0000 - 0x1_0000_0000;
    }
  }

  // Centring puts the window inside a non-empty area, with margins that differ by at most one
  // pixel, exactly when the centre fits an i32; otherwise the cast wraps to the left or above.
  lemma CentredPosition(s: WindowState, area: Box)
    requires NonEmpty(area)
    ensures CentreFits(s, area) <==> Inside(Fit(s, area, false).box, area)
    ensures var b := Fit(s, area, false).box;
            CentreFits(s, area) ==>
              && 0 <= (area.x + area.width - (b.x + b.width)) - (b.x - area.x) <= 1
              && 0 <= (area.y + area.height - (b.y + b.height)) - (b.y - area.y) <= 1
    ensures !CentreFits(s, area) ==> Fit(s, area, false).box.x < area.x || Fit(s, area, false).box.y < area.y
  {
    var (w, h) := FitSize(s, area);
    CentreWraps(area.x, area.width, w);
    CentreWraps(area.y, area.height, h);
  }

  // A window inside an area shows there with all its pixels.
  lemma InsideOverlap(b: Box, area: Box)
    requires Inside(b, area)
    ensures Overlap(b, area) == b.width * b.height
  {
  }

  lemma FitIsIdempotent(s: WindowState, area: Box, preserve: bool)
    requires NonEmpty(area)
    ensures var once := Fit(s, area, preserve);
            && FitSize(once, area) == FitSize(s, area)
            && Fit(once, area, preserve) == once
            && (Inside(once.box, area) ==> Fit(once, area, true) == once)
            && (!Inside(once.box, area) ==> Fit(once, area, true) != once)
  {
    var once := Fit(s, area, preserve);
    assert FitSize(once, area) == FitSize(s, area);
    PreservedPosition(once, area);
  }

  // ---------- choosing a monitor ----------

  /** The position of the greatest positive number; the last of equals. */
  function Greatest(overlaps: seq<int>): (r: Option<nat>)
    ensures r.Some? ==> r.value < |overlaps| && overlaps[r.value] > 0
    ensures r.Some? ==> forall i :: 0 <= i < |overlaps| ==> overlaps[i] <= overlaps[r.value]
    ensures r.Some? ==> forall i :: r.value < i < |overlaps| ==> overlaps[i] < overlaps[r.value]
    ensures r.None? ==> forall i :: 0 <= i < |overlaps| ==> overlaps[i] <= 0
  {
    if overlaps == [] then None
    else
      var last := |overlaps| - 1;
      var best := Greatest(overlaps[..last]);
      if overlaps[last] > 0 && (best.None? || overlaps[last] >= overlaps[best.value]) then Some(last) else best
  }

  function Overlaps(areas: seq<Box>, b: Box): (r: seq<int>)
    ensures |r| == |areas| && forall i :: 0 <= i < |areas| ==> r[i] == Overlap(b, areas[i])
  {
    seq(|areas|, i requires 0 <= i < |areas| => Overlap(b, areas[i]))
  }

  /** The monitor showing most of the window, among those showing any of it; the last of equals. */
  function Best(areas: seq<Box>, b: Box): (r: Option<nat>)
    ensures r.Some? ==> r.value < |areas| && Overlap(b, areas[r.value]) > 0
    ensures r.Some? ==> forall i :: 0 <= i < |areas| ==> Overlap(b, areas[i]) <= Overlap(b, areas[r.value])
    ensures r.Some? ==> forall i :: r.value < i < |areas| ==> Overlap(b, areas[i]) < Overlap(b, areas[r.value])
    ensures r.None? ==> forall i :: 0 <= i < |areas| ==> Overlap(b, areas[i]) <= 0
  {
    Greatest(Overlaps(areas, b))
  }

  /** The restored state; the fallback monitor, if any, is an entry of the list. */
  function Restore(areas: seq<Box>, fallback: Option<nat>, s: WindowState): WindowState
    requires fallback.Some? ==> fallback.value < |areas|
  {
    var best := Best(areas, s.box);
    if best.Some? then
      ClampBoundsOrdered(s, areas[best.value]);
      Fit(s, areas[best.value], true)
    else if fallback.Some? then Fit(s, areas[fallback.value], false)
    else WindowState(s.box.(width := Max(s.box.width, MIN_WIDTH), height := Max(s.box.height, MIN_HEIGHT)), s.maximized)
  }

  function Chosen(areas: seq<Box>, fallback: Option<nat>, s: WindowState): Option<nat> {
    if Best(areas, s.box).Some? then Best(areas, s.box) else fallback
  }

  /** Work areas of a desktop: none empty, no two sharing a pixel. */
  predicate Desktop(areas: seq<Box>) {
    && (forall i :: 0 <= i < |areas| ==> NonEmpty(areas[i]))
    && forall i, j :: 0 <= i < |areas| && 0 <= j < |areas| && i != j ==> Overlap(areas[i], areas[j]) == 0
  }

  lemma ApartFromInside(b: Box, area: Box, other: Box)
    requires Inside(b, area) && Overlap(area, other) == 0
    ensures Overlap(b, other) == 0
  {
    OverlapPositive(area, other);
    OverlapPositive(b, other);
  }

  // A window inside one work area is found there again.
  lemma InsideIsBest(areas: seq<Box>, b: Box, m: nat)
    requires Desktop(areas) && m < |areas| && Inside(b, areas[m]) && b.width > 0 && b.height > 0
    ensures Best(areas, b) == Some(m)
  {
    OverlapPositive(b, areas[m]);
    forall i | 0 <= i < |areas| && i != m ensures Overlap(b, areas[i]) == 0 {
      ApartFromInside(b, areas[m], areas[i]);
    }
  }

  lemma RestoredOnBest(areas: seq<Box>, fallback: Option<nat>, s: WindowState, m: nat)
    requires Desktop(areas) && (fallback.Some? ==> fallback.value < |areas|) && Best(areas, s.box) == Some(m)
    ensures var once := Restore(areas, fallback, s);
            Inside(once.box, areas[m]) && Best(areas, once.box) == Some(m) && Restore(areas, fallback, once) == once
  {
    PreservedPosition(s, areas[m]);
    InsideIsBest(areas, Fit(s, areas[m], true).box, m);
    FitIsIdempotent(s, areas[m], true);
  }

  lemma RestoredOnFallback(areas: seq<Box>, f: nat, s: WindowState)
    requires Desktop(areas) && f < |areas| && Best(areas, s.box).None?
    ensures var once := Restore(areas, Some(f), s);
            (CentreFits(s, areas[f]) ==> Best(areas, once.box) == Some(f) && Restore(areas, Some(f), once) == once)
    ensures var once := Restore(areas, Some(f), s);
            Best(areas, once.box).None? ==> Restore(areas, Some(f), once) == once
    ensures var once := Restore(areas, Some(f), s);
            !CentreFits(s, areas[f]) && Best(areas, once.box) == Some(f) ==> Restore(areas, Some(f), once) != once
  {
    var once := Fit(s, areas[f], false);
    CentredPosition(s, areas[f]);
    FitIsIdempotent(s, areas[f], false);
    if CentreFits(s, areas[f]) {
      InsideIsBest(areas, once.box, f);
    }
  }

  /** What the cast makes of a centre. */
  function Wrap(centre: int): int { if centre <= I32_MAX then centre else centre - 0x1_0000_0000 }

  /** Where the cast puts a window that is centred in the area. */
  function CentredBox(s: WindowState, area: Box): Box
    requires NonEmpty(area)
  {
    var (w, h) := FitSize(s, area);
    Box(Wrap(Centre(area.x, area.width, w)), Wrap(Centre(area.y, area.height, h)), w, h)
  }

  /** The centre of the area does not fit an i32, and the cast puts the window on some monitor. */
  predicate WrapsOntoMonitor(areas: seq<Box>, s: WindowState, area: Box)
    requires NonEmpty(area)
  {
    !CentreFits(s, area) && exists i :: 0 <= i < |areas| && Overlap(CentredBox(s, area), areas[i]) > 0
  }

  lemma CentredBoxIs(s: WindowState, area: Box)
    requires NonEmpty(area)
    ensures Fit(s, area, false).box == CentredBox(s, area)
  {
    var (w, h) := FitSize(s, area);
    CentreWraps(area.x, area.width, w);
    CentreWraps(area.y, area.height, h);
  }

  lemma DesktopArea(areas: seq<Box>, f: nat)
    requires Desktop(areas) && f < |areas|
    ensures NonEmpty(areas[f])
  {
  }

  // Restoring twice is restoring once, on the same monitor, exactly unless the saved window showed
  // on no monitor and centring it on the fallback wraps it onto one.
  lemma RestoreIsFixpoint(areas: seq<Box>, f: nat, s: WindowState)
    requires Desktop(areas) && f < |areas|
    ensures var once := Restore(areas, Some(f), s);
            (Restore(areas, Some(f), once) == once && Chosen(areas, Some(f), once) == Chosen(areas, Some(f), s)) <==>
            (Best(areas, s.box).Some? || !WrapsOntoMonitor(areas, s, areas[f]))
  {
    hide Fit, CentreFits, CentredBox, Overlap, Desktop, Inside;
    if Best(areas, s.box).Some? {
      RestoredOnBest(areas, Some(f), s, Best(areas, s.box).value);
    } else {
      assert NonEmpty(areas[f]) by { DesktopArea(areas, f); }
      RestoredOnFallback(areas, f, s);
      CentredBoxIs(s, areas[f]);
    }
  }

  // So a fallback area that ends within the i32 range makes restoring twice the same as restoring
  // once, for every saved window.
  lemma RestoreTwiceIsOnce(areas: seq<Box>, f: nat, s: WindowState)
    requires Desktop(areas) && f < |areas|
    requires areas[f].x + areas[f].width <= I32_MAX && areas[f].y + areas[f].height <= I32_MAX
    ensures var once := Restore(areas, Some(f), s);
            Restore(areas, Some(f), once) == once && Chosen(areas, Some(f), once) == Chosen(areas, Some(f), s)
  {
    DesktopArea(areas, f);
    assert CentreFits(s, areas[f]);
    hide Desktop, Restore, Chosen;
    RestoreIsFixpoint(areas, f, s);
  }

  /** A desktop whose first area reaches far beyond the i32 range. */
  function WideDesktop(): seq<Box> { [Box(0x7fff_ffff, 0, 0xffff_ffff, 1000), Box(-800, 0, 800, 1000)] }

  const OFF_SCREEN := WindowState(Box(-5000, 0, 800, 600), false)
  const WRAPPED := WindowState(Box(-402, 200, 800, 600), false)

  lemma BestOfTwo(areas: seq<Box>, b: Box)
    requires |areas| == 2 && Overlap(b, areas[0]) == 0
    ensures Best(areas, b) == if Overlap(b, areas[1]) > 0 then Some(1) else None
  {
    hide Overlap;
  }

  lemma DesktopOfTwo(areas: seq<Box>)
    requires |areas| == 2 && NonEmpty(areas[0]) && NonEmpty(areas[1])
    requires Overlap(areas[0], areas[1]) == 0 && Overlap(areas[1], areas[0]) == 0
    ensures Desktop(areas)
  {
    hide Overlap;
  }

  lemma Apart(a: Box, b: Box)
    requires a.x + a.width <= b.x || b.x + b.width <= a.x
    ensures Overlap(a, b) == 0
  {
  }

  lemma WideDesktopShows()
    ensures Desktop(WideDesktop())
    ensures Best(WideDesktop(), OFF_SCREEN.box).None? && Best(WideDesktop(), WRAPPED.box) == Some(1)
  {
    hide Best, Desktop, Overlap;
    var areas := WideDesktop();
    Apart(areas[0], areas[1]);
    Apart(areas[1], areas[0]);
    DesktopOfTwo(areas);
    Apart(OFF_SCREEN.box, areas[0]);
    Apart(OFF_SCREEN.box, areas[1]);
    BestOfTwo(areas, OFF_SCREEN.box);
    Apart(WRAPPED.box, areas[0]);
    OverlapPositive(WRAPPED.box, areas[1]);
    BestOfTwo(areas, WRAPPED.box);
  }

  lemma WideDesktopFits()
    ensures Fit(OFF_SCREEN, WideDesktop()[0], false) == WRAPPED
    ensures Fit(WRAPPED, WideDesktop()[1], true).box.x == -800
  {
    CentreWraps(0x7fff_ffff, 0xffff_ffff, 800);
  }

  // A wrapped centre does break it: the first restore lands on another monitor.
  lemma WrappedRestoreMoves()
    ensures var once := Restore(WideDesktop(), Some(0), OFF_SCREEN);
            && Desktop(WideDesktop())
            && Chosen(WideDesktop(), Some(0), OFF_SCREEN) == Some(0) && Chosen(WideDesktop(), Some(0), once) == Some(1)
            && Restore(WideDesktop(), Some(0), once) != once
  {
    hide Overlap, Fit, Desktop;
    WideDesktopShows();
    WideDesktopFits();
  }

  // ---------- where the window ends up ----------

  /** The window lies inside the area, in the allowed size nearest to the saved one, and each coordinate
      is the nearest to the saved one that puts it inside. */
  ghost predicate NearestInside(saved: Box, b: Box, area: Box) {
    && Inside(b, area)
    && NearestAllowed(saved.width, b.width, 800, area.width)
    && NearestAllowed(saved.height, b.height, 600, area.height)
    && (forall x: int :: area.x <= x && x + b.width <= area.x + area.width ==>
          Distance(saved.x, b.x) <= Distance(saved.x, x))
    && (forall y: int :: area.y <= y && y + b.height <= area.y + area.height ==>
          Distance(saved.y, b.y) <= Distance(saved.y, y))
  }

  // A window of which a monitor shows anything ends up inside the monitor that shows most of it (the last of
  // equals), moved and resized as little as that takes.
  lemma VisibleIsKept(areas: seq<Box>, fallback: Option<nat>, s: WindowState, m: nat)
    requires fallback.Some? ==> fallback.value < |areas|
    requires m < |areas| && Overlap(s.box, areas[m]) > 0
    requires forall i :: 0 <= i < |areas| ==> Overlap(s.box, areas[i]) <= Overlap(s.box, areas[m])
    requires forall i :: m < i < |areas| ==> Overlap(s.box, areas[i]) < Overlap(s.box, areas[m])
    ensures var r := Restore(areas, fallback, s); NearestInside(s.box, r.box, areas[m]) && r.maximized == s.maximized
  {
    hide Overlap, NearestAllowed, Distance;
    assert Best(areas, s.box) == Some(m);
    ClampBoundsOrdered(s, areas[m]);
    PreservedPosition(s, areas[m]);
    FittedSize(s, areas[m], true);
  }

  // So a window of an allowed size inside a work area is restored exactly where it was.
  lemma FittingStays(areas: seq<Box>, fallback: Option<nat>, s: WindowState, m: nat)
    requires Desktop(areas) && m < |areas| && (fallback.Some? ==> fallback.value < |areas|)
    requires Inside(s.box, areas[m]) && s.box.width > 0 && s.box.height > 0
    requires Allowed(s.box.width, 800, areas[m].width) && Allowed(s.box.height, 600, areas[m].height)
    ensures Restore(areas, fallback, s) == s
  {
    InsideIsBest(areas, s.box, m);
    hide Overlap, Desktop;
  }

  // A window of which no monitor shows anything is centred on the fallback monitor, if the centre fits an
  // i32; without one it stays where it is, at least of the minimum size.
  lemma InvisibleIsCentred(areas: seq<Box>, fallback: Option<nat>, s: WindowState)
    requires forall i :: 0 <= i < |areas| ==> Overlap(s.box, areas[i]) == 0
    requires fallback.Some? ==> fallback.value < |areas| && NonEmpty(areas[fallback.value])
    ensures var r := Restore(areas, fallback, s);
            && r.maximized == s.maximized
            && match fallback
               case None =>
                 && r.box.x == s.box.x && r.box.y == s.box.y
                 && r.box.width == (if s.box.width < 800 then 800 else s.box.width)
                 && r.box.height == (if s.box.height < 600 then 600 else s.box.height)
               case Some(f) =>
                 var b, area := r.box, areas[f];
                 && NearestAllowed(s.box.width, b.width, 800, area.width)
                 && NearestAllowed(s.box.height, b.height, 600, area.height)
                 && (CentreFits(s, area) ==>
                       && Inside(b, area)
                       && 0 <= (area.x + area.width - (b.x + b.width)) - (b.x - area.x) <= 1
                       && 0 <= (area.y + area.height - (b.y + b.height)) - (b.y - area.y) <= 1)
  {
    hide Overlap, NearestAllowed, CentreFits;
    assert Best(areas, s.box).None?;
    if fallback.Some? {
      CentredPosition(s, areas[fallback.value]);
      FittedSize(s, areas[fallback.value], false);
    }
  }

  // ---------- the first run ----------

  function RealMin(a: real, b: real): real { if a < b then a else b }
  function RealMax(a: real, b: real): real { if a > b then a else b }

  function InitialLength(preferred: real, smallest: real, available: U32, scale: real): U32
    requires scale > 0.0 && preferred > 0.0 && smallest > 0.0
  {
    RealMax(RealMin(preferred * scale, available as real * 0.9), RealMin(smallest * scale, available as real)).Floor
  }

  /** The first-run size before it is fitted. */
  function Preferred(area: Box, scale: real): WindowState
    requires scale > 0.0
  {
    WindowState(Box(0, 0, InitialLength(1150.0, 960.0, area.width, scale),
                    InitialLength(790.0, 600.0, area.height, scale)), false)
  }

  function Initial(area: Box, scale: real): WindowState
    requires scale > 0.0
  {
    Fit(Preferred(area, scale), area, false)
  }

  // The first-run window is inside the work area, and centred in it, exactly when the centre fits
  // an i32, whatever the scale factor; an area that ends within the i32 range always has one.
  lemma InitialIsInside(area: Box, scale: real)
    requires scale > 0.0 && NonEmpty(area)
    ensures Inside(Initial(area, scale).box, area) <==> CentreFits(Preferred(area, scale), area)
    ensures var b := Initial(area, scale).box;
            Inside(b, area) ==>
              && 0 <= (area.x + area.width - (b.x + b.width)) - (b.x - area.x) <= 1
              && 0 <= (area.y + area.height - (b.y + b.height)) - (b.y - area.y) <= 1
    ensures area.x + area.width <= I32_MAX && area.y + area.height <= I32_MAX ==>
        CentreFits(Preferred(area, scale), area)
  {
    CentredPosition(Preferred(area, scale), area);
  }

  /** The length preferred on the first run: `logical` pixels where they take up nine tenths of the room at
      most, else nine tenths, but not less than `least` logical pixels or all the room there is. */
  predicate FirstLength(length: int, logical: real, least: real, room: int, scale: real) {
    length == (
      if logical * scale <= 0.9 * room as real then (logical * scale).Floor
      else if least * scale <= 0.9 * room as real then (0.9 * room as real).Floor
      else if least * scale <= room as real then (least * scale).Floor
      else room)
  }

  lemma InitialLengthIs(logical: real, least: real, room: U32, scale: real)
    requires scale > 0.0 && logical > least > 0.0
    ensures FirstLength(InitialLength(logical, least, room, scale), logical, least, room, scale)
  {
    assert (room as real).Floor == room;
    assert (logical - least) * scale > 0.0;
    assert least * scale > 0.0;
  }

  // The first-run window has the allowed size nearest to the preferred one: 1150 by 790 logical pixels, or
  // what the work area has room for, and it is not maximized.
  lemma InitialSize(area: Box, scale: real)
    requires scale > 0.0 && NonEmpty(area)
    ensures var first, b := Preferred(area, scale).box, Initial(area, scale).box;
            && FirstLength(first.width, 1150.0, 960.0, area.width, scale)
            && FirstLength(first.height, 790.0, 600.0, area.height, scale)
            && NearestAllowed(first.width, b.width, 800, area.width)
            && NearestAllowed(first.height, b.height, 600, area.height)
            && !Initial(area, scale).maximized
  {
    hide NearestAllowed;
    InitialLengthIs(1150.0, 960.0, area.width, scale);
    InitialLengthIs(790.0, 600.0, area.height, scale);
    FittedSize(Preferred(area, scale), area, false);
  }
}
