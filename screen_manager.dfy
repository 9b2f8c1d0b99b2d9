/** The screen registry (`ScreenManager`): the insertion-ordered screens, the
    selected one and the drag offset, with creation, selection at a point,
    dragging, wheel scaling and rotation.

    The selection is an index into `screens` rather than a pointer to an
    element. The sine and cosine of the hit test come from the maths library;
    they are the parameter `trig`, which gives the cosine and sine of an angle
    in degrees. */
module ScreenRegistry {
  import opened Config
  import opened Screens

  datatype Option<T> = None | Some(value: T)

  /** `SDL_FPoint`. */
  datatype Point = Point(x: real, y: real)

  /** Cosine and sine of one angle. */
  datatype Trig = Trig(cos: real, sin: real)

  // ---------------------------------------------------------------------
  // Geometry
  // ---------------------------------------------------------------------

  /** `pointInRotatedRect`: p, rotated by -angle about the centre into the
      rectangle's own frame, lies within half the width and half the height
      of the centre, bounds included. */
  predicate PointInRotatedRect(p: Point, center: Point, width: real, height: real, angle: real, trig: real -> Trig): (b: bool)
    ensures width < 0.0 || height < 0.0 ==> !b
    ensures p == center ==> (b <==> width >= 0.0 && height >= 0.0)
  {
    var t := trig(-angle);
    var dx := p.x - center.x;
    var dy := p.y - center.y;
    var localX := dx * t.cos - dy * t.sin;
    var localY := dx * t.sin + dy * t.cos;
    // At the centre both offsets are zero, and so are both local coordinates.
    assert p == center ==> localX == 0.0 && localY == 0.0 by {
      if p == center {
        assert dx == 0.0 && dy == 0.0;
      }
    }
    -width / 2.0 <= localX <= width / 2.0 && -height / 2.0 <= localY <= height / 2.0
  }

  /** Whether the screen's rectangle contains p. */
  predicate Hits(s: ScreenData, p: Point, trig: real -> Trig)
  {
    PointInRotatedRect(p, Point(s.x, s.y), s.width as real, s.height as real, s.rotation, trig)
  }

  /** Whatever the angle, a screen of non-negative size contains its own
      centre: its local coordinates there are (0, 0). */
  lemma CentreHits(s: ScreenData, trig: real -> Trig)
    requires s.width >= 0 && s.height >= 0
    ensures Hits(s, Point(s.x, s.y), trig)
  {
  }

  /** With no rotation (and the exact cosine and sine of 0) the hit test is the
      inclusive axis-aligned bounds check around the centre. */
  lemma UnrotatedHitIsBoundsCheck(s: ScreenData, p: Point, trig: real -> Trig)
    requires s.rotation == 0.0 && trig(0.0) == Trig(1.0, 0.0)
    ensures Hits(s, p, trig) <==>
      s.x - s.width as real / 2.0 <= p.x <= s.x + s.width as real / 2.0 &&
      s.y - s.height as real / 2.0 <= p.y <= s.y + s.height as real / 2.0
  {
    assert -s.rotation == 0.0;
  }

  /** `isLeft`: the cross product of p1 - p0 and point - p0. Its sign tells
      on which side of the directed line from p0 to p1 the point lies
      (positive on the side a counter-clockwise quarter turn of p1 - p0 points
      to); it is zero at both ends of the line. */
  function IsLeft(p0: Point, p1: Point, point: Point): (d: real)
    ensures point == p0 || point == p1 ==> d == 0.0
  {
    (p1.x - p0.x) * (point.y - p0.y) - (point.x - p0.x) * (p1.y - p0.y)
  }

  /** Reversing the line changes the side. */
  lemma IsLeftAntisymmetric(p0: Point, p1: Point, point: Point)
    ensures IsLeft(p1, p0, point) == -IsLeft(p0, p1, point)
  {
    var ax, ay := p1.x - p0.x, p1.y - p0.y;
    var bx, bY := point.x - p0.x, point.y - p0.y;
    assert point.y - p1.y == bY - ay && point.x - p1.x == bx - ax;
    assert (-ax) * (bY - ay) - (bx - ax) * (-ay) == -(ax * bY - bx * ay);
  }

  /** For the unit line along the x axis the result is the point's height
      above that line, so its sign is the side the point lies on. */
  lemma IsLeftAlongX(p0: Point, point: Point)
    ensures IsLeft(p0, Point(p0.x + 1.0, p0.y), point) == point.y - p0.y
  {
  }

  // ---------------------------------------------------------------------
  // Selection rule
  // ---------------------------------------------------------------------

  predicate AllBelow(vs: seq<ScreenData>, cs: seq<nat>)
  {
    forall i :: 0 <= i < |cs| ==> cs[i] < |vs|
  }

  /** The candidates the backward scan collects from index lo upwards: the
      indices of the screens containing p, newest first. */
  function CandidatesFrom(vs: seq<ScreenData>, p: Point, trig: real -> Trig, lo: nat): (cs: seq<nat>)
    requires lo <= |vs|
    ensures AllBelow(vs, cs)
    ensures forall i :: i in cs <==> lo <= i < |vs| && Hits(vs[i], p, trig)
    decreases |vs| - lo
  {
    if lo == |vs| then []
    else CandidatesFrom(vs, p, trig, lo + 1) + (if Hits(vs[lo], p, trig) then [lo] else [])
  }

  /** The comparator handed to `min_element`: smaller area first; on equal
      area, the later (newer) screen first. */
  predicate Before(vs: seq<ScreenData>, a: nat, b: nat): (r: bool)
    requires a < |vs| && b < |vs|
    ensures r ==> a != b && Area(vs[a]) <= Area(vs[b])
    ensures a != b && !r ==> Area(vs[b]) <= Area(vs[a])
  {
    if Area(vs[a]) != Area(vs[b]) then Area(vs[a]) < Area(vs[b]) else b < a
  }

  lemma BeforeTransitive(vs: seq<ScreenData>, a: nat, b: nat, c: nat)
    requires a < |vs| && b < |vs| && c < |vs|
    requires Before(vs, a, b) && Before(vs, b, c)
    ensures Before(vs, a, c)
  {
  }

  /** `min_element`'s scan: keep the current best and replace it by each
      later candidate that the comparator puts before it. The result is one of
      the candidates and comes before every other one. */
  function MinFold(vs: seq<ScreenData>, rest: seq<nat>, best: nat): (m: nat)
    requires best < |vs| && AllBelow(vs, rest)
    ensures m < |vs|
    ensures m == best || m in rest
    ensures m == best || Before(vs, m, best)
    ensures forall c :: c in rest ==> c == m || Before(vs, m, c)
    decreases |rest|
  {
    if rest == [] then best
    else
      var next := if Before(vs, rest[0], best) then rest[0] else best;
      var m := MinFold(vs, rest[1..], next);
      assert m == best || Before(vs, m, best) by {
        if m != next && next != best { BeforeTransitive(vs, m, next, best); }
      }
      assert forall c :: c in rest ==> c == m || Before(vs, m, c) by {
        forall c | c in rest && c != m
          ensures Before(vs, m, c)
        {
          if c == rest[0] {
            if next == c {
              assert Before(vs, m, c);
            } else if m != next {
              // c did not come before best, so best (== next) comes before c.
              assert c != best ==> Before(vs, best, c);
              if c != best { BeforeTransitive(vs, m, next, c); }
            } else {
              assert c != best ==> Before(vs, best, c);
            }
          } else {
            assert c in rest[1..];
          }
        }
      }
      m
  }

  /** `selectSmallestFromCandidates` as a function: none for no candidates,
      otherwise the `min_element` of the candidates. */
  function SmallestOf(vs: seq<ScreenData>, cs: seq<nat>): Option<nat>
    requires AllBelow(vs, cs)
  {
    if cs == [] then None else Some(MinFold(vs, cs[1..], cs[0]))
  }

  /** `findScreenAtPosition` as a function. */
  function BestHit(vs: seq<ScreenData>, p: Point, trig: real -> Trig): (r: Option<nat>)
    ensures r.Some? ==> r.value < |vs|
  {
    SmallestOf(vs, CandidatesFrom(vs, p, trig, 0))
  }

  /** The selection rule stated on its own: k contains p, and every other
      screen containing p has a larger area, or the same area and a lower
      (older) index. */
  ghost predicate IsChosen(vs: seq<ScreenData>, p: Point, trig: real -> Trig, k: nat)
  {
    k < |vs| && Hits(vs[k], p, trig) &&
    forall j :: 0 <= j < |vs| && j != k && Hits(vs[j], p, trig) ==>
      Area(vs[k]) < Area(vs[j]) || (Area(vs[k]) == Area(vs[j]) && j < k)
  }

  /** The search finds nothing exactly when no screen contains the point, and
      otherwise finds the screen the selection rule chooses. */
  lemma BestHitIsChosen(vs: seq<ScreenData>, p: Point, trig: real -> Trig)
    ensures BestHit(vs, p, trig).None? <==> forall i :: 0 <= i < |vs| ==> !Hits(vs[i], p, trig)
    ensures BestHit(vs, p, trig).Some? ==> IsChosen(vs, p, trig, BestHit(vs, p, trig).value)
  {
    var cs := CandidatesFrom(vs, p, trig, 0);
    if cs == [] {
      forall i | 0 <= i < |vs| ensures !Hits(vs[i], p, trig) {
        assert i !in cs;
      }
    } else {
      assert cs[0] in cs;
      var k := MinFold(vs, cs[1..], cs[0]);
      forall j | 0 <= j < |vs| && j != k && Hits(vs[j], p, trig)
        ensures Area(vs[k]) < Area(vs[j]) || (Area(vs[k]) == Area(vs[j]) && j < k)
      {
        assert j in cs;
        assert j == cs[0] || j in cs[1..];
      }
    }
  }

  /** At most one screen satisfies the selection rule, so the rule alone
      determines the selection. */
  lemma ChosenIsUnique(vs: seq<ScreenData>, p: Point, trig: real -> Trig, k1: nat, k2: nat)
    requires IsChosen(vs, p, trig, k1) && IsChosen(vs, p, trig, k2)
    ensures k1 == k2
  {
  }

  /** Of two screens with equal area over the same point and nothing smaller
      there, the newer one is selected. */
  lemma EqualAreaPrefersNewest(vs: seq<ScreenData>, p: Point, trig: real -> Trig, older: nat, newer: nat)
    requires older < newer < |vs|
    requires Hits(vs[older], p, trig) && Hits(vs[newer], p, trig)
    requires Area(vs[older]) == Area(vs[newer])
    requires forall j :: 0 <= j < |vs| && Hits(vs[j], p, trig) ==> Area(vs[newer]) <= Area(vs[j])
    ensures BestHit(vs, p, trig) != Some(older)
  {
    BestHitIsChosen(vs, p, trig);
  }

  // ---------------------------------------------------------------------
  // Sizes
  // ---------------------------------------------------------------------

  /** A new screen's side: the canvas side times the size ratio, truncated,
      which is a quarter of it rounded down (1600 gives 400, 950 gives 237). */
  function InitialSize(canvas: nat): (n: int)
    ensures n == canvas / 4
    ensures 0 <= n <= canvas
  {
    Trunc(canvas as real * INITIAL_SCREEN_SIZE_RATIO)
  }

  /** Largest side the canvas allows: its side times the maximum ratio,
      truncated, which is the side itself. */
  function MaxSize(canvas: nat): (n: int)
    ensures n == canvas
  {
    TruncOfWhole(canvas);
    Trunc(canvas as real * MAX_SCREEN_RATIO)
  }

  /** The clamp applied after a wheel step: at least 10 and, when the canvas
      allows 10, at most the canvas side; a value already in that range is
      kept. */
  function ClampScaled(pre: int, canvas: nat): (n: int)
    ensures MIN_SCALED_SIZE <= n
    ensures canvas >= MIN_SCALED_SIZE ==> n <= canvas
    ensures MIN_SCALED_SIZE <= pre <= canvas ==> n == pre
    ensures pre < MIN_SCALED_SIZE ==> n == MIN_SCALED_SIZE
    ensures canvas >= MIN_SCALED_SIZE && pre > canvas ==> n == canvas
  {
    Max(MIN_SCALED_SIZE, Min(pre, MaxSize(canvas)))
  }

  /** One wheel step of one side before the clamp: the side times the growth
      or shrink factor, truncated. Growing never shrinks a side, shrinking
      strictly shrinks any positive side, and neither makes a side negative. */
  function ScaleStep(dim: int, grow: bool): (n: int)
    ensures dim >= 0 ==> n >= 0
    ensures dim >= 0 && grow ==> n >= dim
    ensures dim >= 1 && !grow ==> n < dim
  {
    Trunc(dim as real * (if grow then SCALE_FACTOR_UP else SCALE_FACTOR_DOWN))
  }

  /** One wheel step of one side: scaled, then clamped into [10, canvas]. */
  function ScaledSize(dim: int, grow: bool, canvas: nat): (n: int)
    ensures MIN_SCALED_SIZE <= n
    ensures canvas >= MIN_SCALED_SIZE ==> n <= canvas
  {
    ClampScaled(ScaleStep(dim, grow), canvas)
  }

  /** The position a drag moves a screen's centre to. */
  function DraggedTo(s: ScreenData, mouse: Point, offset: Point): ScreenData
  {
    s.(x := mouse.x - offset.x, y := mouse.y - offset.y)
  }

  /** Dragging with the pointer where it grabbed the screen leaves the screen
      where it was. */
  lemma DragAtGrabPoint(s: ScreenData, mouse: Point)
    ensures DraggedTo(s, mouse, Point(mouse.x - s.x, mouse.y - s.y)) == s
  {
  }

  // ---------------------------------------------------------------------
  // The registry's state as a value
  // ---------------------------------------------------------------------

  /** The registry's state: the screens' values in insertion order, the
      selection and the drag offset. */
  datatype Scene = Scene(screens: seq<ScreenData>, selected: Option<nat>, dragOffset: Point)

  /** A selection names one of the screens. */
  predicate Wellformed(sc: Scene)
  {
    sc.selected.Some? ==> sc.selected.value < |sc.screens|
  }

  /** `handleSelection`: the selection becomes the best hit at p, or
      nothing; on a hit the drag offset becomes p minus that screen's centre.
      The screens do not change. */
  function SelectAt(sc: Scene, p: Point, trig: real -> Trig): (r: Scene)
    ensures Wellformed(r) && r.screens == sc.screens
  {
    SelectHit(sc, BestHit(sc.screens, p, trig), p)
  }

  /** Records a found screen (or none) as the selection, and on a hit the
      offset of p from its centre. */
  function SelectHit(sc: Scene, hit: Option<nat>, p: Point): Scene
    requires hit.Some? ==> hit.value < |sc.screens|
  {
    if hit.Some? then
      var s := sc.screens[hit.value];
      Scene(sc.screens, hit, Point(p.x - s.x, p.y - s.y))
    else
      Scene(sc.screens, None, sc.dragOffset)
  }

  /** What a selection at p means: nothing is selected exactly when no screen
      contains p; otherwise the selected screen is the one the selection rule
      chooses, and the drag offset is such that dragging with the pointer at
      p leaves that screen where it is. A miss keeps the old offset. */
  lemma SelectAtFollowsRule(sc: Scene, p: Point, trig: real -> Trig)
    ensures var r := SelectAt(sc, p, trig);
      (r.selected.None? <==> forall i :: 0 <= i < |sc.screens| ==> !Hits(sc.screens[i], p, trig)) &&
      (r.selected.Some? ==> IsChosen(sc.screens, p, trig, r.selected.value)) &&
      (r.selected.Some? ==>
        DraggedTo(sc.screens[r.selected.value], p, r.dragOffset) == sc.screens[r.selected.value]) &&
      (r.selected.None? ==> r.dragOffset == sc.dragOffset)
  {
    BestHitIsChosen(sc.screens, p, trig);
  }

  /** The value `createScreen` appends: centred at pos, a quarter of the
      canvas in each direction, unrotated, in the default colour. */
  function NewScreen(pos: Point, canvasWidth: nat, canvasHeight: nat): ScreenData
  {
    ScreenData(pos.x, pos.y, InitialSize(canvasWidth), InitialSize(canvasHeight), 0.0, DEFAULT_SCREEN_COLOR)
  }

  /** `createScreen`: one new screen after the existing ones. */
  function CreateAt(sc: Scene, pos: Point, canvasWidth: nat, canvasHeight: nat): Scene
  {
    sc.(screens := sc.screens + [NewScreen(pos, canvasWidth, canvasHeight)])
  }

  /** `handleDragging`: with a selection and the left button held, the
      selected screen's centre goes to the mouse minus the drag offset. */
  function DragSelected(sc: Scene, mouse: Point, leftButtonHeld: bool): (r: Scene)
    ensures !leftButtonHeld || sc.selected.None? ==> r == sc
    ensures r.selected == sc.selected && r.dragOffset == sc.dragOffset && |r.screens| == |sc.screens|
  {
    if leftButtonHeld && sc.selected.Some? && sc.selected.value < |sc.screens| then
      var k := sc.selected.value;
      sc.(screens := sc.screens[k := DraggedTo(sc.screens[k], mouse, sc.dragOffset)])
    else sc
  }

  /** `handleScaling`: with a selection and a non-zero wheel step, both sides
      of the selected screen take one scaling step. */
  function ScaleSelected(sc: Scene, scrollY: int, canvasWidth: nat, canvasHeight: nat): (r: Scene)
    ensures scrollY == 0 || sc.selected.None? ==> r == sc
    ensures r.selected == sc.selected && r.dragOffset == sc.dragOffset && |r.screens| == |sc.screens|
  {
    if scrollY != 0 && sc.selected.Some? && sc.selected.value < |sc.screens| then
      var k := sc.selected.value;
      var s := sc.screens[k];
      sc.(screens := sc.screens[k := s.(width := ScaledSize(s.width, scrollY > 0, canvasWidth),
                                        height := ScaledSize(s.height, scrollY > 0, canvasHeight))])
    else sc
  }

  /** A wheel step on a selection replaces the selected screen's sides by
      their scaled sizes and changes nothing else. */
  lemma ScaleSelectedIs(sc: Scene, scrollY: int, canvasWidth: nat, canvasHeight: nat, newWidth: int, newHeight: int)
    requires scrollY != 0 && sc.selected.Some? && sc.selected.value < |sc.screens|
    requires newWidth == ScaledSize(sc.screens[sc.selected.value].width, scrollY > 0, canvasWidth)
    requires newHeight == ScaledSize(sc.screens[sc.selected.value].height, scrollY > 0, canvasHeight)
    ensures var k := sc.selected.value;
      ScaleSelected(sc, scrollY, canvasWidth, canvasHeight) ==
        sc.(screens := sc.screens[k := sc.screens[k].(width := newWidth, height := newHeight)])
  {
  }

  /** `handleRotation`: with a selection, the selected screen is rotated. */
  function RotateSelected(sc: Scene, degrees: real): (r: Scene)
    ensures sc.selected.None? ==> r == sc
    ensures r.selected == sc.selected && r.dragOffset == sc.dragOffset && |r.screens| == |sc.screens|
  {
    if sc.selected.Some? && sc.selected.value < |sc.screens| then
      var k := sc.selected.value;
      sc.(screens := sc.screens[k := sc.screens[k].(rotation := Rotated(sc.screens[k].rotation, degrees))])
    else sc
  }

  /** Creating, dragging, scaling and rotating keep a selection pointing at a
      screen. */
  lemma OperationsKeepWellformed(sc: Scene, p: Point, held: bool, scrollY: int, degrees: real, w: nat, h: nat)
    requires Wellformed(sc)
    ensures Wellformed(CreateAt(sc, p, w, h))
    ensures Wellformed(DragSelected(sc, p, held))
    ensures Wellformed(ScaleSelected(sc, scrollY, w, h))
    ensures Wellformed(RotateSelected(sc, degrees))
  {
  }

  /** A drag moves only the selected screen and only its centre, and leaves
      the selection and the offset alone. */
  lemma DragMovesOnlyTheSelected(sc: Scene, mouse: Point, held: bool)
    requires Wellformed(sc) && sc.selected.Some? && held
    ensures var r := DragSelected(sc, mouse, held); var k := sc.selected.value;
      |r.screens| == |sc.screens| && r.selected == sc.selected && r.dragOffset == sc.dragOffset &&
      r.screens[k].x == mouse.x - sc.dragOffset.x && r.screens[k].y == mouse.y - sc.dragOffset.y &&
      r.screens[k] == sc.screens[k].(x := r.screens[k].x, y := r.screens[k].y) &&
      forall i :: 0 <= i < |sc.screens| && i != k ==> r.screens[i] == sc.screens[i]
  {
  }

  /** After a wheel step the selected screen's sides lie between 10 and the
      canvas sides (when the canvas is at least 10 across); no other screen
      changes. */
  lemma ScaleKeepsSidesInRange(sc: Scene, scrollY: int, w: nat, h: nat)
    requires Wellformed(sc) && sc.selected.Some? && scrollY != 0
    requires w >= MIN_SCALED_SIZE && h >= MIN_SCALED_SIZE
    ensures var r := ScaleSelected(sc, scrollY, w, h); var k := sc.selected.value;
      |r.screens| == |sc.screens| &&
      MIN_SCALED_SIZE <= r.screens[k].width <= w && MIN_SCALED_SIZE <= r.screens[k].height <= h &&
      forall i :: 0 <= i < |sc.screens| && i != k ==> r.screens[i] == sc.screens[i]
  {
  }

  /** A rotated screen's rotation is strictly within one turn either way. */
  lemma RotateKeepsRotationInRange(sc: Scene, degrees: real)
    requires Wellformed(sc) && sc.selected.Some?
    ensures var r := RotateSelected(sc, degrees); var k := sc.selected.value;
      -FULL_TURN < r.screens[k].rotation < FULL_TURN &&
      forall i :: 0 <= i < |sc.screens| && i != k ==> r.screens[i] == sc.screens[i]
  {
  }

  // ---------------------------------------------------------------------
  // The registry
  // ---------------------------------------------------------------------

  class ScreenManager {
    var screens: seq<Screen>
    var selected: Option<nat>
    var dragOffset: Point
    const width: nat
    const height: nat

    /** The screens are distinct objects and a selection names one of them. */
    ghost predicate Valid()
      reads this
    {
      (forall i, j :: 0 <= i < j < |screens| ==> screens[i] != screens[j]) &&
      (selected.Some? ==> selected.value < |screens|)
    }

    /** The registry's state as a value. */
    ghost function Current(): Scene
      reads this, screens
    {
      Scene(Snapshot(screens), selected, dragOffset)
    }

    /** No screens, no selection, drag offset (0, 0). */
    constructor (width: nat, height: nat)
      ensures Valid()
      ensures screens == [] && selected == None && dragOffset == Point(0.0, 0.0)
      ensures this.width == width && this.height == height
    {
      screens := [];
      selected := None;
      dragOffset := Point(0.0, 0.0);
      this.width, this.height := width, height;
    }

    /** Appends one screen centred at pos with the initial size, rotation 0
        and the default colour; the earlier screens, the selection and the
        drag offset are unchanged. */
    method CreateScreen(pos: Point) returns (s: Screen)
      requires Valid()
      modifies this
      ensures Valid() && fresh(s)
      ensures screens == old(screens) + [s]
      ensures Current() == CreateAt(old(Current()), pos, width, height)
    {
      var initialWidth := Trunc(width as real * INITIAL_SCREEN_SIZE_RATIO);
      var initialHeight := Trunc(height as real * INITIAL_SCREEN_SIZE_RATIO);
      s := new Screen(pos.x, pos.y, initialWidth, initialHeight, 0.0, DEFAULT_SCREEN_COLOR);
      screens := screens + [s];
      assert Snapshot(screens) == old(Snapshot(screens)) + [s.Data()];
    }

    /** Selects the screen at the mouse by the selection rule (or nothing)
        and, on a hit, records the mouse's offset from that screen's centre. */
    method HandleSelection(mousePos: Point, trig: real -> Trig) returns (r: Option<nat>)
      requires Valid()
      modifies this`selected, this`dragOffset
      ensures Valid() && r == selected
      ensures Current() == SelectAt(old(Current()), mousePos, trig)
    {
      r := FindScreenAtPosition(mousePos.x, mousePos.y, trig);
      RecordSelection(r, mousePos);
    }

    /** The second half of `handleSelection`: stores the screen found (or
        none) and, on a hit, the mouse's offset from its centre. */
    method RecordSelection(r: Option<nat>, mousePos: Point)
      requires Valid() && (r.Some? ==> r.value < |screens|)
      modifies this`selected, this`dragOffset
      ensures Valid() && r == selected
      ensures Current() == SelectHit(old(Current()), r, mousePos)
    {
      selected := r;
      if r.Some? {
        var s := screens[r.value];
        dragOffset := Point(mousePos.x - s.GetX(), mousePos.y - s.GetY());
      }
      SnapshotUnchanged(screens);
    }

    /** Scans the screens from newest to oldest, collects those containing
        (x, y), and picks the smallest of them. */
    method FindScreenAtPosition(x: real, y: real, trig: real -> Trig) returns (r: Option<nat>)
      requires Valid()
      ensures r == BestHit(Snapshot(screens), Point(x, y), trig)
    {
      ghost var vs := Snapshot(screens);
      var candidates: seq<nat> := [];
      var i := |screens|;
      while i > 0
        invariant 0 <= i <= |screens|
        invariant candidates == CandidatesFrom(vs, Point(x, y), trig, i)
      {
        i := i - 1;
        var s := screens[i];
        if PointInRotatedRect(Point(x, y), Point(s.GetX(), s.GetY()),
                              s.GetWidth() as real, s.GetHeight() as real, s.GetRotation(), trig) {
          candidates := candidates + [i];
        }
      }
      r := SelectSmallestFromCandidates(candidates);
    }

    /** `min_element` over the candidates with the selection comparator. */
    method SelectSmallestFromCandidates(candidates: seq<nat>) returns (r: Option<nat>)
      requires Valid() && AllBelow(Snapshot(screens), candidates)
      ensures r == SmallestOf(Snapshot(screens), candidates)
    {
      if |candidates| == 0 {
        return None;
      }
      ghost var vs := Snapshot(screens);
      var best: nat := candidates[0];
      var k := 1;
      while k < |candidates|
        invariant 1 <= k <= |candidates| && best < |vs|
        invariant MinFold(vs, candidates[k..], best) == MinFold(vs, candidates[1..], candidates[0])
      {
        var a, b := screens[candidates[k]], screens[best];
        var areaA := a.GetWidth() * a.GetHeight();
        var areaB := b.GetWidth() * b.GetHeight();
        var comesFirst := if areaA != areaB then areaA < areaB else best < candidates[k];
        assert comesFirst == Before(vs, candidates[k], best);
        if comesFirst {
          best := candidates[k];
        }
        assert candidates[k..][1..] == candidates[k + 1..];
        k := k + 1;
      }
      r := Some(best);
    }

    /** With a selection and the left button held, moves the selected
        screen's centre to the mouse minus the drag offset; otherwise changes
        nothing. */
    method HandleDragging(mousePos: Point, leftButtonHeld: bool)
      requires Valid()
      modifies screens
      ensures Valid()
      ensures Current() == DragSelected(old(Current()), mousePos, leftButtonHeld)
    {
      if selected.Some? && leftButtonHeld {
        var s := screens[selected.value];
        var newX := mousePos.x - dragOffset.x;
        var newY := mousePos.y - dragOffset.y;
        s.SetX(newX);
        s.SetY(newY);
        SnapshotUpdated(screens);
      } else {
        SnapshotUnchanged(screens);
      }
    }

    /** The method form of `ScaledSize`, in the statements `handleScaling`
        runs for one side: scale by the factor for the wheel's direction,
        truncate, and clamp to [10, canvas]. */
    static method ScaleSide(dim: int, grow: bool, canvas: nat) returns (n: int)
      ensures n == ScaledSize(dim, grow, canvas)
    {
      var scaleFactor := if grow then SCALE_FACTOR_UP else SCALE_FACTOR_DOWN;
      n := Trunc(dim as real * scaleFactor);
      n := Max(MIN_SCALED_SIZE, Min(n, Trunc(canvas as real * MAX_SCREEN_RATIO)));
    }

    /** Gives the selected screen the new sides; nothing else changes. */
    method ResizeSelected(newWidth: int, newHeight: int)
      requires Valid() && selected.Some?
      modifies screens
      ensures Valid()
      ensures var k := selected.value; var before := old(Current());
        Current() == before.(screens := before.screens[k := before.screens[k].(width := newWidth, height := newHeight)])
    {
      var s := screens[selected.value];
      s.SetWidth(newWidth);
      s.SetHeight(newHeight);
      SnapshotUpdated(screens);
    }

    /** With a selection and a non-zero wheel step, scales the selected
        screen's width and height by one step and clamps them; otherwise
        changes nothing. */
    method HandleScaling(scrollY: int)
      requires Valid()
      modifies screens
      ensures Valid()
      ensures Current() == ScaleSelected(old(Current()), scrollY, width, height)
    {
      if selected.Some? && scrollY != 0 {
        var s := screens[selected.value];
        var newWidth := ScaleSide(s.GetWidth(), scrollY > 0, width);
        var newHeight := ScaleSide(s.GetHeight(), scrollY > 0, height);
        ScaleSelectedIs(Current(), scrollY, width, height, newWidth, newHeight);
        ResizeSelected(newWidth, newHeight);
      } else {
        SnapshotUnchanged(screens);
      }
    }

    /** With a selection, rotates the selected screen by `direction` degrees;
        otherwise changes nothing. */
    method HandleRotation(direction: real)
      requires Valid()
      modifies screens
      ensures Valid()
      ensures Current() == RotateSelected(old(Current()), direction)
    {
      if selected.Some? {
        screens[selected.value].Rotate(direction);
        SnapshotUpdated(screens);
      } else {
        SnapshotUnchanged(screens);
      }
    }
  }
}
