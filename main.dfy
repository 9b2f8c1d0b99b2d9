/** The visualizer's input handling (`FractalVisualizer`): the SDL event
    switch with its live-resize mode, the mouse-button actions, the held-key
    dispatch with the opacity and colour rules, the per-frame update that
    drags and composites, and the frame loop.

    SDL's queue, keyboard and mouse state are inputs: each frame's events,
    held keys, mouse position and left-button state are parameters, and so
    are the maths library's colour-space conversions (`cs`) and the cosine
    and sine of the hit test (`trig`). */
module Visualizer {
  import opened Config
  import opened Screens
  import opened ScreenRegistry
  import opened Compositor

  // ---------------------------------------------------------------------
  // Inputs
  // ---------------------------------------------------------------------

  /** An integer mouse position, as SDL reports it. */
  datatype Mouse = Mouse(x: int, y: int)

  /** The mouse position as the floating point pair the handlers use. */
  function ToPoint(m: Mouse): Point
  {
    Point(m.x as real, m.y as real)
  }

  datatype Button = LeftButton | MiddleButton | RightButton | OtherButton

  datatype Key = Space | OtherKey

  /** The events the switch in `handleEvents` tells apart. Key-down and
      motion carry the position `SDL_GetMouseState` reports while the event
      is handled. */
  datatype Event =
    | Quit
    | MouseButtonDown(button: Button, at: Mouse)
    | MouseWheel(scrollY: int)
    | KeyDown(key: Key, mouse: Mouse)
    | KeyUp(key: Key)
    | MouseMotion(mouse: Mouse)
    | OtherEvent

  /** The keys the keyboard state reports as held after the queue is empty. */
  datatype HeldKeys = HeldKeys(escape: bool, d: bool, a: bool, w: bool, s: bool, up: bool, down: bool)

  /** The actions `handleKeyPress` tells apart. */
  datatype KeyAction = TurnRight | TurnLeft | Strengthen | Weaken | CycleHue | CycleSaturation

  /** Whether the key of an action is held; Up and Down count only with the
      developer tools on. */
  predicate Triggers(keys: HeldKeys, act: KeyAction)
  {
    match act
    case TurnRight => keys.d
    case TurnLeft => keys.a
    case Strengthen => keys.w
    case Weaken => keys.s
    case CycleHue => DEV_TOOLS && keys.up
    case CycleSaturation => DEV_TOOLS && keys.down
  }

  /** Priority of an action: D, A, W, S, Up, Down. */
  function Rank(act: KeyAction): nat
  {
    match act
    case TurnRight => 0
    case TurnLeft => 1
    case Strengthen => 2
    case Weaken => 3
    case CycleHue => 4
    case CycleSaturation => 5
  }

  /** The single action a tick fires: none exactly when no action's key is
      held, otherwise a held one that no other held key outranks. */
  function HeldAction(keys: HeldKeys): (r: Option<KeyAction>)
    ensures r.None? <==> forall act :: !Triggers(keys, act)
    ensures r.Some? ==> Triggers(keys, r.value)
    ensures r.Some? ==> forall act :: Triggers(keys, act) ==> Rank(r.value) <= Rank(act)
  {
    if keys.d then assert Triggers(keys, TurnRight); Some(TurnRight)
    else if keys.a then assert Triggers(keys, TurnLeft); Some(TurnLeft)
    else if keys.w then assert Triggers(keys, Strengthen); Some(Strengthen)
    else if keys.s then assert Triggers(keys, Weaken); Some(Weaken)
    else if DEV_TOOLS then
      (if keys.up then assert Triggers(keys, CycleHue); Some(CycleHue)
       else if keys.down then assert Triggers(keys, CycleSaturation); Some(CycleSaturation)
       else None)
    else None
  }

  // ---------------------------------------------------------------------
  // Opacity
  // ---------------------------------------------------------------------

  /** `handleStrengthen`: alpha plus a tenth of 255, truncated and capped at
      MAX_SCREEN_ALPHA. As 25.5 truncates away with a whole alpha, this is
      min(100, alpha + 25): never above the cap, never lower for an alpha
      within the cap, and the cap is a fixed point. */
  function StrengthenedAlpha(alpha: Channel): (n: Channel)
    ensures n == Min(MAX_SCREEN_ALPHA, alpha + 25)
    ensures n <= MAX_SCREEN_ALPHA
    ensures alpha <= MAX_SCREEN_ALPHA ==> alpha <= n
  {
    assert Trunc(alpha as real + ALPHA_CHANGE_SPEED * 255.0) == alpha + 25;
    Min(MAX_SCREEN_ALPHA, Trunc(alpha as real + ALPHA_CHANGE_SPEED * 255.0))
  }

  /** `handleWeaken`: alpha minus a tenth of 255, truncated toward zero and
      floored at 0. That is alpha - 26 from 26 up and 0 below: never
      negative, never higher, and 0 is a fixed point. */
  function WeakenedAlpha(alpha: Channel): (n: Channel)
    ensures n == if alpha >= 26 then alpha - 26 else 0
    ensures n <= alpha
  {
    var x := alpha as real - ALPHA_CHANGE_SPEED * 255.0;
    assert alpha >= 26 ==> Trunc(x) == alpha - 26;
    assert alpha < 26 ==> Trunc(x) <= 0;
    Max(0, Trunc(x))
  }

  /** The alpha after holding W for k ticks. */
  function StrengthenTimes(alpha: Channel, k: nat): Channel
    decreases k
  {
    if k == 0 then alpha else StrengthenTimes(StrengthenedAlpha(alpha), k - 1)
  }

  /** The alpha after holding S for k ticks. */
  function WeakenTimes(alpha: Channel, k: nat): Channel
    decreases k
  {
    if k == 0 then alpha else WeakenTimes(WeakenedAlpha(alpha), k - 1)
  }

  /** Holding W for k ticks adds 25 per tick up to the cap, so four ticks
      reach it from anywhere within it. */
  lemma {:induction false} HoldingStrengthen(alpha: Channel, k: nat)
    requires alpha <= MAX_SCREEN_ALPHA
    ensures StrengthenTimes(alpha, k) == Min(MAX_SCREEN_ALPHA, alpha + 25 * k)
    ensures k >= 4 ==> StrengthenTimes(alpha, k) == MAX_SCREEN_ALPHA
    decreases k
  {
    if k > 0 {
      HoldingStrengthen(StrengthenedAlpha(alpha), k - 1);
    }
  }

  /** Holding S for k ticks takes 26 per tick down to 0, so ten ticks reach
      0 from any alpha. */
  lemma {:induction false} HoldingWeaken(alpha: Channel, k: nat)
    ensures WeakenTimes(alpha, k) == Max(0, alpha - 26 * k)
    ensures k >= 10 ==> WeakenTimes(alpha, k) == 0
    decreases k
  {
    if k > 0 {
      HoldingWeaken(WeakenedAlpha(alpha), k - 1);
    }
  }

  // ---------------------------------------------------------------------
  // Hue and saturation
  // ---------------------------------------------------------------------

  datatype Rgb = Rgb(r: Channel, g: Channel, b: Channel)

  /** Hue, saturation and value, each nominally in [0, 1]. */
  datatype Hsv = Hsv(h: real, s: real, v: real)

  /** The maths library's `rgbToHsv` and `hsvToRgb`. */
  datatype ColorSpace = ColorSpace(toHsv: Rgb -> Hsv, fromHsv: Hsv -> Rgb)

  /** One hue step: `fmod(h + COLOR_ROTATION_SPEED, 1)`. A hue in [0, 1)
      advances by the step and wraps past 1 back into [0, 1). */
  function HueStep(h: real): (r: real)
    ensures 0.0 <= h < 1.0 ==> 0.0 <= r < 1.0
    ensures 0.0 <= h < 1.0 - COLOR_ROTATION_SPEED ==> r == h + COLOR_ROTATION_SPEED
    ensures 1.0 - COLOR_ROTATION_SPEED <= h < 1.0 ==> r == h + COLOR_ROTATION_SPEED - 1.0
  {
    FModOneBelowTwo(h + COLOR_ROTATION_SPEED);
    FModOne(h + COLOR_ROTATION_SPEED)
  }

  /** One saturation step: `fmod(s - BRIGHTNESS_CYCLE_SPEED + 1, 1)`. A
      saturation in [0, 1] drops by the step, and one below the step wraps
      round to just under 1. */
  function SaturationStep(s: real): (r: real)
    ensures 0.0 <= s <= 1.0 ==> 0.0 <= r < 1.0
    ensures BRIGHTNESS_CYCLE_SPEED <= s <= 1.0 ==> r == s - BRIGHTNESS_CYCLE_SPEED
    ensures 0.0 <= s < BRIGHTNESS_CYCLE_SPEED ==> r == s - BRIGHTNESS_CYCLE_SPEED + 1.0
  {
    FModOneBelowTwo(s - BRIGHTNESS_CYCLE_SPEED + 1.0);
    FModOne(s - BRIGHTNESS_CYCLE_SPEED + 1.0)
  }

  /** `handleColorRotation`'s colour: the hue advanced one step, alpha kept. */
  function HueCycled(c: Color, cs: ColorSpace): (n: Color)
    ensures n.a == c.a
  {
    var hsv := cs.toHsv(Rgb(c.r, c.g, c.b));
    var rgb := cs.fromHsv(hsv.(h := HueStep(hsv.h)));
    Color(rgb.r, rgb.g, rgb.b, c.a)
  }

  /** `handleBrightening`'s colour: the saturation moved one step, alpha
      kept. */
  function SaturationCycled(c: Color, cs: ColorSpace): (n: Color)
    ensures n.a == c.a
  {
    var hsv := cs.toHsv(Rgb(c.r, c.g, c.b));
    var rgb := cs.fromHsv(hsv.(s := SaturationStep(hsv.s)));
    Color(rgb.r, rgb.g, rgb.b, c.a)
  }

  // ---------------------------------------------------------------------
  // Held-key actions on the registry
  // ---------------------------------------------------------------------

  /** The selected screen given a new colour. */
  function Recolored(sc: Scene, col: Color): (r: Scene)
    requires Wellformed(sc) && sc.selected.Some?
  {
    var k := sc.selected.value;
    sc.(screens := sc.screens[k := sc.screens[k].(color := col)])
  }

  /** `handleStrengthen`'s effect: nothing without a selection, otherwise
      the selected screen's alpha raised by the opacity rule. */
  function Strengthened(sc: Scene): (r: Scene)
    ensures !Wellformed(sc) || sc.selected.None? ==> r == sc
  {
    if Wellformed(sc) && sc.selected.Some? then
      var c := sc.screens[sc.selected.value].color;
      Recolored(sc, c.(a := StrengthenedAlpha(c.a)))
    else sc
  }

  /** `handleWeaken`'s effect: nothing without a selection, otherwise the
      selected screen's alpha lowered by the opacity rule. */
  function Weakened(sc: Scene): (r: Scene)
    ensures !Wellformed(sc) || sc.selected.None? ==> r == sc
  {
    if Wellformed(sc) && sc.selected.Some? then
      var c := sc.screens[sc.selected.value].color;
      Recolored(sc, c.(a := WeakenedAlpha(c.a)))
    else sc
  }

  /** `handleColorRotation`'s effect: nothing without a selection, otherwise
      the selected screen's hue one step on. */
  function HueShifted(sc: Scene, cs: ColorSpace): (r: Scene)
    ensures !Wellformed(sc) || sc.selected.None? ==> r == sc
  {
    if Wellformed(sc) && sc.selected.Some? then
      Recolored(sc, HueCycled(sc.screens[sc.selected.value].color, cs))
    else sc
  }

  /** `handleBrightening`'s effect: nothing without a selection, otherwise
      the selected screen's saturation one step round. */
  function SaturationShifted(sc: Scene, cs: ColorSpace): (r: Scene)
    ensures !Wellformed(sc) || sc.selected.None? ==> r == sc
  {
    if Wellformed(sc) && sc.selected.Some? then
      Recolored(sc, SaturationCycled(sc.screens[sc.selected.value].color, cs))
    else sc
  }

  /** `handleKeyPress` and the handlers it calls: nothing without a
      selection; D and A rotate the selected screen by -1 and +1 degree; W
      and S move its alpha; Up and Down cycle its hue and saturation. */
  function KeyPress(sc: Scene, act: KeyAction, cs: ColorSpace): (r: Scene)
    ensures r.selected == sc.selected && r.dragOffset == sc.dragOffset
    ensures |r.screens| == |sc.screens|
    ensures !Wellformed(sc) || sc.selected.None? ==> r == sc
  {
    match act
    case TurnRight => RotateSelected(sc, -ROTATION_SPEED)
    case TurnLeft => RotateSelected(sc, ROTATION_SPEED)
    case Strengthen => Strengthened(sc)
    case Weaken => Weakened(sc)
    case CycleHue => HueShifted(sc, cs)
    case CycleSaturation => SaturationShifted(sc, cs)
  }

  /** A key action changes only the selected screen: turning changes only
      its rotation, by one degree either way modulo whole turns; W and S
      change only its alpha, by the opacity rules; the hue and saturation
      keys change its red, green and blue but keep its alpha. */
  lemma KeyPressChangesOnlySelected(sc: Scene, act: KeyAction, cs: ColorSpace)
    requires Wellformed(sc) && sc.selected.Some?
    ensures var r := KeyPress(sc, act, cs); var k := sc.selected.value; var s := sc.screens[k];
      (forall i :: 0 <= i < |sc.screens| && i != k ==> r.screens[i] == sc.screens[i]) &&
      (act == TurnRight ==> r.screens[k] == s.(rotation := Rotated(s.rotation, -1.0))) &&
      (act == TurnLeft ==> r.screens[k] == s.(rotation := Rotated(s.rotation, 1.0))) &&
      (act == Strengthen ==> r.screens[k] == s.(color := s.color.(a := Min(100, s.color.a + 25)))) &&
      (act == Weaken ==> r.screens[k] == s.(color := s.color.(a := if s.color.a >= 26 then s.color.a - 26 else 0))) &&
      (act == CycleHue || act == CycleSaturation ==>
        r.screens[k] == s.(color := r.screens[k].color) && r.screens[k].color.a == s.color.a)
  {
  }

  // ---------------------------------------------------------------------
  // Mouse buttons
  // ---------------------------------------------------------------------

  /** s without its element k, the others in order. */
  function RemoveAt<T>(s: seq<T>, k: nat): (r: seq<T>)
    requires k < |s|
    ensures |r| == |s| - 1
    ensures forall i :: 0 <= i < k ==> r[i] == s[i]
    ensures forall i :: k <= i < |r| ==> r[i] == s[i + 1]
    ensures forall i :: 0 <= i < |r| ==> r[i] in s
  {
    s[..k] + s[k + 1..]
  }

  /** A removal takes out exactly one occurrence of the removed element. */
  lemma RemoveAtRemovesOne<T>(s: seq<T>, k: nat)
    requires k < |s|
    ensures multiset(RemoveAt(s, k)) + multiset{s[k]} == multiset(s)
  {
    assert s == s[..k] + [s[k]] + s[k + 1..];
  }

  /** Removing an element keeps the others distinct. */
  lemma RemoveAtKeepsDistinct<T>(s: seq<T>, k: nat)
    requires k < |s|
    requires forall i, j :: 0 <= i < j < |s| ==> s[i] != s[j]
    ensures var r := RemoveAt(s, k); forall i, j :: 0 <= i < j < |r| ==> r[i] != r[j]
  {
    var r := RemoveAt(s, k);
    forall i, j | 0 <= i < j < |r|
      ensures r[i] != r[j]
    {
      var i', j' := if i < k then i else i + 1, if j < k then j else j + 1;
      assert r[i] == s[i'] && r[j] == s[j'];
    }
  }

  /** The values of the screens left after a removal are the values left
      after removing the same position. */
  lemma SnapshotRemoveAt(ss: seq<Screen>, k: nat)
    requires k < |ss|
    ensures Snapshot(RemoveAt(ss, k)) == RemoveAt(Snapshot(ss), k)
  {
    var l, r := Snapshot(RemoveAt(ss, k)), RemoveAt(Snapshot(ss), k);
    forall i | 0 <= i < |l|
      ensures l[i] == r[i]
    {
      if i < k {
        assert RemoveAt(ss, k)[i] == ss[i];
      } else {
        assert RemoveAt(ss, k)[i] == ss[i + 1];
      }
    }
  }

  /** The right-click deletion, with the selection cleared: the selected
      screen is gone, the others keep their order, nothing is selected. */
  function EraseSelected(sc: Scene): (r: Scene)
    requires Wellformed(sc) && sc.selected.Some?
    ensures Wellformed(r) && r.selected.None? && r.dragOffset == sc.dragOffset
  {
    Scene(RemoveAt(sc.screens, sc.selected.value), None, sc.dragOffset)
  }

  /** The right-click deletion as written: the element is erased and the
      selection is left as it was. In the program the selection is a pointer
      into the erased vector; the manager copy that follows carries that
      address into a new manager while the old vector is freed, so the
      selection dangles. An index can only record that it survives. */
  function EraseAsWritten(sc: Scene): (r: Scene)
    requires Wellformed(sc) && sc.selected.Some?
    ensures r.screens == RemoveAt(sc.screens, sc.selected.value)
  {
    Scene(RemoveAt(sc.screens, sc.selected.value), sc.selected, sc.dragOffset)
  }

  /** As written, the selection survives the deletion of the screen it
      named: something is still selected although that screen is gone, and
      when it was the last screen the selection names no screen at all. Two
      screens and a right click on the newer one show the second case. */
  lemma EraseAsWrittenLeavesStaleSelection(sc: Scene)
    requires Wellformed(sc) && sc.selected.Some?
    ensures var r := EraseAsWritten(sc); var k := sc.selected.value;
      r.selected == Some(k) && |r.screens| == |sc.screens| - 1 &&
      (k == |sc.screens| - 1 ==> !Wellformed(r))
  {
  }

  /** A concrete instance: two screens, the newer one selected. */
  lemma EraseAsWrittenTwoScreens(a: ScreenData, b: ScreenData, o: Point)
    ensures !Wellformed(EraseAsWritten(Scene([a, b], Some(1), o)))
  {
    EraseAsWrittenLeavesStaleSelection(Scene([a, b], Some(1), o));
  }

  /** `handleMouseClick`: left selects at the pointer; middle creates a
      screen there and then selects there; right selects there and deletes
      whatever got selected; other buttons do nothing. */
  function Click(sc: Scene, button: Button, p: Point, trig: real -> Trig, canvasWidth: nat, canvasHeight: nat): (r: Scene)
    ensures Wellformed(sc) ==> Wellformed(r)
  {
    match button
    case LeftButton => SelectAt(sc, p, trig)
    case MiddleButton => SelectAt(CreateAt(sc, p, canvasWidth, canvasHeight), p, trig)
    case RightButton =>
      var picked := SelectAt(sc, p, trig);
      if picked.selected.Some? then EraseSelected(picked) else picked
    case OtherButton => sc
  }

  /** A middle click always ends with a screen selected, since the new screen
      contains its own centre; the new screen is the one selected exactly
      when no older screen under the pointer is strictly smaller. */
  lemma MiddleClickSelects(sc: Scene, p: Point, trig: real -> Trig, canvasWidth: nat, canvasHeight: nat)
    ensures var r := Click(sc, MiddleButton, p, trig, canvasWidth, canvasHeight);
      var added := NewScreen(p, canvasWidth, canvasHeight);
      r.screens == sc.screens + [added] && r.selected.Some? &&
      (r.selected == Some(|sc.screens|) <==>
        forall i :: 0 <= i < |sc.screens| && Hits(sc.screens[i], p, trig) ==> Area(added) <= Area(sc.screens[i]))
  {
    var created := CreateAt(sc, p, canvasWidth, canvasHeight);
    var added := NewScreen(p, canvasWidth, canvasHeight);
    var n := |sc.screens|;
    assert created.screens[n] == added;
    CentreHits(added, trig);
    SelectAtFollowsRule(created, p, trig);
    var r := SelectAt(created, p, trig);
    if r.selected == Some(n) {
      forall i | 0 <= i < n && Hits(sc.screens[i], p, trig)
        ensures Area(added) <= Area(sc.screens[i])
      {
        assert created.screens[i] == sc.screens[i];
      }
    } else {
      var k := r.selected.value;
      assert created.screens[k] == sc.screens[k];
      assert Area(created.screens[k]) < Area(added);
    }
  }

  /** A right click deletes exactly the screen the selection rule picks at
      the pointer, keeping the others in order, and leaves nothing selected;
      where no screen is under the pointer it changes no screen. */
  lemma RightClickErasesChosen(sc: Scene, p: Point, trig: real -> Trig, canvasWidth: nat, canvasHeight: nat)
    ensures var r := Click(sc, RightButton, p, trig, canvasWidth, canvasHeight);
      r.selected.None? &&
      ((forall i :: 0 <= i < |sc.screens| ==> !Hits(sc.screens[i], p, trig)) ==> r.screens == sc.screens) &&
      (forall k :: IsChosen(sc.screens, p, trig, k) ==> r.screens == RemoveAt(sc.screens, k))
  {
    SelectAtFollowsRule(sc, p, trig);
    forall k: nat | IsChosen(sc.screens, p, trig, k)
      ensures SelectAt(sc, p, trig).selected == Some(k)
    {
      var picked := SelectAt(sc, p, trig);
      assert picked.selected.Some?;
      ChosenIsUnique(sc.screens, p, trig, picked.selected.value, k);
    }
  }

  // ---------------------------------------------------------------------
  // The event switch
  // ---------------------------------------------------------------------

  /** The visualizer's input state: the registry, whether live resizing is
      on, the pointer where it started, the size it started from, and the
      live size. */
  datatype UiState = UiState(scene: Scene, scaling: bool, scaleStart: Point, original: Point,
                             tempWidth: int, tempHeight: int)

  /** Live resizing is only on while a screen is selected. */
  predicate Consistent(st: UiState)
  {
    Wellformed(st.scene) && (st.scaling ==> st.scene.selected.Some?)
  }

  /** One side during live resizing: the side it started from plus the
      pointer's travel, truncated, then clamped into [MIN_SCREEN_SIZE, the
      canvas side]; a truncated value already in that range is kept. */
  function LiveSize(stretched: real, canvas: nat): (n: int)
    ensures MIN_SCREEN_SIZE <= n <= canvas
    ensures MIN_SCREEN_SIZE <= Trunc(stretched) <= canvas ==> n == Trunc(stretched)
    ensures Trunc(stretched) < MIN_SCREEN_SIZE ==> n == MIN_SCREEN_SIZE
    ensures Trunc(stretched) > canvas ==> n == canvas
  {
    Max(MIN_SCREEN_SIZE, Min(Trunc(stretched), MaxSize(canvas)))
  }

  /** Moving the pointer further never makes a live side smaller. */
  lemma {:induction false} LiveSizeMonotone(a: real, b: real, canvas: nat)
    requires a <= b
    ensures LiveSize(a, canvas) <= LiveSize(b, canvas)
  {
    if a >= 0.0 {
      assert Trunc(a) <= Trunc(b);
    } else if b < 0.0 {
      assert -b <= -a;
      assert Trunc(a) <= Trunc(b);
    } else {
      assert Trunc(a) <= 0 <= Trunc(b);
    }
  }

  /** Space pressed with a selection: resizing starts from the pointer and
      the selected screen's size, and the live size starts as that size. */
  function StartScaling(st: UiState, m: Mouse): (r: UiState)
    requires Consistent(st) && st.scene.selected.Some?
    ensures Consistent(r) && r.scene == st.scene && r.scaling
    ensures var s := st.scene.screens[st.scene.selected.value];
      r.tempWidth == s.width && r.tempHeight == s.height
  {
    var s := st.scene.screens[st.scene.selected.value];
    TruncOfWhole(s.width);
    TruncOfWhole(s.height);
    st.(scaling := true, scaleStart := ToPoint(m), original := Point(s.width as real, s.height as real),
        tempWidth := Trunc(s.width as real), tempHeight := Trunc(s.height as real))
  }

  /** Pointer motion while resizing: the width follows the horizontal
      travel, the height the upward travel (see `StretchFollowsPointer`).
      Back at the starting point, the live size is the clamped original. */
  function Stretch(st: UiState, m: Mouse, canvasWidth: nat, canvasHeight: nat): (r: UiState)
    ensures r.scene == st.scene && r.scaling == st.scaling
    ensures r.scaleStart == st.scaleStart && r.original == st.original
    ensures MIN_SCREEN_SIZE <= r.tempWidth <= canvasWidth && MIN_SCREEN_SIZE <= r.tempHeight <= canvasHeight
    ensures var dx, dy := ToPoint(m).x - st.scaleStart.x, ToPoint(m).y - st.scaleStart.y;
      r.tempWidth == LiveSize(st.original.x + dx, canvasWidth) && r.tempHeight == LiveSize(st.original.y - dy, canvasHeight)
    ensures ToPoint(m) == st.scaleStart ==>
      r.tempWidth == LiveSize(st.original.x, canvasWidth) && r.tempHeight == LiveSize(st.original.y, canvasHeight)
  {
    var p := ToPoint(m);
    var dx := p.x - st.scaleStart.x;
    var dy := p.y - st.scaleStart.y;
    st.(tempWidth := LiveSize(st.original.x + dx, canvasWidth),
        tempHeight := LiveSize(st.original.y - dy, canvasHeight))
  }

  /** Space released while resizing: resizing ends and the live size becomes
      the selected screen's size. */
  function CommitScaling(st: UiState): (r: UiState)
    requires Consistent(st) && st.scaling
    ensures Consistent(r) && !r.scaling
    ensures r.scene.selected == st.scene.selected && r.scene.dragOffset == st.scene.dragOffset
    ensures var k := st.scene.selected.value;
      r.scene.screens == st.scene.screens[k := st.scene.screens[k].(width := st.tempWidth, height := st.tempHeight)]
  {
    var k := st.scene.selected.value;
    var s := st.scene.screens[k];
    st.(scaling := false,
        scene := st.scene.(screens := st.scene.screens[k := s.(width := st.tempWidth, height := st.tempHeight)]))
  }

  /** Moving the pointer further right never narrows the live size, and
      moving it further up never makes it shorter: in screen coordinates y
      grows downward, so a smaller y gives a taller screen. */
  lemma {:induction false} StretchFollowsPointer(st: UiState, m1: Mouse, m2: Mouse, canvasWidth: nat, canvasHeight: nat)
    ensures m1.x <= m2.x ==>
      Stretch(st, m1, canvasWidth, canvasHeight).tempWidth <= Stretch(st, m2, canvasWidth, canvasHeight).tempWidth
    ensures m1.y <= m2.y ==>
      Stretch(st, m1, canvasWidth, canvasHeight).tempHeight >= Stretch(st, m2, canvasWidth, canvasHeight).tempHeight
  {
    var p1, p2 := ToPoint(m1), ToPoint(m2);
    if m1.x <= m2.x {
      LiveSizeMonotone(st.original.x + (p1.x - st.scaleStart.x), st.original.x + (p2.x - st.scaleStart.x), canvasWidth);
    }
    if m1.y <= m2.y {
      LiveSizeMonotone(st.original.y - (p2.y - st.scaleStart.y), st.original.y - (p1.y - st.scaleStart.y), canvasHeight);
    }
  }

  /** Starting a resize and releasing Space with the pointer back where it
      started changes no screen, whatever motion came in between, as long as
      the selected screen's sides were already within the canvas. */
  lemma StretchBackToStartKeepsSize(st: UiState, m: Mouse, moves: Mouse, canvasWidth: nat, canvasHeight: nat)
    requires Consistent(st) && st.scene.selected.Some?
    requires var s := st.scene.screens[st.scene.selected.value];
      MIN_SCREEN_SIZE <= s.width <= canvasWidth && MIN_SCREEN_SIZE <= s.height <= canvasHeight
    ensures var started := StartScaling(st, m);
      CommitScaling(Stretch(Stretch(started, moves, canvasWidth, canvasHeight), m, canvasWidth, canvasHeight)).scene == st.scene
  {
    var k := st.scene.selected.value;
    var s := st.scene.screens[k];
    TruncOfWhole(s.width);
    TruncOfWhole(s.height);
    assert s.(width := s.width, height := s.height) == s;
    assert st.scene.screens[k := s] == st.scene.screens;
  }

  /** Pressing and releasing Space with no motion in between changes no
      screen: the live size starts as the selected screen's own size. */
  lemma SpaceTapKeepsSize(st: UiState, m: Mouse)
    requires Consistent(st) && st.scene.selected.Some?
    ensures CommitScaling(StartScaling(st, m)).scene == st.scene
  {
    var k := st.scene.selected.value;
    var s := st.scene.screens[k];
    assert s.(width := s.width, height := s.height) == s;
    assert st.scene.screens[k := s] == st.scene.screens;
  }

  /** Releasing Space after motion gives the selected screen the clamped
      live size, within the canvas, and changes no other screen. */
  lemma CommitAfterMotion(st: UiState, m: Mouse, canvasWidth: nat, canvasHeight: nat)
    requires Consistent(st) && st.scaling
    ensures var r := CommitScaling(Stretch(st, m, canvasWidth, canvasHeight)); var k := st.scene.selected.value;
      MIN_SCREEN_SIZE <= r.scene.screens[k].width <= canvasWidth &&
      MIN_SCREEN_SIZE <= r.scene.screens[k].height <= canvasHeight &&
      forall i :: 0 <= i < |st.scene.screens| && i != k ==> r.scene.screens[i] == st.scene.screens[i]
  {
  }

  /** One event of the switch in `handleEvents` (a quit is handled by the
      caller). While resizing, clicks and the wheel are ignored. */
  function OnEvent(st: UiState, e: Event, trig: real -> Trig, canvasWidth: nat, canvasHeight: nat): (r: UiState)
    requires Consistent(st)
    ensures Consistent(r)
  {
    match e
    case MouseButtonDown(button, at) =>
      if st.scaling then st else st.(scene := Click(st.scene, button, ToPoint(at), trig, canvasWidth, canvasHeight))
    case MouseWheel(scrollY) =>
      OperationsKeepWellformed(st.scene, Point(0.0, 0.0), false, scrollY, 0.0, canvasWidth, canvasHeight);
      if st.scaling then st else st.(scene := ScaleSelected(st.scene, scrollY, canvasWidth, canvasHeight))
    case KeyDown(key, mouse) =>
      if key == Space && st.scene.selected.Some? then StartScaling(st, mouse) else st
    case KeyUp(key) =>
      if key == Space && st.scaling then CommitScaling(st) else st
    case MouseMotion(mouse) =>
      if st.scaling then Stretch(st, mouse, canvasWidth, canvasHeight) else st
    case Quit => st
    case OtherEvent => st
  }

  /** While resizing, no event but the release of Space changes a screen,
      the selection or the drag offset. */
  lemma ResizingFreezesScene(st: UiState, e: Event, trig: real -> Trig, canvasWidth: nat, canvasHeight: nat)
    requires Consistent(st) && st.scaling && e != KeyUp(Space)
    ensures OnEvent(st, e, trig, canvasWidth, canvasHeight).scene == st.scene
  {
  }

  datatype Outcome = Outcome(state: UiState, quit: bool)

  /** The polling loop of `handleEvents`: events in order until the first
      quit, which ends the loop; the events after it are not handled. */
  function OnEvents(st: UiState, events: seq<Event>, trig: real -> Trig, canvasWidth: nat, canvasHeight: nat): (o: Outcome)
    requires Consistent(st)
    ensures Consistent(o.state)
    ensures o.quit <==> Quit in events
    decreases |events|
  {
    if events == [] then Outcome(st, false)
    else if events[0] == Quit then Outcome(st, true)
    else
      var o := OnEvents(OnEvent(st, events[0], trig, canvasWidth, canvasHeight), events[1..], trig, canvasWidth, canvasHeight);
      assert events == [events[0]] + events[1..];
      o
  }

  /** The tick's held-key action, if any. */
  function OnHeld(st: UiState, keys: HeldKeys, cs: ColorSpace): (r: UiState)
    requires Consistent(st)
    ensures Consistent(r) && r.scaling == st.scaling
  {
    match HeldAction(keys)
    case None => st
    case Some(act) => st.(scene := KeyPress(st.scene, act, cs))
  }

  /** `handleEvents`: the queue, then Escape ends the program, otherwise
      the held-key action runs. The result says whether to stop. */
  function Poll(st: UiState, events: seq<Event>, keys: HeldKeys, trig: real -> Trig, cs: ColorSpace,
                canvasWidth: nat, canvasHeight: nat): (o: Outcome)
    requires Consistent(st)
    ensures Consistent(o.state)
    ensures o.quit <==> Quit in events || keys.escape
  {
    var polled := OnEvents(st, events, trig, canvasWidth, canvasHeight);
    if polled.quit || keys.escape then Outcome(polled.state, true)
    else Outcome(OnHeld(polled.state, keys, cs), false)
  }

  /** `update`: outside live resizing, the selected screen follows the
      pointer while the left button is held. */
  function Updated(st: UiState, m: Mouse, leftButtonHeld: bool): (r: UiState)
    requires Consistent(st)
    ensures Consistent(r)
    ensures st.scaling ==> r == st
  {
    OperationsKeepWellformed(st.scene, ToPoint(m), leftButtonHeld, 0, 0.0, 0, 0);
    if st.scaling then st else st.(scene := DragSelected(st.scene, ToPoint(m), leftButtonHeld))
  }

  /** What one iteration of `run` sees of the outside world. */
  datatype FrameInput = FrameInput(events: seq<Event>, keys: HeldKeys, mouse: Mouse, leftButtonHeld: bool)

  /** One iteration of `run`: events and keys, then the update, which runs
      even in the frame that asks to stop. */
  function Frame(st: UiState, input: FrameInput, trig: real -> Trig, cs: ColorSpace,
                 canvasWidth: nat, canvasHeight: nat): (o: Outcome)
    requires Consistent(st)
    ensures Consistent(o.state)
    ensures o.quit <==> Quit in input.events || input.keys.escape
  {
    var polled := Poll(st, input.events, input.keys, trig, cs, canvasWidth, canvasHeight);
    Outcome(Updated(polled.state, input.mouse, input.leftButtonHeld), polled.quit)
  }

  datatype Session = Session(state: UiState, frames: nat)

  /** The frames `run` goes through given these inputs: up to and including
      the first that asks to stop. */
  function Run(st: UiState, inputs: seq<FrameInput>, trig: real -> Trig, cs: ColorSpace,
               canvasWidth: nat, canvasHeight: nat): (r: Session)
    requires Consistent(st)
    ensures Consistent(r.state)
    ensures r.frames <= |inputs|
    ensures |inputs| > 0 ==> r.frames > 0
    decreases |inputs|
  {
    if inputs == [] then Session(st, 0)
    else
      var o := Frame(st, inputs[0], trig, cs, canvasWidth, canvasHeight);
      if o.quit then Session(o.state, 1)
      else
        var rest := Run(o.state, inputs[1..], trig, cs, canvasWidth, canvasHeight);
        Session(rest.state, rest.frames + 1)
  }

  /** The loop runs every frame given when none asks to stop, and otherwise
      stops right after the first that does. */
  lemma {:induction false} RunStopsAtFirstQuit(st: UiState, inputs: seq<FrameInput>, trig: real -> Trig, cs: ColorSpace,
                                              canvasWidth: nat, canvasHeight: nat)
    requires Consistent(st)
    ensures var r := Run(st, inputs, trig, cs, canvasWidth, canvasHeight);
      (forall i :: 0 <= i < r.frames - 1 ==> Quit !in inputs[i].events && !inputs[i].keys.escape) &&
      (r.frames < |inputs| ==> Quit in inputs[r.frames - 1].events || inputs[r.frames - 1].keys.escape)
    decreases |inputs|
  {
    if inputs != [] {
      var o := Frame(st, inputs[0], trig, cs, canvasWidth, canvasHeight);
      if !o.quit {
        RunStopsAtFirstQuit(o.state, inputs[1..], trig, cs, canvasWidth, canvasHeight);
        var r := Run(st, inputs, trig, cs, canvasWidth, canvasHeight);
        forall i | 0 <= i < r.frames - 1
          ensures Quit !in inputs[i].events && !inputs[i].keys.escape
        {
          if i > 0 {
            assert inputs[i] == inputs[1..][i - 1];
          }
        }
      }
    }
  }

  // ---------------------------------------------------------------------
  // The visualizer
  // ---------------------------------------------------------------------

  class FractalVisualizer {
    const width: nat
    const height: nat
    const screenManager: ScreenManager
    const fractalManager: FractalManager
    var scalingMode: bool
    var scaleStartPos: Point
    var originalDimensions: Point
    var tempWidth: int
    var tempHeight: int

    /** Both managers are valid and share the canvas size, and live resizing
        is only on while a screen is selected. */
    ghost predicate Valid()
      reads this, screenManager, fractalManager
    {
      screenManager.Valid() && fractalManager.Valid() &&
      screenManager.width == width && screenManager.height == height &&
      fractalManager.width == width && fractalManager.height == height &&
      (scalingMode ==> screenManager.selected.Some?)
    }

    /** The input state as a value. */
    ghost function State(): UiState
      reads this, screenManager, screenManager.screens
    {
      UiState(screenManager.Current(), scalingMode, scaleStartPos, originalDimensions, tempWidth, tempHeight)
    }

    /** The screens of the registry are the ones it had or new ones. */
    twostate predicate ScreensFromBefore()
      reads this, screenManager
    {
      forall i :: 0 <= i < |screenManager.screens| ==>
        screenManager.screens[i] in old(screenManager.screens) || fresh(screenManager.screens[i])
    }

    /** A compositor with the two given textures, an empty registry, and
        live resizing off. */
    constructor (width: nat, height: nat, current: Handle, previous: Handle)
      requires current != previous
      ensures Valid()
      ensures State() == UiState(Scene([], None, Point(0.0, 0.0)), false, Point(0.0, 0.0), Point(0.0, 0.0), 0, 0)
      ensures fractalManager.currentTexture == current && fractalManager.previousTexture == previous
    {
      this.width, this.height := width, height;
      fractalManager := new FractalManager(width, height, current, previous);
      screenManager := new ScreenManager(width, height);
      scalingMode := false;
      scaleStartPos := Point(0.0, 0.0);
      originalDimensions := Point(0.0, 0.0);
      tempWidth, tempHeight := 0, 0;
    }

    /** One pass of `run`: handle the events and keys, update, draw. */
    method RunFrame(input: FrameInput, trig: real -> Trig, cs: ColorSpace) returns (running: bool)
      requires Valid()
      modifies this, screenManager, screenManager.screens, fractalManager
      ensures Valid() && ScreensFromBefore()
      ensures var o := Frame(old(State()), input, trig, cs, width, height);
        State() == o.state && running == !o.quit
    {
      running := HandleEvents(input.events, input.keys, trig, cs);
      Update(input.mouse, input.leftButtonHeld);
      Draw();
    }

    /** `run`, over a finite supply of frames: runs frames until one asks to
        stop or the inputs run out, and says how many ran. */
    method RunLoop(inputs: seq<FrameInput>, trig: real -> Trig, cs: ColorSpace) returns (frames: nat)
      requires Valid()
      modifies this, screenManager, screenManager.screens, fractalManager
      ensures Valid()
      ensures var r := Run(old(State()), inputs, trig, cs, width, height);
        State() == r.state && frames == r.frames
    {
      ghost var goal := Run(State(), inputs, trig, cs, width, height);
      frames := 0;
      var running := true;
      while running && frames < |inputs|
        invariant Valid() && ScreensFromBefore()
        invariant frames <= |inputs|
        invariant running ==> var rest := Run(State(), inputs[frames..], trig, cs, width, height);
          goal.state == rest.state && goal.frames == frames + rest.frames
        invariant !running ==> goal.state == State() && goal.frames == frames
        decreases |inputs| - frames
      {
        assert inputs[frames..][1..] == inputs[frames + 1..];
        running := RunFrame(inputs[frames], trig, cs);
        frames := frames + 1;
      }
    }

    /** `handleEvents`: the queued events in order until a quit, then Escape
        or the held-key action. Returns whether to go on. */
    method HandleEvents(events: seq<Event>, keys: HeldKeys, trig: real -> Trig, cs: ColorSpace) returns (running: bool)
      requires Valid()
      modifies this, screenManager, screenManager.screens
      ensures Valid() && ScreensFromBefore()
      ensures var o := Poll(old(State()), events, keys, trig, cs, width, height);
        State() == o.state && running == !o.quit
    {
      var quit := DrainEvents(events, trig);
      if quit || keys.escape {
        return false;
      }
      var act := HeldAction(keys);
      if act.Some? {
        HandleKeyPress(act.value, cs);
      }
      return true;
    }

    /** The event loop of `handleEvents`: each queued event in order, stopping
        at the first quit. Returns whether a quit was seen. */
    method DrainEvents(events: seq<Event>, trig: real -> Trig) returns (quit: bool)
      requires Valid()
      modifies this, screenManager, screenManager.screens
      ensures Valid() && ScreensFromBefore()
      ensures var o := OnEvents(old(State()), events, trig, width, height);
        State() == o.state && quit == o.quit
    {
      ghost var polled := OnEvents(State(), events, trig, width, height);
      var i := 0;
      while i < |events|
        invariant 0 <= i <= |events|
        invariant Valid() && ScreensFromBefore()
        invariant OnEvents(State(), events[i..], trig, width, height) == polled
      {
        assert events[i..][1..] == events[i + 1..];
        if events[i] == Quit {
          return true;
        }
        HandleEvent(events[i], trig);
        i := i + 1;
      }
      return false;
    }

    /** One case of the switch in `handleEvents`. */
    method HandleEvent(e: Event, trig: real -> Trig)
      requires Valid()
      modifies this, screenManager, screenManager.screens
      ensures Valid() && ScreensFromBefore()
      ensures State() == OnEvent(old(State()), e, trig, width, height)
    {
      match e {
        case MouseButtonDown(button, at) =>
          if !scalingMode {
            HandleMouseClick(button, at, trig);
          }
        case MouseWheel(scrollY) =>
          if !scalingMode {
            screenManager.HandleScaling(scrollY);
          }
        case KeyDown(key, mouse) =>
          if key == Space && screenManager.selected.Some? {
            EnterScaling(mouse);
          }
        case KeyUp(key) =>
          if key == Space && scalingMode {
            ExitScaling();
          }
        case MouseMotion(mouse) =>
          if scalingMode {
            ScalingMotion(mouse);
          }
        case Quit =>
        case OtherEvent =>
      }
    }

    /** Space pressed with a selection: remembers the pointer and the
        selected screen's size, which the live size starts from. */
    method EnterScaling(mouse: Mouse)
      requires Valid() && screenManager.selected.Some?
      modifies this`scalingMode, this`scaleStartPos, this`originalDimensions, this`tempWidth, this`tempHeight
      ensures Valid()
      ensures State() == StartScaling(old(State()), mouse)
    {
      var s := screenManager.screens[screenManager.selected.value];
      scalingMode := true;
      scaleStartPos := ToPoint(mouse);
      originalDimensions := Point(s.GetWidth() as real, s.GetHeight() as real);
      tempWidth := Trunc(originalDimensions.x);
      tempHeight := Trunc(originalDimensions.y);
    }

    /** Space released while resizing: leaves the mode and gives the
        selected screen the live size. */
    method ExitScaling()
      requires Valid() && scalingMode
      modifies this`scalingMode, screenManager.screens
      ensures Valid()
      ensures State() == CommitScaling(old(State()))
    {
      var k := screenManager.selected.value;
      var s := screenManager.screens[k];
      scalingMode := false;
      s.SetWidth(tempWidth);
      s.SetHeight(tempHeight);
      SnapshotUpdated(screenManager.screens);
    }

    /** Pointer motion while resizing: recomputes the live size from the
        pointer's travel since Space went down. */
    method ScalingMotion(mouse: Mouse)
      requires Valid()
      modifies this`tempWidth, this`tempHeight
      ensures Valid()
      ensures State() == Stretch(old(State()), mouse, width, height)
    {
      var currentPos := ToPoint(mouse);
      var deltaX := currentPos.x - scaleStartPos.x;
      var deltaY := currentPos.y - scaleStartPos.y;
      tempWidth := Max(MIN_SCREEN_SIZE, Min(Trunc(originalDimensions.x + deltaX), Trunc(width as real * MAX_SCREEN_RATIO)));
      tempHeight := Max(MIN_SCREEN_SIZE, Min(Trunc(originalDimensions.y - deltaY), Trunc(height as real * MAX_SCREEN_RATIO)));
    }

    /** `handleMouseClick`. */
    method HandleMouseClick(button: Button, at: Mouse, trig: real -> Trig)
      requires Valid() && !scalingMode
      modifies screenManager, screenManager.screens
      ensures Valid() && ScreensFromBefore()
      ensures State() == old(State()).(scene := Click(old(State()).scene, button, ToPoint(at), trig, width, height))
    {
      var pos := ToPoint(at);
      match button {
        case LeftButton =>
          var _ := screenManager.HandleSelection(pos, trig);
        case MiddleButton =>
          var _ := screenManager.CreateScreen(pos);
          var _ := screenManager.HandleSelection(pos, trig);
        case RightButton =>
          var picked := screenManager.HandleSelection(pos, trig);
          if picked.Some? {
            EraseSelectedScreen();
          }
        case OtherButton =>
      }
    }

    /** Removes the selected screen from the registry's sequence and clears
        the selection. */
    method EraseSelectedScreen()
      requires Valid() && !scalingMode && screenManager.selected.Some?
      modifies screenManager
      ensures Valid() && ScreensFromBefore()
      ensures screenManager.Current() == EraseSelected(old(screenManager.Current()))
    {
      var k := screenManager.selected.value;
      var rest := RemoveAt(screenManager.screens, k);
      RemoveAtKeepsDistinct(screenManager.screens, k);
      SnapshotRemoveAt(screenManager.screens, k);
      ghost var remaining := Snapshot(rest);
      screenManager.screens := rest;
      screenManager.selected := None;
      SnapshotUnchanged(rest);
      assert Snapshot(rest) == remaining;
    }

    /** `handleKeyPress`: nothing without a selection, otherwise the
        action's handler. */
    method HandleKeyPress(act: KeyAction, cs: ColorSpace)
      requires Valid()
      modifies screenManager.screens
      ensures Valid()
      ensures State() == old(State()).(scene := KeyPress(old(State()).scene, act, cs))
    {
      if screenManager.selected.None? {
        SnapshotUnchanged(screenManager.screens);
        return;
      }
      match act {
        case TurnRight => screenManager.HandleRotation(-ROTATION_SPEED);
        case TurnLeft => screenManager.HandleRotation(ROTATION_SPEED);
        case CycleHue => HandleColorRotation(cs);
        case CycleSaturation => HandleBrightening(cs);
        case Strengthen => HandleStrengthen();
        case Weaken => HandleWeaken();
      }
    }

    /** Gives the selected screen a new colour. */
    method SetSelectedColor(col: Color)
      requires Valid() && screenManager.selected.Some?
      modifies screenManager.screens
      ensures Valid()
      ensures screenManager.Current() == Recolored(old(screenManager.Current()), col)
    {
      var k := screenManager.selected.value;
      screenManager.screens[k].SetColor(col);
      SnapshotUpdated(screenManager.screens);
    }

    /** `handleColorRotation`: the selected screen's hue one step on. */
    method HandleColorRotation(cs: ColorSpace)
      requires Valid()
      modifies screenManager.screens
      ensures Valid()
      ensures State() == old(State()).(scene := HueShifted(old(State()).scene, cs))
    {
      if screenManager.selected.None? {
        SnapshotUnchanged(screenManager.screens);
        return;
      }
      var color := screenManager.screens[screenManager.selected.value].GetColor();
      var hsv := cs.toHsv(Rgb(color.r, color.g, color.b));
      var h := HueStep(hsv.h);
      var rgb := cs.fromHsv(hsv.(h := h));
      SetSelectedColor(Color(rgb.r, rgb.g, rgb.b, color.a));
    }

    /** `handleBrightening`: the selected screen's saturation one step
        round. */
    method HandleBrightening(cs: ColorSpace)
      requires Valid()
      modifies screenManager.screens
      ensures Valid()
      ensures State() == old(State()).(scene := SaturationShifted(old(State()).scene, cs))
    {
      if screenManager.selected.None? {
        SnapshotUnchanged(screenManager.screens);
        return;
      }
      var color := screenManager.screens[screenManager.selected.value].GetColor();
      var hsv := cs.toHsv(Rgb(color.r, color.g, color.b));
      var s := SaturationStep(hsv.s);
      var rgb := cs.fromHsv(hsv.(s := s));
      SetSelectedColor(Color(rgb.r, rgb.g, rgb.b, color.a));
    }

    /** `handleStrengthen`: the selected screen's alpha raised, capped. */
    method HandleStrengthen()
      requires Valid()
      modifies screenManager.screens
      ensures Valid()
      ensures State() == old(State()).(scene := Strengthened(old(State()).scene))
    {
      if screenManager.selected.None? {
        SnapshotUnchanged(screenManager.screens);
        return;
      }
      var color := screenManager.screens[screenManager.selected.value].GetColor();
      var newAlpha := Min(MAX_SCREEN_ALPHA, Trunc(color.a as real + ALPHA_CHANGE_SPEED * 255.0));
      assert newAlpha == StrengthenedAlpha(color.a);
      SetSelectedColor(Color(color.r, color.g, color.b, newAlpha));
    }

    /** `handleWeaken`: the selected screen's alpha lowered, floored at 0. */
    method HandleWeaken()
      requires Valid()
      modifies screenManager.screens
      ensures Valid()
      ensures State() == old(State()).(scene := Weakened(old(State()).scene))
    {
      if screenManager.selected.None? {
        SnapshotUnchanged(screenManager.screens);
        return;
      }
      var color := screenManager.screens[screenManager.selected.value].GetColor();
      var newAlpha := Max(0, Trunc(color.a as real - ALPHA_CHANGE_SPEED * 255.0));
      assert newAlpha == WeakenedAlpha(color.a);
      SetSelectedColor(Color(color.r, color.g, color.b, newAlpha));
    }

    /** `update`: outside live resizing, drags the selected screen and
        composites a frame of the screens as they then are; while resizing
        it does neither. */
    method Update(mouse: Mouse, leftButtonHeld: bool)
      requires Valid()
      modifies screenManager.screens, fractalManager
      ensures Valid()
      ensures State() == Updated(old(State()), mouse, leftButtonHeld)
      ensures old(scalingMode) ==> unchanged(fractalManager)
      ensures !old(scalingMode) ==>
        fractalManager.log == old(fractalManager.log) +
          FrameCommands(old(fractalManager.currentTexture), old(fractalManager.previousTexture), State().scene.screens, height) &&
        fractalManager.currentTexture == old(fractalManager.previousTexture) &&
        fractalManager.previousTexture == old(fractalManager.currentTexture)
    {
      if !scalingMode {
        screenManager.HandleDragging(ToPoint(mouse), leftButtonHeld);
        CompositeScreens();
      } else {
        SnapshotUnchanged(screenManager.screens);
      }
    }

    /** The compositing step of `update`: the registry's screens, as they
        are, drawn over the previous composite. */
    method CompositeScreens()
      requires Valid()
      modifies fractalManager
      ensures Valid() && State() == old(State())
      ensures fractalManager.log == old(fractalManager.log) +
        FrameCommands(old(fractalManager.currentTexture), old(fractalManager.previousTexture), State().scene.screens, height)
      ensures fractalManager.currentTexture == old(fractalManager.previousTexture)
      ensures fractalManager.previousTexture == old(fractalManager.currentTexture)
    {
      var _ := fractalManager.ProcessFrame(screenManager.screens);
    }

    /** `draw`: presents the last finished composite. */
    method Draw()
      requires Valid()
      modifies fractalManager`log
      ensures Valid() && State() == old(State())
      ensures fractalManager.log == old(fractalManager.log) +
        PresentCommands(fractalManager.previousTexture, width, height)
    {
      fractalManager.RenderCurrentFrame();
    }
  }
}
