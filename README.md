# Fractus, modelled in Dafny

Fractus is an interactive video-feedback visualizer. The user places
rectangular "screens" on a canvas. Each frame, every screen draws the
previous frame into its own rotated and scaled rectangle, then adds a
translucent colour on top. The rendering ping-pongs between two
off-screen textures.

This project models the core of that program:

- **Screens** (`screen.dfy`). The `Screen` record is a class. Its setters and
  `rotate` update the fields in place. `rotate` wraps the angle with
  `fmod(…, 360)`, exactly as the code does.
- **ScreenRegistry** (`screen_manager.dfy`). The `ScreenManager` owns the list of
  screens and the current selection.
  - Creating a screen appends it at a quarter of the canvas size.
  - A click selects the smallest hit screen. The hit test is the
    rotated-rectangle test; among equal areas the newest wins.
  - Dragging, wheel scaling (clamped to the canvas) and rotation all act
    on the selected screen.
  - The two selection loops are methods. They are proved against
    `BestHit`, and `BestHit` is characterised by the selection rule
    `IsChosen`.
- **Compositor** (`fractal_manager.dfy`). `FractalManager` records the graphics
  commands it issues in a log and tracks what each texture holds.
  - `processFrame` clears the current texture, draws every screen, then
    swaps the two textures.
  - The proofs cover the frame's command layout, the draw count, that a
    frame never samples the texture it draws into, and that two frames
    restore the textures' roles.
- **Config** (`config.dfy`). The configuration constants, the SDL colour
  record, and the two C++ conversions the program relies on:
  `static_cast<int>`, which truncates toward zero, and `fmod`.
- **Visualizer** (`main.dfy`). The `FractalVisualizer` application object.
  - Event dispatch covers quit, clicks, the wheel, Space-driven live
    resizing and mouse motion.
  - Held keys are handled with their priority order: rotate, alpha, hue
    and saturation.
  - The alpha rules, `update`, `draw` and the frame loop are modelled.
  - Every method is proved against a value-level step function (`OnEvent`,
    `Poll`, `Updated`, `Frame`, `Run`), and the lemmas are stated about
    those functions.

Values the program takes from the outside world are parameters of the
model:

- the sine and cosine of an angle (`trig`);
- the RGB↔HSV conversions (`ColorSpace`);
- SDL's event queue, keyboard state and mouse state (`Event`, `HeldKeys`,
  `FrameInput`).

Floating-point values are exact reals. OpenGL calls become `Command`
values appended to the compositor's log.

Two behaviours of the code are worth stating outright:

- `rotate` stores `fmod(rotation + degrees, 360)`, which keeps the sign of
  the sum, so the angle is not normalised into [0, 360) (`Screens.Rotated`).
- A middle click re-runs the selection rule, so the new screen is selected
  only when no older hit screen is strictly smaller
  (`Visualizer.MiddleClickSelects`).

## Model

| member | source | states |
|---|---|---|
| Config.Trunc | src/screen_manager.cpp:16-17 | `static_cast<int>` truncates toward zero: the result is within one unit of its argument, on the same side of zero |
| Config.TruncOfWhole | src/main.cpp:201-202 | converting a whole value to int gives it back unchanged |
| Config.FModTurn | src/screen.cpp:70 | `fmod(x, 360)` lies strictly in (-360, 360) and is non-negative for non-negative x, non-positive for non-positive x |
| Config.FModTurnUnique | src/screen.cpp:69-71 | any value with those three properties is `fmod(x, 360)` |
| Config.FModTurnOfSmall | src/screen.cpp:69-71 | an angle already strictly inside (-360, 360) is its own `fmod` |
| Config.FModOne | src/main.cpp:313 | `fmod(x, 1)` is the fractional part of x, with x's sign |
| Config.FModOneBelowTwo | src/main.cpp:326 | for 0 ≤ x < 2, `fmod(x, 1)` subtracts one exactly when x ≥ 1 |
| Screens.Rotated | src/screen.cpp:69-71 | the stored rotation is in (-360, 360), carries the sign of rotation + degrees, and differs from it by whole turns |
| Screens.RotateByZero | src/screen.cpp:69-71 | rotating by 0 keeps any rotation `rotate` can produce |
| Screens.RotateFullTurns | src/screen.cpp:69-71 | rotating 0 by any whole number of turns gives 0 |
| Screens.Screen.constructor | src/screen.cpp:8-10 | each getter returns the constructor's corresponding argument |
| Screens.Screen.SetX | src/screen.cpp:12-14 | x becomes the argument; every other field is unchanged |
| Screens.Screen.SetY | src/screen.cpp:16-18 | y becomes the argument; every other field is unchanged |
| Screens.Screen.SetWidth | src/screen.cpp:20-22 | width becomes the argument; every other field is unchanged |
| Screens.Screen.SetHeight | src/screen.cpp:24-26 | height becomes the argument; every other field is unchanged |
| Screens.Screen.SetRotation | src/screen.cpp:28-30 | rotation becomes the argument; every other field is unchanged |
| Screens.Screen.SetColor | src/screen.cpp:32-34 | colour becomes the argument; every other field is unchanged |
| Screens.Screen.GetOutlineColor | src/screen.cpp:60-62 | the screen's red, green and blue, with alpha `OUTLINE_ALPHA` |
| Screens.Screen.GetScaleOutlineColor | src/screen.cpp:64-67 | the screen's red, green and blue, with alpha min(255, 40 + 40), which exceeds the plain outline alpha |
| Screens.Screen.Rotate | src/screen.cpp:69-71 | only the rotation changes, to `Rotated(old, degrees)`, which stays in (-360, 360) |
| ScreenRegistry.CentreHits | src/screen_manager.cpp:120-133 | a screen with non-negative sides contains its own centre |
| ScreenRegistry.UnrotatedHitIsBoundsCheck | src/screen_manager.cpp:120-133 | at rotation 0, the hit test is exactly the axis-aligned bounds check around the centre |
| ScreenRegistry.PointInRotatedRect | src/screen_manager.cpp:120-133 | a rectangle with a negative side contains no point; the centre is contained iff both sides are non-negative |
| ScreenRegistry.IsLeft | src/screen_manager.cpp:135-137 | the cross product is zero when the point is an endpoint |
| ScreenRegistry.IsLeftAlongX | src/screen_manager.cpp:135-137 | for the unit edge along +x, the result is the point's height above the edge: positive on the left, negative on the right |
| ScreenRegistry.IsLeftAntisymmetric | src/screen_manager.cpp:135-137 | swapping the two endpoints negates the result |
| ScreenRegistry.CandidatesFrom | src/screen_manager.cpp:38-47 | the collected candidates are exactly the hit screens from the starting index upward, all valid indices |
| ScreenRegistry.Before | src/screen_manager.cpp:57-73 | a screen precedes another only if it is a different screen of no greater area; of two different screens, if the first does not precede, the second's area is no greater |
| ScreenRegistry.BeforeTransitive | src/screen_manager.cpp:58-73 | the comparator's order (smaller area, then newer) is transitive |
| ScreenRegistry.MinFold | src/screen_manager.cpp:57-73 | the comparator's minimum is one of the candidates and precedes every other |
| ScreenRegistry.BestHit | src/screen_manager.cpp:35-50 | a found screen is a valid index |
| ScreenRegistry.BestHitIsChosen | src/screen_manager.cpp:35-74 | nothing is found iff no screen is hit; otherwise the found screen is hit and has the least area, and among equal areas it is the newest |
| ScreenRegistry.ChosenIsUnique | src/screen_manager.cpp:52-74 | at most one screen satisfies the selection rule |
| ScreenRegistry.EqualAreaPrefersNewest | src/screen_manager.cpp:62-72 | of two hit screens of equal least area, the older is never chosen |
| ScreenRegistry.InitialSize | src/screen_manager.cpp:16-17 | a new screen's side is a quarter of the canvas, truncated |
| ScreenRegistry.MaxSize | src/screen_manager.cpp:93-94 | the largest side scaling allows is the canvas size |
| ScreenRegistry.ClampScaled | src/screen_manager.cpp:93-94 | the clamp yields a value between 10 and the canvas size; in-range values pass through; out-of-range values go to the nearer bound |
| ScreenRegistry.ScaleStep | src/screen_manager.cpp:88-91 | scaling up never shrinks a side; scaling down strictly shrinks every positive side |
| ScreenRegistry.ScaledSize | src/screen_manager.cpp:88-94 | a scaled side is at least 10 and at most the canvas size |
| ScreenRegistry.DragAtGrabPoint | src/screen_manager.cpp:76-84 | dragging with the offset recorded at selection leaves the screen where it was |
| ScreenRegistry.SelectAt | src/screen_manager.cpp:24-33 | selecting keeps the screens and leaves a well-formed selection |
| ScreenRegistry.SelectAtFollowsRule | src/screen_manager.cpp:24-33 | the selection is cleared iff nothing is hit, and is otherwise the screen the rule chooses; the recorded offset keeps that screen still; a miss keeps the old offset |
| ScreenRegistry.OperationsKeepWellformed | src/screen_manager.cpp:15-105 | creating, dragging, scaling and rotating all keep the selection a valid index |
| ScreenRegistry.DragMovesOnlyTheSelected | src/screen_manager.cpp:76-84 | while the button is held, the selected screen's centre becomes mouse − offset; no other screen or field changes |
| ScreenRegistry.ScaleKeepsSidesInRange | src/screen_manager.cpp:86-99 | after a wheel step, the selected screen's sides are between 10 and the canvas; the other screens are unchanged |
| ScreenRegistry.RotateKeepsRotationInRange | src/screen_manager.cpp:101-105 | the rotated screen's angle stays in (-360, 360); the other screens are unchanged |
| ScreenRegistry.ScreenManager.constructor | src/screen_manager.cpp:10-13 | starts with no screens, no selection and a zero offset, with the given canvas size |
| ScreenRegistry.ScreenManager.CreateScreen | src/screen_manager.cpp:15-22 | appends one fresh screen, centred at the position, with the default size and colour; the registry stays valid |
| ScreenRegistry.ScreenManager.HandleSelection | src/screen_manager.cpp:24-33 | the new selection and offset are `SelectAt`'s (see `SelectAtFollowsRule`); the result is the selection |
| ScreenRegistry.ScreenManager.RecordSelection | src/screen_manager.cpp:25-31 | records the given hit and, when there is one, the grab offset |
| ScreenRegistry.ScreenManager.FindScreenAtPosition | src/screen_manager.cpp:35-50 | the backward candidate loop followed by the comparator returns `BestHit` |
| ScreenRegistry.ScreenManager.SelectSmallestFromCandidates | src/screen_manager.cpp:52-74 | the loop returns the comparator's minimum over the candidates, or nothing when there are none |
| ScreenRegistry.DragSelected | src/screen_manager.cpp:76-84 | without a selection or without the left button held, the scene is unchanged; the selection, offset and count are always kept |
| ScreenRegistry.ScaleSelected | src/screen_manager.cpp:86-99 | without a selection or with a zero wheel step, the scene is unchanged; the selection, offset and count are always kept |
| ScreenRegistry.RotateSelected | src/screen_manager.cpp:101-105 | without a selection, the scene is unchanged; the selection, offset and count are always kept |
| ScreenRegistry.ScreenManager.HandleDragging | src/screen_manager.cpp:76-84 | the new registry state is `DragSelected` of the old one (see `DragMovesOnlyTheSelected`) |
| ScreenRegistry.ScaleSelectedIs | src/screen_manager.cpp:86-98 | scaling with a selection and a non-zero scroll replaces only the selected screen's sides, by the two clamped sizes |
| ScreenRegistry.ScreenManager.ScaleSide | src/screen_manager.cpp:88-94 | the side computed by the source's arithmetic is `ScaledSize` of the old side |
| ScreenRegistry.ScreenManager.ResizeSelected | src/screen_manager.cpp:96-97 | only the selected screen's width and height change, to the given values |
| ScreenRegistry.ScreenManager.HandleScaling | src/screen_manager.cpp:86-99 | the new registry state is `ScaleSelected` of the old one (see `ScaleKeepsSidesInRange`) |
| ScreenRegistry.ScreenManager.HandleRotation | src/screen_manager.cpp:101-105 | the new registry state is `RotateSelected` of the old one (see `RotateKeepsRotationInRange`) |
| Compositor.Premultiplied | src/fractal_manager.cpp:104-115 | the premultiplied colour has alpha a/255, and each colour component lies between 0 and that alpha |
| Compositor.PremultipliedOpaque | src/fractal_manager.cpp:104-115 | an opaque colour is passed through, with channels scaled to [0, 1] |
| Compositor.PremultipliedClear | src/fractal_manager.cpp:104-115 | a fully transparent colour adds nothing |
| Compositor.Unit | src/fractal_manager.cpp:104-115 | a channel divided by 255 is in [0, 1]: 0 only for 0, 1 only for 255 |
| Compositor.ModelTransform | src/fractal_manager.cpp:80-84 | the model matrix as its four steps: translate to the centre, rotate, translate by half the size, scale with a mirrored x (see `QuadCentreIsScreenCentre`) |
| Compositor.QuadCentreIsScreenCentre | src/fractal_manager.cpp:80-84 | for any rotation, the model matrix takes the centre of the unit quad to the screen's centre, with y from the bottom of the canvas |
| Compositor.UnrotatedQuadPlacement | src/fractal_manager.cpp:80-84 | at rotation 0, the model matrix maps the unit quad onto the screen's rectangle, flipped to GL's bottom-up y |
| Compositor.UnrotatedQuadIsHitBox | src/fractal_manager.cpp:80-84 | at rotation 0, the drawn rectangle is exactly the set of points that select the screen |
| Compositor.ScreenDrawsLayout | src/fractal_manager.cpp:77-121 | the per-screen loop issues a feedback quad then a colour quad for each screen, in list order |
| Compositor.FrameLayout | src/fractal_manager.cpp:64-123 | a frame binds and clears the target, sets premultiplied blending, draws 2 quads per screen, then rebinds the window |
| Compositor.FrameDrawCount | src/fractal_manager.cpp:77-121 | a frame issues exactly two draw calls per screen |
| Compositor.FrameNeverSamplesItsTarget | src/fractal_manager.cpp:64-128 | every draw in a frame writes the current texture and samples only the previous one |
| Compositor.FractalManager.constructor | src/fractal_manager.cpp:9-41 | two distinct textures; the previous one is bound and cleared to transparent, so it starts blank |
| Compositor.FractalManager.ProcessFrame | src/fractal_manager.cpp:64-128 | logs `FrameCommands`; the two textures swap roles; returns the texture just drawn, which now holds the composite of the old previous frame and the screens |
| Compositor.FractalManager.DrawScreens | src/fractal_manager.cpp:77-121 | the loop logs `ScreenDraws` for the screens' current values |
| Compositor.FractalManager.DrawScreen | src/fractal_manager.cpp:78-120 | logs one feedback quad and one colour quad for the screen |
| Compositor.FractalManager.RenderCurrentFrame | src/fractal_manager.cpp:130-159 | draws the last composited texture full-screen to the window; the textures keep their roles |
| Compositor.TwoFrames | src/fractal_manager.cpp:125-127 | two frames in a row draw into the two different textures and restore their original roles |
| Visualizer.HeldAction | src/main.cpp:230-254 | no action iff no held key triggers one; otherwise the first triggered action in the order D, A, W, S, Up, Down |
| Visualizer.StrengthenedAlpha | src/main.cpp:333-341 | new alpha = min(100, alpha + 25): never above 100, and never below an alpha that was within 100 |
| Visualizer.WeakenedAlpha | src/main.cpp:343-350 | new alpha = max(0, alpha − 26), never above the old alpha |
| Visualizer.HoldingStrengthen | src/main.cpp:333-341 | k held frames raise alpha to min(100, alpha + 25k); four frames reach 100 from any alpha within 100 |
| Visualizer.HoldingWeaken | src/main.cpp:343-350 | k held frames lower alpha to max(0, alpha − 26k); ten frames reach 0 |
| Visualizer.HueStep | src/main.cpp:307-318 | the hue advances by 0.002 and wraps past 1, staying in [0, 1) |
| Visualizer.SaturationStep | src/main.cpp:320-331 | the saturation drops by 0.01 and wraps below 0 back toward 1, staying in [0, 1) |
| Visualizer.HueCycled | src/main.cpp:307-318 | the hue cycle keeps the colour's alpha |
| Visualizer.SaturationCycled | src/main.cpp:320-331 | the saturation cycle keeps the colour's alpha |
| Visualizer.Strengthened | src/main.cpp:333-341 | without a selection, strengthening changes nothing |
| Visualizer.Weakened | src/main.cpp:343-350 | without a selection, weakening changes nothing |
| Visualizer.HueShifted | src/main.cpp:307-318 | without a selection, the hue key changes nothing |
| Visualizer.SaturationShifted | src/main.cpp:320-331 | without a selection, the saturation key changes nothing |
| Visualizer.KeyPress | src/main.cpp:284-305 | a key action keeps the selection, the offset and the number of screens, and without a selection changes nothing |
| Visualizer.KeyPressChangesOnlySelected | src/main.cpp:284-305 | each action changes only the selected screen: D turns −1°, A turns +1°, W/S apply the alpha rules, Up/Down recolour while keeping alpha |
| Visualizer.RemoveAt | src/main.cpp:273-277 | erasing index k shifts the later elements down by one and keeps the earlier ones |
| Visualizer.RemoveAtRemovesOne | src/main.cpp:273-277 | erasing removes exactly one occurrence of the erased element (as multisets) |
| Visualizer.RemoveAtKeepsDistinct | src/main.cpp:273-277 | erasing from a list of distinct screens leaves them distinct |
| Visualizer.SnapshotRemoveAt | src/main.cpp:273-277 | erasing a screen object erases its value at the same index |
| Visualizer.EraseSelected | src/main.cpp:268-280 | the corrected erase: removes the selected screen and clears the selection |
| Visualizer.EraseAsWritten | src/main.cpp:268-280 | the erase as written removes the selected screen and leaves the selection as it was |
| Visualizer.EraseAsWrittenLeavesStaleSelection | src/main.cpp:268-280 | as written, the selection survives the erase of the screen it named, and when that was the last screen it names no screen at all |
| Visualizer.EraseAsWrittenTwoScreens | src/main.cpp:268-280 | erasing the newer of two screens as written leaves a selection past the end |
| Visualizer.Click | src/main.cpp:257-282 | a click keeps the scene well formed |
| Visualizer.MiddleClickSelects | src/main.cpp:263-267 | a middle click appends a screen and selects something; the new screen is selected iff no hit older screen is smaller |
| Visualizer.RightClickErasesChosen | src/main.cpp:268-280 | a right click clears the selection: a miss keeps every screen; a hit erases exactly the screen the selection rule chooses |
| Visualizer.LiveSize | src/main.cpp:218-223 | the truncated stretch clamped to [0, canvas]: below the range it gives 0, above it the canvas side, and in range the truncated value itself |
| Visualizer.LiveSizeMonotone | src/main.cpp:218-223 | a larger stretch never gives a smaller side |
| Visualizer.StartScaling | src/main.cpp:191-204 | Space enters live resize with the selected screen's current size; the scene is unchanged |
| Visualizer.Stretch | src/main.cpp:212-226 | motion changes only the live size: the width is `LiveSize(original width + horizontal travel)` and the height `LiveSize(original height − vertical travel)`, within [0, canvas]; back at the starting point, the live size is the clamped original size |
| Visualizer.StretchFollowsPointer | src/main.cpp:216-223 | the live width never shrinks as the pointer moves right, and the live height never shrinks as it moves up |
| Visualizer.CommitScaling | src/main.cpp:205-211 | releasing Space leaves live resize: the selected screen's sides become the live size, every other screen is kept, and so are the selection and offset |
| Visualizer.StretchBackToStartKeepsSize | src/main.cpp:191-226 | a resize whose pointer ends where it started, after any motion, leaves the scene unchanged when the selected sides were within the canvas |
| Visualizer.SpaceTapKeepsSize | src/main.cpp:191-211 | pressing and releasing Space without moving leaves the scene unchanged |
| Visualizer.CommitAfterMotion | src/main.cpp:205-225 | after motion, release writes an in-range size to the selected screen only |
| Visualizer.OnEvent | src/main.cpp:178-227 | one event keeps the UI state consistent |
| Visualizer.ResizingFreezesScene | src/main.cpp:181-226 | during live resize, no event except releasing Space changes the scene |
| Visualizer.OnEvents | src/main.cpp:177-228 | processing the queue keeps the state consistent, and asks to stop iff the queue holds a quit event |
| Visualizer.OnHeld | src/main.cpp:234-253 | held keys keep the state consistent and leave live resize as it was |
| Visualizer.Poll | src/main.cpp:175-255 | `handleEvents` asks to stop iff a quit event arrived or Escape is held |
| Visualizer.Updated | src/main.cpp:352-360 | `update` keeps the state consistent and changes nothing during live resize |
| Visualizer.Frame | src/main.cpp:147-151 | a frame keeps the state consistent and asks to stop iff quit arrived or Escape is held |
| Visualizer.Run | src/main.cpp:145-154 | the loop runs at most one frame per input and at least one when there is any input |
| Visualizer.RunStopsAtFirstQuit | src/main.cpp:145-154 | every frame before the last lacks a stop request, and the loop ends early only at the first frame with one |
| Visualizer.FractalVisualizer.constructor | src/main.cpp:118-127 | empty scene, not resizing, zero live sizes, two distinct textures |
| Visualizer.FractalVisualizer.RunFrame | src/main.cpp:147-151 | one iteration reaches `Frame`'s state and returns whether to keep running |
| Visualizer.FractalVisualizer.RunLoop | src/main.cpp:145-154 | the loop reaches `Run`'s state after `Run`'s number of frames |
| Visualizer.FractalVisualizer.HandleEvents | src/main.cpp:175-255 | reaches `Poll`'s state and returns false iff quit or Escape |
| Visualizer.FractalVisualizer.DrainEvents | src/main.cpp:177-228 | handles the queued events in order, stopping at the first quit: reaches `OnEvents`'s state and reports whether a quit was seen |
| Visualizer.FractalVisualizer.HandleEvent | src/main.cpp:178-227 | reaches `OnEvent`'s state |
| Visualizer.FractalVisualizer.EnterScaling | src/main.cpp:192-203 | reaches `StartScaling`'s state |
| Visualizer.FractalVisualizer.ExitScaling | src/main.cpp:206-210 | reaches `CommitScaling`'s state |
| Visualizer.FractalVisualizer.ScalingMotion | src/main.cpp:213-225 | reaches `Stretch`'s state |
| Visualizer.FractalVisualizer.HandleMouseClick | src/main.cpp:257-282 | the scene becomes `Click` of the old scene; the rest of the state is unchanged |
| Visualizer.FractalVisualizer.EraseSelectedScreen | src/main.cpp:270-279 | the registry becomes `EraseSelected` of the old one |
| Visualizer.FractalVisualizer.HandleKeyPress | src/main.cpp:284-305 | the scene becomes `KeyPress` of the old scene (see `KeyPressChangesOnlySelected`) |
| Visualizer.FractalVisualizer.SetSelectedColor | src/main.cpp:316-317 | only the selected screen's colour changes |
| Visualizer.FractalVisualizer.HandleColorRotation | src/main.cpp:307-318 | the scene becomes `HueShifted` of the old scene |
| Visualizer.FractalVisualizer.HandleBrightening | src/main.cpp:320-331 | the scene becomes `SaturationShifted` of the old scene |
| Visualizer.FractalVisualizer.HandleStrengthen | src/main.cpp:333-341 | the scene becomes `Strengthened` of the old scene |
| Visualizer.FractalVisualizer.HandleWeaken | src/main.cpp:343-350 | the scene becomes `Weakened` of the old scene |
| Visualizer.FractalVisualizer.Update | src/main.cpp:352-360 | reaches `Updated`'s state. Outside live resize, it logs one compositor frame of the dragged screens and swaps the textures. During live resize the compositor is untouched |
| Visualizer.FractalVisualizer.CompositeScreens | src/main.cpp:358 | logs one compositor frame of the current screens and swaps the textures; the UI state is unchanged |
| Visualizer.FractalVisualizer.Draw | src/main.cpp:362-371 | presents the last composited texture; the UI state is unchanged |

## Left out

- Window, GL context and GLEW setup, shader compilation, buffers and the projection matrix (src/main.cpp:30-116) are not modelled. Texture creation (src/fractal_manager.cpp:9-41) is modelled as two handles passed to the `Compositor.FractalManager` constructor; that `glGenTextures` returns distinct names becomes its precondition `current != previous`. Only the bind, clear, blend and draw calls of the compositor are logged, as `Command` values. src/shader_manager.cpp is not part of this model.
- `sin`/`cos` and the RGB↔HSV conversions of src/math_utils.cpp are parameters. The model does not implement them.
- IEEE single-precision rounding is not modelled; floats are exact reals. For example, `400 * 1.05f` can truncate to 419 in float but gives 420 here.
- ScreenRegistry.ScaleStep: states the exact-real growth and shrinkage only, not the float result of the multiplication.
- `rotatePoint` (src/screen_manager.cpp:107-118) and `getRotatedSize` (src/screen.cpp:73-85) are not modelled. Neither is called on the paths modelled here.
- The screen getters (src/screen.cpp:36-58) read one field each. They appear through the constructor's contract and have no row of their own.
- `draw`'s background clear, the selection outline (`OtherRenders::drawSelectionOutline`) and the buffer swap are not modelled. The outline colours themselves are modelled.
- `frameCounter`, `frozenFrame` and `currentFrame` are never read by the modelled code, so they are left out.
- `loadPreviousFrame`, `saveFrame` and the destructors are left out. They do no work the frame loop depends on.
- The frame pacing (`SDL_Delay`, `FPS`) is left out. Logging, `main` and its error handling (src/main.cpp:374-401) are also left out.
- The `run` loop is bounded by the frame inputs supplied to `RunLoop`; an endless session is not modelled.
- The copy of the screen manager after a right-click (src/main.cpp:278) is not modelled. The copy carries the `selectedScreen` address into the new manager, and reassigning the pointer frees the old vector, so the selection dangles into freed storage. The modelled right click (`Visualizer.Click`, `Visualizer.FractalVisualizer.HandleMouseClick`) departs from the program: it uses the corrected erase and clears the selection. The program's surviving selection is modelled only by `Visualizer.EraseAsWritten` and `Visualizer.EraseAsWrittenLeavesStaleSelection` (see Findings).
- Pointer invalidation when `emplace_back` reallocates the vector is not modelled; the selection is an index.
- 32-bit `int` overflow is not modelled, for example in width × height. Sizes are bounded by the canvas in practice.
- Visualizer.HueCycled: states only that alpha is kept. Red, green and blue come from the colour-space parameter.
- Visualizer.SaturationCycled: states only that alpha is kept. Red, green and blue come from the colour-space parameter.
- Visualizer.Strengthened: its own contract states only the no-selection case. The effect on the selected screen is stated in `KeyPressChangesOnlySelected`.
- Visualizer.Weakened: its own contract states only the no-selection case. The effect on the selected screen is stated in `KeyPressChangesOnlySelected`.
- Visualizer.HueShifted: its own contract states only the no-selection case. The effect on the selected screen is stated in `KeyPressChangesOnlySelected`.
- Visualizer.SaturationShifted: its own contract states only the no-selection case. The effect on the selected screen is stated in `KeyPressChangesOnlySelected`.
- Visualizer.OnEvent: its own contract states consistency only. Its effects are stated in `ResizingFreezesScene`, `SpaceTapKeepsSize`, `CommitAfterMotion` and the click lemmas.

## Findings

| source | as written | input that shows it | evidently intended | confidence | as-written member | corrected member |
|---|---|---|---|---|---|---|
| src/main.cpp:268-279 | Right-click erases the selected screen from the vector but never clears `selectedScreen`. The manager copy then carries the pointer over while the old vector it points into is freed, so the selection dangles | two screens, right-click on the newer one: `selectedScreen` still holds the erased element's address, in a vector that is then freed; in the index model it names one past the last screen | clear the selection when its screen is erased | not executed | Visualizer.EraseAsWrittenLeavesStaleSelection | Visualizer.EraseSelected |
