/** The frame compositor (`FractalManager`): two textures used in turn as
    render target and as source. Each frame draws every screen into the
    current texture as a feedback quad sampling the previous composite, then
    as a flat quad of its premultiplied colour, and then swaps the roles.

    The OpenGL calls are recorded, not performed: `log` is the sequence of
    commands issued, `Step` lists keep each model matrix symbolic, and the
    ghost images say what each texture holds. */
module Compositor {
  import opened Config
  import opened Screens
  import opened ScreenRegistry

  /** A texture name (`GLuint`). */
  type Handle = nat

  /** What draws land in: a texture attached to the frame buffer, or the
      window's default frame buffer. */
  datatype Target = Offscreen(texture: Handle) | Window

  /** A colour uniform or clear colour, components in floating point. */
  datatype Rgba = Rgba(r: real, g: real, b: real, a: real)

  /** The textured shader samples a texture and multiplies by `color`; the
      colour shader outputs `color`. */
  datatype Program = TextureProgram | ColorProgram

  /** (ONE, ONE_MINUS_SRC_ALPHA) for premultiplied sources, and
      (SRC_ALPHA, ONE_MINUS_SRC_ALPHA) for straight alpha. */
  datatype BlendMode = PremultipliedOver | StraightAlpha

  /** One factor of a model matrix, in the order the matrix multiplies them. */
  datatype Step = Translate(dx: real, dy: real) | Rotate(degrees: real) | Scale(sx: real, sy: real)

  datatype Command =
    | Bind(target: Target)
    | Clear(cleared: Target, clearColor: Rgba)
    | SetBlend(mode: BlendMode)
    | Draw(drawTarget: Target, program: Program, sampled: Option<Handle>, uniform: Rgba, model: seq<Step>)

  /** What a texture holds: unspecified contents, all transparent, or the
      given screens composited onto a cleared target, each sampling the
      earlier image `under` through its feedback quad. */
  datatype Image = Undefined | Blank | Composite(under: Image, layers: seq<ScreenData>)

  const TRANSPARENT: Rgba := Rgba(0.0, 0.0, 0.0, 0.0)
  const OPAQUE_WHITE: Rgba := Rgba(1.0, 1.0, 1.0, 1.0)
  const OPAQUE_BLACK: Rgba := Rgba(0.0, 0.0, 0.0, 1.0)

  /** The flat quad's colour: each channel scaled to [0, 1] and multiplied by
      the alpha, which the blend mode (ONE, ONE_MINUS_SRC_ALPHA) requires. */
  function Premultiplied(c: Color): (p: Rgba)
    ensures p.a == Unit(c.a)
    ensures 0.0 <= p.r <= p.a && 0.0 <= p.g <= p.a && 0.0 <= p.b <= p.a
  {
    var alpha := Unit(c.a);
    Rgba(Weighted(Unit(c.r), alpha), Weighted(Unit(c.g), alpha), Weighted(Unit(c.b), alpha), alpha)
  }

  /** A fully opaque colour is drawn with its own channels. */
  lemma PremultipliedOpaque(c: Color)
    requires c.a == 255
    ensures Premultiplied(c) == Rgba(Unit(c.r), Unit(c.g), Unit(c.b), 1.0)
  {
    assert Unit(c.a) == 1.0;
  }

  /** A fully transparent colour contributes nothing. */
  lemma PremultipliedClear(c: Color)
    requires c.a == 0
    ensures Premultiplied(c) == TRANSPARENT
  {
    assert Unit(c.a) == 0.0;
  }

  /** A channel scaled from [0, 255] to [0, 1]. */
  function Unit(ch: Channel): (u: real)
    ensures 0.0 <= u <= 1.0
    ensures ch == 0 <==> u == 0.0
    ensures ch == 255 <==> u == 1.0
  {
    ch as real / 255.0
  }

  /** A value in [0, 1] weighted by an alpha in [0, 1] does not exceed the
      alpha. */
  function Weighted(u: real, alpha: real): (w: real)
    requires 0.0 <= u <= 1.0
    requires 0.0 <= alpha <= 1.0
    ensures 0.0 <= w <= alpha
  {
    UnitProduct(u, alpha);
    u * alpha
  }

  lemma UnitProduct(u: real, a: real)
    requires 0.0 <= u <= 1.0 && 0.0 <= a
    ensures 0.0 <= u * a <= a
  {
    assert a - u * a == (1.0 - u) * a;
  }

  /** The model matrix of a screen: translate to (x, canvas height - y),
      rotate by 180 - rotation degrees, translate by (width / 2, -height / 2),
      scale by (-width, height). */
  function ModelTransform(s: ScreenData, canvasHeight: nat): seq<Step>
  {
    [ Translate(s.x, canvasHeight as real - s.y),
      Rotate(-s.rotation + 180.0),
      Translate(s.width as real / 2.0, -(s.height as real) / 2.0),
      Scale(-(s.width as real), s.height as real) ]
  }

  function ApplyStep(st: Step, p: Point, trig: real -> Trig): Point
  {
    match st
    case Translate(dx, dy) => Point(p.x + dx, p.y + dy)
    case Rotate(d) =>
      var t := trig(d);
      Point(p.x * t.cos - p.y * t.sin, p.x * t.sin + p.y * t.cos)
    case Scale(sx, sy) => Point(p.x * sx, p.y * sy)
  }

  /** The matrix product of the steps applied to a point: the last step acts
      first. */
  function Apply(model: seq<Step>, p: Point, trig: real -> Trig): Point
    decreases |model|
  {
    if model == [] then p else ApplyStep(model[0], Apply(model[1..], p, trig), trig)
  }

  lemma ScaledUnit(w: real, u: real)
    requires w > 0.0
    ensures 0.0 <= w * u <= w <==> 0.0 <= u <= 1.0
  {
    if u < 0.0 { assert w * u == -(w * -u); }
    if u > 1.0 { assert w * u - w == w * (u - 1.0); }
    if 0.0 <= u <= 1.0 { UnitProduct(u, w); assert w * u == u * w; }
  }

  /** With no rotation (and the exact cosine and sine of 180 degrees) the
      model matrix maps the unit quad's point (u, v) to the canvas point
      (x - width/2 + width u, y - height/2 + height v), stored with y measured
      from the bottom of the canvas. */
  lemma UnrotatedQuadPlacement(s: ScreenData, canvasHeight: nat, u: real, v: real, trig: real -> Trig)
    requires s.rotation == 0.0 && trig(180.0) == Trig(-1.0, 0.0)
    ensures var w, h := s.width as real, s.height as real;
      Apply(ModelTransform(s, canvasHeight), Point(u, v), trig) ==
        Point(s.x - w / 2.0 + w * u, canvasHeight as real - (s.y - h / 2.0 + h * v))
  {
    var w, h := s.width as real, s.height as real;
    var m := ModelTransform(s, canvasHeight);
    assert m[1] == Rotate(180.0);
    var p3 := Point(u * -w, v * h);
    assert Apply(m[3..], Point(u, v), trig) == p3 by {
      assert m[3..][1..] == [];
    }
    var p2 := Point(p3.x + w / 2.0, p3.y - h / 2.0);
    assert Apply(m[2..], Point(u, v), trig) == p2 by {
      assert m[2..][1..] == m[3..];
    }
    var p1 := Point(-p2.x, -p2.y);
    assert Apply(m[1..], Point(u, v), trig) == p1 by {
      assert m[1..][1..] == m[2..];
      assert ApplyStep(Rotate(180.0), p2, trig) == Point(p2.x * -1.0 - p2.y * 0.0, p2.x * 0.0 + p2.y * -1.0);
    }
    assert u * -w == -(w * u) && v * h == h * v;
  }

  /** Whatever the rotation and whatever cosine and sine are supplied, the
      model matrix takes the centre of the unit quad to the screen's centre
      (with y measured from the bottom of the canvas): the quad turns about
      the point the hit test treats as the screen's centre. */
  lemma QuadCentreIsScreenCentre(s: ScreenData, canvasHeight: nat, trig: real -> Trig)
    ensures Apply(ModelTransform(s, canvasHeight), Point(0.5, 0.5), trig) == Point(s.x, canvasHeight as real - s.y)
  {
    var w, h := s.width as real, s.height as real;
    var m := ModelTransform(s, canvasHeight);
    var c := Point(0.5, 0.5);
    assert Apply(m[3..], c, trig) == Point(-w / 2.0, h / 2.0) by {
      assert m[3..][1..] == [];
    }
    assert Apply(m[2..], c, trig) == Point(0.0, 0.0) by {
      assert m[2..][1..] == m[3..];
    }
    assert Apply(m[1..], c, trig) == Point(0.0, 0.0) by {
      assert m[1..][1..] == m[2..];
      var t := trig(m[1].degrees);
      assert 0.0 * t.cos - 0.0 * t.sin == 0.0 && 0.0 * t.sin + 0.0 * t.cos == 0.0;
    }
  }

  lemma WithinSpan(c: real, w: real, d: real)
    ensures c - w / 2.0 <= c - w / 2.0 + d <= c + w / 2.0 <==> 0.0 <= d <= w
  {
  }

  /** For a screen of positive size with no rotation (and the exact cosine and
      sine of 0), the hit test selects the point of the canvas at (u, v) on
      the screen's quad exactly when (u, v) lies in the unit square: the quad
      drawn is the rectangle the pointer selects. */
  lemma UnrotatedQuadIsHitBox(s: ScreenData, u: real, v: real, trig: real -> Trig)
    requires s.rotation == 0.0 && trig(0.0) == Trig(1.0, 0.0)
    requires s.width > 0 && s.height > 0
    ensures var w, h := s.width as real, s.height as real;
      Hits(s, Point(s.x - w / 2.0 + w * u, s.y - h / 2.0 + h * v), trig) <==>
        0.0 <= u <= 1.0 && 0.0 <= v <= 1.0
  {
    var w, h := s.width as real, s.height as real;
    var px, py := s.x - w / 2.0 + w * u, s.y - h / 2.0 + h * v;
    var inX := s.x - w / 2.0 <= px <= s.x + w / 2.0;
    var inY := s.y - h / 2.0 <= py <= s.y + h / 2.0;
    assert Hits(s, Point(px, py), trig) <==> inX && inY by {
      UnrotatedHitIsBoundsCheck(s, Point(px, py), trig);
    }
    AxisHit(s.x, w, u, px);
    AxisHit(s.y, h, v, py);
  }

  /** Along one axis, the quad's coordinate u lands inside the span of width
      w around c exactly when u is in [0, 1]. */
  lemma AxisHit(c: real, w: real, u: real, x: real)
    requires w > 0.0 && x == c - w / 2.0 + w * u
    ensures c - w / 2.0 <= x <= c + w / 2.0 <==> 0.0 <= u <= 1.0
  {
    WithinSpan(c, w, w * u);
    ScaledUnit(w, u);
  }

  /** Draw one: the feedback quad, sampling the previous composite through an
      opaque white tint. */
  function FeedbackQuad(target: Handle, source: Handle, s: ScreenData, canvasHeight: nat): Command
  {
    Draw(Offscreen(target), TextureProgram, Some(source), OPAQUE_WHITE, ModelTransform(s, canvasHeight))
  }

  /** Draw two: the same quad filled with the screen's premultiplied colour. */
  function ColorQuad(target: Handle, s: ScreenData, canvasHeight: nat): Command
  {
    Draw(Offscreen(target), ColorProgram, None, Premultiplied(s.color), ModelTransform(s, canvasHeight))
  }

  /** The two draws of every screen, in insertion order. */
  function ScreenDraws(target: Handle, source: Handle, vs: seq<ScreenData>, canvasHeight: nat): seq<Command>
    decreases |vs|
  {
    if vs == [] then []
    else
      var last := vs[|vs| - 1];
      ScreenDraws(target, source, vs[..|vs| - 1], canvasHeight) +
        [FeedbackQuad(target, source, last, canvasHeight), ColorQuad(target, last, canvasHeight)]
  }

  /** The commands before the first draw of a frame. */
  function Prologue(target: Handle): seq<Command>
  {
    [Bind(Offscreen(target)), Clear(Offscreen(target), TRANSPARENT), SetBlend(PremultipliedOver)]
  }


  /** Everything one `processFrame` issues. */
  function FrameCommands(target: Handle, source: Handle, vs: seq<ScreenData>, canvasHeight: nat): seq<Command>
  {
    Prologue(target) + ScreenDraws(target, source, vs, canvasHeight) + [Bind(Window)]
  }

  lemma ScreenDrawsSnoc(target: Handle, source: Handle, vs: seq<ScreenData>, i: nat, canvasHeight: nat)
    requires i < |vs|
    ensures ScreenDraws(target, source, vs[..i + 1], canvasHeight) ==
      ScreenDraws(target, source, vs[..i], canvasHeight) +
      [FeedbackQuad(target, source, vs[i], canvasHeight), ColorQuad(target, vs[i], canvasHeight)]
  {
    assert vs[..i + 1][..i] == vs[..i];
  }

  /** A log that received the prologue, the screen draws and the final bind
      has received one frame. */
  lemma FrameCommandsAfter(start: seq<Command>, target: Handle, source: Handle, vs: seq<ScreenData>, canvasHeight: nat)
    ensures start + Prologue(target) + ScreenDraws(target, source, vs, canvasHeight) + [Bind(Window)] ==
      start + FrameCommands(target, source, vs, canvasHeight)
  {
  }

  /** Screen i's feedback quad is draw 2i and its colour quad draw 2i + 1. */
  lemma {:induction false} ScreenDrawsLayout(target: Handle, source: Handle, vs: seq<ScreenData>, canvasHeight: nat)
    ensures |ScreenDraws(target, source, vs, canvasHeight)| == 2 * |vs|
    ensures forall i :: 0 <= i < |vs| ==>
      ScreenDraws(target, source, vs, canvasHeight)[2 * i] == FeedbackQuad(target, source, vs[i], canvasHeight) &&
      ScreenDraws(target, source, vs, canvasHeight)[2 * i + 1] == ColorQuad(target, vs[i], canvasHeight)
    decreases |vs|
  {
    if vs != [] {
      var init := vs[..|vs| - 1];
      ScreenDrawsLayout(target, source, init, canvasHeight);
      forall i | 0 <= i < |init| ensures init[i] == vs[i] { }
    }
  }

  /** A frame binds the target, clears it to transparent and selects the
      premultiplied blend before any draw; then come the two draws of each
      screen in insertion order, both with that screen's model matrix; then
      the window is bound again. */
  lemma FrameLayout(target: Handle, source: Handle, vs: seq<ScreenData>, canvasHeight: nat)
    ensures var cmds := FrameCommands(target, source, vs, canvasHeight);
      |cmds| == 2 * |vs| + 4 &&
      cmds[0] == Bind(Offscreen(target)) &&
      cmds[1] == Clear(Offscreen(target), TRANSPARENT) &&
      cmds[2] == SetBlend(PremultipliedOver) &&
      cmds[|cmds| - 1] == Bind(Window) &&
      forall i :: 0 <= i < |vs| ==>
        cmds[3 + 2 * i] == FeedbackQuad(target, source, vs[i], canvasHeight) &&
        cmds[4 + 2 * i] == ColorQuad(target, vs[i], canvasHeight)
  {
    ScreenDrawsLayout(target, source, vs, canvasHeight);
  }

  /** The number of draws among some commands. */
  function DrawCount(cmds: seq<Command>): nat
    decreases |cmds|
  {
    if cmds == [] then 0 else (if cmds[0].Draw? then 1 else 0) + DrawCount(cmds[1..])
  }

  lemma {:induction false} DrawCountAppend(a: seq<Command>, b: seq<Command>)
    ensures DrawCount(a + b) == DrawCount(a) + DrawCount(b)
    decreases |a|
  {
    if a != [] {
      assert (a + b)[1..] == a[1..] + b;
      DrawCountAppend(a[1..], b);
    } else {
      assert a + b == b;
    }
  }

  /** Two draws per screen. */
  lemma {:induction false} ScreenDrawsCount(target: Handle, source: Handle, vs: seq<ScreenData>, canvasHeight: nat)
    ensures DrawCount(ScreenDraws(target, source, vs, canvasHeight)) == 2 * |vs|
    decreases |vs|
  {
    if vs != [] {
      var last := vs[|vs| - 1];
      var pair := [FeedbackQuad(target, source, last, canvasHeight), ColorQuad(target, last, canvasHeight)];
      ScreenDrawsCount(target, source, vs[..|vs| - 1], canvasHeight);
      DrawCountAppend(ScreenDraws(target, source, vs[..|vs| - 1], canvasHeight), pair);
      assert pair[1..][1..] == [];
      assert DrawCount(pair[1..]) == 1;
      assert DrawCount(pair) == 2;
    }
  }

  /** A frame issues exactly two draws per screen. */
  lemma FrameDrawCount(target: Handle, source: Handle, vs: seq<ScreenData>, canvasHeight: nat)
    ensures DrawCount(FrameCommands(target, source, vs, canvasHeight)) == 2 * |vs|
  {
    var draws := ScreenDraws(target, source, vs, canvasHeight);
    ScreenDrawsCount(target, source, vs, canvasHeight);
    DrawCountAppend(Prologue(target) + draws, [Bind(Window)]);
    DrawCountAppend(Prologue(target), draws);
    var p := Prologue(target);
    assert p[1..][1..][1..] == [];
    assert DrawCount(p[1..][1..]) == 0;
    assert DrawCount(p[1..]) == 0;
    assert DrawCount(p) == 0;
    assert [Bind(Window)][1..] == [];
    assert DrawCount([Bind(Window)]) == 0;
  }

  /** When target and source differ, every draw of a frame goes into the
      target, and a draw that samples a texture samples the source: no draw
      reads the texture it writes. */
  lemma FrameNeverSamplesItsTarget(target: Handle, source: Handle, vs: seq<ScreenData>, canvasHeight: nat)
    requires target != source
    ensures forall c :: c in FrameCommands(target, source, vs, canvasHeight) && c.Draw? ==>
      c.drawTarget == Offscreen(target) && (c.sampled.Some? ==> c.sampled.value == source != target)
  {
    var cmds := FrameCommands(target, source, vs, canvasHeight);
    FrameLayout(target, source, vs, canvasHeight);
    forall c | c in cmds && c.Draw?
      ensures c.drawTarget == Offscreen(target) && (c.sampled.Some? ==> c.sampled.value == source)
    {
      var k :| 0 <= k < |cmds| && cmds[k] == c;
      assert 3 <= k < |cmds| - 1;
      var i := (k - 3) / 2;
      assert 0 <= i < |vs|;
      if k == 3 + 2 * i {
        assert c == FeedbackQuad(target, source, vs[i], canvasHeight);
      } else {
        assert c == ColorQuad(target, vs[i], canvasHeight);
      }
    }
  }

  /** What `renderCurrentFrame` issues: the window cleared to opaque black and
      the given texture drawn over the whole canvas with straight alpha. */
  function PresentCommands(texture: Handle, canvasWidth: nat, canvasHeight: nat): seq<Command>
  {
    [ Bind(Window), Clear(Window, OPAQUE_BLACK), SetBlend(StraightAlpha),
      Draw(Window, TextureProgram, Some(texture), OPAQUE_WHITE, [Scale(canvasWidth as real, canvasHeight as real)]) ]
  }

  class FractalManager {
    const width: nat
    const height: nat
    var currentTexture: Handle
    var previousTexture: Handle
    ghost var log: seq<Command>
    ghost var currentImage: Image
    ghost var previousImage: Image

    /** The two roles are held by two different textures. */
    ghost predicate Valid()
      reads this
    {
      currentTexture != previousTexture
    }

    /** Takes the two textures just created, and clears the previous one to
        transparent, so that the first frame samples a blank composite. */
    constructor (width: nat, height: nat, current: Handle, previous: Handle)
      requires current != previous
      ensures Valid()
      ensures this.width == width && this.height == height
      ensures currentTexture == current && previousTexture == previous
      ensures log == [Bind(Offscreen(previous)), Clear(Offscreen(previous), TRANSPARENT)]
      ensures currentImage == Undefined && previousImage == Blank
    {
      this.width, this.height := width, height;
      currentTexture, previousTexture := current, previous;
      log := [Bind(Offscreen(previous)), Clear(Offscreen(previous), TRANSPARENT)];
      currentImage, previousImage := Undefined, Blank;
    }

    /** Composites one frame into the current texture and swaps the roles.
        Returns the texture just rendered into, which now holds the screens
        drawn over the previous composite. */
    method ProcessFrame(screens: seq<Screen>) returns (h: Handle)
      requires Valid()
      modifies this`log, this`currentTexture, this`previousTexture, this`currentImage, this`previousImage
      ensures Valid()
      ensures currentTexture == old(previousTexture) && previousTexture == old(currentTexture)
      ensures h == old(currentTexture) && h == previousTexture && h != old(previousTexture)
      ensures log == old(log) + FrameCommands(old(currentTexture), old(previousTexture), old(Snapshot(screens)), height)
      ensures previousImage == Composite(old(previousImage), old(Snapshot(screens)))
      ensures currentImage == old(previousImage)
    {
      var target := currentTexture;
      ghost var start := log;
      log := log + Prologue(target);
      DrawScreens(screens, target);
      log := log + [Bind(Window)];
      FrameCommandsAfter(start, target, previousTexture, old(Snapshot(screens)), height);
      currentTexture, previousTexture := previousTexture, currentTexture;
      currentImage, previousImage := previousImage, Composite(previousImage, old(Snapshot(screens)));
      h := previousTexture;
    }

    /** The compositing loop: every screen, first to last, drawn into the
        target over the previous composite. */
    method DrawScreens(screens: seq<Screen>, target: Handle)
      modifies this`log
      ensures log == old(log) + ScreenDraws(target, previousTexture, old(Snapshot(screens)), height)
    {
      ghost var vs := Snapshot(screens);
      var i := 0;
      while i < |screens|
        invariant 0 <= i <= |screens|
        invariant log == old(log) + ScreenDraws(target, previousTexture, vs[..i], height)
      {
        assert screens[i].Data() == vs[i];
        DrawScreen(screens[i], target);
        ScreenDrawsSnoc(target, previousTexture, vs, i, height);
        i := i + 1;
      }
      assert vs[..i] == vs;
    }

    /** One iteration of the compositing loop: the previous composite sampled
        into the screen's quad, then the screen's tint drawn over it with
        premultiplied alpha, both under the screen's model transform. */
    method DrawScreen(s: Screen, target: Handle)
      modifies this`log
      ensures log == old(log) + [FeedbackQuad(target, previousTexture, s.Data(), height), ColorQuad(target, s.Data(), height)]
    {
      var model := [ Translate(s.GetX(), height as real - s.GetY()),
                     Rotate(-s.GetRotation() + 180.0),
                     Translate(s.GetWidth() as real / 2.0, -(s.GetHeight() as real) / 2.0),
                     Scale(-(s.GetWidth() as real), s.GetHeight() as real) ];
      log := log + [Draw(Offscreen(target), TextureProgram, Some(previousTexture), OPAQUE_WHITE, model)];
      var color := s.GetColor();
      var alpha := color.a as real / 255.0;
      var uniform := Rgba(color.r as real / 255.0 * alpha, color.g as real / 255.0 * alpha,
                          color.b as real / 255.0 * alpha, alpha);
      assert uniform == Premultiplied(color);
      log := log + [Draw(Offscreen(target), ColorProgram, None, uniform, model)];
    }

    /** Draws the last finished composite over the whole window; neither
        texture changes role. */
    method RenderCurrentFrame()
      modifies this`log
      ensures log == old(log) + PresentCommands(previousTexture, width, height)
      ensures currentTexture == old(currentTexture) && previousTexture == old(previousTexture)
    {
      log := log + PresentCommands(previousTexture, width, height);
    }
  }

  /** Two frames in a row: each returns the texture it rendered into, the
      two differ, and the roles end where they started. */
  method TwoFrames(fm: FractalManager, screens: seq<Screen>) returns (first: Handle, second: Handle)
    requires fm.Valid()
    modifies fm
    ensures fm.Valid()
    ensures first == old(fm.currentTexture) && second == old(fm.previousTexture) && first != second
    ensures fm.currentTexture == old(fm.currentTexture) && fm.previousTexture == old(fm.previousTexture)
  {
    first := fm.ProcessFrame(screens);
    second := fm.ProcessFrame(screens);
  }
}
