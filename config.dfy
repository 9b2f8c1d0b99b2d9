/** Configuration constants of the visualizer, the SDL colour record, and the
    two C++ numeric conversions the program relies on: `static_cast<int>` of a
    floating value (truncation toward zero) and `fmod` (remainder with the sign
    of the dividend). Floating values are modelled as exact reals. */
module Config {

  /** An 8-bit colour channel (`Uint8`). */
  type Channel = c: int | 0 <= c <= 255

  /** `SDL_Color`: red, green, blue and alpha channels. */
  datatype Color = Color(r: Channel, g: Channel, b: Channel, a: Channel)

  const DEFAULT_SCREEN_COLOR: Color := Color(66, 135, 245, 15)
  const INITIAL_SCREEN_SIZE_RATIO: real := 0.25
  const OUTLINE_ALPHA: Channel := 40
  const OUTLINE_SCALE_INCREASE: Channel := 40
  const SCALE_FACTOR_UP: real := 1.05
  const SCALE_FACTOR_DOWN: real := 0.95
  const MIN_SCREEN_SIZE: int := 0
  const MAX_SCREEN_RATIO: real := 1.0
  const ROTATION_SPEED: real := 1.0
  const COLOR_ROTATION_SPEED: real := 0.002
  const BRIGHTNESS_CYCLE_SPEED: real := 0.01
  const ALPHA_CHANGE_SPEED: real := 0.1
  const MAX_SCREEN_ALPHA: Channel := 100
  const DEV_TOOLS: bool := true

  /** Smallest dimension the mouse-wheel scaling clamps to. */
  const MIN_SCALED_SIZE: int := 10

  function Min(a: int, b: int): int { if a < b then a else b }
  function Max(a: int, b: int): int { if a < b then b else a }

  /** `static_cast<int>(x)`: truncation toward zero. */
  function Trunc(x: real): (n: int)
    ensures x >= 0.0 ==> 0 <= n && n as real <= x < n as real + 1.0
    ensures x < 0.0 ==> n <= 0 && n as real - 1.0 < x <= n as real
  {
    if x >= 0.0 then x.Floor else -((-x).Floor)
  }

  /** Truncation is the identity on values that are already whole. */
  lemma TruncOfWhole(n: int)
    ensures Trunc(n as real) == n
  {
  }

  /** One full turn, the modulus of every `fmod` on a rotation. */
  const FULL_TURN: real := 360.0

  /** k whole turns, in degrees. */
  function Turns(k: int): real
  {
    FULL_TURN * k as real
  }

  /** `fmod(x, 360)`: x minus the whole number of turns that truncation of
      x / 360 gives. The result lies strictly between -360 and 360 and carries
      the sign of x (or is zero). */
  function FModTurn(x: real): (r: real)
    ensures -FULL_TURN < r < FULL_TURN
    ensures x >= 0.0 ==> r >= 0.0
    ensures x <= 0.0 ==> r <= 0.0
  {
    var k := Trunc(x / FULL_TURN);
    assert x >= 0.0 ==> 0.0 <= k as real <= x / FULL_TURN < k as real + 1.0;
    assert x < 0.0 ==> k as real - 1.0 < x / FULL_TURN <= k as real;
    x - FULL_TURN * k as real
  }

  /** `fmod(x, 360)` is characterised by those properties: any value in
      (-360, 360) with the sign of x that differs from x by a whole number of
      turns is `fmod(x, 360)`. */
  lemma FModTurnUnique(x: real, r: real, k: int)
    requires -FULL_TURN < r < FULL_TURN
    requires x >= 0.0 ==> r >= 0.0
    requires x <= 0.0 ==> r <= 0.0
    requires x - r == FULL_TURN * k as real
    ensures r == FModTurn(x)
  {
    var j := Trunc(x / FULL_TURN);
    // Both values lie on the same side of zero, so they are less than one
    // turn apart, yet they differ by a whole number of turns.
    assert FModTurn(x) - r == FULL_TURN * (k - j) as real;
  }

  /** A rotation already strictly inside (-360, 360) is its own `fmod`. */
  lemma FModTurnOfSmall(x: real)
    requires -FULL_TURN < x < FULL_TURN
    ensures FModTurn(x) == x
  {
    FModTurnUnique(x, x, 0);
  }

  /** `fmod(x, 1)`: the fractional part with the sign of x. */
  function FModOne(x: real): (f: real)
    ensures x >= 0.0 ==> 0.0 <= f < 1.0
    ensures x < 0.0 ==> -1.0 < f <= 0.0
    ensures x - f == Trunc(x) as real
  {
    x - Trunc(x) as real
  }

  /** Between 0 and 2, `fmod(x, 1)` removes one whole unit exactly when x
      has reached 1. */
  lemma FModOneBelowTwo(x: real)
    ensures 0.0 <= x < 1.0 ==> FModOne(x) == x
    ensures 1.0 <= x < 2.0 ==> FModOne(x) == x - 1.0
  {
    if 0.0 <= x < 1.0 {
      assert Trunc(x) == 0;
    } else if 1.0 <= x < 2.0 {
      assert Trunc(x) == 1;
    }
  }
}
