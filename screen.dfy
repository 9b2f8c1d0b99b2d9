/** A placed rectangular feedback window (`Screen`): centre, integer size,
    rotation in degrees and an RGBA colour, updated in place by its setters
    and by `rotate`. */
module Screens {
  import opened Config

  /** The value of a screen's fields at one moment. */
  datatype ScreenData = ScreenData(x: real, y: real, width: int, height: int, rotation: real, color: Color)

  /** Width times height, the measure the selection rule compares. */
  function Area(s: ScreenData): int
  {
    s.width * s.height
  }

  /** The rotation `rotate(degrees)` stores: `fmod(rotation + degrees, 360)`,
      which is neither normalised to [0, 360) nor of fixed sign. */
  function Rotated(rotation: real, degrees: real): (r: real)
    ensures -FULL_TURN < r < FULL_TURN
    ensures rotation + degrees >= 0.0 ==> r >= 0.0
    ensures rotation + degrees <= 0.0 ==> r <= 0.0
    ensures exists k: int :: rotation + degrees - r == Turns(k)
  {
    var k := Trunc((rotation + degrees) / FULL_TURN);
    assert rotation + degrees - FModTurn(rotation + degrees) == Turns(k);
    FModTurn(rotation + degrees)
  }

  /** Rotating by zero leaves any rotation that `rotate` can produce as it is. */
  lemma RotateByZero(rotation: real)
    requires -FULL_TURN < rotation < FULL_TURN
    ensures Rotated(rotation, 0.0) == rotation
  {
    FModTurnOfSmall(rotation);
  }

  /** Rotating by a whole number of turns from a rotation of zero gives back
      zero: the wrap discards full turns. */
  lemma RotateFullTurns(k: int)
    ensures Rotated(0.0, FULL_TURN * k as real) == 0.0
  {
    FModTurnUnique(FULL_TURN * k as real, 0.0, k);
  }

  class Screen {
    var xCoord: real
    var yCoord: real
    var origWidth: int
    var origHeight: int
    var rotation: real
    var color: Color

    /** The current value of every field. */
    function Data(): ScreenData
      reads this
    {
      ScreenData(xCoord, yCoord, origWidth, origHeight, rotation, color)
    }

    function GetX(): real reads this { xCoord }
    function GetY(): real reads this { yCoord }
    function GetWidth(): int reads this { origWidth }
    function GetHeight(): int reads this { origHeight }
    function GetRotation(): real reads this { rotation }
    function GetColor(): Color reads this { color }

    /** Stores every argument as given; the getters return them unchanged. */
    constructor (x: real, y: real, width: int, height: int, rotation: real, color: Color)
      ensures GetX() == x && GetY() == y
      ensures GetWidth() == width && GetHeight() == height
      ensures GetRotation() == rotation && GetColor() == color
    {
      xCoord, yCoord := x, y;
      origWidth, origHeight := width, height;
      this.rotation, this.color := rotation, color;
    }

    method SetX(x: real)
      modifies this
      ensures Data() == old(Data()).(x := x)
    {
      xCoord := x;
    }

    method SetY(y: real)
      modifies this
      ensures Data() == old(Data()).(y := y)
    {
      yCoord := y;
    }

    method SetWidth(width: int)
      modifies this
      ensures Data() == old(Data()).(width := width)
    {
      origWidth := width;
    }

    method SetHeight(height: int)
      modifies this
      ensures Data() == old(Data()).(height := height)
    {
      origHeight := height;
    }

    method SetRotation(rot: real)
      modifies this
      ensures Data() == old(Data()).(rotation := rot)
    {
      rotation := rot;
    }

    method SetColor(col: Color)
      modifies this
      ensures Data() == old(Data()).(color := col)
    {
      color := col;
    }

    /** The outline colour: this screen's red, green and blue with the fixed
        outline alpha. */
    function GetOutlineColor(): (o: Color)
      reads this
      ensures o.r == color.r && o.g == color.g && o.b == color.b
      ensures o.a == OUTLINE_ALPHA
    {
      Color(color.r, color.g, color.b, OUTLINE_ALPHA)
    }

    /** The outline colour while resizing: alpha raised by the scale
        increase, capped at 255 so that it stays a channel value. */
    function GetScaleOutlineColor(): (o: Color)
      reads this
      ensures o.r == color.r && o.g == color.g && o.b == color.b
      ensures o.a as int == Min(255, OUTLINE_ALPHA as int + OUTLINE_SCALE_INCREASE as int)
      ensures OUTLINE_ALPHA < o.a <= 255
    {
      Color(color.r, color.g, color.b, Min(255, OUTLINE_ALPHA as int + OUTLINE_SCALE_INCREASE as int))
    }

    /** Adds `degrees` to the rotation and wraps it with `fmod`; position,
        size and colour are untouched. */
    method Rotate(degrees: real)
      modifies this
      ensures Data() == old(Data()).(rotation := Rotated(old(rotation), degrees))
      ensures -FULL_TURN < rotation < FULL_TURN
    {
      rotation := FModTurn(rotation + degrees);
    }
  }

  /** The values of a sequence of screens, in order. */
  function Snapshot(ss: seq<Screen>): (vs: seq<ScreenData>)
    reads ss
    ensures |vs| == |ss|
    ensures forall i :: 0 <= i < |ss| ==> vs[i] == ss[i].Data()
  {
    if ss == [] then [] else Snapshot(ss[..|ss| - 1]) + [ss[|ss| - 1].Data()]
  }

  /** Screens whose fields did not change have the same values. */
  twostate lemma SnapshotUnchanged(ss: seq<Screen>)
    requires forall i :: 0 <= i < |ss| ==> unchanged(ss[i])
    ensures Snapshot(ss) == old(Snapshot(ss))
  {
    assert forall i :: 0 <= i < |ss| ==> Snapshot(ss)[i] == old(Snapshot(ss))[i];
  }

  /** When only one screen changed, only its value changed. */
  twostate lemma SnapshotUpdated(ss: seq<Screen>)
    ensures forall k ::
      (0 <= k < |ss| && forall i :: 0 <= i < |ss| && i != k ==> ss[i] != ss[k] && unchanged(ss[i])) ==>
      Snapshot(ss) == old(Snapshot(ss))[k := ss[k].Data()]
  {
    forall k | 0 <= k < |ss| && (forall i :: 0 <= i < |ss| && i != k ==> ss[i] != ss[k] && unchanged(ss[i]))
      ensures Snapshot(ss) == old(Snapshot(ss))[k := ss[k].Data()]
    {
      var now, before := Snapshot(ss), old(Snapshot(ss));
      forall i | 0 <= i < |ss|
        ensures now[i] == before[k := ss[k].Data()][i]
      {
        if i != k {
          assert unchanged(ss[i]);
        }
      }
    }
  }
}
