/**
  The `transform` record of the Home component and the pure computations
  of a new record that each toolbar handler performs before applying it.
  The record is what the preview renders as
  `rotate(<rotate>deg) scaleX(<scaleX>)` with opacity `<opacity>%`.
 */
module Transforms {

  import opened Wrappers

  /**
    Rotation in whole degrees, horizontal scale and opacity percent. The
    numbers are mathematical integers; the source's are doubles.
   */
  datatype Transform = Transform(rotate: int, scaleX: int, opacity: int)

  /** The record the component starts with, and the one reset and upload record. */
  const Identity: Transform := Transform(0, 1, 100)

  /** The tools of the toolbar, as the tag `selectedTool` remembers. */
  datatype Tool = RotateLeft | RotateRight | RotateDown | Flip | Reset {

    /** The string the handler stores in `selectedTool`; it is one of the toolbar's button ids. */
    function Id(): (id: string)
      ensures id in ToolbarButtonIds
    {
      match this
      case RotateLeft => "rotate-left"
      case RotateRight => "rotate-right"
      case RotateDown => "rotate-down"
      case Flip => "flip"
      case Reset => "reset"
    }
  }

  /** The `id`s of the toolbar buttons, in the order the toolbar lists them. */
  const ToolbarButtonIds: seq<string> := ["rotate-left", "rotate-right", "rotate-down", "flip", "reset"]

  /** A button is highlighted when the stored tag equals its id. */
  predicate Highlighted(selected: Option<Tool>, buttonId: string)
  {
    selected.Some? && selected.value.Id() == buttonId
  }

  /** Distinct tools have distinct ids. */
  lemma ToolIdsDistinct(a: Tool, b: Tool)
    ensures a.Id() == b.Id() <==> a == b
  {
  }

  /**
    After a tool is used, exactly one toolbar button is highlighted: the one
    whose id is that tool's tag. Before any tool is used, none is.
   */
  lemma {:induction false} OneButtonHighlighted(tool: Tool)
    ensures exists j :: 0 <= j < |ToolbarButtonIds| && Highlighted(Some(tool), ToolbarButtonIds[j])
    ensures forall j, k :: 0 <= j < k < |ToolbarButtonIds| ==>
      !(Highlighted(Some(tool), ToolbarButtonIds[j]) && Highlighted(Some(tool), ToolbarButtonIds[k]))
    ensures forall j :: 0 <= j < |ToolbarButtonIds| ==> !Highlighted(None, ToolbarButtonIds[j])
  {
    var j := match tool
      case RotateLeft => 0
      case RotateRight => 1
      case RotateDown => 2
      case Flip => 3
      case Reset => 4;
    assert ToolbarButtonIds[j] == tool.Id();
  }

  /** The new record of `rotateLeft`. */
  function RotatedLeft(t: Transform): (r: Transform)
    ensures VisualAngle(r) == (VisualAngle(t) + 270) % 360
    ensures r.scaleX == t.scaleX && r.opacity == t.opacity
  {
    t.(rotate := t.rotate - 90)
  }

  /** The new record of `rotateRight`. */
  function RotatedRight(t: Transform): (r: Transform)
    ensures VisualAngle(r) == (VisualAngle(t) + 90) % 360
    ensures r.scaleX == t.scaleX && r.opacity == t.opacity
  {
    t.(rotate := t.rotate + 90)
  }

  /** The new record of `rotateDown`. */
  function RotatedDown(t: Transform): (r: Transform)
    ensures VisualAngle(r) == (VisualAngle(t) + 180) % 360
    ensures r.scaleX == t.scaleX && r.opacity == t.opacity
  {
    t.(rotate := t.rotate + 180)
  }

  /**
    The new record of `flipImage`: a scale of exactly 1 becomes -1, and
    every other scale becomes 1. There is a horizontal flip only.
   */
  function Flipped(t: Transform): (r: Transform)
    ensures r.scaleX == 1 || r.scaleX == -1
    ensures r.scaleX == -1 <==> t.scaleX == 1
    ensures r.rotate == t.rotate && r.opacity == t.opacity
  {
    t.(scaleX := if t.scaleX == 1 then -1 else 1)
  }

  /** The new record of `handleOpacityChange` for slider value `v`. */
  function WithOpacity(t: Transform, v: int): (r: Transform)
    ensures r.opacity == v && r.rotate == t.rotate && r.scaleX == t.scaleX
    ensures WellFormed(r) <==> Oriented(t) && 0 <= v <= 100
  {
    t.(opacity := v)
  }

  /** The new record each toolbar tool computes from the current one. */
  function NewTransform(tool: Tool, t: Transform): (r: Transform)
    ensures tool == Reset ==> r == Identity
    ensures tool != Reset ==> r.opacity == t.opacity
    ensures tool != Reset && tool != Flip ==> r.scaleX == t.scaleX
    ensures tool == Flip ==> r.rotate == t.rotate
  {
    match tool
    case RotateLeft => RotatedLeft(t)
    case RotateRight => RotatedRight(t)
    case RotateDown => RotatedDown(t)
    case Flip => Flipped(t)
    case Reset => Identity
  }

  /**
    The records the component can reach: a rotation in steps of 90 degrees,
    a scale of 1 or -1, and an opacity within the slider's range 0..100.
   */
  predicate WellFormed(t: Transform)
  {
    Oriented(t) && 0 <= t.opacity <= 100
  }

  /** A rotation in steps of 90 degrees and a scale of 1 or -1, whatever the opacity. */
  predicate Oriented(t: Transform)
  {
    t.rotate % 90 == 0 && (t.scaleX == 1 || t.scaleX == -1)
  }

  /** The angle the browser shows: CSS rotation is periodic in 360 degrees. */
  function VisualAngle(t: Transform): (a: int)
    ensures 0 <= a < 360
  {
    t.rotate % 360
  }

  /** Each tool moves `rotate` by a fixed amount and `scaleX` and `opacity` not at all (reset excepted). */
  lemma ToolDeltas(t: Transform)
    ensures NewTransform(RotateLeft, t) == t.(rotate := t.rotate - 90)
    ensures NewTransform(RotateRight, t) == t.(rotate := t.rotate + 90)
    ensures NewTransform(RotateDown, t) == t.(rotate := t.rotate + 180)
    ensures NewTransform(Flip, t).rotate == t.rotate && NewTransform(Flip, t).opacity == t.opacity
    ensures NewTransform(Reset, t) == Transform(0, 1, 100)
  {
  }

  /** Rotating left and then right, or right and then left, restores the record. */
  lemma RotateLeftRightInverse(t: Transform)
    ensures RotatedRight(RotatedLeft(t)) == t
    ensures RotatedLeft(RotatedRight(t)) == t
  {
  }

  /** Flipping twice restores the record exactly when its scale is 1 or -1. */
  lemma FlipTwice(t: Transform)
    ensures Flipped(Flipped(t)) == t <==> (t.scaleX == 1 || t.scaleX == -1)
  {
  }

  /** Reset ignores the current record and is the fixed point of itself. */
  lemma ResetIsConstant(t: Transform, u: Transform)
    ensures NewTransform(Reset, t) == NewTransform(Reset, u) == Identity
    ensures NewTransform(Reset, NewTransform(Reset, t)) == NewTransform(Reset, t)
    ensures WellFormed(Identity)
  {
  }

  /**
    Every tool keeps rotation in steps of 90 and the scale at 1 or -1, and
    keeps the opacity, except reset, which restores 100.
   */
  lemma {:induction false} NewTransformOriented(tool: Tool, t: Transform)
    requires Oriented(t)
    ensures Oriented(NewTransform(tool, t))
    ensures NewTransform(tool, t).opacity == if tool == Reset then 100 else t.opacity
  {
    match tool
    case RotateLeft => ShiftKeepsMultiple(t.rotate, -1);
    case RotateRight => ShiftKeepsMultiple(t.rotate, 1);
    case RotateDown => ShiftKeepsMultiple(t.rotate, 2);
    case Flip =>
    case Reset =>
  }

  /** A rotation that is a multiple of 90 stays one after `k` quarter turns. */
  lemma ShiftKeepsMultiple(r: int, k: int)
    requires r % 90 == 0
    ensures (r + 90 * k) % 90 == 0
  {
    var q := r / 90;
    assert r == 90 * q;
    assert r + 90 * k == 90 * (q + k);
  }

  /**
    Seen on screen, rotate-down twice and four quarter turns in one direction
    leave the image where it was, and a left turn looks like three right turns.
   */
  lemma {:induction false} VisualPeriod(t: Transform)
    ensures VisualAngle(RotatedDown(RotatedDown(t))) == VisualAngle(t)
    ensures VisualAngle(RotatedRight(RotatedRight(RotatedRight(RotatedRight(t))))) == VisualAngle(t)
    ensures VisualAngle(RotatedLeft(RotatedLeft(RotatedLeft(RotatedLeft(t))))) == VisualAngle(t)
    ensures VisualAngle(RotatedLeft(t)) == VisualAngle(RotatedRight(RotatedRight(RotatedRight(t))))
  {
    ShiftKeepsAngle(t.rotate, 1);
    ShiftKeepsAngle(t.rotate, -1);
    ShiftKeepsAngle(t.rotate - 90, 1);
  }

  /** Adding whole turns does not change the visual angle. */
  lemma ShiftKeepsAngle(r: int, k: int)
    ensures (r + 360 * k) % 360 == r % 360
  {
    var q := r / 360;
    assert r == 360 * q + r % 360;
    assert r + 360 * k == 360 * (q + k) + r % 360;
  }
}
