/** An independent reference for what the transforms mean.  It tracks where
    the stored image's 0th row and 0th column appear on screen, and it takes
    from the TIFF Revision 6.0 definition of the Orientation field where each
    orientation says they belong. */
module Geometry {
  import opened Exif
  import opened Drawing

  /** A side of the displayed image. */
  datatype Side = Top | Right | Bottom | Left

  /** Where a side goes under a quarter turn clockwise. */
  function Clockwise(s: Side): Side
  {
    match s
    case Top => Right
    case Right => Bottom
    case Bottom => Left
    case Left => Top
  }

  /** Where a side goes under `n` quarter turns clockwise. */
  function Turned(s: Side, n: nat): Side
    decreases n
  {
    if n == 0 then s else Turned(Clockwise(s), n - 1)
  }

  /** Where a side goes under a horizontal flip: left and right swap. */
  function Mirrored(s: Side): Side
  {
    match s
    case Left => Right
    case Right => Left
    case _ => s
  }

  /** Where a side goes under a transform: rotate first, then flip. */
  function Move(t: RotateFlipType, s: Side): Side
  {
    var turned := Turned(s, t.QuarterTurns());
    if t.FlipsX() then Mirrored(turned) else turned
  }

  /** The displayed sides on which the stored 0th row and the stored 0th
      column lie. */
  datatype Frame = Frame(row: Side, column: Side)

  /** The stored pixels shown as they are: 0th row on top, 0th column left. */
  const Upright := Frame(Top, Left)

  function Apply(t: RotateFlipType, f: Frame): Frame
  {
    Frame(Move(t, f.row), Move(t, f.column))
  }

  /** The frame shown after the pixel transforms recorded in `calls` have
      been applied, in order, to the stored pixels. */
  function Displayed(calls: seq<Call>): Frame
  {
    if |calls| == 0 then Upright
    else
      var before := Displayed(calls[..|calls| - 1]);
      match calls[|calls| - 1]
      case RotateFlipCall(t) => Apply(t, before)
      case RemovePropertyItemCall(_) => before
  }

  /** Where TIFF Revision 6.0 says the 0th row and 0th column belong for a
      given orientation: the member's name spells out both sides. */
  function Described(o: Orientation): Frame
  {
    match o
    case TopLeft => Frame(Top, Left)
    case TopRight => Frame(Top, Right)
    case BottomRight => Frame(Bottom, Right)
    case BottomLeft => Frame(Bottom, Left)
    case LeftTop => Frame(Left, Top)
    case RightTop => Frame(Right, Top)
    case RightBottom => Frame(Right, Bottom)
    case LeftBottom => Frame(Left, Bottom)
  }

  /** Applying `t` to pixels stored with orientation `o` puts the 0th row and
      the 0th column where the tag says they belong. */
  predicate Corrects(t: RotateFlipType, o: Orientation)
  {
    Apply(t, Upright) == Described(o)
  }

  /** Only the top-left orientation is already displayed correctly. */
  lemma DescribedUprightIffTopLeft(o: Orientation)
    ensures Described(o) == Upright <==> o == TopLeft
  {
  }

  /** Distinct orientations describe distinct frames. */
  lemma DescribedInjective(o1: Orientation, o2: Orientation)
    ensures Described(o1) == Described(o2) ==> o1 == o2
  {
  }

  /** A frame a picture can actually be shown in: the 0th row and the 0th
      column lie on neighbouring sides. */
  predicate Proper(f: Frame)
  {
    f.column == Clockwise(f.row) || f.row == Clockwise(f.column)
  }

  /** Every transform maps a proper frame to a proper frame. */
  lemma ApplyProper(t: RotateFlipType, f: Frame)
    requires Proper(f)
    ensures Proper(Apply(t, f))
  {
  }

  /** Whatever transforms were recorded, the picture is shown in a proper
      frame. */
  lemma {:induction false} DisplayedProper(calls: seq<Call>)
    ensures Proper(Displayed(calls))
  {
    if |calls| > 0 {
      DisplayedProper(calls[..|calls| - 1]);
      if calls[|calls| - 1].RotateFlipCall? {
        ApplyProper(calls[|calls| - 1].transform, Displayed(calls[..|calls| - 1]));
      }
    }
  }

  /** On a proper frame, only the identity transform leaves it in place. */
  lemma FixedFrameOnlyIdentity(t: RotateFlipType, f: Frame)
    requires Proper(f)
    ensures Apply(t, f) == f <==> t == RotateNoneFlipNone
  {
  }

  /** Each orientation is corrected by exactly one transform. */
  lemma CorrectorUnique(t1: RotateFlipType, t2: RotateFlipType, o: Orientation)
    requires Corrects(t1, o) && Corrects(t2, o)
    ensures t1 == t2
  {
  }

  /** Each transform corrects exactly one orientation. */
  lemma CorrectedUnique(t: RotateFlipType, o1: Orientation, o2: Orientation)
    requires Corrects(t, o1) && Corrects(t, o2)
    ensures o1 == o2
  {
    DescribedInjective(o1, o2);
  }
}
