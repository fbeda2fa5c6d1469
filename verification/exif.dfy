/** The Orientation field (tag 274) of TIFF Revision 6.0, Section 8 "Baseline
    Fields", which Exif 2.3 adopts in section 4.6.4 ("TIFF Rev. 6.0 Attribute
    Information"), and the enumeration the resolver casts its first byte to. */
module Exif {
  import opened Runtime

  /** An unsigned 8-bit value: the element type of a property item's raw value. */
  newtype Byte = b: int | 0 <= b < 256

  /** The property id under which the orientation is stored (274). */
  const ORIENTATION_PROPERTY_ID: int := 0x112

  /** The eight orientations the tag can record.  Each name gives the visual
      side of the scene that the stored image's 0th row represents, then the
      side its 0th column represents. */
  datatype Orientation =
    | TopLeft
    | TopRight
    | BottomRight
    | BottomLeft
    | LeftTop
    | RightTop
    | RightBottom
    | LeftBottom
  {
    /** The byte that backs this member of the enumeration. */
    function Value(): (b: Byte)
      ensures 1 <= b <= 8
      ensures b == 1 <==> this == TopLeft
    {
      match this
      case TopLeft => 1
      case TopRight => 2
      case BottomRight => 3
      case BottomLeft => 4
      case LeftTop => 5
      case RightTop => 6
      case RightBottom => 7
      case LeftBottom => 8
    }
  }

  /** The cast of a byte to `Orientation` followed by the `Enum.IsDefined`
      test: the member backed by `b`, or nothing when no member is. */
  function OrientationOf(b: Byte): (r: Option<Orientation>)
    ensures r.Some? <==> 1 <= b <= 8
    ensures r.Some? ==> r.value.Value() == b
  {
    match b
    case 1 => Some(TopLeft)
    case 2 => Some(TopRight)
    case 3 => Some(BottomRight)
    case 4 => Some(BottomLeft)
    case 5 => Some(LeftTop)
    case 6 => Some(RightTop)
    case 7 => Some(RightBottom)
    case 8 => Some(LeftBottom)
    case _ => None
  }

  /** Casting a member's byte back yields that member: the enumeration and
      its backing bytes are in one-to-one correspondence. */
  lemma OrientationOfValue(o: Orientation)
    ensures OrientationOf(o.Value()) == Some(o)
  {
  }
}
