/** The part of the imaging library the resolver calls, as an abstract image
    handle.  Pixels are not represented: the handle records which mutating
    calls were made on it, in order, and the pixel buffer is whatever those
    transforms made of the stored one. */
module Drawing {
  import opened Runtime
  import opened Exif

  /** The library's rotate/flip transforms: a clockwise rotation by a number
      of quarter turns, optionally followed by a horizontal flip. */
  datatype RotateFlipType =
    | RotateNoneFlipNone
    | Rotate90FlipNone
    | Rotate180FlipNone
    | Rotate270FlipNone
    | RotateNoneFlipX
    | Rotate90FlipX
    | Rotate180FlipX
    | Rotate270FlipX
  {
    /** Clockwise quarter turns performed first. */
    function QuarterTurns(): (n: nat)
      ensures n < 4
    {
      match this
      case RotateNoneFlipNone => 0
      case RotateNoneFlipX => 0
      case Rotate90FlipNone => 1
      case Rotate90FlipX => 1
      case Rotate180FlipNone => 2
      case Rotate180FlipX => 2
      case Rotate270FlipNone => 3
      case Rotate270FlipX => 3
    }

    /** Whether a horizontal flip follows the rotation. */
    predicate FlipsX()
    {
      this in {RotateNoneFlipX, Rotate90FlipX, Rotate180FlipX, Rotate270FlipX}
    }
  }

  /** A mutating call on an image, as the handle records it. */
  datatype Call =
    | RotateFlipCall(transform: RotateFlipType)
    | RemovePropertyItemCall(id: int)

  /** An image handle: its metadata property items by id, the mutating calls
      made on it so far, and whether the library accepts removing a property
      item from it. */
  datatype Image = Image(properties: map<int, seq<Byte>>, calls: seq<Call>, removable: bool)

  /** The outcome of running code against an image, with the image as that
      code left it (also when it threw). */
  datatype Run<+T> = Run(outcome: Result<T>, image: Image)

  /** Reads a property item; a missing id raises `ArgumentException`. */
  function GetPropertyItem(image: Image, id: int): Result<seq<Byte>>
  {
    if id in image.properties then Ok(image.properties[id]) else Throw(ArgumentException)
  }

  /** Transforms the pixel buffer in place; it never fails. */
  function RotateFlip(image: Image, t: RotateFlipType): Image
  {
    image.(calls := image.calls + [RotateFlipCall(t)])
  }

  /** Removes a property item.  The call is recorded whether or not it
      succeeds; a missing id, or an image the library will not remove items
      from, raises `ArgumentException` and leaves the properties as they were. */
  function RemovePropertyItem(image: Image, id: int): Run<()>
  {
    var attempted := image.(calls := image.calls + [RemovePropertyItemCall(id)]);
    if id in image.properties && image.removable then
      Run(Ok(()), attempted.(properties := image.properties - {id}))
    else
      Run(Throw(ArgumentException), attempted)
  }
}
