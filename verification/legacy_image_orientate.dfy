/** The older resolver: an instance class that stores the image it is given
    and returns nothing.  Its single `catch` handles only
    `InvalidOperationException`, so the top-left `FormatException` and a
    failed tag removal's `ArgumentException` escape to the caller. */
module LegacyImageOrientate {
  import opened Runtime
  import opened Exif
  import opened Drawing
  import opened Geometry
  import Newer = ImageOrientate

  /** The resolver object: its one field is the image being worked on,
      unset until `Process` is called. */
  datatype Orientator = Orientator(image: Option<Image>)

  /** A call of `Process` on a resolver object: the object afterwards, and
      whether the call returned or threw. */
  datatype Invocation = Invocation(receiver: Orientator, outcome: Result<()>)

  /** This copy's transform table, written out as its own chain of tests. */
  function GetTransformation(o: Orientation): (r: Result<RotateFlipType>)
    ensures r.Throw? <==> o == TopLeft
    ensures r.Throw? ==> r.exception == FormatException
    ensures r.Ok? ==> Corrects(r.value, o)
  {
    if o == TopRight then Ok(RotateNoneFlipX)
    else if o == BottomRight then Ok(Rotate180FlipNone)
    else if o == BottomLeft then Ok(Rotate180FlipX)
    else if o == LeftTop then Ok(Rotate90FlipX)
    else if o == RightTop then Ok(Rotate90FlipNone)
    else if o == RightBottom then Ok(Rotate270FlipX)
    else if o == LeftBottom then Ok(Rotate270FlipNone)
    else assert o.TopLeft?; Throw(FormatException)
  }

  /** This copy's tag reader: a missing tag and an undefined first byte both
      become `InvalidOperationException`; an empty value fails on indexing. */
  function GetOrientation(image: Image): (r: Result<Orientation>)
    ensures r.Ok? <==> Newer.TagByte(image).Some? && 1 <= Newer.TagByte(image).value <= 8
    ensures r.Ok? ==> r.value.Value() == image.properties[ORIENTATION_PROPERTY_ID][0]
    ensures r == Throw(IndexOutOfRangeException) <==> Newer.HasEmptyTag(image)
    ensures r.Throw? ==> r.exception in {InvalidOperationException, IndexOutOfRangeException}
  {
    match GetPropertyItem(image, ORIENTATION_PROPERTY_ID)
    case Throw(ArgumentException) => Throw(InvalidOperationException)
    case Throw(e) => Throw(e)
    case Ok(value) =>
      if |value| == 0 then Throw(IndexOutOfRangeException)
      else
        match OrientationOf(value[0])
        case None => Throw(InvalidOperationException)
        case Some(o) => Ok(o)
  }

  /** Orientates the stored image.  Only `InvalidOperationException` (no
      valid tag) is caught; every other exception escapes, leaving the image
      as far as the `try` block got: a failed removal leaves the pixels
      transformed. */
  function Orientate(self: Orientator): (r: Run<()>)
    requires self.image.Some?
    ensures var image := self.image.value;
      && (r.outcome == Ok(()) <==>
            (Newer.NeedsTransform(image) && image.removable)
            || ORIENTATION_PROPERTY_ID !in image.properties
            || (Newer.TagByte(image).Some? && !(1 <= Newer.TagByte(image).value <= 8)))
      && (r.outcome == Throw(FormatException) <==> Newer.TagByte(image) == Some(1))
      && (r.outcome == Throw(ArgumentException) <==> Newer.NeedsTransform(image) && !image.removable)
      && (r.outcome == Throw(IndexOutOfRangeException) <==> Newer.HasEmptyTag(image))
      && (!Newer.NeedsTransform(image) ==> r.image == image)
      && (Newer.NeedsTransform(image) ==> Newer.TransformedThenUntagged(image, r.image))
  {
    var image := self.image.value;
    var body :=
      match GetOrientation(image)
      case Throw(e) => Run(Throw(e), image)
      case Ok(o) =>
        match GetTransformation(o)
        case Throw(e) => Run(Throw(e), image)
        case Ok(t) => RemovePropertyItem(RotateFlip(image, t), ORIENTATION_PROPERTY_ID);
    match body.outcome
    case Throw(InvalidOperationException) => Run(Ok(()), body.image)
    case _ => body
  }

  /** Stores the image in the object and orientates it.  The object ends up
      holding the (possibly transformed) image and nothing else changes. */
  function Process(self: Orientator, image: Image): (r: Invocation)
    ensures r.receiver.image.Some?
    ensures var after := r.receiver.image.value;
      && (!Newer.NeedsTransform(image) ==> after == image)
      && (Newer.NeedsTransform(image) ==> Newer.TransformedThenUntagged(image, after))
    ensures r.outcome.Throw? <==>
      Newer.HasEmptyTag(image) || Newer.TagByte(image) == Some(1)
      || (Newer.NeedsTransform(image) && !image.removable)
    ensures r.outcome.Throw? ==> r.outcome.exception != InvalidOperationException
    ensures r.outcome == Throw(FormatException) <==> Newer.TagByte(image) == Some(1)
    ensures r.outcome == Throw(ArgumentException) <==> Newer.NeedsTransform(image) && !image.removable
    ensures r.outcome == Throw(IndexOutOfRangeException) <==> Newer.HasEmptyTag(image)
  {
    var stored := self.(image := Some(image));
    var run := Orientate(stored);
    Invocation(stored.(image := Some(run.image)), run.outcome)
  }

  /** Both copies use the same table. */
  lemma SameTable(o: Orientation)
    ensures GetTransformation(o) == Newer.GetTransformation(o)
  {
  }

  /** Both copies read the tag the same way. */
  lemma SameReader(image: Image)
    ensures GetOrientation(image) == Newer.GetOrientation(image)
  {
  }

  /** The two copies do the same thing to the image; they differ only in
      what they report.  Where the older one returns normally the newer one
      returns a boolean; the exceptions the older one lets out from the
      top-left case and from a failed removal the newer one turns into false
      and true; an empty tag value escapes from both. */
  lemma AgreesWithNewer(self: Orientator, image: Image)
    ensures var older := Process(self, image);
      var newer := Newer.Process(image);
      && older.receiver.image == Some(newer.image)
      && (older.outcome.Ok? ==> newer.outcome.Ok?)
      && (older.outcome == Throw(FormatException) ==> newer.outcome == Ok(false))
      && (older.outcome == Throw(ArgumentException) ==> newer.outcome == Ok(true))
      && (newer.outcome.Throw? <==> older.outcome == Throw(IndexOutOfRangeException))
  {
  }
}
