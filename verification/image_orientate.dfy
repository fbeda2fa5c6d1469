/** The newer resolver: a static class whose `Process` reports whether the
    image was altered, turning every anticipated exception into a boolean. */
module ImageOrientate {
  import opened Runtime
  import opened Exif
  import opened Drawing
  import opened Geometry

  /** The first byte of the orientation tag's value, when the tag is present
      and its value is not empty. */
  function TagByte(image: Image): Option<Byte>
  {
    if ORIENTATION_PROPERTY_ID in image.properties && |image.properties[ORIENTATION_PROPERTY_ID]| > 0
    then Some(image.properties[ORIENTATION_PROPERTY_ID][0])
    else None
  }

  /** The tag is present but its value holds no bytes at all. */
  predicate HasEmptyTag(image: Image)
  {
    ORIENTATION_PROPERTY_ID in image.properties && |image.properties[ORIENTATION_PROPERTY_ID]| == 0
  }

  /** The tag names an orientation other than top-left. */
  predicate NeedsTransform(image: Image)
  {
    TagByte(image).Some? && 2 <= TagByte(image).value <= 8
  }

  /** The orientation the tag names, when it names one. */
  function TagOrientation(image: Image): Orientation
    requires TagByte(image).Some? && 1 <= TagByte(image).value <= 8
  {
    OrientationOf(TagByte(image).value).value
  }

  /** What an alteration does to the handle: exactly one transform, the one
      that corrects the tagged orientation, and after it exactly one attempt
      to remove the tag, which takes the tag away only if the library lets
      it.  Nothing else changes. */
  predicate TransformedThenUntagged(before: Image, after: Image)
    requires NeedsTransform(before)
  {
    var n := |before.calls|;
    && |after.calls| == n + 2
    && after.calls[..n] == before.calls
    && after.calls[n].RotateFlipCall?
    && Corrects(after.calls[n].transform, TagOrientation(before))
    && after.calls[n + 1] == RemovePropertyItemCall(ORIENTATION_PROPERTY_ID)
    && after.removable == before.removable
    && after.properties ==
         if before.removable then before.properties - {ORIENTATION_PROPERTY_ID} else before.properties
  }

  /** Reads the orientation tag.  A missing tag and a first byte no member is
      backed by both become `InvalidOperationException`; an empty value fails
      on indexing its first element, which nothing here catches. */
  function GetOrientation(image: Image): (r: Result<Orientation>)
    ensures r.Ok? <==> TagByte(image).Some? && 1 <= TagByte(image).value <= 8
    ensures r.Ok? ==> r.value.Value() == image.properties[ORIENTATION_PROPERTY_ID][0]
    ensures r == Throw(IndexOutOfRangeException) <==> HasEmptyTag(image)
    ensures r.Throw? ==> r.exception in {InvalidOperationException, IndexOutOfRangeException}
  {
    match GetPropertyItem(image, ORIENTATION_PROPERTY_ID)
    case Throw(ArgumentException) => Throw(InvalidOperationException)
    case Throw(e) => Throw(e)
    case Ok(value) =>
      if |value| == 0 then Throw(IndexOutOfRangeException)
      else
        match OrientationOf(value[0])
        case None => Throw(InvalidOperationException)
        case Some(o) => Ok(o)
  }

  /** The transform that orientates an image stored with orientation `o`;
      top-left needs none and raises `FormatException`. */
  function GetTransformation(o: Orientation): (r: Result<RotateFlipType>)
    ensures r.Throw? <==> o == TopLeft
    ensures r.Throw? ==> r.exception == FormatException
    ensures r.Ok? ==> Corrects(r.value, o)
  {
    if o == TopRight then Ok(RotateNoneFlipX)
    else if o == BottomRight then Ok(Rotate180FlipNone)
    else if o == BottomLeft then Ok(Rotate180FlipX)
    else if o == LeftTop then Ok(Rotate90FlipX)
    else if o == RightTop then Ok(Rotate90FlipNone)
    else if o == RightBottom then Ok(Rotate270FlipX)
    else if o == LeftBottom then Ok(Rotate270FlipNone)
    else assert o.TopLeft?; Throw(FormatException)
  }

  /** The statements of the `try` block: transform the pixels, then remove
      the tag.  The image is returned as far as the block got. */
  function TryBlock(image: Image): Run<()>
  {
    match GetOrientation(image)
    case Throw(e) => Run(Throw(e), image)
    case Ok(o) =>
      match GetTransformation(o)
      case Throw(e) => Run(Throw(e), image)
      case Ok(t) =>
        var rotated := RotateFlip(image, t);
        RemovePropertyItem(rotated, ORIENTATION_PROPERTY_ID)
  }

  /** Orientates an image and reports whether it was altered.
      `ArgumentException` (the tag could not be removed) still reports true;
      `FormatException` (top-left) and `InvalidOperationException` (no valid
      tag) report false; anything else escapes. */
  function Process(image: Image): (r: Run<bool>)
    ensures r.outcome == Ok(true) <==> NeedsTransform(image)
    ensures r.outcome.Throw? <==> HasEmptyTag(image)
    ensures r.outcome.Throw? ==> r.outcome.exception == IndexOutOfRangeException
    ensures !NeedsTransform(image) ==> r.image == image
    ensures NeedsTransform(image) ==> TransformedThenUntagged(image, r.image)
  {
    var body := TryBlock(image);
    match body.outcome
    case Ok(_) => Run(Ok(true), body.image)
    case Throw(ArgumentException) => Run(Ok(true), body.image)
    case Throw(FormatException) => Run(Ok(false), body.image)
    case Throw(InvalidOperationException) => Run(Ok(false), body.image)
    case Throw(e) => Run(Throw(e), body.image)
  }

  /** The seven-entry table, by tag byte. */
  lemma TransformationTable(b: Byte)
    requires 1 <= b <= 8
    ensures b == 1 ==> GetTransformation(OrientationOf(b).value) == Throw(FormatException)
    ensures b == 2 ==> GetTransformation(OrientationOf(b).value) == Ok(RotateNoneFlipX)
    ensures b == 3 ==> GetTransformation(OrientationOf(b).value) == Ok(Rotate180FlipNone)
    ensures b == 4 ==> GetTransformation(OrientationOf(b).value) == Ok(Rotate180FlipX)
    ensures b == 5 ==> GetTransformation(OrientationOf(b).value) == Ok(Rotate90FlipX)
    ensures b == 6 ==> GetTransformation(OrientationOf(b).value) == Ok(Rotate90FlipNone)
    ensures b == 7 ==> GetTransformation(OrientationOf(b).value) == Ok(Rotate270FlipX)
    ensures b == 8 ==> GetTransformation(OrientationOf(b).value) == Ok(Rotate270FlipNone)
  {
  }

  /** Distinct orientations get distinct transforms. */
  lemma GetTransformationInjective(o1: Orientation, o2: Orientation)
    requires GetTransformation(o1).Ok? && GetTransformation(o1) == GetTransformation(o2)
    ensures o1 == o2
  {
    CorrectedUnique(GetTransformation(o1).value, o1, o2);
  }

  /** Every transform but the identity is the one for some orientation, so
      the table is a bijection between the seven non-identity orientations
      and the seven non-identity transforms. */
  lemma GetTransformationOnto(t: RotateFlipType)
    ensures t != RotateNoneFlipNone <==> exists o :: GetTransformation(o) == Ok(t)
  {
    if t != RotateNoneFlipNone {
      var o := match t
        case RotateNoneFlipX => TopRight
        case Rotate180FlipNone => BottomRight
        case Rotate180FlipX => BottomLeft
        case Rotate90FlipX => LeftTop
        case Rotate90FlipNone => RightTop
        case Rotate270FlipX => RightBottom
        case _ => LeftBottom;
      assert GetTransformation(o) == Ok(t);
    }
  }

  /** A top-left tag is left alone: false, no call made, tag kept. */
  lemma TopLeftUntouched(image: Image)
    requires TagByte(image) == Some(1)
    ensures Process(image) == Run(Ok(false), image)
  {
  }

  /** A missing tag: false, no call made. */
  lemma MissingTagUntouched(image: Image)
    requires ORIENTATION_PROPERTY_ID !in image.properties
    ensures Process(image) == Run(Ok(false), image)
  {
  }

  /** A first byte outside 1..8 is handled exactly as a missing tag. */
  lemma InvalidTagLikeMissing(image: Image)
    requires TagByte(image).Some? && !(1 <= TagByte(image).value <= 8)
    ensures var missing := image.(properties := image.properties - {ORIENTATION_PROPERTY_ID});
      && Process(image) == Run(Ok(false), image)
      && Process(missing) == Run(Ok(false), missing)
  {
  }

  /** Only the first byte of the tag's value is consulted. */
  lemma OnlyFirstByteMatters(image: Image, v1: seq<Byte>, v2: seq<Byte>)
    requires |v1| > 0 && |v2| > 0 && v1[0] == v2[0]
    ensures var r1 := Process(image.(properties := image.properties[ORIENTATION_PROPERTY_ID := v1]));
      var r2 := Process(image.(properties := image.properties[ORIENTATION_PROPERTY_ID := v2]));
      && r1.outcome == r2.outcome
      && r1.image.calls == r2.image.calls
      && r1.image.properties - {ORIENTATION_PROPERTY_ID} == r2.image.properties - {ORIENTATION_PROPERTY_ID}
  {
  }

  /** A failed tag removal still counts as an alteration: the transform
      stays applied and the tag stays in place. */
  lemma RemovalFailureStillAltered(image: Image)
    requires NeedsTransform(image) && !image.removable
    ensures Process(image).outcome == Ok(true)
    ensures Process(image).image.properties == image.properties
    ensures Displayed(Process(image).image.calls) != Displayed(image.calls)
  {
    AlteredIffDisplayChanges(image);
  }

  /** `Process` reports an alteration exactly when the pixels, as shown,
      changed. */
  lemma AlteredIffDisplayChanges(image: Image)
    ensures Process(image).outcome == Ok(true) <==>
      Displayed(Process(image).image.calls) != Displayed(image.calls)
  {
    var r := Process(image);
    if NeedsTransform(image) {
      var n := |image.calls|;
      var t := r.image.calls[n].transform;
      assert r.image.calls[..n + 1][..n] == image.calls;
      assert r.image.calls[..n + 1 + 1][..n + 1] == r.image.calls[..n + 1];
      assert r.image.calls[..n + 2] == r.image.calls;
      assert Displayed(r.image.calls) == Apply(t, Displayed(image.calls));
      DisplayedProper(image.calls);
      FixedFrameOnlyIdentity(t, Displayed(image.calls));
    }
  }

  /** On an image whose pixels have not been transformed yet, an alteration
      leaves the 0th row and column where the tag says they belong. */
  lemma DisplaysAsTagged(image: Image)
    requires NeedsTransform(image) && Displayed(image.calls) == Upright
    ensures Displayed(Process(image).image.calls) == Described(TagOrientation(image))
  {
    var r := Process(image);
    var n := |image.calls|;
    assert r.image.calls[..n + 1][..n] == image.calls;
    assert r.image.calls[..n + 1 + 1][..n + 1] == r.image.calls[..n + 1];
    assert r.image.calls[..n + 2] == r.image.calls;
  }

  /** When the tag can be removed, a second run changes nothing.  After a
      first run that altered the image, the second one sees no tag and
      returns false. */
  lemma SecondRunUntouched(image: Image)
    requires image.removable
    ensures var once := Process(image);
      && Process(once.image).image == once.image
      && Process(once.image).outcome != Ok(true)
    ensures Process(image).outcome == Ok(true) ==>
      var once := Process(image).image;
      && ORIENTATION_PROPERTY_ID !in once.properties
      && Process(once) == Run(Ok(false), once)
  {
  }

  /** When the tag could not be removed, a second run transforms the pixels
      again. */
  lemma FailedRemovalTransformsAgain(image: Image)
    requires NeedsTransform(image) && !image.removable
    ensures var once := Process(image);
      && Process(once.image).outcome == Ok(true)
      && |Process(once.image).image.calls| == |image.calls| + 4
  {
  }

  /** The image after `n` successive runs of `Process`. */
  function ProcessedTimes(image: Image, n: nat): Image
  {
    if n == 0 then image else Process(ProcessedTimes(image, n - 1)).image
  }

  /** Any number of runs beyond the first changes nothing, provided the
      tag can be removed. */
  lemma {:induction false} RepeatedRunsStable(image: Image, n: nat)
    requires image.removable && n >= 1
    ensures ProcessedTimes(image, n) == Process(image).image
  {
    if n > 1 {
      RepeatedRunsStable(image, n - 1);
      SecondRunUntouched(image);
    }
  }
}
