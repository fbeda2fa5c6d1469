# ImageOrientate — orientation resolver model

ImageOrientate physically rotates an image according to its EXIF orientation
tag (property `0x112`, tag 274, the Orientation field of TIFF Revision 6.0
that Exif 2.3 adopts in section 4.6.4) and then strips the tag, so that every
viewer shows the same picture. This project models the resolver at the heart
of it, in both of the repository's copies:

- `ImageOrientate/ImageOrientate.cs`, the newer static class. Its `Process`
  returns whether the image was altered and catches `ArgumentException`,
  `FormatException` and `InvalidOperationException`.
- `ImageOrientate.cs`, the older instance class. Its `Process` stores the
  image and calls `Orientate`, which returns nothing and catches only
  `InvalidOperationException`.

Modules:

- `Runtime`: `Option`, the exception classes involved, and `Result`, which is
  a value or a thrown exception.
- `Exif`: the byte type, `ORIENTATION_PROPERTY_ID`, the `Orientation`
  enumeration with its backing bytes, and the cast plus `Enum.IsDefined` test
  (`OrientationOf`).
- `Drawing`: the imaging library as an abstract handle. An `Image` holds its
  property items (a map from id to bytes), the log of mutating calls made on
  it (`RotateFlip`, `RemovePropertyItem`), and a flag saying whether the
  library lets a property be removed. `GetPropertyItem` and
  `RemovePropertyItem` raise `ArgumentException` as the library does.
- `Geometry`: an independent reference for what the transforms mean. It
  tracks on which displayed side the stored 0th row and 0th column lie. It
  takes from the TIFF definition where each orientation says they belong.
  `Corrects(t, o)` says that transform `t` puts them there.
- `ImageOrientate`: the newer copy (`GetOrientation`, `GetTransformation`,
  the `try` block, `Process`) and its properties.
- `LegacyImageOrientate`: the older copy, modelled on its own, and lemmas
  relating it to the newer copy.

Exceptions are explicit. Every call yields a `Result`. A `Run` pairs that
`Result` with the image as the code left it, including after a throw. This is
how "the pixels stay transformed when removal fails" is stated.

`Process` documents only two outcomes: the image is altered, or it is left
untouched (ImageOrientate/ImageOrientate.cs:25,28). In both copies, though, an
empty tag value makes `prop.Value[0]` throw `IndexOutOfRangeException`, and no
`catch` handles it. The model lets it escape (`HasEmptyTag`).

## Model

| member | source | states |
|---|---|---|
| Exif.OrientationOf | ImageOrientate/ImageOrientate.cs:96-102 | the cast byte names a member exactly when it is 1..8, and the member named is the one backed by that byte |
| Exif.OrientationOfValue | ImageOrientate/ImageOrientate.cs:113-123 | the eight members and their backing bytes 1..8 correspond one to one |
| Geometry.DescribedUprightIffTopLeft | ImageOrientate/ImageOrientate.cs:62 | top-left is the only orientation whose stored pixels are already shown correctly, which is why it alone needs no transformation |
| Geometry.CorrectorUnique | ImageOrientate/ImageOrientate.cs:64-73 | for each orientation at most one rotate/flip transform puts the 0th row and column where the tag says they belong, so the table has no alternative entries |
| ImageOrientate.GetOrientation | ImageOrientate/ImageOrientate.cs:82-105 | yields an orientation exactly when the tag is present, non-empty and its first byte is 1..8 (and then the one backed by that byte); a missing tag or undefined byte gives InvalidOperationException; an empty value gives IndexOutOfRangeException |
| ImageOrientate.GetTransformation | ImageOrientate/ImageOrientate.cs:64-74 | throws FormatException exactly for TopLeft; for every other orientation returns a transform that corrects it |
| ImageOrientate.Process | ImageOrientate/ImageOrientate.cs:29-56 | returns true exactly when the tag's first byte is 2..8, and then makes exactly one correcting transform followed by exactly one removal attempt, which removes the tag only if the library allows it; otherwise returns false and leaves the image untouched; only an empty tag value escapes, as IndexOutOfRangeException |
| ImageOrientate.TransformationTable | ImageOrientate/ImageOrientate.cs:66-73 | byte 1 gives FormatException; bytes 2..8 give RotateNoneFlipX, Rotate180FlipNone, Rotate180FlipX, Rotate90FlipX, Rotate90FlipNone, Rotate270FlipX and Rotate270FlipNone |
| ImageOrientate.GetTransformationInjective | ImageOrientate/ImageOrientate.cs:66-72 | distinct orientations are given distinct transforms |
| ImageOrientate.GetTransformationOnto | ImageOrientate/ImageOrientate.cs:66-72 | a transform is produced by the table exactly when it is not the identity, so the table is a bijection onto the seven non-identity transforms |
| ImageOrientate.TopLeftUntouched | ImageOrientate/ImageOrientate.cs:46-50 | a top-left tag gives false with no transform and no removal |
| ImageOrientate.MissingTagUntouched | ImageOrientate/ImageOrientate.cs:87-93 | a missing tag gives false with the image unchanged |
| ImageOrientate.InvalidTagLikeMissing | ImageOrientate/ImageOrientate.cs:98-102 | a first byte outside 1..8 gives the same result as a missing tag: false, image unchanged |
| ImageOrientate.OnlyFirstByteMatters | ImageOrientate/ImageOrientate.cs:95-96 | two tag values with the same first byte give the same outcome and the same calls |
| ImageOrientate.RemovalFailureStillAltered | ImageOrientate/ImageOrientate.cs:41-45 | when removal fails, the result is still true, the tag stays, and the displayed pixels have changed |
| ImageOrientate.AlteredIffDisplayChanges | ImageOrientate/ImageOrientate.cs:28-29 | the result is true exactly when the picture as shown has changed |
| ImageOrientate.DisplaysAsTagged | ImageOrientate/ImageOrientate.cs:33-34 | on pixels not yet transformed, an alteration leaves the 0th row and column on the sides the tag names |
| ImageOrientate.SecondRunUntouched | ImageOrientate/ImageOrientate.cs:36-37 | when removal is allowed, a second run changes nothing and does not report an alteration; after a first run that returned true, the tag is gone and the second run returns false with the image unchanged |
| ImageOrientate.FailedRemovalTransformsAgain | ImageOrientate/ImageOrientate.cs:43-44 | when removal is refused, a second run transforms the pixels again |
| ImageOrientate.RepeatedRunsStable | ImageOrientate/ImageOrientate.cs:36-37 | when removal is allowed, any number of runs leaves the image as the first run did |
| LegacyImageOrientate.GetTransformation | ImageOrientate.cs:82-92 | throws FormatException exactly for TopLeft; for every other orientation returns a transform that corrects it |
| LegacyImageOrientate.GetOrientation | ImageOrientate.cs:100-123 | same acceptance condition and exceptions as the newer reader |
| LegacyImageOrientate.Orientate | ImageOrientate.cs:60-74 | returns normally for a missing or undefined tag and for a successful alteration; TopLeft escapes as FormatException; a refused removal escapes as ArgumentException after the transform, with no rollback; an empty value escapes as IndexOutOfRangeException |
| LegacyImageOrientate.Process | ImageOrientate.cs:48-52 | the object ends up holding the image, transformed exactly as Orientate does; FormatException escapes exactly for a top-left tag, ArgumentException exactly for a refused removal after the transform, IndexOutOfRangeException exactly for an empty value, and nothing else escapes |
| LegacyImageOrientate.SameTable | ImageOrientate.cs:84-91 | the older copy's table equals the newer one on every orientation |
| LegacyImageOrientate.SameReader | ImageOrientate.cs:102-122 | the older copy reads the tag exactly as the newer one |
| LegacyImageOrientate.AgreesWithNewer | ImageOrientate.cs:62-73 | both copies leave the image identical; the older copy's FormatException and ArgumentException correspond to the newer copy's false and true; only an empty value escapes from both |

## Left out

- `ImageOrientate/Init.cs`: iterating over command-line paths, loading and saving files, JPEG re-encoding and console error reporting are I/O.
- Class `Tester` in `ImageOrientate.cs`: a hard-coded load and save demonstration.
- The pixel work of `RotateFlip` and the internals of `GetPropertyItem` and `RemovePropertyItem`: these are calls into the imaging library. The handle records the calls, and `Geometry` describes what a transform does to the position of the picture's edges, not to pixel values.
- Exceptions the library might raise that the code does not anticipate, such as `RotateFlip` failing or a read failing for reasons other than a missing id. The only library failures modelled are a missing property id and a removal the library refuses.
- A null `prop.Value`: it is not distinguished from an empty value. Both fail on indexing and neither is caught; the model covers only the empty value.
- The width of the tag: the Orientation field is a 16-bit value, but the code consults only the first byte of its raw value. The model follows the code and takes the first byte of the stored bytes, with no byte-order interpretation.
- Concurrency: the code does no locking. Each call is modelled as one step on one handle.
- LegacyImageOrientate.Orientate: requires the object to hold an image. The method is private and is only called by `Process` right after the image is stored, so the null-reference failure it would otherwise hit cannot occur.
