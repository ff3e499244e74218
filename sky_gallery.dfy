/** Image selection of the 3D gallery (src/components/SkyGallery.jsx): a day
    index cycles through the eight image files. */
module Gallery {
  import Js

  /** Number of image files on disk. */
  const AvailableImages: int := 8

  const PathPrefix: string := "/images/day_"
  const PathSuffix: string := ".jpeg"

  /** Image number of a day, with JavaScript's truncating `%`. */
  function ImageNumber(dayIndex: int): (n: int)
    ensures dayIndex >= 0 ==> 1 <= n <= AvailableImages
    ensures dayIndex < 0 ==> n <= 1
  {
    Js.Rem(dayIndex, AvailableImages) + 1
  }

  /** Path of the texture shown for a day. */
  function GetImagePath(dayIndex: int): (path: string)
    ensures |path| > |PathPrefix| + |PathSuffix|
    ensures path[..|PathPrefix|] == PathPrefix
    ensures path[|path| - |PathSuffix|..] == PathSuffix
  {
    PathPrefix + Js.IntToString(ImageNumber(dayIndex)) + PathSuffix
  }

  /** Eight consecutive days use eight different images, and the ninth repeats the first. */
  lemma ImageNumberPeriodic(dayIndex: int)
    requires dayIndex >= 0
    ensures ImageNumber(dayIndex + AvailableImages) == ImageNumber(dayIndex)
    ensures GetImagePath(dayIndex + AvailableImages) == GetImagePath(dayIndex)
  {
  }

  /** The next day shows the next image, wrapping from 8 to 1. */
  lemma ImageNumberSuccessor(dayIndex: int)
    requires dayIndex >= 0
    ensures ImageNumber(dayIndex + 1) == ImageNumber(dayIndex) % AvailableImages + 1
  {
  }

  /** The number inside a path read back: the last character before the suffix. */
  function PathNumber(path: string): (n: int)
    requires |path| == |PathPrefix| + 1 + |PathSuffix| && Js.IsDigit(path[|PathPrefix|])
    ensures 0 <= n < 10
  {
    Js.DigitValue(path[|PathPrefix|])
  }

  /** For a non-negative day the path names one digit, the day's image number,
      which reading the path gives back. */
  lemma GetImagePathShape(dayIndex: int)
    requires dayIndex >= 0
    ensures GetImagePath(dayIndex) == PathPrefix + [Js.DigitChar(dayIndex % 8 + 1)] + PathSuffix
    ensures |GetImagePath(dayIndex)| == |PathPrefix| + 1 + |PathSuffix|
    ensures PathNumber(GetImagePath(dayIndex)) == ImageNumber(dayIndex) == dayIndex % 8 + 1
  {
  }

  /** Day 0 shows the first image. */
  lemma FirstDayPath()
    ensures GetImagePath(0) == "/images/day_1.jpeg"
  {
  }

  /** The selection does not repeat with the year: 364 is not a multiple of 8. */
  lemma NotPeriodicOverYear()
    ensures GetImagePath(364) != GetImagePath(0)
  {
    GetImagePathShape(364);
    GetImagePathShape(0);
    assert GetImagePath(364)[12] == '5';
  }

  /** A negative day index yields an image number outside 1..8: index -1 names image 0. */
  lemma NegativeIndexOutOfRange()
    ensures ImageNumber(-1) == 0
    ensures GetImagePath(-1) == "/images/day_0.jpeg"
  {
  }
}
