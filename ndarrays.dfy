/**
 * The pixel arrays that flow through the enhancer: numpy arrays of 8-bit
 * unsigned values, of shape H x W (greyscale) or H x W x C, and OpenCV's
 * RGB <-> BGR channel reordering on them.
 */
module NdArrays {

  /**
   * An array with `ndim` axes. `px[i][j]` is the pixel in row i, column j,
   * as the list of its channel values; a rank-2 array has one value per
   * pixel and `channels == 1`.
   */
  datatype NdArray = NdArray(ndim: nat, height: nat, width: nat, channels: nat, px: seq<seq<seq<int>>>)

  /** A value that a uint8 element can hold. */
  predicate IsByte(v: int) {
    0 <= v <= 255
  }

  ghost predicate InBounds(a: NdArray, i: int, j: int, k: int) {
    0 <= i < a.height && 0 <= j < a.width && 0 <= k < a.channels
  }

  /** The array is rectangular, of rank 2 or 3, and every element is a uint8. */
  ghost predicate Valid(a: NdArray) {
    && (a.ndim == 2 || a.ndim == 3)
    && (a.ndim == 2 ==> a.channels == 1)
    && |a.px| == a.height
    && (forall i :: 0 <= i < a.height ==> |a.px[i]| == a.width)
    && (forall i, j :: 0 <= i < a.height && 0 <= j < a.width ==> |a.px[i][j]| == a.channels)
    && (forall i, j, k :: InBounds(a, i, j, k) ==> IsByte(a.px[i][j][k]))
  }

  /** Same `shape` tuple: same rank, height, width and channel count. */
  predicate SameShape(a: NdArray, b: NdArray) {
    a.ndim == b.ndim && a.height == b.height && a.width == b.width && a.channels == b.channels
  }

  /** The test `len(shape) == 3 and shape[2] == 3` that decides whether an array is swapped. */
  predicate IsColour(a: NdArray) {
    a.ndim == 3 && a.channels == 3
  }

  /** An array without pixels: `cv2.cvtColor` rejects it (its source must not be empty). */
  predicate IsEmpty(a: NdArray) {
    a.height == 0 || a.width == 0
  }

  /** Arrays that `Image.fromarray` turns into an image: modes L, LA, RGB and RGBA. */
  predicate PilSupported(a: NdArray) {
    a.ndim == 2 || (a.ndim == 3 && 2 <= a.channels <= 4)
  }

  /** Two valid arrays of the same shape and the same elements are the same array. */
  lemma {:induction false} Extensionality(a: NdArray, b: NdArray)
    requires Valid(a) && Valid(b) && SameShape(a, b)
    requires forall i, j, k :: InBounds(a, i, j, k) ==> a.px[i][j][k] == b.px[i][j][k]
    ensures a == b
  {
    forall i | 0 <= i < a.height
      ensures a.px[i] == b.px[i]
    {
      forall j | 0 <= j < a.width
        ensures a.px[i][j] == b.px[i][j]
      {
        assert forall k :: 0 <= k < a.channels ==> InBounds(a, i, j, k);
      }
    }
  }

  /** One pixel with its three channel values in reverse order. */
  function SwapPixel(p: seq<int>): (q: seq<int>)
    requires |p| == 3
    ensures |q| == 3 && forall k :: 0 <= k < 3 ==> q[k] == p[2 - k]
  {
    [p[2], p[1], p[0]]
  }

  /**
   * `cv2.cvtColor` with COLOR_RGB2BGR or COLOR_BGR2RGB on a 3-channel array:
   * both codes reverse the channel order of every pixel and change no value.
   * On an empty array cvtColor raises instead; callers test `IsEmpty` first.
   */
  function SwapChannels(a: NdArray): (b: NdArray)
    requires Valid(a) && IsColour(a)
    ensures Valid(b) && SameShape(a, b) && IsColour(b)
    ensures forall i, j, k :: InBounds(a, i, j, k) ==> b.px[i][j][k] == a.px[i][j][2 - k]
  {
    a.(px := seq(a.height, i requires 0 <= i < a.height =>
                   seq(a.width, j requires 0 <= j < a.width => SwapPixel(a.px[i][j]))))
  }

  /** Swapping twice gives back the array: RGB -> BGR -> RGB is lossless. */
  lemma {:induction false} SwapChannelsInvolution(a: NdArray)
    requires Valid(a) && IsColour(a)
    ensures SwapChannels(SwapChannels(a)) == a
  {
    var b := SwapChannels(SwapChannels(a));
    forall i, j, k | InBounds(a, i, j, k)
      ensures b.px[i][j][k] == a.px[i][j][k]
    {
      assert InBounds(a, i, j, 2 - k);
    }
    Extensionality(b, a);
  }

  /** The swap keeps the multiset of values of every pixel: it only reorders channels. */
  lemma {:induction false} SwapChannelsKeepsPixelValues(a: NdArray, i: nat, j: nat)
    requires Valid(a) && IsColour(a) && i < a.height && j < a.width
    ensures multiset(SwapChannels(a).px[i][j]) == multiset(a.px[i][j])
  {
    var p := a.px[i][j];
    assert SwapChannels(a).px[i][j] == [p[2], p[1], p[0]];
    assert p == [p[0], p[1], p[2]];
  }

  /**
   * The conditional conversion used on the way in to both paths: a colour
   * array is swapped, any other array passes unchanged. (A colour array that
   * is empty makes cvtColor raise; both paths test for that before calling.)
   */
  function ToBgr(a: NdArray): (b: NdArray)
    requires Valid(a)
    ensures Valid(b) && SameShape(a, b)
    ensures !IsColour(a) ==> b == a
  {
    if IsColour(a) then SwapChannels(a) else a
  }

  /** Converting in and back out again restores the caller's array, of any shape. */
  lemma {:induction false} ToBgrRoundTrip(a: NdArray)
    requires Valid(a)
    ensures ToBgr(ToBgr(a)) == a
  {
    if IsColour(a) {
      SwapChannelsInvolution(a);
    }
  }
}
