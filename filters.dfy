/**
 * The two fixed OpenCV filters of the fallback pipeline: `filter2D` with
 * the 3x3 sharpening kernel, and `convertScaleAbs` with alpha 1.1 and
 * beta 10, both with 8-bit saturation.
 */
module Filters {
  import opened NdArrays

  /** `saturate_cast<uchar>` of an integer: clip to 0..255. */
  function Saturate(x: int): (r: int)
    ensures IsByte(r)
    ensures IsByte(x) ==> r == x
    ensures x < 0 ==> r == 0
    ensures x > 255 ==> r == 255
  {
    if x < 0 then 0 else if x > 255 then 255 else x
  }

  // ---------------------------------------------------------------------
  // Border handling

  /**
   * How `filter2D` reads a row or column index that lies one step outside
   * an axis of length n: the index it reads instead.
   */
  type BorderRule = (int, nat) -> int

  /**
   * A border rule reads inside the axis for every index the 3x3 window can
   * reach (-1 .. n), and leaves indices already inside the axis alone.
   */
  ghost predicate IsBorderRule(border: BorderRule) {
    forall i: int, n: nat :: 0 < n && -1 <= i <= n ==>
      0 <= border(i, n) < n && (i < n && 0 <= i ==> border(i, n) == i)
  }

  /** OpenCV's default BORDER_REFLECT_101 (gfedcb|abcdefgh|gfedcba): mirror without repeating the edge. */
  function Reflect101(i: int, n: nat): (r: int) {
    if n == 1 then 0
    else if i < 0 then -i
    else if i >= n then 2 * n - 2 - i
    else i
  }

  lemma Reflect101IsBorderRule()
    ensures IsBorderRule(Reflect101)
  {
  }

  // ---------------------------------------------------------------------
  // 3x3 correlation

  /** The kernel `[[0,-1,0],[-1,5,-1],[0,-1,0]]` of the sharpening step. */
  const SharpenKernel: seq<seq<int>> := [[0, -1, 0], [-1, 5, -1], [0, -1, 0]]

  predicate Is3x3(kernel: seq<seq<int>>) {
    |kernel| == 3 && |kernel[0]| == 3 && |kernel[1]| == 3 && |kernel[2]| == 3
  }

  /** Weight of tap t (0..8) of the window, in row-major order. */
  function Weight(kernel: seq<seq<int>>, t: nat): (w: int)
    requires Is3x3(kernel) && t < 9
  {
    kernel[t / 3][t % 3]
  }

  /** The sum of the first n weights of the kernel. */
  function WeightSum(kernel: seq<seq<int>>, n: nat): (w: int)
    requires Is3x3(kernel) && n <= 9
  {
    if n == 0 then 0 else WeightSum(kernel, n - 1) + Weight(kernel, n - 1)
  }

  /** The weights of the sharpening kernel add up to one. */
  lemma SharpenKernelWeightsSumToOne()
    ensures Is3x3(SharpenKernel) && WeightSum(SharpenKernel, 9) == 1
  {
  }

  /**
   * Tap t of the window centred on (i, j) in channel k: the weight times the
   * element at offset (t / 3 - 1, t % 3 - 1), read through the border rule.
   * The kernel's anchor is its centre and it is not flipped (correlation).
   */
  function Tap(a: NdArray, kernel: seq<seq<int>>, border: BorderRule, i: int, j: int, k: int, t: nat): (r: int)
    requires Valid(a) && IsBorderRule(border) && Is3x3(kernel)
    requires InBounds(a, i, j, k) && t < 9
  {
    var y := border(i + t / 3 - 1, a.height);
    var x := border(j + t % 3 - 1, a.width);
    Weight(kernel, t) * a.px[y][x][k]
  }

  /** The sum of the first n taps of the window. */
  function WindowSum(a: NdArray, kernel: seq<seq<int>>, border: BorderRule, i: int, j: int, k: int, n: nat): (r: int)
    requires Valid(a) && IsBorderRule(border) && Is3x3(kernel)
    requires InBounds(a, i, j, k) && n <= 9
  {
    if n == 0 then 0 else WindowSum(a, kernel, border, i, j, k, n - 1) + Tap(a, kernel, border, i, j, k, n - 1)
  }

  /** One output pixel of `filter2D`: every channel filtered on its own, then saturated. */
  function FilterPixel(a: NdArray, kernel: seq<seq<int>>, border: BorderRule, i: int, j: int): (p: seq<int>)
    requires Valid(a) && IsBorderRule(border) && Is3x3(kernel)
    requires 0 <= i < a.height && 0 <= j < a.width
    ensures |p| == a.channels
    ensures forall k :: 0 <= k < a.channels ==> IsByte(p[k])
  {
    seq(a.channels, k requires 0 <= k < a.channels => Saturate(WindowSum(a, kernel, border, i, j, k, 9)))
  }

  /**
   * `cv2.filter2D(src, -1, kernel)` on a uint8 array: the output depth is the
   * input's, so each correlation sum is saturated to 0..255; the shape is kept.
   */
  function Filter2D(a: NdArray, kernel: seq<seq<int>>, border: BorderRule): (b: NdArray)
    requires Valid(a) && IsBorderRule(border) && Is3x3(kernel)
    ensures Valid(b) && SameShape(a, b)
  {
    a.(px := seq(a.height, i requires 0 <= i < a.height =>
                   seq(a.width, j requires 0 <= j < a.width => FilterPixel(a, kernel, border, i, j))))
  }

  /** The sharpening step of the fallback pipeline. */
  function Sharpen(a: NdArray, border: BorderRule): (b: NdArray)
    requires Valid(a) && IsBorderRule(border)
    ensures Valid(b) && SameShape(a, b)
  {
    Filter2D(a, SharpenKernel, border)
  }

  /** Every element of channel k of the array equals v. */
  ghost predicate UniformChannel(a: NdArray, k: int, v: int)
    requires Valid(a)
  {
    forall i, j :: InBounds(a, i, j, k) ==> a.px[i][j][k] == v
  }

  /** On a uniform channel the window sum is the value times the sum of the weights. */
  lemma {:induction false} UniformWindowSum(a: NdArray, kernel: seq<seq<int>>, border: BorderRule, i: int, j: int, k: int, v: int, n: nat)
    requires Valid(a) && IsBorderRule(border) && Is3x3(kernel)
    requires InBounds(a, i, j, k) && n <= 9
    requires UniformChannel(a, k, v)
    ensures WindowSum(a, kernel, border, i, j, k, n) == v * WeightSum(kernel, n)
  {
    if n > 0 {
      UniformWindowSum(a, kernel, border, i, j, k, v, n - 1);
      var y := border(i + (n - 1) / 3 - 1, a.height);
      var x := border(j + (n - 1) % 3 - 1, a.width);
      assert a.px[y][x][k] == v;
      calc {
        WindowSum(a, kernel, border, i, j, k, n);
        v * WeightSum(kernel, n - 1) + Weight(kernel, n - 1) * v;
        v * (WeightSum(kernel, n - 1) + Weight(kernel, n - 1));
      }
    }
  }

  /** A kernel whose weights sum to one leaves a uniform uint8 channel unchanged. */
  lemma {:induction false} Filter2DKeepsUniformChannel(a: NdArray, kernel: seq<seq<int>>, border: BorderRule, k: nat, v: int)
    requires Valid(a) && IsBorderRule(border) && Is3x3(kernel)
    requires WeightSum(kernel, 9) == 1
    requires k < a.channels && IsByte(v) && UniformChannel(a, k, v)
    ensures UniformChannel(Filter2D(a, kernel, border), k, v)
  {
    var b := Filter2D(a, kernel, border);
    forall i, j | 0 <= i < b.height && 0 <= j < b.width
      ensures b.px[i][j][k] == v
    {
      UniformWindowSum(a, kernel, border, i, j, k, v, 9);
    }
  }

  /** Sharpening leaves a channel of one constant value exactly as it was. */
  lemma SharpenKeepsUniformChannel(a: NdArray, border: BorderRule, k: nat, v: int)
    requires Valid(a) && IsBorderRule(border)
    requires k < a.channels && IsByte(v) && UniformChannel(a, k, v)
    ensures UniformChannel(Sharpen(a, border), k, v)
  {
    SharpenKernelWeightsSumToOne();
    Filter2DKeepsUniformChannel(a, SharpenKernel, border, k, v);
  }

  /** The window sum of channel k of the swapped array is that of channel 2 - k of the original. */
  lemma {:induction false} WindowSumOfSwapped(a: NdArray, kernel: seq<seq<int>>, border: BorderRule, i: int, j: int, k: int, n: nat)
    requires Valid(a) && IsColour(a) && IsBorderRule(border) && Is3x3(kernel)
    requires InBounds(a, i, j, k) && n <= 9
    ensures InBounds(a, i, j, 2 - k)
    ensures WindowSum(SwapChannels(a), kernel, border, i, j, k, n) == WindowSum(a, kernel, border, i, j, 2 - k, n)
  {
    var s := SwapChannels(a);
    if n > 0 {
      WindowSumOfSwapped(a, kernel, border, i, j, k, n - 1);
      var y := border(i + (n - 1) / 3 - 1, a.height);
      var x := border(j + (n - 1) % 3 - 1, a.width);
      assert InBounds(a, y, x, k);
      assert s.px[y][x][k] == a.px[y][x][2 - k];
      assert Tap(s, kernel, border, i, j, k, n - 1) == Tap(a, kernel, border, i, j, 2 - k, n - 1);
    }
  }

  /** Filtering treats channels independently, so it commutes with the channel swap. */
  lemma {:induction false} Filter2DCommutesWithSwap(a: NdArray, kernel: seq<seq<int>>, border: BorderRule)
    requires Valid(a) && IsColour(a) && IsBorderRule(border) && Is3x3(kernel)
    ensures Filter2D(SwapChannels(a), kernel, border) == SwapChannels(Filter2D(a, kernel, border))
  {
    var lhs := Filter2D(SwapChannels(a), kernel, border);
    var rhs := SwapChannels(Filter2D(a, kernel, border));
    forall i, j, k | InBounds(lhs, i, j, k)
      ensures lhs.px[i][j][k] == rhs.px[i][j][k]
    {
      WindowSumOfSwapped(a, kernel, border, i, j, k, 9);
    }
    Extensionality(lhs, rhs);
  }

  // ---------------------------------------------------------------------
  // convertScaleAbs(alpha = 1.1, beta = 10)

  /** |1.1 x + 10| in tenths, exactly: |11 x + 100|. */
  function ScaledTenths(x: int): (t: nat) {
    if 11 * x + 100 < 0 then -(11 * x + 100) else 11 * x + 100
  }

  /**
   * The integer nearest to t / 10. An exact half (t % 10 == 5) is where the
   * floating-point product 1.1 * x decides the rounding; `tieUp` says which
   * way it went.
   */
  function RoundTenths(t: nat, tieUp: bool): (r: int) {
    if t % 10 > 5 || (t % 10 == 5 && tieUp) then t / 10 + 1 else t / 10
  }

  /** For every element value, whether its exact .5 case rounds up. */
  type TieRule = int -> bool

  /** `convertScaleAbs` on one element: saturate(round(|1.1 x + 10|)). */
  function ScaleAbsValue(x: int, tieUp: bool): (r: int)
    ensures IsByte(r)
  {
    Saturate(RoundTenths(ScaledTenths(x), tieUp))
  }

  /**
   * On a uint8 element the result lies between the saturated floor and
   * ceiling of 1.1 x + 10, and off the .5 cases it is the saturated
   * round-half-up of 1.1 x + 10, whichever way ties go.
   */
  lemma ScaleAbsValueRounds(x: int, tieUp: bool)
    requires IsByte(x)
    ensures Saturate((11 * x + 100) / 10) <= ScaleAbsValue(x, tieUp) <= Saturate((11 * x + 109) / 10)
    ensures (11 * x + 100) % 10 != 5 ==> ScaleAbsValue(x, tieUp) == Saturate((11 * x + 105) / 10)
  {
  }

  /** Every uint8 element comes out at least 10: the map brightens. */
  lemma ScaleAbsValueAtLeastTen(x: int, tieUp: bool)
    requires IsByte(x)
    ensures 10 <= ScaleAbsValue(x, tieUp) <= 255
  {
  }

  /**
   * The map is monotone on uint8 values under any tie rule: one step of x
   * moves 1.1 x + 10 by more than one, so no rounding choice can reorder
   * two distinct values.
   */
  lemma ScaleAbsValueMonotone(x: int, y: int, ties: TieRule)
    requires IsByte(x) && IsByte(y) && x <= y
    ensures ScaleAbsValue(x, ties(x)) <= ScaleAbsValue(y, ties(y))
  {
    var tx, ty := ScaledTenths(x), ScaledTenths(y);
    var rx, ry := RoundTenths(tx, ties(x)), RoundTenths(ty, ties(y));
    assert rx <= (tx + 9) / 10;
    assert ty / 10 <= ry;
    if x < y {
      assert tx + 11 <= ty;
      assert (tx + 9) / 10 <= ty / 10;
    }
  }

  /** A uint8 value saturates to 255 exactly when it is at least 223. */
  lemma ScaleAbsValueSaturates(x: int, tieUp: bool)
    requires IsByte(x)
    ensures ScaleAbsValue(x, tieUp) == 255 <==> x >= 223
  {
    if x <= 222 {
      assert ScaledTenths(x) <= 2542;
    }
  }

  function ScaleAbsPixel(p: seq<int>, ties: TieRule): (q: seq<int>)
    ensures |q| == |p|
  {
    seq(|p|, k requires 0 <= k < |p| => ScaleAbsValue(p[k], ties(p[k])))
  }

  /** `cv2.convertScaleAbs(a, alpha=1.1, beta=10)`: the element map applied to every value. */
  function ScaleAbs(a: NdArray, ties: TieRule): (b: NdArray)
    requires Valid(a)
    ensures Valid(b) && SameShape(a, b)
    ensures forall i, j, k :: InBounds(a, i, j, k) ==> 10 <= b.px[i][j][k]
  {
    var b := a.(px := seq(a.height, i requires 0 <= i < a.height =>
                            seq(a.width, j requires 0 <= j < a.width => ScaleAbsPixel(a.px[i][j], ties))));
    assert forall i, j, k :: InBounds(a, i, j, k) ==> 10 <= b.px[i][j][k] by {
      forall i, j, k | InBounds(a, i, j, k)
        ensures 10 <= b.px[i][j][k]
      {
        ScaleAbsValueAtLeastTen(a.px[i][j][k], ties(a.px[i][j][k]));
      }
    }
    b
  }

  /** The element map treats channels alike, so it commutes with the channel swap. */
  lemma {:induction false} ScaleAbsCommutesWithSwap(a: NdArray, ties: TieRule)
    requires Valid(a) && IsColour(a)
    ensures ScaleAbs(SwapChannels(a), ties) == SwapChannels(ScaleAbs(a, ties))
  {
    var lhs := ScaleAbs(SwapChannels(a), ties);
    var rhs := SwapChannels(ScaleAbs(a, ties));
    forall i, j, k | InBounds(lhs, i, j, k)
      ensures lhs.px[i][j][k] == rhs.px[i][j][k]
    {
      assert InBounds(a, i, j, 2 - k);
    }
    Extensionality(lhs, rhs);
  }
}
