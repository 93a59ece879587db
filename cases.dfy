/** The scenarios of the repository's kernel tests, stated about what the
    kernels leave in their output buffers. Shapes and data are given field
    by field and element by element. */
module ConvCases {
  import opened Tensor
  import opened Arith
  import opened Conv
  import opened Kernels

  /** `s` is the NHWC shape (n, h, w, c). */
  predicate Is(s: Shape, n: int, h: int, w: int, c: int)
  {
    s.number == n && s.height == h && s.width == w && s.channel == c && s.layout == NHWC
  }

  /** Strides 1 and paddings `p`, as every test passes them. */
  predicate UnitStride(g: Geometry, p: int)
  {
    g.strideHeight == 1 && g.strideWidth == 1 && g.paddingHeight == p && g.paddingWidth == p
  }

  /** What every kernel demands of its buffers: shapes that fit them, one
      bias per output channel, and an output buffer that holds its shape. */
  predicate Conv2DArgs<T>(g: Geometry, input: seq<int>, filter: seq<int>, bias: seq<int>, orig: seq<T>)
  {
    Fits(g, |input|, |filter|) && g.output.channel <= |bias| && NumElements(g.output) <= |orig|
  }

  /** What Conv2D_int8_int8 demands besides: a multiplier and a shift in
      [-30, 32] per output channel. */
  predicate Int8Args(g: Geometry, input: seq<int>, filter: seq<int>, bias: seq<int>,
                     multiplier: seq<int>, shift: seq<int>, orig: seq<Int8>)
  {
    Conv2DArgs(g, input, filter, bias, orig) &&
    g.output.channel <= |multiplier| && g.output.channel <= |shift| &&
    forall c :: 0 <= c < g.output.channel ==> -30 <= shift[c] <= 32
  }

  /** What Conv2D_uint8_uint8 demands besides: a multiplier and a shift in
      [0, 64) per output channel. */
  predicate UInt8Args(g: Geometry, input: seq<int>, filter: seq<int>, bias: seq<int>,
                      multiplier: seq<int>, shift: seq<int>, orig: seq<UInt8>)
  {
    Conv2DArgs(g, input, filter, bias, orig) &&
    g.output.channel <= |multiplier| && g.output.channel <= |shift| &&
    forall c :: 0 <= c < g.output.channel ==> 0 <= shift[c] < 64
  }

  /** A 1x1 filter over one input channel: each output cell is one product
      plus the bias. */
  lemma PointwiseCell(g: Geometry, input: seq<int>, filter: seq<int>, bias: seq<int>, zp: int,
                      oy: int, ox: int, oc: int)
    requires Fits(g, |input|, |filter|) && 0 <= oc < g.output.channel <= |bias| && UnitStride(g, 0)
    requires g.filter.height == 1 && g.filter.width == 1 && g.input.channel == 1
    requires 0 <= oy < g.input.height && 0 <= ox < g.input.width
    ensures Accumulation(g, input, filter, bias, zp, oy, ox, oc)
         == filter[Offset(g.filter, oc, 0, 0, 0)] * (input[Offset(g.input, 0, oy, ox, 0)] + zp) + bias[oc]
  {
    var iy, ix := RowStart(g, oy), ColStart(g, ox);
    assert iy == oy && ix == ox;
    assert ChannelSum(g, input, filter, zp, oc, 0, 0, iy, ix, 1) == Tap(g, input, filter, zp, oc, 0, 0, iy, ix, 0);
    assert RowSum(g, input, filter, zp, oc, 0, iy, ox, 1) == ChannelSum(g, input, filter, zp, oc, 0, 0, iy, ix, 1);
  }

  // ---------------------------------------------------------------------
  // Conv2D over int.

  /** A 1x1 convolution scales each input pixel by the filter of the output
      channel and adds its bias. */
  lemma PointwiseResult(g: Geometry, input: seq<int>, filter: seq<int>, bias: seq<int>, orig: seq<int>,
                        oy: int, ox: int, oc: int)
    requires Conv2DArgs(g, input, filter, bias, orig)
    requires UnitStride(g, 0) && g.filter.height == 1 && g.filter.width == 1 && g.input.channel == 1
    requires InBounds(g.output, 0, oy, ox, oc) && oy < g.input.height && ox < g.input.width
    ensures Conv2DResult(g, input, filter, bias, orig)[Offset(g.output, 0, oy, ox, oc)]
         == filter[Offset(g.filter, oc, 0, 0, 0)] * input[Offset(g.input, 0, oy, ox, 0)] + bias[oc]
  {
    PointwiseCell(g, input, filter, bias, 0, oy, ox, oc);
  }

  /** The data of the two-filter test: filters +1 and -1 with biases -1 and
      123 over a single input of 1. */
  predicate TwoFilterData(g: Geometry, input: seq<int>, filter: seq<int>, bias: seq<int>, orig: seq<int>)
  {
    Conv2DArgs(g, input, filter, bias, orig) &&
    Is(g.input, 1, 1, 1, 1) && Is(g.filter, 2, 1, 1, 1) && Is(g.output, 1, 1, 1, 2) && UnitStride(g, 0) &&
    |input| == 1 && input[0] == 1 &&
    |filter| == 2 && filter[0] == 1 && filter[1] == -1 &&
    |bias| == 2 && bias[0] == -1 && bias[1] == 123 && |orig| == 2
  }

  /** Output channel `oc` of the two-filter test is filter[oc] * 1 + bias[oc]. */
  lemma TwoFiltersCell(g: Geometry, input: seq<int>, filter: seq<int>, bias: seq<int>, orig: seq<int>, oc: int)
    requires TwoFilterData(g, input, filter, bias, orig) && 0 <= oc < 2
    ensures Conv2DResult(g, input, filter, bias, orig)[oc] == filter[oc] + bias[oc]
  {
    assert Offset(g.input, 0, 0, 0, 0) == 0 && Offset(g.filter, oc, 0, 0, 0) == oc;
    assert Offset(g.output, 0, 0, 0, oc) == oc;
    PointwiseResult(g, input, filter, bias, orig, 0, 0, oc);
  }

  /** Two 1x1 filters, +1 and -1, with biases -1 and 123 over a single input
      of 1 leave 0 and 122 in the two output channels. */
  lemma TwoFilters(g: Geometry, input: seq<int>, filter: seq<int>, bias: seq<int>, orig: seq<int>)
    requires TwoFilterData(g, input, filter, bias, orig)
    ensures Conv2DResult(g, input, filter, bias, orig)[0] == 0
    ensures Conv2DResult(g, input, filter, bias, orig)[1] == 122
  {
    TwoFiltersCell(g, input, filter, bias, orig, 0);
    TwoFiltersCell(g, input, filter, bias, orig, 1);
  }

  /** All-ones input and filter: an output cell counts the filter taps that
      land inside the input, times the input depth, and adds its bias. */
  lemma OnesCell(g: Geometry, input: seq<int>, filter: seq<int>, bias: seq<int>, orig: seq<int>,
                 oy: int, ox: int, oc: int)
    requires Conv2DArgs(g, input, filter, bias, orig) && AllOnes(input) && AllOnes(filter)
    requires InBounds(g.output, 0, oy, ox, oc)
    ensures Conv2DResult(g, input, filter, bias, orig)[Offset(g.output, 0, oy, ox, oc)]
         == ValidCount(RowStart(g, oy), g.filter.height, g.input.height)
            * (ValidCount(ColStart(g, ox), g.filter.width, g.input.width) * g.input.channel) + bias[oc]
  {
    WindowSumOnes(g, input, filter, oc, oy, ox, g.filter.height);
  }

  /** A window lying wholly inside the input counts every tap. */
  lemma {:induction false} ValidCountInside(start: int, k: nat, n: int)
    requires 0 <= start && start + k <= n
    ensures ValidCount(start, k, n) == k
  {
    if k > 0 {
      ValidCountInside(start, k - 1, n);
    }
  }

  /** All-ones data, unit stride and no padding, with the filter window at
      (oy, ox) wholly inside the input: the cell sums every tap and adds
      its bias. */
  lemma OnesInsideCell(g: Geometry, input: seq<int>, filter: seq<int>, bias: seq<int>, orig: seq<int>,
                       oy: int, ox: int, oc: int)
    requires Conv2DArgs(g, input, filter, bias, orig) && AllOnes(input) && AllOnes(filter)
    requires InBounds(g.output, 0, oy, ox, oc) && UnitStride(g, 0)
    requires oy + g.filter.height <= g.input.height && ox + g.filter.width <= g.input.width
    ensures Conv2DResult(g, input, filter, bias, orig)[Offset(g.output, 0, oy, ox, oc)]
         == g.filter.height * (g.filter.width * g.input.channel) + bias[oc]
  {
    assert RowStart(g, oy) == oy && ColStart(g, ox) == ox;
    OnesCell(g, input, filter, bias, orig, oy, ox, oc);
    ValidCountInside(RowStart(g, oy), g.filter.height, g.input.height);
    ValidCountInside(ColStart(g, ox), g.filter.width, g.input.width);
  }

  /** The number of taps of an h x w x c window. */
  lemma Taps(h: int, w: int, c: int, n: int)
    requires (h == 1 && w == 1 && c == n) || (h == 3 && w == 3 && c == 1 && n == 9)
    ensures h * (w * c) == n
  {
  }

  /** One input of 1, filter 1, bias -1, all 1x1: the test's data. */
  predicate SingleTapData(g: Geometry, input: seq<int>, filter: seq<int>, bias: seq<int>, orig: seq<int>)
  {
    Conv2DArgs(g, input, filter, bias, orig) &&
    Is(g.input, 1, 1, 1, 1) && Is(g.filter, 1, 1, 1, 1) && Is(g.output, 1, 1, 1, 1) && UnitStride(g, 0) &&
    |input| == 1 && AllOnes(input) && |filter| == 1 && AllOnes(filter) &&
    |bias| == 1 && bias[0] == -1 && |orig| == 1
  }

  /** The single tap 1 * 1 and the bias -1 cancel. */
  lemma SingleTap(g: Geometry, input: seq<int>, filter: seq<int>, bias: seq<int>, orig: seq<int>)
    requires SingleTapData(g, input, filter, bias, orig)
    ensures Conv2DResult(g, input, filter, bias, orig)[0] == 0
  {
    assert Offset(g.output, 0, 0, 0, 0) == 0;
    OnesInsideCell(g, input, filter, bias, orig, 0, 0, 0);
    Taps(g.filter.height, g.filter.width, g.input.channel, 1);
  }

  /** Two input channels of 1, a 1x1 filter of two ones and bias 123. */
  predicate DepthTwoData(g: Geometry, input: seq<int>, filter: seq<int>, bias: seq<int>, orig: seq<int>)
  {
    Conv2DArgs(g, input, filter, bias, orig) &&
    Is(g.input, 1, 1, 1, 2) && Is(g.filter, 1, 1, 1, 2) && Is(g.output, 1, 1, 1, 1) && UnitStride(g, 0) &&
    |input| == 2 && AllOnes(input) && |filter| == 2 && AllOnes(filter) &&
    |bias| == 1 && bias[0] == 123 && |orig| == 1
  }

  /** The sum runs over the input channels: 1 + 1 + 123. */
  lemma DepthTwo(g: Geometry, input: seq<int>, filter: seq<int>, bias: seq<int>, orig: seq<int>)
    requires DepthTwoData(g, input, filter, bias, orig)
    ensures Conv2DResult(g, input, filter, bias, orig)[0] == 125
  {
    assert Offset(g.output, 0, 0, 0, 0) == 0;
    OnesInsideCell(g, input, filter, bias, orig, 0, 0, 0);
    Taps(g.filter.height, g.filter.width, g.input.channel, 2);
  }

  /** All-ones 3x3 input and 3x3 filter without padding, one output cell, bias 0. */
  predicate OnesValidData(g: Geometry, input: seq<int>, filter: seq<int>, bias: seq<int>, orig: seq<int>)
  {
    Conv2DArgs(g, input, filter, bias, orig) &&
    Is(g.input, 1, 3, 3, 1) && Is(g.filter, 1, 3, 3, 1) && Is(g.output, 1, 1, 1, 1) && UnitStride(g, 0) &&
    |input| == 9 && AllOnes(input) && |filter| == 9 && AllOnes(filter) &&
    |bias| == 1 && bias[0] == 0 && |orig| == 1
  }

  /** Without padding all nine taps land inside the input. */
  lemma OnesValid(g: Geometry, input: seq<int>, filter: seq<int>, bias: seq<int>, orig: seq<int>)
    requires OnesValidData(g, input, filter, bias, orig)
    ensures Conv2DResult(g, input, filter, bias, orig)[0] == 9
  {
    assert Offset(g.output, 0, 0, 0, 0) == 0;
    OnesInsideCell(g, input, filter, bias, orig, 0, 0, 0);
    Taps(g.filter.height, g.filter.width, g.input.channel, 9);
  }

  /** All-ones input and 3x3 filter with unit stride and one cell of padding:
      an output cell counts the filter taps that land inside the input. */
  lemma OnesSameCell(g: Geometry, input: seq<int>, filter: seq<int>, bias: seq<int>, orig: seq<int>,
                     oy: int, ox: int)
    requires Valid(g.input) && Is(g.input, 1, g.input.height, g.input.width, 1)
    requires Is(g.filter, 1, 3, 3, 1) && Is(g.output, 1, g.input.height, g.input.width, 1) && UnitStride(g, 1)
    requires |input| == NumElements(g.input) && AllOnes(input) && |filter| == 9 && AllOnes(filter)
    requires |bias| == 1 && bias[0] == 0 && |orig| == NumElements(g.output)
    requires 0 <= oy < g.input.height && 0 <= ox < g.input.width
    ensures Conv2DResult(g, input, filter, bias, orig)[Offset(g.output, 0, oy, ox, 0)]
         == ValidCount(oy - 1, 3, g.input.height) * ValidCount(ox - 1, 3, g.input.width)
  {
    WindowSumOnes(g, input, filter, 0, oy, ox, 3);
  }

  /** Filter taps of a 3-wide window with one cell of padding that land in
      an extent of 3: two at either edge, three in the middle. */
  lemma TapsInThree(o: int)
    requires 0 <= o < 3
    ensures ValidCount(o - 1, 3, 3) == if o == 1 then 3 else 2
  {
    if o == 0 {
      assert ValidCount(-1, 3, 3) == 2;
    } else if o == 1 {
      assert ValidCount(0, 3, 3) == 3;
    } else {
      assert ValidCount(1, 3, 3) == 2;
    }
  }

  /** With one cell of padding a 3-wide window over an extent of 1 or 2
      keeps every position of that extent. */
  lemma TapsInSmall(o: int, n: int)
    requires 1 <= n <= 2 && 0 <= o < n
    ensures ValidCount(o - 1, 3, n) == n
  {
    if n == 1 {
      assert ValidCount(-1, 3, 1) == 1;
    } else if o == 0 {
      assert ValidCount(-1, 3, 2) == 2;
    } else {
      assert ValidCount(0, 3, 2) == 2;
    }
  }

  /** All-ones n x n input (n is 1 or 2) and 3x3 filter, padding 1, bias 0. */
  predicate OnesSmallData(g: Geometry, input: seq<int>, filter: seq<int>, bias: seq<int>, orig: seq<int>, n: int)
  {
    Conv2DArgs(g, input, filter, bias, orig) && 1 <= n <= 2 &&
    Is(g.input, 1, n, n, 1) && Is(g.filter, 1, 3, 3, 1) && Is(g.output, 1, n, n, 1) && UnitStride(g, 1) &&
    |input| == n * n && AllOnes(input) && |filter| == 9 && AllOnes(filter) &&
    |bias| == 1 && bias[0] == 0 && |orig| == n * n
  }

  /** Over a 1x1 or 2x2 input every filter tap that lands inside the input
      is counted: each cell holds n * n (1 and 4). */
  lemma OnesSameSmall(g: Geometry, input: seq<int>, filter: seq<int>, bias: seq<int>, orig: seq<int>,
                      n: int, oy: int, ox: int)
    requires OnesSmallData(g, input, filter, bias, orig, n) && 0 <= oy < n && 0 <= ox < n
    ensures Conv2DResult(g, input, filter, bias, orig)[n * oy + ox] == n * n
  {
    assert NumElements(g.input) == n * n;
    assert Offset(g.output, 0, oy, ox, 0) == n * oy + ox;
    OnesSameCell(g, input, filter, bias, orig, oy, ox);
    TapsInSmall(oy, n);
    TapsInSmall(ox, n);
  }

  /** The data of the SAME-padding test: all-ones 3x3 input and 3x3 filter, bias 0. */
  predicate OnesSquare3Data(g: Geometry, input: seq<int>, filter: seq<int>, bias: seq<int>, orig: seq<int>)
  {
    Conv2DArgs(g, input, filter, bias, orig) &&
    Is(g.input, 1, 3, 3, 1) && Is(g.filter, 1, 3, 3, 1) && Is(g.output, 1, 3, 3, 1) && UnitStride(g, 1) &&
    |input| == 9 && AllOnes(input) && |filter| == 9 && AllOnes(filter) &&
    |bias| == 1 && bias[0] == 0 && |orig| == 9
  }

  /** The all-ones 3x3 case over a 3x3 input, cell (oy, ox): each edge
      coordinate sees two filter rows or columns and the middle one three,
      so corners hold 4, edges 6 and the centre 9. */
  lemma OnesSameSquare3(g: Geometry, input: seq<int>, filter: seq<int>, bias: seq<int>, orig: seq<int>,
                        oy: int, ox: int)
    requires OnesSquare3Data(g, input, filter, bias, orig) && 0 <= oy < 3 && 0 <= ox < 3
    ensures Conv2DResult(g, input, filter, bias, orig)[3 * oy + ox]
         == (if oy == 1 then 3 else 2) * (if ox == 1 then 3 else 2)
  {
    assert NumElements(g.input) == 9;
    assert Offset(g.output, 0, oy, ox, 0) == 3 * oy + ox;
    OnesSameCell(g, input, filter, bias, orig, oy, ox);
    TapsInThree(oy);
    TapsInThree(ox);
  }

  // ---------------------------------------------------------------------
  // Conv2D_int8_int8.

  /** With multiplier 2^30 and shift 30 the rescale is by 2^-31, so every
      cell whose accumulator is below 2^30 in magnitude stores the saturated
      output offset, whatever the data. */
  lemma Int8ShiftThirty(g: Geometry, input: seq<int>, filter: seq<int>, bias: seq<int>, inputOffset: int,
                        outputOffset: int, multiplier: seq<int>, shift: seq<int>, lo: int, hi: int,
                        orig: seq<Int8>, oy: int, ox: int, oc: int)
    requires Int8Args(g, input, filter, bias, multiplier, shift, orig)
    requires InBounds(g.output, 0, oy, ox, oc) && multiplier[oc] == 0x4000_0000 && shift[oc] == 30
    requires -0x4000_0000 <= Accumulation(g, input, filter, bias, inputOffset, oy, ox, oc) < 0x4000_0000
    requires -0x80 <= lo <= hi < 0x80
    ensures Int8Result(g, input, filter, bias, inputOffset, outputOffset, multiplier, shift, lo, hi, orig)
              [Offset(g.output, 0, oy, ox, oc)] as int == Clamp(outputOffset, lo, hi)
  {
    VanishingRescale(Accumulation(g, input, filter, bias, inputOffset, oy, ox, oc));
  }

  /** With multiplier 2^30 and shift -1 the rescale is the identity: a cell
      stores its accumulator plus the output offset, saturated. */
  lemma Int8ShiftMinusOne(g: Geometry, input: seq<int>, filter: seq<int>, bias: seq<int>, inputOffset: int,
                          outputOffset: int, multiplier: seq<int>, shift: seq<int>, lo: int, hi: int,
                          orig: seq<Int8>, oy: int, ox: int, oc: int)
    requires Int8Args(g, input, filter, bias, multiplier, shift, orig)
    requires InBounds(g.output, 0, oy, ox, oc) && multiplier[oc] == 0x4000_0000 && shift[oc] == -1
    requires -0x8000_0000 <= Accumulation(g, input, filter, bias, inputOffset, oy, ox, oc) < 0x8000_0000
    requires -0x80 <= lo <= hi < 0x80
    ensures Int8Result(g, input, filter, bias, inputOffset, outputOffset, multiplier, shift, lo, hi, orig)
              [Offset(g.output, 0, oy, ox, oc)] as int
         == Clamp(Accumulation(g, input, filter, bias, inputOffset, oy, ox, oc) + outputOffset, lo, hi)
  {
    IdentityRescale(Accumulation(g, input, filter, bias, inputOffset, oy, ox, oc));
  }

  /** Int8ShiftThirty for a 1x1 filter over one input channel, with the
      accumulator written out as its single product plus the bias. */
  lemma Int8PointwiseShiftThirty(g: Geometry, input: seq<int>, filter: seq<int>, bias: seq<int>, inputOffset: int,
                                 outputOffset: int, multiplier: seq<int>, shift: seq<int>, lo: int, hi: int,
                                 orig: seq<Int8>, oy: int, ox: int, oc: int)
    requires Int8Args(g, input, filter, bias, multiplier, shift, orig)
    requires UnitStride(g, 0) && g.filter.height == 1 && g.filter.width == 1 && g.input.channel == 1
    requires InBounds(g.output, 0, oy, ox, oc) && oy < g.input.height && ox < g.input.width
    requires multiplier[oc] == 0x4000_0000 && shift[oc] == 30 && -0x80 <= lo <= hi < 0x80
    requires -0x4000_0000 <= filter[Offset(g.filter, oc, 0, 0, 0)] * (input[Offset(g.input, 0, oy, ox, 0)] + inputOffset)
                             + bias[oc] < 0x4000_0000
    ensures Int8Result(g, input, filter, bias, inputOffset, outputOffset, multiplier, shift, lo, hi, orig)
              [Offset(g.output, 0, oy, ox, oc)] as int == Clamp(outputOffset, lo, hi)
  {
    PointwiseCell(g, input, filter, bias, inputOffset, oy, ox, oc);
    Int8ShiftThirty(g, input, filter, bias, inputOffset, outputOffset, multiplier, shift, lo, hi, orig, oy, ox, oc);
  }

  /** The data of the first int8 test: one input of 1 - 128 with input
      offset 128, filter 10, bias 0, output offset -128, multiplier 2^30,
      shift 30 and the full int8 range. */
  predicate Int8SingleTapData(g: Geometry, input: seq<int>, filter: seq<int>, bias: seq<int>,
                              inputOffset: int, outputOffset: int, multiplier: seq<int>, shift: seq<int>,
                              lo: int, hi: int, orig: seq<Int8>)
  {
    Int8Args(g, input, filter, bias, multiplier, shift, orig) &&
    Is(g.input, 1, 1, 1, 1) && Is(g.filter, 1, 1, 1, 1) && Is(g.output, 1, 1, 1, 1) && UnitStride(g, 0) &&
    |input| == 1 && input[0] == 1 - 128 && |filter| == 1 && filter[0] == 10 && |bias| == 1 && bias[0] == 0 &&
    inputOffset == 128 && outputOffset == -128 &&
    |multiplier| == 1 && multiplier[0] == 0x4000_0000 && |shift| == 1 && shift[0] == 30 &&
    lo == -128 && hi == 127 && |orig| == 1
  }

  /** Multiplying by a term known to be 1. */
  lemma MulOne(a: int, b: int)
    requires b == 1
    ensures a * b == a
  {
  }

  /** The first int8 test stores -128: the accumulator 10 rescales to 0. */
  lemma Int8SingleTap(g: Geometry, input: seq<int>, filter: seq<int>, bias: seq<int>,
                      inputOffset: int, outputOffset: int, multiplier: seq<int>, shift: seq<int>,
                      lo: int, hi: int, orig: seq<Int8>)
    requires Int8SingleTapData(g, input, filter, bias, inputOffset, outputOffset, multiplier, shift, lo, hi, orig)
    ensures Int8Result(g, input, filter, bias, inputOffset, outputOffset, multiplier, shift, lo, hi, orig)[0] == -128
  {
    assert Offset(g.input, 0, 0, 0, 0) == 0 && Offset(g.filter, 0, 0, 0, 0) == 0 && Offset(g.output, 0, 0, 0, 0) == 0;
    MulOne(filter[0], input[0] + inputOffset);
    Int8PointwiseShiftThirty(g, input, filter, bias, inputOffset, outputOffset, multiplier, shift, lo, hi, orig, 0, 0, 0);
  }

  /** The data of the second int8 test: filters +1 and -1 with biases -1
      and 123 over one input of 1 - 128, and one multiplier 2^30 and shift
      30 per output channel. */
  predicate Int8TwoFilterData(g: Geometry, input: seq<int>, filter: seq<int>, bias: seq<int>,
                              inputOffset: int, outputOffset: int, multiplier: seq<int>, shift: seq<int>,
                              lo: int, hi: int, orig: seq<Int8>)
  {
    Int8Args(g, input, filter, bias, multiplier, shift, orig) &&
    Is(g.input, 1, 1, 1, 1) && Is(g.filter, 2, 1, 1, 1) && Is(g.output, 1, 1, 1, 2) && UnitStride(g, 0) &&
    |input| == 1 && input[0] == 1 - 128 && |filter| == 2 && filter[0] == 1 && filter[1] == -1 &&
    |bias| == 2 && bias[0] == -1 && bias[1] == 123 && inputOffset == 128 && outputOffset == -128 &&
    |multiplier| == 2 && multiplier[0] == multiplier[1] == 0x4000_0000 &&
    |shift| == 2 && shift[0] == shift[1] == 30 &&
    lo == -128 && hi == 127 && |orig| == 2
  }

  /** Both channels of the second int8 test store -128: their accumulators,
      0 and 122, rescale to 0. */
  lemma Int8TwoFiltersCell(g: Geometry, input: seq<int>, filter: seq<int>, bias: seq<int>,
                           inputOffset: int, outputOffset: int, multiplier: seq<int>, shift: seq<int>,
                           lo: int, hi: int, orig: seq<Int8>, oc: int)
    requires Int8TwoFilterData(g, input, filter, bias, inputOffset, outputOffset, multiplier, shift, lo, hi, orig)
    requires 0 <= oc < 2
    ensures Int8Result(g, input, filter, bias, inputOffset, outputOffset, multiplier, shift, lo, hi, orig)[oc] == -128
  {
    assert Offset(g.input, 0, 0, 0, 0) == 0 && Offset(g.filter, oc, 0, 0, 0) == oc && Offset(g.output, 0, 0, 0, oc) == oc;
    MulOne(filter[oc], input[0] + inputOffset);
    Int8PointwiseShiftThirty(g, input, filter, bias, inputOffset, outputOffset, multiplier, shift, lo, hi, orig, 0, 0, oc);
  }

  /** The second int8 test stores -128 in both channels. */
  lemma Int8TwoFilters(g: Geometry, input: seq<int>, filter: seq<int>, bias: seq<int>,
                       inputOffset: int, outputOffset: int, multiplier: seq<int>, shift: seq<int>,
                       lo: int, hi: int, orig: seq<Int8>)
    requires Int8TwoFilterData(g, input, filter, bias, inputOffset, outputOffset, multiplier, shift, lo, hi, orig)
    ensures Int8Result(g, input, filter, bias, inputOffset, outputOffset, multiplier, shift, lo, hi, orig)[0] == -128
    ensures Int8Result(g, input, filter, bias, inputOffset, outputOffset, multiplier, shift, lo, hi, orig)[1] == -128
  {
    Int8TwoFiltersCell(g, input, filter, bias, inputOffset, outputOffset, multiplier, shift, lo, hi, orig, 0);
    Int8TwoFiltersCell(g, input, filter, bias, inputOffset, outputOffset, multiplier, shift, lo, hi, orig, 1);
  }

  // ---------------------------------------------------------------------
  // Conv2D_uint8_uint8 and its row bound.

  /** With the row loop bounded by the input height, every output cell in a
      row at or below that height keeps what the buffer held before. */
  lemma RowsPastInputKept(g: Geometry, input: seq<int>, filter: seq<int>, bias: seq<int>,
                          multiplier: seq<int>, shift: seq<int>, lo: int, hi: int, orig: seq<UInt8>,
                          oy: int, ox: int, oc: int)
    requires UInt8Args(g, input, filter, bias, multiplier, shift, orig)
    requires InBounds(g.output, 0, oy, ox, oc) && g.input.height <= oy
    ensures UInt8Result(g, input, filter, bias, multiplier, shift, lo, hi, orig, g.input.height)
              [Offset(g.output, 0, oy, ox, oc)] == orig[Offset(g.output, 0, oy, ox, oc)]
  {
    CoordsOfOffset(g.output, 0, oy, ox, oc);
    assert !Written(g.output, Offset(g.output, 0, oy, ox, oc), g.input.height, 0, 0);
  }

  /** An output two rows tall over a one-row input with filter 1, bias 5,
      multiplier 1 and shift 0, into a zeroed buffer. */
  predicate TallOutputData(g: Geometry, input: seq<int>, filter: seq<int>, bias: seq<int>,
                           multiplier: seq<int>, shift: seq<int>, lo: int, hi: int, orig: seq<UInt8>)
  {
    UInt8Args(g, input, filter, bias, multiplier, shift, orig) &&
    Is(g.input, 1, 1, 1, 1) && Is(g.filter, 1, 1, 1, 1) && Is(g.output, 1, 2, 1, 1) && UnitStride(g, 0) &&
    |input| == 1 && input[0] == 1 && |filter| == 1 && filter[0] == 1 && |bias| == 1 && bias[0] == 5 &&
    |multiplier| == 1 && multiplier[0] == 1 && |shift| == 1 && shift[0] == 0 &&
    lo == 0 && hi == 255 && |orig| == 2 && orig[1] == 0
  }

  /** A cell whose filter window lies wholly below the input sums no taps
      and holds just its bias. */
  lemma {:induction false} WindowBelowInput(g: Geometry, input: seq<int>, filter: seq<int>,
                                            zp: int, oy: int, ox: int, oc: int, k: int)
    requires Fits(g, |input|, |filter|) && 0 <= oc < g.output.channel
    requires 0 <= k <= g.filter.height && g.input.height <= RowStart(g, oy)
    ensures WindowSum(g, input, filter, zp, oc, oy, ox, k) == 0
  {
    if k > 0 {
      WindowBelowInput(g, input, filter, zp, oy, ox, oc, k - 1);
    }
  }

  /** Multiplier 1 and shift 0 over the full uint8 range store a uint8
      accumulator unchanged. */
  lemma UnitRescaleUnsigned(acc: int)
    requires 0 <= acc < 0x100
    ensures RequantizeUnsigned(acc, 1, 0, 0, 255) == acc
  {
    assert Pow2(0) == 1;
  }

  /** Output row 1 of the tall output, as written: the loop bounded by the
      input height never reaches it, so it keeps its 0. */
  lemma TallOutputAsWritten(g: Geometry, input: seq<int>, filter: seq<int>, bias: seq<int>,
                            multiplier: seq<int>, shift: seq<int>, lo: int, hi: int, orig: seq<UInt8>)
    requires TallOutputData(g, input, filter, bias, multiplier, shift, lo, hi, orig)
    ensures UInt8Result(g, input, filter, bias, multiplier, shift, lo, hi, orig, g.input.height)[1] == 0
  {
    assert Offset(g.output, 0, 1, 0, 0) == 1;
    RowsPastInputKept(g, input, filter, bias, multiplier, shift, lo, hi, orig, 1, 0, 0);
  }

  /** Output row 1 of the tall output, with the loop bounded by the output
      height: no filter tap of that row lands inside the input, so it holds
      the bias 5. */
  lemma TallOutputCorrected(g: Geometry, input: seq<int>, filter: seq<int>, bias: seq<int>,
                            multiplier: seq<int>, shift: seq<int>, lo: int, hi: int, orig: seq<UInt8>)
    requires TallOutputData(g, input, filter, bias, multiplier, shift, lo, hi, orig)
    ensures UInt8Result(g, input, filter, bias, multiplier, shift, lo, hi, orig, g.output.height)[1] == 5
  {
    assert Offset(g.output, 0, 1, 0, 0) == 1;
    WindowBelowInput(g, input, filter, 0, 1, 0, 0, 1);
    UnitRescaleUnsigned(5);
  }
}
