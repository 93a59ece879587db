# Quantized 2-D convolution kernels (cnn.h) in Dafny

This project models the convolution header `cnn.h` of a small CNN inference
experiment, plus two helpers of its EfficientNet-Lite0 driver program.

`cnn.h` defines:

- a 4-D tensor `Shape` with an NHWC or NCHW layout, and the flat index of a
  coordinate in that layout;
- three convolution kernels that write into a caller-owned output buffer:
  - the generic `Conv2D<T>`;
  - `Conv2D_int8_int8`, which shifts each input by an input offset,
    requantizes the int32 accumulator with a fixed-point multiplier and
    shift, adds an output offset, saturates and narrows to int8;
  - `Conv2D_uint8_uint8`, which has no offsets and shifts without rounding.

The driver contributes `offset_elements`, which recentres the image bytes,
and `calc_padding_same_size`, the output extent of a SAME-padded strided
layer.

How the model is laid out:

- `tensor.dfy` (module `Tensor`): the shape, `NumElements`, and `Offset`.
  `Offset` is proved to be a bijection between in-bounds coordinates and
  `[0, NumElements)` in both layouts, through its explicit inverse `Coords`.
- `arith.dfy` (module `Arith`):
  - int8, uint8 and int32 newtypes;
  - the C casts as explicit modular wraps;
  - `std::min`/`std::max` saturation;
  - the two rescale steps, stated as rounding bounds.
- `conv.dfy` (module `Conv`): what an output cell accumulates, as left
  folds in the kernels' loop order:
  - filter rows, then filter columns, then input channels;
  - taps outside the input are skipped.
  
  It also holds a padded reference definition, proved equal to it.
- `kernels.dfy` (module `Kernels`): the kernels as methods over arrays,
  with nested `for` loops.
  - Each kernel is proved to leave in its output buffer a specification
    function of the inputs and of the buffer's old contents.
  - `Conv2D<T>` is modelled over `int`.
- `mimic.dfy` (module `Mimic`): the two driver helpers.
- `cases.dfy` (module `ConvCases`): the kernel test scenarios of the
  repository, stated about the kernels' specification functions.
  - Shapes and data are given field by field.
  - Each scenario is derived from a generic lemma (the pointwise
    convolution, the all-ones window, the vanishing rescale).

Integers are unbounded. Every cast of the source is written out:

- `(int32_t)`, `(int8_t)` and `(uint8_t)` are `Wrap32`, `Wrap8` and `WrapU8`.
- Dafny's Euclidean `/` by a positive power of two is the arithmetic right
  shift `>>`.

## Model

| member | source | states |
|---|---|---|
| Tensor.NumElements | cnn.h:35-37 | For a shape with positive extents, the element count is at least each extent |
| Tensor.Offset | cnn.h:39-53 | Under the source's upper-bound asserts, the NCHW or NHWC flat index of an in-bounds coordinate lies in [0, num_elements) |
| Tensor.Coords | cnn.h:39-53 | Every index in [0, num_elements) is the offset of an in-bounds coordinate, so offset is onto |
| Tensor.OffsetInjective | cnn.h:45-48 | Two in-bounds coordinates with the same offset are equal, in both layouts |
| Tensor.CoordsOfOffset | cnn.h:39-53 | Coords recovers every in-bounds coordinate from its offset |
| Arith.Wrap32 | cnn.h:164 | `(int32_t)` yields the int32 value congruent to its argument modulo 2^32, and is the identity on int32 values |
| Arith.Wrap8 | cnn.h:168 | `(int8_t)` yields the int8 value congruent modulo 256, and is the identity on int8 values |
| Arith.WrapU8 | cnn.h:222 | `(uint8_t)` yields the uint8 value congruent modulo 256, and is the identity on uint8 values |
| Arith.Clamp | cnn.h:166-167 | `min(max(v, lo), hi)` lies in [lo, hi] when lo <= hi. It leaves in-range values alone and maps low values to lo and high values to hi. When the bounds cross, it yields hi |
| Arith.RoundingRescale | cnn.h:163-164 | `(acc * m0 + 2^(30+n)) >> (31+n)` is acc * m0 / 2^(31+n) rounded to nearest, halves up, for every shift n in [-30, 32] |
| Arith.FloorRescale | cnn.h:219 | `(acc * m0) >> n` is acc * m0 / 2^n rounded down, for n in [0, 64) |
| Arith.Requantize | cnn.h:162-168 | The int8 output step always yields an int8. With int8 activation bounds it equals the saturated, rounded rescale plus the output offset, and lies within the bounds |
| Arith.RequantizeUnsigned | cnn.h:216-222 | The uint8 output step always yields a uint8. With uint8 activation bounds it equals the saturated floor rescale and lies within the bounds |
| Arith.RescaleFitsInt64 | cnn.h:163-164 | For every int32 accumulator, every non-negative int32 multiplier and every shift in [-30, 32], `(int64_t)sum * m0 + half` lies within int64 |
| Arith.RescaleOverflowsInt64 | cnn.h:163-164 | Accumulator and multiplier both -2^31 with shift 32 make that intermediate exactly 2^63, one past the int64 maximum |
| Arith.IdentityRescale | cnn.h:163-164 | Multiplier 2^30 with shift -1 rescales every accumulator to itself |
| Arith.VanishingRescale | cnn.h:163-164 | Multiplier 2^30 with shift 30 rescales every accumulator of magnitude below 2^30 to 0 |
| Conv.SkippingEqualsPadding | cnn.h:81-95 | Skipping the taps outside the input gives the same window sum as summing every tap over an input padded with the value whose offset-shifted value is zero |
| Conv.WindowSumOnes | cnn.h:81-95 | With all-ones data, a window sums to (valid filter rows) x (valid filter columns) x (input depth) |
| Kernels.AccumulateInts | cnn.h:80-95 | The three inner loops of `Conv2D<T>` compute the window sum of the cell, taps outside the input skipped |
| Kernels.AccumulateInt8 | cnn.h:144-161 | The inner loops of `Conv2D_int8_int8` compute the window sum of filter * (input + input_offset) |
| Kernels.AccumulateUInt8 | cnn.h:200-215 | The inner loops of `Conv2D_uint8_uint8` compute the window sum of filter * input |
| Kernels.Int8CellValue | cnn.h:144-168 | One int8 output cell is Requantize of the window sum plus the channel's bias, with that channel's multiplier and shift |
| Kernels.UInt8CellValue | cnn.h:200-222 | One uint8 output cell is RequantizeUnsigned of the window sum plus the channel's bias |
| Kernels.Conv2DResult | cnn.h:75-101 | Each batch-0 output cell holds its accumulation plus bias. Every other index of the buffer keeps its old value |
| Kernels.Int8Result | cnn.h:139-171 | Each batch-0 output cell holds its requantized int8 value. Every other index keeps its old value |
| Kernels.UInt8Result | cnn.h:195-225 | The batch-0 cells of the first `rows` output rows hold their uint8 values. Every other index keeps its old value |
| Kernels.Conv2D | cnn.h:56-102 | `Conv2D<T>` leaves exactly Conv2DResult of its inputs and the old buffer in the output, and does not change its inputs |
| Kernels.Conv2DInt8 | cnn.h:104-172 | `Conv2D_int8_int8`, under its asserted stride and padding bounds, leaves exactly Int8Result in the output |
| Kernels.Conv2DUInt8 | cnn.h:174-226 | `Conv2D_uint8_uint8` as written leaves UInt8Result with rows = input height, so only output rows 0 to input height - 1 are filled |
| Kernels.Conv2DUInt8Corrected | cnn.h:189 | With the row loop bounded by the output height, the kernel fills every batch-0 output cell |
| Kernels.Conv2DUInt8Rows | cnn.h:195-225 | The uint8 loops over the first `rows` output rows leave exactly UInt8Result for those rows |
| Mimic.OffsetElements | mimic_efficientnet_lite0_int8_2.cpp:15-20 | Each of the first num_elements signed bytes plus 128 equals the unsigned input byte. The rest of the output buffer is unchanged |
| Mimic.CalcPaddingSameSize | mimic_efficientnet_lite0_int8_2.cpp:22-25 | The result is the ceiling of in_size / stride: (r - 1) * stride < in_size <= r * stride for positive strides, mirrored for negative ones |
| Mimic.CalcPaddingSameSizeUnique | mimic_efficientnet_lite0_int8_2.cpp:22-25 | The ceiling is the only integer with that property |
| Mimic.FirstLayerExtent | mimic_efficientnet_lite0_int8_2.cpp:72-82 | A 224-pixel axis with stride 2 yields an output extent of 112 |
| ConvCases.PointwiseCell | cnn.h:80-97 | With a 1x1 filter over one input channel, unit stride and no padding, a cell accumulates filter * (input + offset) + bias |
| ConvCases.PointwiseResult | cnn.h:80-98 | `Conv2D<T>` with a 1x1 filter stores filter[oc] * input[y, x] + bias[oc] in each cell |
| ConvCases.TwoFiltersCell | test_Conv2D.cpp:31-57 | In the two-filter test, channel oc holds filter[oc] + bias[oc] |
| ConvCases.TwoFilters | test_Conv2D.cpp:31-57 | Filters +1 and -1 with biases -1 and 123 over an input of 1 store 0 and 122 |
| ConvCases.OnesCell | cnn.h:80-98 | With all-ones data, every output cell holds its count of in-input taps times the input depth, plus its bias |
| ConvCases.ValidCountInside | cnn.h:83-88 | A window wholly inside the input keeps all of its taps |
| ConvCases.OnesInsideCell | cnn.h:80-98 | With all-ones data and a window inside the input, a cell holds height x width x depth of the filter, plus the bias |
| ConvCases.SingleTap | test_Conv2D.cpp:6-29 | A single tap 1 * 1 with bias -1 stores 0 |
| ConvCases.DepthTwo | test_Conv2D.cpp:60-87 | Two input channels of 1 with filter ones and bias 123 store 125 |
| ConvCases.OnesValid | test_Conv2D.cpp:89-114 | A 3x3 all-ones filter over a 3x3 all-ones input without padding stores 9 |
| ConvCases.OnesSameCell | test_Conv2D.cpp:116-206 | A 3x3 all-ones filter with padding 1 over an all-ones HxW input stores ValidCount(oy-1,3,H) * ValidCount(ox-1,3,W) in cell (oy, ox) |
| ConvCases.OnesSameSmall | test_Conv2D.cpp:116-173 | Over a 1x1 or a 2x2 all-ones input with SAME padding, every cell stores 1 or 4 respectively |
| ConvCases.TapsInThree | test_Conv2D.cpp:199-203 | Along a 3-wide axis with padding 1, the edge positions see 2 taps and the middle one sees 3 |
| ConvCases.OnesSameSquare3 | test_Conv2D.cpp:175-206 | The 3x3 SAME case stores 4 in the corners, 6 on the edges and 9 in the centre |
| ConvCases.Int8ShiftThirty | cnn.h:162-167 | With multiplier 2^30 and shift 30, an int8 cell whose accumulator is below 2^30 in magnitude stores the saturated output offset |
| ConvCases.Int8ShiftMinusOne | cnn.h:162-167 | With multiplier 2^30 and shift -1, an int8 cell stores its accumulator plus the output offset, saturated |
| ConvCases.Int8PointwiseShiftThirty | cnn.h:144-167 | The pointwise form of Int8ShiftThirty, with the accumulator written out as filter * (input + offset) + bias |
| ConvCases.Int8SingleTap | test_Conv2D_int8_int8.cpp:6-40 | The first int8 test's data make the kernel store -128 |
| ConvCases.Int8TwoFiltersCell | test_Conv2D_int8_int8.cpp:43-90 | Each channel of the second int8 test stores -128 |
| ConvCases.Int8TwoFilters | test_Conv2D_int8_int8.cpp:43-90 | The second int8 test's data make the kernel store -128 in both channels |
| ConvCases.RowsPastInputKept | cnn.h:189-195 | With the row loop bounded by the input height, every output cell at or below that row keeps its old value |
| ConvCases.WindowBelowInput | cnn.h:201-204 | A window whose first input row is at or below the input height sums no taps |
| ConvCases.TallOutputAsWritten | cnn.h:189-195 | As written, a 2-row output over a 1-row input leaves output row 1 at its old 0 |
| ConvCases.TallOutputCorrected | cnn.h:189-195 | With the output-height bound, the same data store the bias 5 in output row 1 |

## Left out

- `main`, `read_elements_from_file` and the image loader of the driver are not modelled. They do file and image I/O only; `FirstLayerExtent` records the one computation of `main` that feeds a kernel.
- `main` passes uninitialised `output_multiplier` / `output_shift` arrays, and only 3 entries for 32 output channels. The model needs one multiplier and a shift in range per output channel, so that call is outside it.
- Mimic.OffsetElements: the `offset` argument is accepted and ignored, as in the source.
- Mimic.CalcPaddingSameSize: computes the exact integer ceiling. The source divides in single-precision floating point and applies `ceilf`, which rounds differently only for magnitudes above 2^24, a range the driver does not reach.
- Kernels.AccumulateInts, Kernels.AccumulateInt8, Kernels.AccumulateUInt8: the accumulator is an unbounded integer. In C++ an int32 `sum` that overflows is undefined behaviour, so no wrap-around is modelled there. The explicit casts after the rescale are modelled.
- Kernels.Conv2D: models `Conv2D<T>` over `int` only. The float instantiation used by the tests needs floating-point arithmetic, which the model does not have. The float tests are stated over integers, where their values are exact.
- Kernels.Conv2D, Kernels.Conv2DInt8, Kernels.Conv2DUInt8: the output buffer must not alias the input or filter buffers, nor, for `Conv2D<T>`, whose bias has the element type of the output, the bias buffer. The source does not check this, and the model does not capture in-place convolution.
- Kernels.Int8CellValue: computes `(int64_t)sum * m0 + half` over unbounded integers. `Arith.RescaleFitsInt64` shows it stays within int64 whenever the multiplier is non-negative. With a negative multiplier it can leave int64 (`Arith.RescaleOverflowsInt64`: -2^31 * -2^31 + 2^62 = 2^63), which is undefined behaviour in C++ and not modelled. Neither are two other overflows: the int32 `sum += output_offset` at cnn.h:165, and the `int` index arithmetic of `num_elements`, `offset` and `in_y_start` at cnn.h:36, 46, 48 and 76.
- Kernels.Conv2DInt8: requires each shift in [-30, 32], where `1LL << (30 + n)` and `>> (31 + n)` are defined for int64. Kernels.Conv2DUInt8 likewise requires shifts in [0, 64).
- Kernels.Conv2DUInt8: requires the input to be no taller than the output. Otherwise the as-written loop reaches output rows that do not exist, and the `offset` assertion of the source fails.
- The `Padding` enum of cnn.h is unused by the kernels and is not modelled.
- The tests at test_Conv2D_int8_int8.cpp:40 and :83-90 expect `10 - 128`, `0 - 128` and `122 - 128`. The code stores -128 for those data (`Int8SingleTap`, `Int8TwoFilters`), because multiplier 2^30 with shift 30 scales by 2^-31. The model follows the code. With shift -1 the scale is 1 (`Int8ShiftMinusOne`).
- The second int8 test also passes one multiplier and one shift for two output channels. `Int8TwoFilters` gives both channels their own entries.
- Classification.cpp, Minimal.cpp and the Python export scripts are not part of this model.

## Findings

| source | as written | input that shows it | evidently intended | confidence | as-written member | corrected member |
|---|---|---|---|---|---|---|
| cnn.h:189 | `Conv2D_uint8_uint8` sets `output_height = input_shape.height`, so its row loop runs over the input height | 1x1 input [1], filter [1], bias [5], multiplier 1, shift 0, output 1x2x1x1 zeroed: output row 1 stays 0. An input taller than the output (any strided or unpadded layer) makes the loop reach output rows that do not exist, tripping the `offset` assertion at cnn.h:41 | `output_shape.height`, as in the other two kernels: row 1 holds 5 | not executed | Kernels.Conv2DUInt8, ConvCases.TallOutputAsWritten | Kernels.Conv2DUInt8Corrected, ConvCases.TallOutputCorrected |
