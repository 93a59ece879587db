/** The convolution kernels of cnn.h as methods over caller-owned arrays:
    `Conv2D<T>` (over int), `Conv2D_int8_int8` and `Conv2D_uint8_uint8`.
    Each visits output rows, columns and channels in that order, accumulates
    the cell's window with three inner loops, and stores one value per cell. */
module Kernels {
  import opened Tensor
  import opened Arith
  import opened Conv

  /** Output index `i` holds a batch-0 cell that the loops over (row, column,
      channel) have already passed when they stand at (oy, ox, oc). */
  predicate Written(s: Shape, i: int, oy: int, ox: int, oc: int)
  {
    Batch0(s, i) &&
    var p := Coords(s, i);
    p.y < oy || (p.y == oy && (p.x < ox || (p.x == ox && p.c < oc)))
  }

  // ---------------------------------------------------------------------
  // The three inner loops (filter rows, filter columns, input channels).

  /** Window sum of `Conv2D<T>` for one output cell. */
  method AccumulateInts(g: Geometry, input: array<int>, filter: array<int>, oy: int, ox: int, oc: int)
    returns (sum: int)
    requires Fits(g, input.Length, filter.Length) && 0 <= oc < g.output.channel
    ensures sum == WindowSum(g, input[..], filter[..], 0, oc, oy, ox, g.filter.height)
  {
    sum := 0;
    var inYStart := oy * g.strideHeight - g.paddingHeight;
    var inXStart := ox * g.strideWidth - g.paddingWidth;
    for fy := 0 to g.filter.height
      invariant sum == WindowSum(g, input[..], filter[..], 0, oc, oy, ox, fy)
    {
      var iy := inYStart + fy;
      if 0 <= iy < g.input.height {
        ghost var rows := sum;
        for fx := 0 to g.filter.width
          invariant sum == rows + RowSum(g, input[..], filter[..], 0, oc, fy, iy, ox, fx)
        {
          var ix := inXStart + fx;
          if 0 <= ix < g.input.width {
            ghost var cols := sum;
            for ic := 0 to g.input.channel
              invariant sum == cols + ChannelSum(g, input[..], filter[..], 0, oc, fy, fx, iy, ix, ic)
            {
              sum := sum + filter[Offset(g.filter, oc, fy, fx, ic)] * input[Offset(g.input, 0, iy, ix, ic)];
            }
          }
        }
      }
    }
  }

  /** Window sum of `Conv2D_int8_int8` for one output cell, each input value
      shifted by `inputOffset`. */
  method AccumulateInt8(g: Geometry, input: array<Int8>, filter: array<Int8>, inputOffset: int,
                        oy: int, ox: int, oc: int)
    returns (sum: int)
    requires Fits(g, input.Length, filter.Length) && 0 <= oc < g.output.channel
    ensures sum == WindowSum(g, I8(input[..]), I8(filter[..]), inputOffset, oc, oy, ox, g.filter.height)
  {
    ghost var xs, ws := I8(input[..]), I8(filter[..]);
    sum := 0;
    var inYStart := oy * g.strideHeight - g.paddingHeight;
    var inXStart := ox * g.strideWidth - g.paddingWidth;
    for fy := 0 to g.filter.height
      invariant sum == WindowSum(g, xs, ws, inputOffset, oc, oy, ox, fy)
    {
      var iy := inYStart + fy;
      if 0 <= iy < g.input.height {
        ghost var rows := sum;
        for fx := 0 to g.filter.width
          invariant sum == rows + RowSum(g, xs, ws, inputOffset, oc, fy, iy, ox, fx)
        {
          var ix := inXStart + fx;
          if 0 <= ix < g.input.width {
            ghost var cols := sum;
            for ic := 0 to g.input.channel
              invariant sum == cols + ChannelSum(g, xs, ws, inputOffset, oc, fy, fx, iy, ix, ic)
            {
              var inputValue := input[Offset(g.input, 0, iy, ix, ic)] as int;
              var filterValue := filter[Offset(g.filter, oc, fy, fx, ic)] as int;
              assert Tap(g, xs, ws, inputOffset, oc, fy, fx, iy, ix, ic) == filterValue * (inputValue + inputOffset);
              sum := sum + filterValue * (inputValue + inputOffset);
            }
          }
        }
      }
    }
  }

  /** Window sum of `Conv2D_uint8_uint8` for one output cell (no input offset). */
  method AccumulateUInt8(g: Geometry, input: array<UInt8>, filter: array<Int8>, oy: int, ox: int, oc: int)
    returns (sum: int)
    requires Fits(g, input.Length, filter.Length) && 0 <= oc < g.output.channel
    ensures sum == WindowSum(g, U8(input[..]), I8(filter[..]), 0, oc, oy, ox, g.filter.height)
  {
    ghost var xs, ws := U8(input[..]), I8(filter[..]);
    sum := 0;
    var inYStart := oy * g.strideHeight - g.paddingHeight;
    var inXStart := ox * g.strideWidth - g.paddingWidth;
    for fy := 0 to g.filter.height
      invariant sum == WindowSum(g, xs, ws, 0, oc, oy, ox, fy)
    {
      var iy := inYStart + fy;
      if 0 <= iy < g.input.height {
        ghost var rows := sum;
        for fx := 0 to g.filter.width
          invariant sum == rows + RowSum(g, xs, ws, 0, oc, fy, iy, ox, fx)
        {
          var ix := inXStart + fx;
          if 0 <= ix < g.input.width {
            ghost var cols := sum;
            for ic := 0 to g.input.channel
              invariant sum == cols + ChannelSum(g, xs, ws, 0, oc, fy, fx, iy, ix, ic)
            {
              var inputValue := input[Offset(g.input, 0, iy, ix, ic)] as int;
              var filterValue := filter[Offset(g.filter, oc, fy, fx, ic)] as int;
              assert Tap(g, xs, ws, 0, oc, fy, fx, iy, ix, ic) == filterValue * (inputValue + 0);
              sum := sum + filterValue * inputValue;
            }
          }
        }
      }
    }
  }

  /** One cell of `Conv2D_int8_int8`: accumulate, add the bias, rescale with
      the round-half-up term, add the output offset, saturate, narrow. */
  method Int8CellValue(g: Geometry, input: array<Int8>, filter: array<Int8>, bias: array<Int32>,
                       inputOffset: Int32, outputOffset: Int32,
                       multiplier: array<Int32>, shift: array<Int32>,
                       activationMin: Int32, activationMax: Int32, oy: int, ox: int, oc: int)
    returns (v: Int8)
    requires Fits(g, input.Length, filter.Length) && 0 <= oc < g.output.channel
    requires g.output.channel <= bias.Length && g.output.channel <= multiplier.Length
    requires g.output.channel <= shift.Length && -30 <= shift[oc] <= 32
    ensures v as int == Requantize(Accumulation(g, I8(input[..]), I8(filter[..]), I32(bias[..]), inputOffset as int, oy, ox, oc),
                                   multiplier[oc] as int, shift[oc] as int, outputOffset as int,
                                   activationMin as int, activationMax as int)
  {
    var m0 := multiplier[oc] as int;
    var n := shift[oc] as int;
    var sum := AccumulateInt8(g, input, filter, inputOffset as int, oy, ox, oc);
    sum := sum + bias[oc] as int;
    ghost var acc := sum;
    var half := Pow2(30 + n);
    sum := Wrap32((sum * m0 + half) / Pow2(31 + n));
    assert sum == Wrap32(RoundingRescale(acc, m0, n));
    sum := sum + outputOffset as int;
    sum := if sum < activationMin as int then activationMin as int else sum;
    sum := if activationMax as int < sum then activationMax as int else sum;
    assert sum == Clamp(Wrap32(RoundingRescale(acc, m0, n)) + outputOffset as int, activationMin as int, activationMax as int);
    v := Wrap8(sum) as Int8;
  }

  /** One cell of `Conv2D_uint8_uint8`: accumulate, add the bias, shift the
      product down without rounding, saturate, narrow. */
  method UInt8CellValue(g: Geometry, input: array<UInt8>, filter: array<Int8>, bias: array<Int32>,
                        multiplier: array<Int32>, shift: array<Int32>,
                        activationMin: Int32, activationMax: Int32, oy: int, ox: int, oc: int)
    returns (v: UInt8)
    requires Fits(g, input.Length, filter.Length) && 0 <= oc < g.output.channel
    requires g.output.channel <= bias.Length && g.output.channel <= multiplier.Length
    requires g.output.channel <= shift.Length && 0 <= shift[oc] < 64
    ensures v as int == RequantizeUnsigned(Accumulation(g, U8(input[..]), I8(filter[..]), I32(bias[..]), 0, oy, ox, oc),
                                           multiplier[oc] as int, shift[oc] as int,
                                           activationMin as int, activationMax as int)
  {
    var sum := AccumulateUInt8(g, input, filter, oy, ox, oc);
    sum := sum + bias[oc] as int;
    ghost var acc := sum;
    var m0 := multiplier[oc] as int;
    var n := shift[oc] as int;
    sum := Wrap32((sum * m0) / Pow2(n));
    assert sum == Wrap32(FloorRescale(acc, m0, n));
    sum := if sum < activationMin as int then activationMin as int else sum;
    sum := if activationMax as int < sum then activationMax as int else sum;
    assert sum == Clamp(Wrap32(FloorRescale(acc, m0, n)), activationMin as int, activationMax as int);
    v := WrapU8(sum) as UInt8;
  }

  // ---------------------------------------------------------------------
  // Filling the output cell by cell.

  /** `out` holds `target` at every index the loops have passed and `orig`
      everywhere else. */
  ghost predicate Filled<T>(s: Shape, out: seq<T>, orig: seq<T>, target: seq<T>, oy: int, ox: int, oc: int)
  {
    |out| == |orig| == |target| &&
    forall i :: 0 <= i < |out| ==> out[i] == if Written(s, i, oy, ox, oc) then target[i] else orig[i]
  }

  /** Storing the target value of cell (oy, ox, oc) advances the loops by one channel. */
  lemma FillCell<T>(s: Shape, out: seq<T>, orig: seq<T>, target: seq<T>, oy: int, ox: int, oc: int)
    requires Valid(s) && InBounds(s, 0, oy, ox, oc) && NumElements(s) <= |out|
    requires Filled(s, out, orig, target, oy, ox, oc)
    ensures Filled(s, out[Offset(s, 0, oy, ox, oc) := target[Offset(s, 0, oy, ox, oc)]], orig, target, oy, ox, oc + 1)
  {
    CoordsOfOffset(s, 0, oy, ox, oc);
  }

  lemma FillNextColumn<T>(s: Shape, out: seq<T>, orig: seq<T>, target: seq<T>, oy: int, ox: int)
    requires Filled(s, out, orig, target, oy, ox, s.channel)
    ensures Filled(s, out, orig, target, oy, ox + 1, 0)
  {
    assert forall i :: Written(s, i, oy, ox, s.channel) == Written(s, i, oy, ox + 1, 0);
  }

  lemma FillNextRow<T>(s: Shape, out: seq<T>, orig: seq<T>, target: seq<T>, oy: int)
    requires Filled(s, out, orig, target, oy, s.width, 0)
    ensures Filled(s, out, orig, target, oy + 1, 0, 0)
  {
    assert forall i :: Written(s, i, oy, s.width, 0) == Written(s, i, oy + 1, 0, 0);
  }

  /** Once the loops have passed the first `rows` rows, the output is the
      target, provided the target keeps `orig` outside those rows. */
  lemma FillDone<T>(s: Shape, out: seq<T>, orig: seq<T>, target: seq<T>, rows: int)
    requires Filled(s, out, orig, target, rows, 0, 0)
    requires forall i :: 0 <= i < |target| && !Written(s, i, rows, 0, 0) ==> target[i] == orig[i]
    ensures out == target
  {
  }

  lemma WrittenAllRows(s: Shape)
    ensures forall i :: Written(s, i, s.height, 0, 0) == Batch0(s, i)
  {
  }

  // ---------------------------------------------------------------------
  // What the kernels leave in the output buffer.

  /** `orig` with every batch-0 cell of the output replaced by its
      accumulator plus bias (`Conv2D<T>`). */
  ghost function Conv2DResult(g: Geometry, input: seq<int>, filter: seq<int>, bias: seq<int>, orig: seq<int>): (r: seq<int>)
    requires Fits(g, |input|, |filter|) && g.output.channel <= |bias| && NumElements(g.output) <= |orig|
    ensures |r| == |orig|
    ensures forall i {:trigger Batch0(g.output, i)} :: 0 <= i < |orig| && !Batch0(g.output, i) ==> r[i] == orig[i]
    ensures forall oy, ox, oc :: InBounds(g.output, 0, oy, ox, oc) ==>
              r[Offset(g.output, 0, oy, ox, oc)] == Accumulation(g, input, filter, bias, 0, oy, ox, oc)
  {
    CoordsOfOffsetAll(g.output);
    seq(|orig|, i requires 0 <= i < |orig| =>
      if Batch0(g.output, i)
      then var p := Coords(g.output, i); Accumulation(g, input, filter, bias, 0, p.y, p.x, p.c)
      else orig[i])
  }

  /** `orig` with every batch-0 cell replaced by its requantized int8 value
      (`Conv2D_int8_int8`). */
  ghost function Int8Result(g: Geometry, input: seq<int>, filter: seq<int>, bias: seq<int>, inputOffset: int,
                            outputOffset: int, multiplier: seq<int>, shift: seq<int>, lo: int, hi: int,
                            orig: seq<Int8>): (r: seq<Int8>)
    requires Fits(g, |input|, |filter|) && g.output.channel <= |bias| && NumElements(g.output) <= |orig|
    requires g.output.channel <= |multiplier| && g.output.channel <= |shift|
    requires forall oc :: 0 <= oc < g.output.channel ==> -30 <= shift[oc] <= 32
    ensures |r| == |orig|
    ensures forall i {:trigger Batch0(g.output, i)} :: 0 <= i < |orig| && !Batch0(g.output, i) ==> r[i] == orig[i]
    ensures forall oy, ox, oc :: InBounds(g.output, 0, oy, ox, oc) ==>
              r[Offset(g.output, 0, oy, ox, oc)] as int
                == Requantize(Accumulation(g, input, filter, bias, inputOffset, oy, ox, oc),
                              multiplier[oc], shift[oc], outputOffset, lo, hi)
  {
    CoordsOfOffsetAll(g.output);
    seq(|orig|, i requires 0 <= i < |orig| =>
      if Batch0(g.output, i)
      then var p := Coords(g.output, i);
           Requantize(Accumulation(g, input, filter, bias, inputOffset, p.y, p.x, p.c),
                      multiplier[p.c], shift[p.c], outputOffset, lo, hi) as Int8
      else orig[i])
  }

  /** `orig` with the batch-0 cells of the first `rows` output rows replaced
      by their rescaled uint8 values (`Conv2D_uint8_uint8`). */
  ghost function UInt8Result(g: Geometry, input: seq<int>, filter: seq<int>, bias: seq<int>,
                             multiplier: seq<int>, shift: seq<int>, lo: int, hi: int,
                             orig: seq<UInt8>, rows: int): (r: seq<UInt8>)
    requires Fits(g, |input|, |filter|) && g.output.channel <= |bias| && NumElements(g.output) <= |orig|
    requires g.output.channel <= |multiplier| && g.output.channel <= |shift|
    requires forall oc :: 0 <= oc < g.output.channel ==> 0 <= shift[oc] < 64
    ensures |r| == |orig|
    ensures forall i {:trigger Written(g.output, i, rows, 0, 0)} :: 0 <= i < |orig| && !Written(g.output, i, rows, 0, 0) ==> r[i] == orig[i]
    ensures forall oy, ox, oc :: InBounds(g.output, 0, oy, ox, oc) && oy < rows ==>
              r[Offset(g.output, 0, oy, ox, oc)] as int
                == RequantizeUnsigned(Accumulation(g, input, filter, bias, 0, oy, ox, oc),
                                      multiplier[oc], shift[oc], lo, hi)
  {
    CoordsOfOffsetAll(g.output);
    seq(|orig|, i requires 0 <= i < |orig| =>
      if Written(g.output, i, rows, 0, 0)
      then var p := Coords(g.output, i);
           RequantizeUnsigned(Accumulation(g, input, filter, bias, 0, p.y, p.x, p.c),
                              multiplier[p.c], shift[p.c], lo, hi) as UInt8
      else orig[i])
  }

  // ---------------------------------------------------------------------
  // The kernels.

  /** `Conv2D<T>` over int. */
  method Conv2D(g: Geometry, input: array<int>, filter: array<int>, bias: array<int>, output: array<int>)
    requires Fits(g, input.Length, filter.Length)
    requires g.output.channel <= bias.Length && NumElements(g.output) <= output.Length
    requires output != input && output != filter && output != bias
    modifies output
    ensures input[..] == old(input[..]) && filter[..] == old(filter[..]) && bias[..] == old(bias[..])
    ensures output[..] == Conv2DResult(g, input[..], filter[..], bias[..], old(output[..]))
  {
    ghost var orig := output[..];
    ghost var target := Conv2DResult(g, input[..], filter[..], bias[..], orig);
    for oy := 0 to g.output.height
      invariant Filled(g.output, output[..], orig, target, oy, 0, 0)
    {
      for ox := 0 to g.output.width
        invariant Filled(g.output, output[..], orig, target, oy, ox, 0)
      {
        for oc := 0 to g.output.channel
          invariant Filled(g.output, output[..], orig, target, oy, ox, oc)
        {
          var sum := AccumulateInts(g, input, filter, oy, ox, oc);
          sum := sum + bias[oc];
          FillCell(g.output, output[..], orig, target, oy, ox, oc);
          output[Offset(g.output, 0, oy, ox, oc)] := sum;
        }
        FillNextColumn(g.output, output[..], orig, target, oy, ox);
      }
      FillNextRow(g.output, output[..], orig, target, oy);
    }
    WrittenAllRows(g.output);
    FillDone(g.output, output[..], orig, target, g.output.height);
  }

  /** `Conv2D_int8_int8`. */
  method Conv2DInt8(g: Geometry, input: array<Int8>, filter: array<Int8>, bias: array<Int32>,
                    output: array<Int8>, inputOffset: Int32, outputOffset: Int32,
                    multiplier: array<Int32>, shift: array<Int32>,
                    activationMin: Int32, activationMax: Int32)
    requires Fits(g, input.Length, filter.Length)
    requires g.strideHeight >= 1 && g.strideWidth >= 1 && g.paddingHeight >= 0 && g.paddingWidth >= 0
    requires g.output.channel <= bias.Length && NumElements(g.output) <= output.Length
    requires g.output.channel <= multiplier.Length && g.output.channel <= shift.Length
    requires forall oc :: 0 <= oc < g.output.channel ==> -30 <= shift[oc] <= 32
    requires output != input && output != filter
    modifies output
    ensures input[..] == old(input[..]) && filter[..] == old(filter[..])
    ensures output[..] == Int8Result(g, I8(input[..]), I8(filter[..]), I32(bias[..]), inputOffset as int,
                                     outputOffset as int, I32(multiplier[..]), I32(shift[..]),
                                     activationMin as int, activationMax as int, old(output[..]))
  {
    ghost var orig := output[..];
    ghost var target := Int8Result(g, I8(input[..]), I8(filter[..]), I32(bias[..]), inputOffset as int,
                                   outputOffset as int, I32(multiplier[..]), I32(shift[..]),
                                   activationMin as int, activationMax as int, orig);
    for oy := 0 to g.output.height
      invariant Filled(g.output, output[..], orig, target, oy, 0, 0)
    {
      for ox := 0 to g.output.width
        invariant Filled(g.output, output[..], orig, target, oy, ox, 0)
      {
        for oc := 0 to g.output.channel
          invariant Filled(g.output, output[..], orig, target, oy, ox, oc)
        {
          var v := Int8CellValue(g, input, filter, bias, inputOffset, outputOffset,
                                 multiplier, shift, activationMin, activationMax, oy, ox, oc);
          FillCell(g.output, output[..], orig, target, oy, ox, oc);
          output[Offset(g.output, 0, oy, ox, oc)] := v;
        }
        FillNextColumn(g.output, output[..], orig, target, oy, ox);
      }
      FillNextRow(g.output, output[..], orig, target, oy);
    }
    WrittenAllRows(g.output);
    FillDone(g.output, output[..], orig, target, g.output.height);
  }

  /** `Conv2D_uint8_uint8` as written: its row loop runs over the INPUT
      height, so the input may be no taller than the output, and only the
      output rows below the input height are filled. */
  method Conv2DUInt8(g: Geometry, input: array<UInt8>, filter: array<Int8>, bias: array<Int32>,
                     output: array<UInt8>, multiplier: array<Int32>, shift: array<Int32>,
                     activationMin: Int32, activationMax: Int32)
    requires Fits(g, input.Length, filter.Length) && g.input.height <= g.output.height
    requires g.output.channel <= bias.Length && NumElements(g.output) <= output.Length
    requires g.output.channel <= multiplier.Length && g.output.channel <= shift.Length
    requires forall oc :: 0 <= oc < g.output.channel ==> 0 <= shift[oc] < 64
    requires output != input
    modifies output
    ensures input[..] == old(input[..])
    ensures output[..] == UInt8Result(g, U8(input[..]), I8(filter[..]), I32(bias[..]), I32(multiplier[..]),
                                      I32(shift[..]), activationMin as int, activationMax as int,
                                      old(output[..]), g.input.height)
  {
    Conv2DUInt8Rows(g, input, filter, bias, output, multiplier, shift, activationMin, activationMax, g.input.height);
  }

  /** `Conv2D_uint8_uint8` with its row loop over the output height, as the
      other two kernels have it: every batch-0 output cell is filled. */
  method Conv2DUInt8Corrected(g: Geometry, input: array<UInt8>, filter: array<Int8>, bias: array<Int32>,
                              output: array<UInt8>, multiplier: array<Int32>, shift: array<Int32>,
                              activationMin: Int32, activationMax: Int32)
    requires Fits(g, input.Length, filter.Length)
    requires g.output.channel <= bias.Length && NumElements(g.output) <= output.Length
    requires g.output.channel <= multiplier.Length && g.output.channel <= shift.Length
    requires forall oc :: 0 <= oc < g.output.channel ==> 0 <= shift[oc] < 64
    requires output != input
    modifies output
    ensures input[..] == old(input[..])
    ensures output[..] == UInt8Result(g, U8(input[..]), I8(filter[..]), I32(bias[..]), I32(multiplier[..]),
                                      I32(shift[..]), activationMin as int, activationMax as int,
                                      old(output[..]), g.output.height)
  {
    Conv2DUInt8Rows(g, input, filter, bias, output, multiplier, shift, activationMin, activationMax, g.output.height);
  }

  /** The loops of `Conv2D_uint8_uint8`, visiting the first `rows` output rows. */
  method Conv2DUInt8Rows(g: Geometry, input: array<UInt8>, filter: array<Int8>, bias: array<Int32>,
                         output: array<UInt8>, multiplier: array<Int32>, shift: array<Int32>,
                         activationMin: Int32, activationMax: Int32, rows: int)
    requires Fits(g, input.Length, filter.Length) && 0 <= rows <= g.output.height
    requires g.output.channel <= bias.Length && NumElements(g.output) <= output.Length
    requires g.output.channel <= multiplier.Length && g.output.channel <= shift.Length
    requires forall oc :: 0 <= oc < g.output.channel ==> 0 <= shift[oc] < 64
    requires output != input
    modifies output
    ensures input[..] == old(input[..])
    ensures output[..] == UInt8Result(g, U8(input[..]), I8(filter[..]), I32(bias[..]), I32(multiplier[..]),
                                      I32(shift[..]), activationMin as int, activationMax as int,
                                      old(output[..]), rows)
  {
    ghost var orig := output[..];
    ghost var target := UInt8Result(g, U8(input[..]), I8(filter[..]), I32(bias[..]), I32(multiplier[..]),
                                     I32(shift[..]), activationMin as int, activationMax as int, orig, rows);
    for oy := 0 to rows
      invariant Filled(g.output, output[..], orig, target, oy, 0, 0)
    {
      for ox := 0 to g.output.width
        invariant Filled(g.output, output[..], orig, target, oy, ox, 0)
      {
        for oc := 0 to g.output.channel
          invariant Filled(g.output, output[..], orig, target, oy, ox, oc)
        {
          var v := UInt8CellValue(g, input, filter, bias, multiplier, shift,
                                  activationMin, activationMax, oy, ox, oc);
          FillCell(g.output, output[..], orig, target, oy, ox, oc);
          output[Offset(g.output, 0, oy, ox, oc)] := v;
        }
        FillNextColumn(g.output, output[..], orig, target, oy, ox);
      }
      FillNextRow(g.output, output[..], orig, target, oy);
    }
    FillDone(g.output, output[..], orig, target, rows);
  }
}
