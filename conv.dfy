/** What one output cell of the convolutions in cnn.h holds: the sum, over the
    filter taps whose input position lies inside the input, of
    filter * (input + input offset), in the order the kernels add them. */
module Conv {
  import opened Tensor

  /** The shapes, strides and paddings that every kernel of cnn.h receives. */
  datatype Geometry = Geometry(input: Shape, filter: Shape, output: Shape,
                               strideHeight: int, strideWidth: int,
                               paddingHeight: int, paddingWidth: int)

  /** Shapes are valid, every (output channel, input channel) pair names a
      filter element, and the input and filter buffers hold their shapes. */
  predicate Fits(g: Geometry, inputLen: int, filterLen: int)
  {
    Valid(g.input) && Valid(g.filter) && Valid(g.output) &&
    g.input.channel <= g.filter.channel && g.output.channel <= g.filter.number &&
    NumElements(g.input) <= inputLen && NumElements(g.filter) <= filterLen
  }

  /** Input row under filter row 0 for output row `oy` (`in_y_start`). */
  function RowStart(g: Geometry, oy: int): int
  {
    oy * g.strideHeight - g.paddingHeight
  }

  /** Input column under filter column 0 for output column `ox` (`in_x_start`). */
  function ColStart(g: Geometry, ox: int): int
  {
    ox * g.strideWidth - g.paddingWidth
  }

  /** One product of the inner loop: filter[oc, fy, fx, ic] * (input[0, iy, ix, ic] + zp). */
  function Tap(g: Geometry, input: seq<int>, filter: seq<int>, zp: int,
               oc: int, fy: int, fx: int, iy: int, ix: int, ic: int): int
    requires Fits(g, |input|, |filter|) && 0 <= oc < g.output.channel
    requires 0 <= fy < g.filter.height && 0 <= fx < g.filter.width
    requires 0 <= iy < g.input.height && 0 <= ix < g.input.width && 0 <= ic < g.input.channel
  {
    filter[Offset(g.filter, oc, fy, fx, ic)] * (input[Offset(g.input, 0, iy, ix, ic)] + zp)
  }

  /** Sum of the taps for input channels 0 .. k-1 at one in-range position. */
  function ChannelSum(g: Geometry, input: seq<int>, filter: seq<int>, zp: int,
                      oc: int, fy: int, fx: int, iy: int, ix: int, k: int): int
    requires Fits(g, |input|, |filter|) && 0 <= oc < g.output.channel
    requires 0 <= fy < g.filter.height && 0 <= fx < g.filter.width
    requires 0 <= iy < g.input.height && 0 <= ix < g.input.width && 0 <= k <= g.input.channel
    decreases k
  {
    if k == 0 then 0
    else ChannelSum(g, input, filter, zp, oc, fy, fx, iy, ix, k - 1)
         + Tap(g, input, filter, zp, oc, fy, fx, iy, ix, k - 1)
  }

  /** Sum over filter columns 0 .. k-1 of one filter row whose input row is
      `iy`; a column whose input column falls outside the input is skipped. */
  function RowSum(g: Geometry, input: seq<int>, filter: seq<int>, zp: int,
                  oc: int, fy: int, iy: int, ox: int, k: int): int
    requires Fits(g, |input|, |filter|) && 0 <= oc < g.output.channel
    requires 0 <= fy < g.filter.height && 0 <= iy < g.input.height && 0 <= k <= g.filter.width
    decreases k
  {
    if k == 0 then 0
    else
      var ix := ColStart(g, ox) + (k - 1);
      RowSum(g, input, filter, zp, oc, fy, iy, ox, k - 1)
      + if 0 <= ix < g.input.width
        then ChannelSum(g, input, filter, zp, oc, fy, k - 1, iy, ix, g.input.channel)
        else 0
  }

  /** Sum over filter rows 0 .. k-1 of the window of output cell (oy, ox, oc);
      a row whose input row falls outside the input is skipped. */
  function WindowSum(g: Geometry, input: seq<int>, filter: seq<int>, zp: int,
                     oc: int, oy: int, ox: int, k: int): int
    requires Fits(g, |input|, |filter|) && 0 <= oc < g.output.channel
    requires 0 <= k <= g.filter.height
    decreases k
  {
    if k == 0 then 0
    else
      var iy := RowStart(g, oy) + (k - 1);
      WindowSum(g, input, filter, zp, oc, oy, ox, k - 1)
      + if 0 <= iy < g.input.height
        then RowSum(g, input, filter, zp, oc, k - 1, iy, ox, g.filter.width)
        else 0
  }

  /** The accumulator of output cell (oy, ox, oc) once the bias is added. */
  function Accumulation(g: Geometry, input: seq<int>, filter: seq<int>, bias: seq<int>, zp: int,
                        oy: int, ox: int, oc: int): int
    requires Fits(g, |input|, |filter|) && 0 <= oc < g.output.channel <= |bias|
  {
    WindowSum(g, input, filter, zp, oc, oy, ox, g.filter.height) + bias[oc]
  }

  // ---------------------------------------------------------------------
  // Reference: the same window over an input padded on every side with the
  // value -zp, whose shifted value (-zp + zp) is zero, and no tap skipped.

  /** Input element at (iy, ix, ic), or the padding value -zp outside the input. */
  function PaddedValue(g: Geometry, input: seq<int>, zp: int, iy: int, ix: int, ic: int): int
    requires Valid(g.input) && NumElements(g.input) <= |input| && 0 <= ic < g.input.channel
  {
    if 0 <= iy < g.input.height && 0 <= ix < g.input.width
    then input[Offset(g.input, 0, iy, ix, ic)]
    else -zp
  }

  function PaddedChannelSum(g: Geometry, input: seq<int>, filter: seq<int>, zp: int,
                            oc: int, fy: int, fx: int, iy: int, ix: int, k: int): int
    requires Fits(g, |input|, |filter|) && 0 <= oc < g.output.channel
    requires 0 <= fy < g.filter.height && 0 <= fx < g.filter.width && 0 <= k <= g.input.channel
    decreases k
  {
    if k == 0 then 0
    else PaddedChannelSum(g, input, filter, zp, oc, fy, fx, iy, ix, k - 1)
         + filter[Offset(g.filter, oc, fy, fx, k - 1)] * (PaddedValue(g, input, zp, iy, ix, k - 1) + zp)
  }

  function PaddedRowSum(g: Geometry, input: seq<int>, filter: seq<int>, zp: int,
                        oc: int, fy: int, iy: int, ox: int, k: int): int
    requires Fits(g, |input|, |filter|) && 0 <= oc < g.output.channel
    requires 0 <= fy < g.filter.height && 0 <= k <= g.filter.width
    decreases k
  {
    if k == 0 then 0
    else PaddedRowSum(g, input, filter, zp, oc, fy, iy, ox, k - 1)
         + PaddedChannelSum(g, input, filter, zp, oc, fy, k - 1, iy, ColStart(g, ox) + (k - 1), g.input.channel)
  }

  function PaddedWindowSum(g: Geometry, input: seq<int>, filter: seq<int>, zp: int,
                           oc: int, oy: int, ox: int, k: int): int
    requires Fits(g, |input|, |filter|) && 0 <= oc < g.output.channel
    requires 0 <= k <= g.filter.height
    decreases k
  {
    if k == 0 then 0
    else PaddedWindowSum(g, input, filter, zp, oc, oy, ox, k - 1)
         + PaddedRowSum(g, input, filter, zp, oc, k - 1, RowStart(g, oy) + (k - 1), ox, g.filter.width)
  }

  lemma {:induction false} PaddedChannelSumOutside(g: Geometry, input: seq<int>, filter: seq<int>, zp: int,
                                                   oc: int, fy: int, fx: int, iy: int, ix: int, k: int)
    requires Fits(g, |input|, |filter|) && 0 <= oc < g.output.channel
    requires 0 <= fy < g.filter.height && 0 <= fx < g.filter.width && 0 <= k <= g.input.channel
    requires !(0 <= iy < g.input.height && 0 <= ix < g.input.width)
    ensures PaddedChannelSum(g, input, filter, zp, oc, fy, fx, iy, ix, k) == 0
  {
    if k > 0 {
      PaddedChannelSumOutside(g, input, filter, zp, oc, fy, fx, iy, ix, k - 1);
      var w := filter[Offset(g.filter, oc, fy, fx, k - 1)];
      assert PaddedValue(g, input, zp, iy, ix, k - 1) + zp == 0;
      assert w * 0 == 0;
    }
  }

  lemma {:induction false} PaddedChannelSumInside(g: Geometry, input: seq<int>, filter: seq<int>, zp: int,
                                                  oc: int, fy: int, fx: int, iy: int, ix: int, k: int)
    requires Fits(g, |input|, |filter|) && 0 <= oc < g.output.channel
    requires 0 <= fy < g.filter.height && 0 <= fx < g.filter.width && 0 <= k <= g.input.channel
    requires 0 <= iy < g.input.height && 0 <= ix < g.input.width
    ensures PaddedChannelSum(g, input, filter, zp, oc, fy, fx, iy, ix, k)
         == ChannelSum(g, input, filter, zp, oc, fy, fx, iy, ix, k)
  {
    if k > 0 {
      PaddedChannelSumInside(g, input, filter, zp, oc, fy, fx, iy, ix, k - 1);
    }
  }

  lemma {:induction false} PaddedRowSumOutside(g: Geometry, input: seq<int>, filter: seq<int>, zp: int,
                                               oc: int, fy: int, iy: int, ox: int, k: int)
    requires Fits(g, |input|, |filter|) && 0 <= oc < g.output.channel
    requires 0 <= fy < g.filter.height && 0 <= k <= g.filter.width
    requires !(0 <= iy < g.input.height)
    ensures PaddedRowSum(g, input, filter, zp, oc, fy, iy, ox, k) == 0
  {
    if k > 0 {
      PaddedRowSumOutside(g, input, filter, zp, oc, fy, iy, ox, k - 1);
      PaddedChannelSumOutside(g, input, filter, zp, oc, fy, k - 1, iy, ColStart(g, ox) + (k - 1), g.input.channel);
    }
  }

  lemma {:induction false} PaddedRowSumInside(g: Geometry, input: seq<int>, filter: seq<int>, zp: int,
                                              oc: int, fy: int, iy: int, ox: int, k: int)
    requires Fits(g, |input|, |filter|) && 0 <= oc < g.output.channel
    requires 0 <= fy < g.filter.height && 0 <= iy < g.input.height && 0 <= k <= g.filter.width
    ensures PaddedRowSum(g, input, filter, zp, oc, fy, iy, ox, k)
         == RowSum(g, input, filter, zp, oc, fy, iy, ox, k)
  {
    if k > 0 {
      PaddedRowSumInside(g, input, filter, zp, oc, fy, iy, ox, k - 1);
      var ix := ColStart(g, ox) + (k - 1);
      if 0 <= ix < g.input.width {
        PaddedChannelSumInside(g, input, filter, zp, oc, fy, k - 1, iy, ix, g.input.channel);
      } else {
        PaddedChannelSumOutside(g, input, filter, zp, oc, fy, k - 1, iy, ix, g.input.channel);
      }
    }
  }

  /** Skipping the taps that fall outside the input gives the same sum as
      padding the input with -zp and summing every tap. */
  lemma {:induction false} SkippingEqualsPadding(g: Geometry, input: seq<int>, filter: seq<int>, zp: int,
                                                 oc: int, oy: int, ox: int, k: int)
    requires Fits(g, |input|, |filter|) && 0 <= oc < g.output.channel
    requires 0 <= k <= g.filter.height
    ensures WindowSum(g, input, filter, zp, oc, oy, ox, k)
         == PaddedWindowSum(g, input, filter, zp, oc, oy, ox, k)
  {
    if k > 0 {
      SkippingEqualsPadding(g, input, filter, zp, oc, oy, ox, k - 1);
      var iy := RowStart(g, oy) + (k - 1);
      if 0 <= iy < g.input.height {
        PaddedRowSumInside(g, input, filter, zp, oc, k - 1, iy, ox, g.filter.width);
      } else {
        PaddedRowSumOutside(g, input, filter, zp, oc, k - 1, iy, ox, g.filter.width);
      }
    }
  }

  // ---------------------------------------------------------------------
  // All-ones data: a cell counts the taps that land inside the input.

  /** Number of j in 0 .. k-1 with start + j inside [0, n). */
  function ValidCount(start: int, k: nat, n: int): (r: nat)
    ensures r <= k
  {
    if k == 0 then 0
    else ValidCount(start, k - 1, n) + (if 0 <= start + (k - 1) < n then 1 else 0)
  }

  lemma MulSucc(n: int, c: int)
    ensures (n + 1) * c == n * c + c
  {
  }

  predicate AllOnes(s: seq<int>)
  {
    forall i :: 0 <= i < |s| ==> s[i] == 1
  }

  lemma {:induction false} ChannelSumOnes(g: Geometry, input: seq<int>, filter: seq<int>,
                                          oc: int, fy: int, fx: int, iy: int, ix: int, k: int)
    requires Fits(g, |input|, |filter|) && 0 <= oc < g.output.channel
    requires 0 <= fy < g.filter.height && 0 <= fx < g.filter.width
    requires 0 <= iy < g.input.height && 0 <= ix < g.input.width && 0 <= k <= g.input.channel
    requires AllOnes(input) && AllOnes(filter)
    ensures ChannelSum(g, input, filter, 0, oc, fy, fx, iy, ix, k) == k
  {
    if k > 0 {
      ChannelSumOnes(g, input, filter, oc, fy, fx, iy, ix, k - 1);
    }
  }

  lemma {:induction false} RowSumOnes(g: Geometry, input: seq<int>, filter: seq<int>,
                                      oc: int, fy: int, iy: int, ox: int, k: int)
    requires Fits(g, |input|, |filter|) && 0 <= oc < g.output.channel
    requires 0 <= fy < g.filter.height && 0 <= iy < g.input.height && 0 <= k <= g.filter.width
    requires AllOnes(input) && AllOnes(filter)
    ensures RowSum(g, input, filter, 0, oc, fy, iy, ox, k)
         == ValidCount(ColStart(g, ox), k, g.input.width) * g.input.channel
  {
    if k > 0 {
      RowSumOnes(g, input, filter, oc, fy, iy, ox, k - 1);
      var start := ColStart(g, ox);
      var ix := start + (k - 1);
      var c := g.input.channel;
      var n := ValidCount(start, k - 1, g.input.width);
      if 0 <= ix < g.input.width {
        ChannelSumOnes(g, input, filter, oc, fy, k - 1, iy, ix, c);
        assert ValidCount(start, k, g.input.width) == n + 1;
        MulSucc(n, c);
      } else {
        assert ValidCount(start, k, g.input.width) == n;
      }
    }
  }

  /** With all-ones input and filter and no offset, a window sums to the number
      of valid rows times the number of valid columns times the input depth. */
  lemma {:induction false} WindowSumOnes(g: Geometry, input: seq<int>, filter: seq<int>,
                                         oc: int, oy: int, ox: int, k: int)
    requires Fits(g, |input|, |filter|) && 0 <= oc < g.output.channel
    requires 0 <= k <= g.filter.height
    requires AllOnes(input) && AllOnes(filter)
    ensures WindowSum(g, input, filter, 0, oc, oy, ox, k)
         == ValidCount(RowStart(g, oy), k, g.input.height)
            * (ValidCount(ColStart(g, ox), g.filter.width, g.input.width) * g.input.channel)
  {
    if k > 0 {
      WindowSumOnes(g, input, filter, oc, oy, ox, k - 1);
      var start := RowStart(g, oy);
      var iy := start + (k - 1);
      var cols := ValidCount(ColStart(g, ox), g.filter.width, g.input.width) * g.input.channel;
      var n := ValidCount(start, k - 1, g.input.height);
      if 0 <= iy < g.input.height {
        RowSumOnes(g, input, filter, oc, k - 1, iy, ox, g.filter.width);
        assert ValidCount(start, k, g.input.height) == n + 1;
        MulSucc(n, cols);
      } else {
        assert ValidCount(start, k, g.input.height) == n;
      }
    }
  }
}
