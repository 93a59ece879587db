/** The two helpers of the EfficientNet-Lite0 driver program that feed the
    first convolution: recentring the image bytes and the output extent
    of a SAME-padded strided layer. */
module Mimic {
  import opened Arith
  import opened Tensor

  /** `offset_elements`: each unsigned byte minus 128, stored as a signed
      byte. The `offset` argument is accepted and ignored; the shift is
      always 128. */
  method OffsetElements(input: array<UInt8>, output: array<Int8>, numElements: int, offset: int)
    requires numElements <= input.Length && numElements <= output.Length
    modifies output
    ensures forall i :: 0 <= i < numElements ==> output[i] as int + 0x80 == input[i] as int
    ensures forall i :: 0 <= i < output.Length && !(0 <= i < numElements) ==> output[i] == old(output[i])
  {
    var i := 0;
    while i < numElements
      invariant 0 <= i <= if numElements < 0 then 0 else numElements
      invariant forall j :: 0 <= j < i ==> output[j] as int + 0x80 == input[j] as int
      invariant forall j :: 0 <= j < output.Length && !(0 <= j < i) ==> output[j] == old(output[j])
    {
      output[i] := (input[i] as int - 0x80) as Int8;
      i := i + 1;
    }
  }

  /** `calc_padding_same_size`: the extent along one axis of a layer with
      SAME padding, the quotient in_size / stride rounded up. */
  function CalcPaddingSameSize(inSize: int, stride: int): (r: int)
    requires stride != 0
    ensures stride > 0 ==> (r - 1) * stride < inSize <= r * stride
    ensures stride < 0 ==> r * stride <= inSize < (r - 1) * stride
  {
    if stride > 0 then
      var q := (-inSize) / stride;
      assert -inSize == q * stride + (-inSize) % stride;
      -q
    else
      var q := inSize / (-stride);
      assert inSize == q * (-stride) + inSize % (-stride);
      -q
  }

  /** The ceiling is the only integer with that property. */
  lemma CalcPaddingSameSizeUnique(inSize: int, stride: int, k: int)
    requires stride > 0 && (k - 1) * stride < inSize <= k * stride
    ensures CalcPaddingSameSize(inSize, stride) == k
  {
    var r := CalcPaddingSameSize(inSize, stride);
    if r < k {
      assert r * stride <= (k - 1) * stride by { MulMono(r, k - 1, stride); }
    } else if r > k {
      assert k * stride <= (r - 1) * stride by { MulMono(k, r - 1, stride); }
    }
  }

  /** The first layer of the driver: a 224-pixel axis with stride 2 gives 112. */
  lemma FirstLayerExtent()
    ensures CalcPaddingSameSize(224, 2) == 112
  {
    CalcPaddingSameSizeUnique(224, 2, 112);
  }
}
