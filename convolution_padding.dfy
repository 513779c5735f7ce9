/**
 * Convolution geometry for ONNX `Conv` and `ConvTranspose` operators run on
 * a convolution kernel whose own padding model is simpler: the spatial
 * size of the output, and the offsets handed to the kernel so that it reads
 * its input as the operator's explicit, possibly asymmetric, pads demand.
 */
module ConvolutionPadding {

  function Abs(x: int): nat {
    if x < 0 then -x else x
  }

  /**
   * Integer division rounding toward zero, as Swift's `/` on `Int` does (Dafny's
   * own `/` rounds toward negative infinity for a positive divisor). The
   * remainder is smaller than the divisor in magnitude and takes the sign of
   * the dividend, which determines the quotient.
   */
  function TruncDiv(a: int, b: int): (q: int)
    requires b != 0
    ensures Abs(a - q * b) < Abs(b)
    ensures a - q * b == 0 || (a - q * b < 0 <==> a < 0)
    ensures a >= 0 && b > 0 ==> q == a / b
  {
    var q := Abs(a) / Abs(b);
    DivisionParts(Abs(a), Abs(b));
    if (a < 0) == (b < 0) then
      assert a - q * b == if a < 0 then -(Abs(a) - q * Abs(b)) else Abs(a) - q * Abs(b);
      q
    else
      assert a - -q * b == if a < 0 then -(Abs(a) - q * Abs(b)) else Abs(a) - q * Abs(b);
      -q
  }

  lemma DivisionParts(n: nat, d: nat)
    requires d > 0
    ensures 0 <= n - (n / d) * d < d
  {
  }

  /** A pair of per-axis values: kernel size, strides, dilations or output padding. */
  datatype Extent = Extent(height: int, width: int)

  /** Explicit pads before (top, left) and after (bottom, right) the input. */
  datatype Pads = Pads(top: int, left: int, bottom: int, right: int)

  /** The padding policy of one convolution operator. */
  datatype Padding = Padding(
    kernel: Extent,
    strides: Extent,
    dilations: Extent,
    pads: Pads,
    outputPadding: Extent,
    isTranspose: bool)

  /** An output size, width first as the library returns it. */
  datatype Size2 = Size2(width: int, height: int)

  /** The `kernelOffsetX` and `kernelOffsetY` of a transposed convolution kernel. */
  datatype KernelOffset = KernelOffset(x: int, y: int)

  /** A three-dimensional offset into the source image. */
  datatype Offset = Offset(x: int, y: int, z: int)

  /** Division by a zero stride traps in a forward convolution; a transposed one multiplies by it. */
  predicate StridesUsable(p: Padding) {
    !p.isTranspose ==> p.strides.height != 0 && p.strides.width != 0
  }

  /**
   * The output size of a forward convolution along one axis:
   * (input + padBefore + padAfter - kernel) / stride + 1, dividing with
   * truncation.
   */
  function ConvolutionOutputSize(input: int, padBefore: int, padAfter: int, kernel: int, stride: int): (out: int)
    requires stride != 0
    ensures var span := input + padBefore + padAfter - kernel;
      span >= 0 && stride > 0 ==> out >= 1 && (out - 1) * stride <= span < out * stride
  {
    TruncDiv(input + padBefore + padAfter - kernel, stride) + 1
  }

  /**
   * The output size of a transposed convolution along one axis:
   * (input - 1) * stride - padBefore - padAfter + kernel + outputPadding.
   * With a positive stride and a kernel wider than its pads it never shrinks
   * the input.
   */
  function TransposeOutputSize(input: int, padBefore: int, padAfter: int, kernel: int, stride: int,
                               outputPadding: int): (out: int)
    ensures stride >= 1 && input >= 1 && outputPadding >= 0 && kernel > padBefore + padAfter ==> out >= input
  {
    (input - 1) * stride - padBefore - padAfter + kernel + outputPadding
  }

  /**
   * The output size of the operator for an input of the given width and
   * height. For a forward convolution with positive strides whose kernel fits
   * the padded input, each axis has the ONNX size for dilation 1: the number
   * of kernel positions, one stride apart, that fit in the padded input.
   */
  function PaddedSize(p: Padding, inputWidth: int, inputHeight: int): (r: Size2)
    requires StridesUsable(p)
    ensures var spanW := inputWidth + p.pads.left + p.pads.right - p.kernel.width;
      !p.isTranspose && p.strides.width > 0 && spanW >= 0 ==>
        r.width >= 1 && (r.width - 1) * p.strides.width <= spanW < r.width * p.strides.width
    ensures var spanH := inputHeight + p.pads.top + p.pads.bottom - p.kernel.height;
      !p.isTranspose && p.strides.height > 0 && spanH >= 0 ==>
        r.height >= 1 && (r.height - 1) * p.strides.height <= spanH < r.height * p.strides.height
  {
    if p.isTranspose then
      Size2(
        (inputWidth - 1) * p.strides.width - p.pads.left - p.pads.right + p.kernel.width + p.outputPadding.width,
        (inputHeight - 1) * p.strides.height - p.pads.top - p.pads.bottom + p.kernel.height + p.outputPadding.height)
    else
      Size2(
        TruncDiv(inputWidth + p.pads.left + p.pads.right - p.kernel.width, p.strides.width) + 1,
        TruncDiv(inputHeight + p.pads.top + p.pads.bottom - p.kernel.height, p.strides.height) + 1)
  }

  /**
   * The source offset of a forward convolution: half the kernel, less the
   * leading pad, on each axis. Offset plus leading pad is the kernel's centre
   * tap, rounded down for an even kernel.
   */
  function ConvolutionOffset(p: Padding): (r: Offset)
    ensures p.kernel.width >= 0 ==> 0 <= p.kernel.width - 2 * (r.x + p.pads.left) <= 1
    ensures p.kernel.height >= 0 ==> 0 <= p.kernel.height - 2 * (r.y + p.pads.top) <= 1
    ensures r.z == 0
  {
    Offset(TruncDiv(p.kernel.width, 2) - p.pads.left, TruncDiv(p.kernel.height, 2) - p.pads.top, 0)
  }

  /**
   * The kernel offsets of a transposed convolution along x (width) and y
   * (height): one plus the leading pad, less the kernel's upper half
   * (half the kernel, rounded up).
   */
  function TransposeKernelOffset(p: Padding): (r: KernelOffset)
    ensures p.kernel.width >= 0 ==> 0 <= 2 * (p.pads.left + 1 - r.x) - p.kernel.width <= 1
    ensures p.kernel.height >= 0 ==> 0 <= 2 * (p.pads.top + 1 - r.y) - p.kernel.height <= 1
  {
    KernelOffset(TruncDiv(p.kernel.width, 2) - p.kernel.width + 1 + p.pads.left,
     TruncDiv(p.kernel.height, 2) - p.kernel.height + 1 + p.pads.top)
  }

  /**
   * Each axis of the output follows the ONNX formula for dilation 1: the
   * transposed one for a transposed convolution, the forward one otherwise,
   * each over that axis's input, pads, kernel and stride only. The dilation
   * is never read (see `DilationsIgnored`), so for a dilation other than 1
   * the size is not the ONNX one.
   */
  lemma PaddedSizeByAxis(p: Padding, inputWidth: int, inputHeight: int)
    requires StridesUsable(p)
    ensures var r := PaddedSize(p, inputWidth, inputHeight);
      if p.isTranspose then
        && r.width == TransposeOutputSize(inputWidth, p.pads.left, p.pads.right, p.kernel.width, p.strides.width, p.outputPadding.width)
        && r.height == TransposeOutputSize(inputHeight, p.pads.top, p.pads.bottom, p.kernel.height, p.strides.height, p.outputPadding.height)
      else
        && r.width == ConvolutionOutputSize(inputWidth, p.pads.left, p.pads.right, p.kernel.width, p.strides.width)
        && r.height == ConvolutionOutputSize(inputHeight, p.pads.top, p.pads.bottom, p.kernel.height, p.strides.height)
  {
  }

  /**
   * The height of the output depends on the input height and the height-axis
   * settings alone, and the width on the width-axis ones alone: two policies
   * that agree on one axis give the same size along it.
   */
  lemma AxesIndependent(p: Padding, q: Padding, inputWidth: int, inputHeight: int, otherWidth: int, otherHeight: int)
    requires StridesUsable(p) && StridesUsable(q)
    requires p.isTranspose == q.isTranspose
    ensures p.kernel.height == q.kernel.height && p.strides.height == q.strides.height
            && p.pads.top == q.pads.top && p.pads.bottom == q.pads.bottom
            && p.outputPadding.height == q.outputPadding.height
        ==> PaddedSize(p, inputWidth, inputHeight).height == PaddedSize(q, otherWidth, inputHeight).height
    ensures p.kernel.width == q.kernel.width && p.strides.width == q.strides.width
            && p.pads.left == q.pads.left && p.pads.right == q.pads.right
            && p.outputPadding.width == q.outputPadding.width
        ==> PaddedSize(p, inputWidth, inputHeight).width == PaddedSize(q, inputWidth, otherHeight).width
  {
  }

  /** The dilations affect neither the output size nor the offsets. */
  lemma DilationsIgnored(p: Padding, dilations: Extent, inputWidth: int, inputHeight: int)
    requires StridesUsable(p)
    ensures PaddedSize(p.(dilations := dilations), inputWidth, inputHeight) == PaddedSize(p, inputWidth, inputHeight)
    ensures ConvolutionOffset(p.(dilations := dilations)) == ConvolutionOffset(p)
    ensures TransposeKernelOffset(p.(dilations := dilations)) == TransposeKernelOffset(p)
  {
  }

  /**
   * "Same" padding: with stride 1 and pads adding up to one less than the
   * kernel, a forward convolution keeps the input size, whatever it is.
   */
  lemma SamePaddingKeepsSize(input: int, padBefore: int, padAfter: int, kernel: int)
    requires padBefore + padAfter == kernel - 1
    ensures ConvolutionOutputSize(input, padBefore, padAfter, kernel, 1) == input
  {
    var q := TruncDiv(input - 1, 1);
    assert Abs(input - 1 - q) < 1;
  }

  /** Two worked sizes: kernel 3, pads 1 and 1, stride 1 keeps 8; kernel 3, no pads, stride 2 takes 7 to 3. */
  lemma WorkedSizes()
    ensures ConvolutionOutputSize(8, 1, 1, 3, 1) == 8
    ensures ConvolutionOutputSize(7, 0, 0, 3, 2) == 3
  {
    SamePaddingKeepsSize(8, 1, 1, 3);
  }

  /**
   * Swift's truncating division differs from the ONNX floor formula when the
   * kernel overhangs the padded input by less than a stride: the library
   * then reports one output position where ONNX reports none.
   */
  lemma OverhangingKernelGivesOne(input: int, padBefore: int, padAfter: int, kernel: int, stride: int)
    requires stride > 0
    requires -stride < input + padBefore + padAfter - kernel < 0
    ensures ConvolutionOutputSize(input, padBefore, padAfter, kernel, stride) == 1
    ensures (input + padBefore + padAfter - kernel) / stride + 1 == 0
  {
  }

  /**
   * A transposed convolution undoes the size change of a forward one: fed
   * the forward output, with the same kernel, stride and pads and the
   * output padding that restores the rows the forward division dropped, it
   * gives back the forward input.
   */
  lemma {:induction false} TransposeRestoresSize(input: int, padBefore: int, padAfter: int, kernel: int, stride: int)
    requires stride > 0
    requires input + padBefore + padAfter - kernel >= 0
    ensures var span := input + padBefore + padAfter - kernel;
      TransposeOutputSize(ConvolutionOutputSize(input, padBefore, padAfter, kernel, stride),
                          padBefore, padAfter, kernel, stride, span % stride) == input
  {
    var span := input + padBefore + padAfter - kernel;
    assert TruncDiv(span, stride) == span / stride;
    assert (span / stride) * stride + span % stride == span;
  }

  /**
   * The same at the level of a padding policy: the transposed policy with the
   * forward one's kernel, strides and pads, and output padding equal to
   * what the forward division dropped, maps the forward output size back to
   * the input size.
   */
  lemma TransposedPolicyRestoresSize(p: Padding, inputWidth: int, inputHeight: int)
    requires !p.isTranspose && p.strides.width > 0 && p.strides.height > 0
    requires inputWidth + p.pads.left + p.pads.right - p.kernel.width >= 0
    requires inputHeight + p.pads.top + p.pads.bottom - p.kernel.height >= 0
    ensures var out := PaddedSize(p, inputWidth, inputHeight);
      var t := p.(isTranspose := true,
                  outputPadding := Extent(
                    (inputHeight + p.pads.top + p.pads.bottom - p.kernel.height) % p.strides.height,
                    (inputWidth + p.pads.left + p.pads.right - p.kernel.width) % p.strides.width));
      PaddedSize(t, out.width, out.height) == Size2(inputWidth, inputHeight)
  {
    PaddedSizeByAxis(p, inputWidth, inputHeight);
    TransposeRestoresSize(inputWidth, p.pads.left, p.pads.right, p.kernel.width, p.strides.width);
    TransposeRestoresSize(inputHeight, p.pads.top, p.pads.bottom, p.kernel.height, p.strides.height);
  }

  /**
   * The transposed kernel offset mirrors the forward source offset: on each
   * axis the two add up to 1 for an even kernel and to 0 for an odd one,
   * whatever the leading pad.
   */
  lemma OffsetsMirror(p: Padding)
    requires p.kernel.width >= 0 && p.kernel.height >= 0
    ensures TransposeKernelOffset(p).x + ConvolutionOffset(p).x == 1 - p.kernel.width % 2
    ensures TransposeKernelOffset(p).y + ConvolutionOffset(p).y == 1 - p.kernel.height % 2
  {
    assert TruncDiv(p.kernel.width, 2) == p.kernel.width / 2;
    assert TruncDiv(p.kernel.height, 2) == p.kernel.height / 2;
  }

  /**
   * An odd kernel with pads of half the kernel (rounded down) on the leading
   * side is centred: both the forward source offset and the transposed
   * kernel offset are zero on that axis.
   */
  lemma CentredOddKernel(p: Padding)
    requires p.kernel.width >= 0 && p.kernel.width % 2 == 1 && p.pads.left == p.kernel.width / 2
    requires p.kernel.height >= 0 && p.kernel.height % 2 == 1 && p.pads.top == p.kernel.height / 2
    ensures ConvolutionOffset(p) == Offset(0, 0, 0)
    ensures TransposeKernelOffset(p) == KernelOffset(0, 0)
  {
    OffsetsMirror(p);
  }
}
