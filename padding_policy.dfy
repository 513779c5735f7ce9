/**
 * The padding policy at work: asked for the descriptor of a convolution's
 * destination image, it configures the convolution kernel's offsets and
 * edge mode and sizes the suggested descriptor to the output size.
 */
module PaddingPolicy {
  import opened ConvolutionPadding

  /** How the kernel reads outside the source image. */
  datatype EdgeMode = Zero | Clamp

  /** Which convolution a kernel performs. */
  datatype KernelKind = ForwardConvolution | TransposedConvolution

  /** A source image; only its size matters here. */
  datatype Image = Image(width: int, height: int, featureChannels: int)

  /** The convolution kernel whose reading window the policy sets. */
  class ConvolutionKernel {
    const kind: KernelKind
    var offset: Offset
    var edgeMode: EdgeMode
    var kernelOffsetX: int
    var kernelOffsetY: int

    constructor (kind: KernelKind)
      ensures this.kind == kind
      ensures offset == Offset(0, 0, 0) && edgeMode == Zero && kernelOffsetX == 0 && kernelOffsetY == 0
    {
      this.kind := kind;
      offset := Offset(0, 0, 0);
      edgeMode := Zero;
      kernelOffsetX := 0;
      kernelOffsetY := 0;
    }
  }

  /** The descriptor of an image to be allocated. */
  class ImageDescriptor {
    var width: int
    var height: int
    var featureChannels: int

    constructor (width: int, height: int, featureChannels: int)
      ensures this.width == width && this.height == height && this.featureChannels == featureChannels
    {
      this.width := width;
      this.height := height;
      this.featureChannels := featureChannels;
    }
  }

  /**
   * Configures `kernel` for the policy `p` and sizes `inDescriptor` to the
   * output size for the first source image, returning that same descriptor.
   * A transposed convolution gets a zero offset and its kernel offsets; a
   * forward one gets its source offset and keeps its kernel offsets. Both
   * read zeros outside the source. The caller passes at least one source
   * image and the kernel of the matching kind.
   */
  method DestinationImageDescriptor(p: Padding, sourceImages: seq<Image>, kernel: ConvolutionKernel,
                                    inDescriptor: ImageDescriptor)
    returns (descriptor: ImageDescriptor)
    requires |sourceImages| > 0
    requires kernel.kind == (if p.isTranspose then TransposedConvolution else ForwardConvolution)
    requires StridesUsable(p)
    modifies kernel, inDescriptor`width, inDescriptor`height
    ensures descriptor == inDescriptor
    ensures Size2(descriptor.width, descriptor.height) == PaddedSize(p, sourceImages[0].width, sourceImages[0].height)
    ensures kernel.edgeMode == Zero
    ensures p.isTranspose ==>
      && kernel.offset == Offset(0, 0, 0)
      && KernelOffset(kernel.kernelOffsetX, kernel.kernelOffsetY) == TransposeKernelOffset(p)
    ensures !p.isTranspose ==>
      && kernel.offset == ConvolutionOffset(p)
      && kernel.kernelOffsetX == old(kernel.kernelOffsetX) && kernel.kernelOffsetY == old(kernel.kernelOffsetY)
  {
    var inputHeight := sourceImages[0].height;
    var inputWidth := sourceImages[0].width;
    if p.isTranspose {
      kernel.offset := Offset(0, 0, 0);
      kernel.edgeMode := Zero;
      kernel.kernelOffsetX := TruncDiv(p.kernel.width, 2) - p.kernel.width + 1 + p.pads.left;
      kernel.kernelOffsetY := TruncDiv(p.kernel.height, 2) - p.kernel.height + 1 + p.pads.top;
    } else {
      kernel.offset := Offset(TruncDiv(p.kernel.width, 2) - p.pads.left, TruncDiv(p.kernel.height, 2) - p.pads.top, 0);
      kernel.edgeMode := Zero;
    }
    var paddedSize := PaddedSize(p, inputWidth, inputHeight);
    inDescriptor.height := paddedSize.height;
    inDescriptor.width := paddedSize.width;
    return inDescriptor;
  }
}
