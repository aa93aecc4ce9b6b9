/**
 * Shape descriptors for the layers that the styled generator and
 * discriminator register. The layers themselves (styled convolution,
 * equalized convolution, equalized linear) live in a library that is not
 * part of this model; here each is only the shape it declares, and the
 * shape rule it applies to the tensor it receives.
 */
module Shapes {

  datatype Option<T> = None | Some(value: T)

  /** The two ways a forward call can fail: a tensor whose dimensions do not
      match a layer's declaration, or a list read past its end. */
  datatype Error = ShapeError | IndexError

  datatype Result<T> = Ok(value: T) | Err(error: Error)

  /** Spatial size (height, width) of a feature map. */
  datatype Size = Size(h: int, w: int)

  /** Shape (batch, channels, height, width) of a 4-D tensor. */
  datatype Tensor4 = Tensor4(batch: int, ch: int, h: int, w: int)

  /** Shape (batch, features) of a 2-D tensor. */
  datatype Mat = Mat(rows: int, cols: int)

  /** An equalized 2-D convolution: declared input and output channels,
      square kernel size and zero padding; the stride is 1. */
  datatype Conv = Conv(inCh: int, outCh: int, kernel: int, padding: int)

  /** An equalized fully connected layer: declared fan-in and width. */
  datatype Linear = Linear(inF: int, outF: int)

  /** A style-modulated convolution block with noise injection: declared
      channels, kernel, padding, the width of the style vector it reads and
      the initial spatial size it is configured with. */
  datatype StyledConv = StyledConv(inCh: int, outCh: int, kernel: int, padding: int,
                                   styleDim: int, initSize: int)

  /** Output extent of a stride-1 convolution along one spatial axis. */
  function ConvExtent(n: int, c: Conv): int
  {
    n + 2 * c.padding - c.kernel + 1
  }

  /** What the convolution layer does to the shape of its input: it fails
      when the channel count differs from the declared one or when the
      output would be empty, and otherwise keeps the batch and produces the
      declared output channels. */
  function ApplyConv(c: Conv, x: Tensor4): Result<Tensor4>
  {
    if x.ch != c.inCh || ConvExtent(x.h, c) < 1 || ConvExtent(x.w, c) < 1 then Err(ShapeError)
    else Ok(Tensor4(x.batch, c.outCh, ConvExtent(x.h, c), ConvExtent(x.w, c)))
  }
}
