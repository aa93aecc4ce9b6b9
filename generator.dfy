/**
 * The styled progressive generator: its growth registry (scale depths,
 * styled stages and to-colour projections kept as parallel lists), the
 * style mapping stack, the forward pass as channel bookkeeping, and the
 * gradient-map overwrite of channel 0.
 */
module Generator {
  import opened Shapes

  /** Negative slope of the leaky rectifier in the style mapping stack. */
  const StyleLeak: real := 0.2

  /** One layer of the style mapping stack. */
  datatype StyleLayer = AudioNorm | Fc(fc: Linear) | LeakyRelu(slope: real)

  /** The argument of addScale: a depth, or a list whose head is the depth. */
  datatype DepthArg = Depth(d: int) | DepthList(ds: seq<int>)

  /** Where the noise tensor handed to a stage comes from. */
  datatype NoiseRef = FreshDraw | ListEntry(index: nat)

  /** One stage evaluation: the channel count of the tensor it received,
      the channel count it produced, the noise it was given, and whether
      the gradient map then overwrote channel 0 of its output. */
  datatype StageCall = StageCall(received: int, produced: int, noise: NoiseRef, noiseShape: Tensor4,
                                 gradMap: bool)

  /** Record of one generator forward pass. */
  datatype GenTrace = GenTrace(
    format: StageCall,        // the format layer
    stages: seq<StageCall>,   // the styled stages, in the order evaluated
    projection: nat,          // index of the to-colour projection applied
    projectionInput: int,     // channels the projection received
    channels: int,            // channels of the returned image
    noiseShape: Tensor4,      // shape of every drawn noise tensor
    noiseCount: nat)          // number of entries in the noise list used

  /** Width of the vector that comes out of a style stack fed a vector of
      width w, or None when a fully connected layer's fan-in does not match. */
  function StackWidth(layers: seq<StyleLayer>, w: int): Option<int>
  {
    if |layers| == 0 then Some(w)
    else match layers[0]
      case Fc(fc) => if fc.inF == w then StackWidth(layers[1..], fc.outF) else None
      case _ => StackWidth(layers[1..], w)
  }

  /** The style mapping stack for nMlp repetitions: a normalisation, then
      nMlp pairs of (fully connected d -> d, leaky rectifier). */
  ghost predicate IsStyleStack(layers: seq<StyleLayer>, nMlp: int, d: int)
  {
    && |layers| == 1 + 2 * (if nMlp > 0 then nMlp else 0)
    && layers[0] == AudioNorm
    && forall j :: 1 <= j < |layers| ==>
         layers[j] == if j % 2 == 1 then Fc(Linear(d, d)) else LeakyRelu(StyleLeak)
  }

  /** A run of (fully connected d -> d, leaky rectifier) pairs keeps width d. */
  lemma {:induction false} PairsKeepWidth(t: seq<StyleLayer>, d: int)
    requires |t| % 2 == 0
    requires forall j :: 0 <= j < |t| ==> t[j] == if j % 2 == 0 then Fc(Linear(d, d)) else LeakyRelu(StyleLeak)
    ensures StackWidth(t, d) == Some(d)
  {
    if |t| > 0 {
      var rest := t[2..];
      forall j | 0 <= j < |rest|
        ensures rest[j] == if j % 2 == 0 then Fc(Linear(d, d)) else LeakyRelu(StyleLeak)
      {
        assert rest[j] == t[j + 2];
        assert (j + 2) % 2 == j % 2;
      }
      PairsKeepWidth(rest, d);
      assert t[1] == LeakyRelu(StyleLeak);
      assert t[1..][1..] == rest;
    }
  }

  /** The style stack fed a vector of its own width d produces a style
      vector of width d; fed any other width it fails at its first fully
      connected layer, unless it has none and passes the width through. */
  lemma StyleStackWidth(layers: seq<StyleLayer>, nMlp: int, d: int, w: int)
    requires IsStyleStack(layers, nMlp, d)
    ensures StackWidth(layers, w) == if w == d then Some(d) else if nMlp > 0 then None else Some(w)
  {
    var t := layers[1..];
    forall j | 0 <= j < |t|
      ensures t[j] == if j % 2 == 0 then Fc(Linear(d, d)) else LeakyRelu(StyleLeak)
    {
      assert t[j] == layers[j + 1];
      assert (j + 1) % 2 == 1 <==> j % 2 == 0;
    }
    if w == d {
      PairsKeepWidth(t, d);
    } else if |t| > 0 {
      assert StackWidth(layers, w) == StackWidth(t, w);
      assert t[0] == Fc(Linear(d, d));
    }
  }

  /** Builds the style mapping stack, appending one pair per repetition. */
  method StyleLayers(nMlp: int, d: int) returns (layers: seq<StyleLayer>)
    ensures IsStyleStack(layers, nMlp, d)
    ensures StackWidth(layers, d) == Some(d)
  {
    layers := [AudioNorm];
    var i := 0;
    while i < nMlp
      invariant 0 <= i <= (if nMlp > 0 then nMlp else 0)
      invariant |layers| == 1 + 2 * i
      invariant layers[0] == AudioNorm
      invariant forall j :: 1 <= j < |layers| ==>
                  layers[j] == if j % 2 == 1 then Fc(Linear(d, d)) else LeakyRelu(StyleLeak)
    {
      layers := layers + [Fc(Linear(d, d))];
      layers := layers + [LeakyRelu(StyleLeak)];
      i := i + 1;
    }
    StyleStackWidth(layers, nMlp, d, d);
  }

  /** Draws count noise tensors of one shape (only their shapes are kept). */
  method DrawNoise(count: nat, shape: Tensor4) returns (noise: seq<Tensor4>)
    ensures |noise| == count
    ensures forall i :: 0 <= i < |noise| ==> noise[i] == shape
  {
    noise := [];
    var i := 0;
    while i < count
      invariant 0 <= i <= count
      invariant |noise| == i
      invariant forall k :: 0 <= k < i ==> noise[k] == shape
    {
      noise := noise + [shape];
      i := i + 1;
    }
  }

  /** Value of the top-to-bottom ramp linspace(0, 1, h) at row r. */
  function Ramp(r: int, h: int): (v: real)
    requires 0 <= r < h
    ensures 0.0 <= v <= 1.0
    ensures r == 0 ==> v == 0.0
    ensures r == h - 1 && h >= 2 ==> v == 1.0
  {
    if h == 1 then 0.0 else r as real / (h - 1) as real
  }

  /** The ramp grows strictly from the top row to the bottom row. */
  lemma RampIncreasing(r1: int, r2: int, h: int)
    requires 0 <= r1 < r2 < h
    ensures Ramp(r1, h) < Ramp(r2, h)
  {
  }

  /** New value of cell (channel c, row r) of a feature map of height h
      whose old value is v, after the gradient-map step. */
  function GradMapCell(enabled: bool, c: int, r: int, h: int, v: real): real
    requires 0 <= r < h
  {
    if enabled && c == 0 then Ramp(r, h) else v
  }

  /** Applying the gradient map twice is applying it once; when enabled the
      new channel-0 value ignores the old one; when disabled nothing changes. */
  lemma GradMapCellLaws(enabled: bool, c: int, r: int, h: int, v: real, u: real)
    requires 0 <= r < h
    ensures GradMapCell(enabled, c, r, h, GradMapCell(enabled, c, r, h, v)) == GradMapCell(enabled, c, r, h, v)
    ensures enabled && c == 0 ==> GradMapCell(enabled, c, r, h, v) == GradMapCell(enabled, c, r, h, u)
    ensures !enabled || c != 0 ==> GradMapCell(enabled, c, r, h, v) == v
  {
  }

  class StyledGenerator {
    const dimLatent: int
    const depthScale0: int
    const dimOutput: int
    const kernelSize: int
    const padding: int
    const sizeScale0: int
    const nMlp: int
    /** Output size of every scale, computed by the base class. */
    const outputSizes: seq<Size>

    var addGradientMap: bool
    var scalesDepth: seq<int>
    var scaleLayers: seq<StyledConv>
    var toRGBLayers: seq<Conv>
    var formatLayer: StyledConv
    var style: seq<StyleLayer>

    /** The styled stage this generator builds from inCh to outCh channels. */
    function Stage(inCh: int, outCh: int): StyledConv
    {
      StyledConv(inCh, outCh, kernelSize, padding, dimLatent, sizeScale0)
    }

    /** The 1x1 to-colour projection of a scale of the given depth. */
    function ToRGB(depth: int): Conv
    {
      Conv(depth, dimOutput, 1, 0)
    }

    /** The registry invariant: three parallel lists, a depth chain, and a
        style stack that reads and writes dimLatent-wide vectors. */
    ghost predicate Valid()
      reads this
    {
      && |outputSizes| >= 1
      && |scalesDepth| >= 1
      && |scaleLayers| == |scalesDepth|
      && |toRGBLayers| == |scalesDepth|
      && scalesDepth[0] == depthScale0
      && formatLayer == Stage(dimOutput, depthScale0)
      && scaleLayers[0] == Stage(scalesDepth[0], scalesDepth[0])
      && (forall i :: 0 < i < |scaleLayers| ==> scaleLayers[i] == Stage(scalesDepth[i - 1], scalesDepth[i]))
      && (forall i :: 0 <= i < |toRGBLayers| ==> toRGBLayers[i] == ToRGB(scalesDepth[i]))
      && IsStyleStack(style, nMlp, dimLatent)
    }

    /** Consecutive registered stages agree on channel count, and every
        projection reads what its stage writes. */
    lemma DepthChain()
      requires Valid()
      ensures scaleLayers[0].inCh == formatLayer.outCh
      ensures forall i :: 0 < i < |scaleLayers| ==> scaleLayers[i].inCh == scaleLayers[i - 1].outCh
      ensures forall i :: 0 <= i < |toRGBLayers| ==>
                toRGBLayers[i].inCh == scaleLayers[i].outCh && toRGBLayers[i].outCh == dimOutput
                && toRGBLayers[i].kernel == 1
    {
      forall i | 0 < i < |scaleLayers|
        ensures scaleLayers[i].inCh == scaleLayers[i - 1].outCh
      {
        if i > 1 {
          assert scaleLayers[i - 1] == Stage(scalesDepth[i - 2], scalesDepth[i - 1]);
        }
      }
      forall i | 0 <= i < |toRGBLayers|
        ensures toRGBLayers[i].inCh == scaleLayers[i].outCh
      {
        if i > 0 {
          assert scaleLayers[i] == Stage(scalesDepth[i - 1], scalesDepth[i]);
        }
      }
    }

    /** Base-class construction: scalesDepth starts as [depthScale0], the
        layer lists start empty, and the three hooks run once. */
    constructor (dimLatent: int, depthScale0: int, dimOutput: int, kernelSize: int,
                 padding: int, sizeScale0: int, nMlp: int, outputSizes: seq<Size>)
      requires |outputSizes| >= 1
      ensures Valid()
      ensures addGradientMap
      ensures scalesDepth == [depthScale0]
      ensures scaleLayers == [Stage(depthScale0, depthScale0)]
      ensures toRGBLayers == [ToRGB(depthScale0)]
      ensures this.dimLatent == dimLatent && this.depthScale0 == depthScale0
      ensures this.dimOutput == dimOutput && this.kernelSize == kernelSize
      ensures this.padding == padding && this.sizeScale0 == sizeScale0
      ensures this.nMlp == nMlp && this.outputSizes == outputSizes
    {
      this.dimLatent := dimLatent;
      this.depthScale0 := depthScale0;
      this.dimOutput := dimOutput;
      this.kernelSize := kernelSize;
      this.padding := padding;
      this.sizeScale0 := sizeScale0;
      this.nMlp := nMlp;
      this.outputSizes := outputSizes;
      addGradientMap := true;
      scalesDepth := [depthScale0];
      scaleLayers := [];
      toRGBLayers := [];
      formatLayer := StyledConv(0, 0, 0, 0, 0, 0);
      style := [];
      new;
      InitFormatLayer();
      InitStyleBlock();
      InitScale0Layer();
    }

    /** The format layer maps the dimOutput-channel auxiliary input to the
        depth of scale 0. */
    method InitFormatLayer()
      requires |scalesDepth| >= 1
      modifies this
      ensures scalesDepth == old(scalesDepth) && scaleLayers == old(scaleLayers)
      ensures formatLayer == Stage(dimOutput, scalesDepth[0])
      ensures toRGBLayers == old(toRGBLayers) && style == old(style)
      ensures addGradientMap == old(addGradientMap)
    {
      formatLayer := Stage(dimOutput, scalesDepth[0]);
    }

    /** Builds the style mapping stack. */
    method InitStyleBlock()
      modifies this
      ensures IsStyleStack(style, nMlp, dimLatent)
      ensures scalesDepth == old(scalesDepth) && scaleLayers == old(scaleLayers)
      ensures toRGBLayers == old(toRGBLayers) && formatLayer == old(formatLayer)
      ensures addGradientMap == old(addGradientMap)
    {
      style := StyleLayers(nMlp, dimLatent);
    }

    /** Registers the scale-0 stage (depth 0 to depth 0) and its projection. */
    method InitScale0Layer()
      requires |scalesDepth| >= 1
      modifies this
      ensures scalesDepth == old(scalesDepth) && formatLayer == old(formatLayer)
      ensures scaleLayers == old(scaleLayers) + [Stage(scalesDepth[0], scalesDepth[0])]
      ensures toRGBLayers == old(toRGBLayers) + [ToRGB(scalesDepth[0])]
      ensures style == old(style) && addGradientMap == old(addGradientMap)
    {
      scaleLayers := scaleLayers + [Stage(scalesDepth[0], scalesDepth[0])];
      toRGBLayers := toRGBLayers + [ToRGB(scalesDepth[0])];
    }

    /** Grows the generator by one scale. A list argument stands for its
        first element; an empty list fails before anything is registered. */
    method AddScale(depthNewScale: DepthArg) returns (ok: bool)
      requires Valid()
      modifies this
      ensures Valid()
      ensures ok <==> !(depthNewScale.DepthList? && |depthNewScale.ds| == 0)
      ensures !ok ==> scalesDepth == old(scalesDepth) && scaleLayers == old(scaleLayers)
                      && toRGBLayers == old(toRGBLayers)
      ensures ok ==>
        var d := if depthNewScale.Depth? then depthNewScale.d else depthNewScale.ds[0];
        && scalesDepth == old(scalesDepth) + [d]
        && scaleLayers == old(scaleLayers) + [Stage(old(scalesDepth)[|old(scalesDepth)| - 1], d)]
        && toRGBLayers == old(toRGBLayers) + [ToRGB(d)]
      ensures formatLayer == old(formatLayer) && style == old(style)
      ensures addGradientMap == old(addGradientMap)
    {
      var d: int;
      match depthNewScale {
        case Depth(x) => d := x;
        case DepthList(xs) =>
          if |xs| == 0 {
            return false;
          }
          d := xs[0];
      }
      var depthLastScale := scalesDepth[|scalesDepth| - 1];
      scalesDepth := scalesDepth + [d];
      scaleLayers := scaleLayers + [Stage(depthLastScale, d)];
      toRGBLayers := toRGBLayers + [ToRGB(d)];
      ok := true;
    }

    /** Forward pass on shapes: z is the latent batch, x the auxiliary input,
        noise the optional caller-supplied noise list. */
    method Forward(z: Mat, x: Tensor4, noise: Option<seq<Tensor4>>) returns (r: Result<GenTrace>)
      requires Valid()
      ensures r.Ok? <==> z.cols == dimLatent && x.ch == dimOutput
                         && (noise.Some? ==> |noise.value| >= |scaleLayers|)
      ensures r.Err? ==> (r.error == IndexError <==> z.cols == dimLatent && x.ch == dimOutput)
      ensures r.Ok? ==>
        var t := r.value;
        var top := outputSizes[|outputSizes| - 1];
        && t.noiseShape == Tensor4(z.rows, 1, top.h, top.w)
        && (noise.None? ==> t.noiseCount == |toRGBLayers|)
        && t.format == StageCall(dimOutput, scalesDepth[0], FreshDraw, t.noiseShape, addGradientMap)
        && |t.stages| == |scaleLayers|
        && (forall i :: 0 <= i < |t.stages| ==>
              && t.stages[i].received == scaleLayers[i].inCh
              && t.stages[i].produced == scalesDepth[i]
              && t.stages[i].noise == ListEntry(i)
              && t.stages[i].gradMap == addGradientMap)
        && (forall i :: 0 <= i < |t.stages| ==>
              t.stages[i].noiseShape == if noise.Some? then noise.value[i] else t.noiseShape)
        && t.stages[0].received == t.format.produced
        && (forall i :: 0 < i < |t.stages| ==> t.stages[i].received == t.stages[i - 1].produced)
        && t.projection == |toRGBLayers| - 1
        && t.projectionInput == t.stages[|t.stages| - 1].produced
        && t.projectionInput == toRGBLayers[t.projection].inCh
        && t.channels == dimOutput
    {
      var step := |toRGBLayers| - 1;
      var styleWidth := StackWidth(style, z.cols);
      StyleStackWidth(style, nMlp, dimLatent, z.cols);
      if styleWidth.None? {
        return Err(ShapeError);
      }
      var top := outputSizes[|outputSizes| - 1];
      var noiseDim := Tensor4(z.rows, 1, top.h, top.w);
      var noiseList: seq<Tensor4>;
      if noise.None? {
        noiseList := DrawNoise(step + 1, noiseDim);
      } else {
        noiseList := noise.value;
      }
      // The format layer checks its input channels and the style width.
      if x.ch != formatLayer.inCh || styleWidth.value != formatLayer.styleDim {
        return Err(ShapeError);
      }
      var format := StageCall(x.ch, formatLayer.outCh, FreshDraw, noiseDim, addGradientMap);
      var ch := formatLayer.outCh;
      var stages: seq<StageCall> := [];
      var i := 0;
      while i < |scaleLayers|
        invariant 0 <= i <= |scaleLayers|
        invariant i <= |noiseList|
        invariant |stages| == i
        invariant ch == if i == 0 then scalesDepth[0] else scalesDepth[i - 1]
        invariant forall j :: 0 <= j < i ==>
                    stages[j] == StageCall(scaleLayers[j].inCh, scalesDepth[j], ListEntry(j), noiseList[j],
                                           addGradientMap)
      {
        if i >= |noiseList| {
          return Err(IndexError);
        }
        var conv := scaleLayers[i];
        stages := stages + [StageCall(ch, conv.outCh, ListEntry(i), noiseList[i], addGradientMap)];
        ch := conv.outCh;
        i := i + 1;
      }
      var toRgb := toRGBLayers[i - 1];
      r := Ok(GenTrace(format, stages, i - 1, ch, toRgb.outCh, noiseDim, |noiseList|));
    }

    /** Mean style of a latent batch: the style vector averaged over the
        batch, one row of dimLatent features. */
    function MeanStyle(z: Mat): (m: Option<Mat>)
      requires Valid()
      reads this
      ensures m == if z.cols == dimLatent then Some(Mat(1, dimLatent))
                   else if nMlp > 0 then None else Some(Mat(1, z.cols))
    {
      StyleStackWidth(style, nMlp, dimLatent, z.cols);
      match StackWidth(style, z.cols)
      case None => None
      case Some(w) => Some(Mat(1, w))
    }

    /** Overwrites channel 0 of a (batch, channel, height, width) buffer with
        the top-to-bottom ramp when the gradient map is enabled. */
    method AddGradMap(x: array4<real>)
      modifies x
      ensures forall b, c, r, w :: 0 <= b < x.Length0 && 0 <= c < x.Length1 && 0 <= r < x.Length2 && 0 <= w < x.Length3 ==>
                x[b, c, r, w] == GradMapCell(addGradientMap, c, r, x.Length2, old(x[b, c, r, w]))
    {
      if !addGradientMap {
        return;
      }
      forall b, r, w | 0 <= b < x.Length0 && 0 < x.Length1 && 0 <= r < x.Length2 && 0 <= w < x.Length3 {
        x[b, 0, r, w] := Ramp(r, x.Length2);
      }
    }
  }
}
