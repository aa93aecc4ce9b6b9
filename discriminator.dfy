/**
 * The styled progressive discriminator: a paired-image input (doubled
 * channel count), its scale-0 layers, and the forward pass that walks the
 * registered groups in reverse order while counting a shift index down
 * through the per-scale input sizes.
 */
module Discriminator {
  import opened Shapes

  /** groupScaleZero holds a convolution followed by a linear layer. */
  datatype Scale0Layer = ZeroConv(conv: Conv) | ZeroLinear(fc: Linear)

  /** Record of one discriminator forward pass. */
  datatype DiscTrace = DiscTrace(
    score: Mat,              // output of the decision layer
    feature: Option<Mat>,    // x_lin, returned only when asked for
    visited: seq<nat>,       // indices of the groups, in the order applied
    shifts: seq<int>,        // the shift index used after each group
    targets: seq<Size>,      // the size each group was downsampled to
    finalShift: int,         // shift after the last decrement
    scale0Input: Tensor4,    // what the scale-0 convolution received
    flatWidth: int)          // width of the flattened scale-0 output

  /** Shape of a group's output: its convolutions applied in order, failing
      at the first one that rejects what it receives. */
  function GroupShape(group: seq<Conv>, x: Tensor4): Result<Tensor4>
    decreases |group|
  {
    if |group| == 0 then Ok(x)
    else match ApplyConv(group[0], x)
      case Err(_) => Err(ShapeError)
      case Ok(y) => GroupShape(group[1..], y)
  }

  /** A convolution that keeps the spatial size (kernel 2p + 1, padding p). */
  predicate SamePadded(c: Conv)
  {
    2 * c.padding + 1 == c.kernel
  }

  /** The group's convolutions are all same-padded, the first one is declared
      on `ch` input channels and each later one on the output channels of the
      one before it. */
  ghost predicate ChainsFrom(group: seq<Conv>, ch: int)
    decreases |group|
  {
    |group| == 0 || (group[0].inCh == ch && SamePadded(group[0]) && ChainsFrom(group[1..], group[0].outCh))
  }

  /** Channel count a chained group produces from `ch` channels. */
  function ChainOut(group: seq<Conv>, ch: int): int
    decreases |group|
  {
    if |group| == 0 then ch else ChainOut(group[1..], group[0].outCh)
  }

  /** The inner sequence of the discriminator's forward pass: the groups are
      visited last to first, and the group at index g is followed by a
      resize to `sizes[g]`, which fails when that entry does not exist. */
  function Traverse(groups: seq<seq<Conv>>, sizes: seq<Size>, x: Tensor4): Result<Tensor4>
    decreases |groups|
  {
    if |groups| == 0 then Ok(x)
    else
      var g := |groups| - 1;
      match GroupShape(groups[g], x)
      case Err(e) => Err(e)
      case Ok(y) =>
        if g >= |sizes| then Err(IndexError)
        else Traverse(groups[..g], sizes, Tensor4(y.batch, y.ch, sizes[g].h, sizes[g].w))
  }

  /** Visited last to first, every group chains from what the one after it
      produced, starting from `ch`. */
  ghost predicate ReverseChains(groups: seq<seq<Conv>>, ch: int)
    decreases |groups|
  {
    |groups| == 0 ||
    (&& ChainsFrom(groups[|groups| - 1], ch)
     && ReverseChains(groups[..|groups| - 1], ChainOut(groups[|groups| - 1], ch)))
  }

  /** Channel count that reverse-chained groups produce from `ch` channels. */
  function ReverseChainOut(groups: seq<seq<Conv>>, ch: int): int
    decreases |groups|
  {
    if |groups| == 0 then ch
    else ReverseChainOut(groups[..|groups| - 1], ChainOut(groups[|groups| - 1], ch))
  }

  /** A group of same-padded convolutions whose channels match end to end
      succeeds on any non-empty map: it keeps the batch and the spatial size
      and produces the last convolution's output channels. */
  lemma {:induction false} ChainedGroupSucceeds(group: seq<Conv>, x: Tensor4)
    requires ChainsFrom(group, x.ch)
    requires x.h >= 1 && x.w >= 1
    ensures GroupShape(group, x) == Ok(Tensor4(x.batch, ChainOut(group, x.ch), x.h, x.w))
  {
    if |group| > 0 {
      var y := Tensor4(x.batch, group[0].outCh, x.h, x.w);
      assert ApplyConv(group[0], x) == Ok(y);
      ChainedGroupSucceeds(group[1..], y);
    }
  }

  /** A group keeps the batch when it succeeds, and its only failure is a
      shape error. */
  lemma {:induction false} GroupShapeKeepsBatch(group: seq<Conv>, x: Tensor4)
    ensures GroupShape(group, x).Ok? ==> GroupShape(group, x).value.batch == x.batch
    ensures GroupShape(group, x).Err? ==> GroupShape(group, x).error == ShapeError
  {
    if |group| > 0 && ApplyConv(group[0], x).Ok? {
      GroupShapeKeepsBatch(group[1..], ApplyConv(group[0], x).value);
    }
  }

  /** Reverse-chained groups with enough positive sizes succeed: the result
      has the batch of the input, the channels of the last group visited and
      the size `sizes[0]` (or is the input itself when there are no groups). */
  lemma {:induction false} TraverseChained(groups: seq<seq<Conv>>, sizes: seq<Size>, x: Tensor4)
    requires ReverseChains(groups, x.ch)
    requires |groups| <= |sizes|
    requires forall j :: 0 <= j < |sizes| ==> sizes[j].h >= 1 && sizes[j].w >= 1
    requires x.h >= 1 && x.w >= 1
    ensures Traverse(groups, sizes, x)
            == Ok(if |groups| == 0 then x
                  else Tensor4(x.batch, ReverseChainOut(groups, x.ch), sizes[0].h, sizes[0].w))
  {
    if |groups| > 0 {
      var g := |groups| - 1;
      ChainedGroupSucceeds(groups[g], x);
      var y := Tensor4(x.batch, ChainOut(groups[g], x.ch), sizes[g].h, sizes[g].w);
      TraverseChained(groups[..g], sizes, y);
    }
  }

  /** The traversal reads one input size per group: it fails with an index
      error unless there are at least as many sizes as groups. */
  lemma TraverseNeedsSizes(groups: seq<seq<Conv>>, sizes: seq<Size>, x: Tensor4)
    ensures Traverse(groups, sizes, x).Ok? ==> |groups| <= |sizes|
  {
  }

  /** Applies the convolutions of one group in order. */
  method ApplyGroup(group: seq<Conv>, x: Tensor4) returns (r: Result<Tensor4>)
    ensures r == GroupShape(group, x)
    ensures r.Ok? ==> r.value.batch == x.batch
    ensures r.Err? ==> r.error == ShapeError
    ensures |group| == 0 ==> r == Ok(x)
    ensures |group| > 0 && x.ch != group[0].inCh ==> r == Err(ShapeError)
  {
    var cur := x;
    var k := 0;
    while k < |group|
      invariant 0 <= k <= |group|
      invariant GroupShape(group, x) == GroupShape(group[k..], cur)
      invariant cur.batch == x.batch
      invariant k == 0 ==> cur == x
      invariant k > 0 ==> x.ch == group[0].inCh
    {
      var t := ApplyConv(group[k], cur);
      if t.Err? {
        return Err(ShapeError);
      }
      assert group[k..][1..] == group[k + 1..];
      cur := t.value;
      k := k + 1;
    }
    assert group[k..] == [];
    r := Ok(cur);
  }

  class StyledDiscriminator {
    const dimInput: int
    const depthScale0: int
    const kernelSize: int
    const padding: int
    const miniBatchNormalization: bool
    /** Input size of every scale, computed by the base class. */
    const inputSizes: seq<Size>

    var scalesDepth: seq<int>
    var scaleLayers: seq<seq<Conv>>
    var fromRGBLayers: seq<Conv>
    var groupScaleZero: seq<Scale0Layer>
    var decisionLayer: Linear

    /** Fan-in of the scale-0 linear layer: the flattened size of a
        depthScale0-channel map at the scale-0 input size. */
    function Scale0FanIn(): int
      requires |inputSizes| >= 1
    {
      inputSizes[0].h * inputSizes[0].w * depthScale0
    }

    /** The scale-0 convolution. */
    function Scale0Conv(): Conv
    {
      Conv(depthScale0, depthScale0, kernelSize, padding)
    }

    /** The registry invariant. The groups added after scale 0 are not
        constrained beyond their number: one fewer than the from-colour
        projections. */
    ghost predicate Valid()
      reads this
    {
      && |inputSizes| >= 1
      && |scalesDepth| >= 1
      && scalesDepth[0] == depthScale0
      && |fromRGBLayers| >= 1
      && |scaleLayers| == |fromRGBLayers| - 1
      && fromRGBLayers[0] == Conv(dimInput, depthScale0, 1, 0)
      && groupScaleZero == [ZeroConv(Scale0Conv()), ZeroLinear(Linear(Scale0FanIn(), depthScale0))]
      && decisionLayer.inF == scalesDepth[0]
    }

    /** Base-class construction with the input channel count doubled and
        minibatch statistics forced off, whatever the caller asked for. */
    constructor (dimInput: int, depthScale0: int, kernelSize: int, padding: int,
                 sizeDecisionLayer: int, inputSizes: seq<Size>, miniBatchNormalization: bool)
      requires |inputSizes| >= 1
      ensures Valid()
      ensures this.dimInput == 2 * dimInput
      ensures !this.miniBatchNormalization
      ensures this.depthScale0 == depthScale0 && this.kernelSize == kernelSize
      ensures this.padding == padding && this.inputSizes == inputSizes
      ensures scalesDepth == [depthScale0] && scaleLayers == []
      ensures fromRGBLayers == [Conv(2 * dimInput, depthScale0, 1, 0)]
      ensures decisionLayer == Linear(depthScale0, sizeDecisionLayer)
    {
      this.dimInput := dimInput * 2;
      this.miniBatchNormalization := false;
      this.depthScale0 := depthScale0;
      this.kernelSize := kernelSize;
      this.padding := padding;
      this.inputSizes := inputSizes;
      scalesDepth := [depthScale0];
      scaleLayers := [];
      fromRGBLayers := [];
      groupScaleZero := [];
      decisionLayer := Linear(0, 0);
      new;
      InitScale0Layer();
      InitDecisionLayer(sizeDecisionLayer);
    }

    /** Registers the scale-0 from-colour projection (dimInput channels to
        depthScale0, kernel 1), the scale-0 convolution, whose declared input
        is depthScale0 with no extra statistics channel, and the linear layer
        over the flattened scale-0 map. */
    method InitScale0Layer()
      requires |inputSizes| >= 1
      modifies this
      ensures fromRGBLayers == old(fromRGBLayers) + [Conv(dimInput, depthScale0, 1, 0)]
      ensures groupScaleZero == old(groupScaleZero)
                                + [ZeroConv(Scale0Conv()), ZeroLinear(Linear(Scale0FanIn(), depthScale0))]
      ensures scalesDepth == old(scalesDepth) && scaleLayers == old(scaleLayers)
      ensures decisionLayer == old(decisionLayer)
    {
      var dimEntryScale0 := depthScale0;
      fromRGBLayers := fromRGBLayers + [Conv(dimInput, depthScale0, 1, 0)];
      groupScaleZero := groupScaleZero + [ZeroConv(Conv(dimEntryScale0, depthScale0, kernelSize, padding))];
      groupScaleZero := groupScaleZero
                        + [ZeroLinear(Linear(inputSizes[0].h * inputSizes[0].w * depthScale0, depthScale0))];
    }

    /** The decision layer reads the scale-0 depth. */
    method InitDecisionLayer(sizeDecisionLayer: int)
      requires |scalesDepth| >= 1
      modifies this
      ensures scalesDepth == old(scalesDepth)
      ensures decisionLayer == Linear(scalesDepth[0], sizeDecisionLayer)
      ensures scaleLayers == old(scaleLayers) && fromRGBLayers == old(fromRGBLayers)
      ensures groupScaleZero == old(groupScaleZero)
    {
      decisionLayer := Linear(scalesDepth[0], sizeDecisionLayer);
    }

    /** What reaches the scale-0 convolution: the last from-colour
        projection, the traversal of the groups, then the minibatch
        statistics channel when it is on. */
    function Descend(x: Tensor4): Result<Tensor4>
      reads this
      requires Valid()
    {
      match ApplyConv(fromRGBLayers[|fromRGBLayers| - 1], x)
      case Err(_) => Err(ShapeError)
      case Ok(y) =>
        match Traverse(scaleLayers, inputSizes, y)
        case Err(e) => Err(e)
        case Ok(z) => Ok(if miniBatchNormalization then z.(ch := z.ch + 1) else z)
    }

    /** The scale-0 convolution accepts `s` and its flattened output has the
        fan-in of the scale-0 linear layer. */
    predicate HeadAccepts(s: Tensor4)
      reads this
      requires Valid()
    {
      var h := ApplyConv(Scale0Conv(), s);
      h.Ok? && h.value.ch * h.value.h * h.value.w == Scale0FanIn()
    }

    /** The layers of a grown discriminator fit together on input `x`:
        same-padded convolutions, the input matching the last from-colour
        projection, every group chaining from what the group registered
        after it produces, the first group producing `depthScale0`, one
        positive input size per group, and minibatch statistics off. With no
        groups the input must already have the scale-0 size. */
    ghost predicate LayersFit(x: Tensor4)
      reads this
      requires Valid()
    {
      var last := fromRGBLayers[|fromRGBLayers| - 1];
      && !miniBatchNormalization && SamePadded(Scale0Conv()) && SamePadded(last)
      && x.ch == last.inCh && x.h >= 1 && x.w >= 1
      && ReverseChains(scaleLayers, last.outCh)
      && ReverseChainOut(scaleLayers, last.outCh) == depthScale0
      && |scaleLayers| <= |inputSizes|
      && (forall j :: 0 <= j < |inputSizes| ==> inputSizes[j].h >= 1 && inputSizes[j].w >= 1)
      && (|scaleLayers| == 0 ==> x.h == inputSizes[0].h && x.w == inputSizes[0].w)
    }

    /** A discriminator whose layers fit together reaches the decision layer
        with a `depthScale0`-channel map of the scale-0 size. */
    lemma ChainedDescent(x: Tensor4)
      requires Valid()
      requires LayersFit(x)
      ensures Descend(x) == Ok(Tensor4(x.batch, depthScale0, inputSizes[0].h, inputSizes[0].w))
      ensures HeadAccepts(Descend(x).value)
    {
      var last := fromRGBLayers[|fromRGBLayers| - 1];
      var y := Tensor4(x.batch, last.outCh, x.h, x.w);
      assert ApplyConv(last, x) == Ok(y);
      TraverseChained(scaleLayers, inputSizes, y);
      var s := Tensor4(x.batch, depthScale0, inputSizes[0].h, inputSizes[0].w);
      assert ApplyConv(Scale0Conv(), s) == Ok(s);
      assert depthScale0 * inputSizes[0].h * inputSizes[0].w == Scale0FanIn();
    }

    /** With only scale 0 registered, the descent is the scale-0 projection
        alone: the decision layer is reached exactly when the input has
        `dimInput` channels and a non-empty size, minibatch statistics are
        off, and the scale-0 convolution's output is non-empty and flattens
        to the linear fan-in. */
    lemma ScaleZeroDescent(x: Tensor4)
      requires Valid() && |scaleLayers| == 0
      ensures
        var c := Scale0Conv();
        (Descend(x).Ok? && HeadAccepts(Descend(x).value)) <==>
          (&& x.ch == dimInput && x.h >= 1 && x.w >= 1 && !miniBatchNormalization
           && ConvExtent(x.h, c) >= 1 && ConvExtent(x.w, c) >= 1
           && depthScale0 * ConvExtent(x.h, c) * ConvExtent(x.w, c) == Scale0FanIn())
    {
    }

    /** The loop of the forward pass over `reversed(scaleLayers)`: each
        group is applied and its output resized to `inputSizes[shift]`, with
        `shift` counting down from `len(fromRGBLayers) - 2`. */
    method VisitGroups(y: Tensor4) returns (r: Result<Tensor4>, visited: seq<nat>, shifts: seq<int>,
                                            targets: seq<Size>, finalShift: int)
      requires Valid()
      ensures r == Traverse(scaleLayers, inputSizes, y)
      ensures r.Ok? ==>
        && |visited| == |scaleLayers| && |shifts| == |scaleLayers| && |targets| == |scaleLayers|
        && (forall i :: 0 <= i < |visited| ==>
              && visited[i] == |scaleLayers| - 1 - i
              && shifts[i] == |fromRGBLayers| - 2 - i
              && 0 <= shifts[i] < |inputSizes|
              && targets[i] == inputSizes[shifts[i]])
        && finalShift == -1
        && r.value.batch == y.batch
        && (|scaleLayers| == 0 ==> r.value == y)
        && (|scaleLayers| > 0 ==> r.value.h == inputSizes[0].h && r.value.w == inputSizes[0].w)
    {
      var cur := y;
      var shift := |fromRGBLayers| - 2;
      visited, shifts, targets := [], [], [];
      var i := 0;
      assert scaleLayers[..|scaleLayers|] == scaleLayers;
      while i < |scaleLayers|
        invariant 0 <= i <= |scaleLayers|
        invariant shift == |fromRGBLayers| - 2 - i
        invariant |visited| == i && |shifts| == i && |targets| == i
        invariant forall j :: 0 <= j < i ==>
                    && visited[j] == |scaleLayers| - 1 - j
                    && shifts[j] == |fromRGBLayers| - 2 - j
                    && 0 <= shifts[j] < |inputSizes|
                    && targets[j] == inputSizes[shifts[j]]
        invariant Traverse(scaleLayers, inputSizes, y)
                  == Traverse(scaleLayers[..|scaleLayers| - i], inputSizes, cur)
        invariant cur.batch == y.batch
        invariant i == 0 ==> cur == y
        invariant i > 0 ==> cur.h == targets[i - 1].h && cur.w == targets[i - 1].w
      {
        var g := |scaleLayers| - 1 - i;
        var z := ApplyGroup(scaleLayers[g], cur);
        assert scaleLayers[..g + 1][..g] == scaleLayers[..g];
        if z.Err? {
          return Err(z.error), visited, shifts, targets, shift;
        }
        if shift >= |inputSizes| {
          return Err(IndexError), visited, shifts, targets, shift;
        }
        var size := inputSizes[shift];
        cur := Tensor4(z.value.batch, z.value.ch, size.h, size.w);
        visited := visited + [g];
        shifts := shifts + [shift];
        targets := targets + [size];
        shift := shift - 1;
        i := i + 1;
      }
      assert scaleLayers[..0] == [];
      r, finalShift := Ok(cur), shift;
    }

    /** Forward pass on shapes. */
    method Forward(x: Tensor4, getFeature: bool) returns (r: Result<DiscTrace>)
      requires Valid()
      ensures r.Ok? <==> Descend(x).Ok? && HeadAccepts(Descend(x).value)
      ensures Descend(x).Err? ==> r == Err(Descend(x).error)
      ensures Descend(x).Ok? && !HeadAccepts(Descend(x).value) ==> r == Err(ShapeError)
      ensures x.ch != fromRGBLayers[|fromRGBLayers| - 1].inCh ==> r == Err(ShapeError)
      ensures r.Ok? ==> r.value.scale0Input == Descend(x).value
      ensures r.Ok? ==>
        var t := r.value;
        && |t.visited| == |scaleLayers| && |t.shifts| == |scaleLayers| && |t.targets| == |scaleLayers|
        && (forall i :: 0 <= i < |t.visited| ==>
              && t.visited[i] == |scaleLayers| - 1 - i
              && t.shifts[i] == |fromRGBLayers| - 2 - i
              && 0 <= t.shifts[i] < |inputSizes|
              && t.targets[i] == inputSizes[t.shifts[i]])
        && (|scaleLayers| > 0 ==> t.shifts[|scaleLayers| - 1] == 0 && t.targets[|scaleLayers| - 1] == inputSizes[0])
        && t.finalShift == -1
        && (|scaleLayers| > 0 ==> t.scale0Input.h == inputSizes[0].h && t.scale0Input.w == inputSizes[0].w)
        && t.scale0Input.ch == depthScale0
        && t.flatWidth == Scale0FanIn()
        && t.score == Mat(x.batch, decisionLayer.outF)
        && t.feature == (if getFeature then Some(Mat(x.batch, depthScale0)) else None)
      ensures |scaleLayers| == 0 ==>
        var c := Scale0Conv();
        (r.Ok? <==> && x.ch == dimInput && x.h >= 1 && x.w >= 1 && !miniBatchNormalization
                    && ConvExtent(x.h, c) >= 1 && ConvExtent(x.w, c) >= 1
                    && depthScale0 * ConvExtent(x.h, c) * ConvExtent(x.w, c) == Scale0FanIn())
      ensures (&& |scaleLayers| == 0 && !miniBatchNormalization && SamePadded(Scale0Conv())
               && x == Tensor4(x.batch, dimInput, inputSizes[0].h, inputSizes[0].w)
               && inputSizes[0].h >= 1 && inputSizes[0].w >= 1) ==> r.Ok?
      ensures LayersFit(x) ==> r.Ok?
    {
      if LayersFit(x) {
        ChainedDescent(x);
      }
      if |scaleLayers| == 0 {
        ScaleZeroDescent(x);
      }
      var y := ApplyConv(fromRGBLayers[|fromRGBLayers| - 1], x);
      if y.Err? {
        return Err(ShapeError);
      }
      var z, visited, shifts, targets, shift := VisitGroups(y.value);
      if z.Err? {
        return Err(z.error);
      }
      var cur := z.value;
      if miniBatchNormalization {
        cur := cur.(ch := cur.ch + 1);
      }
      var scale0Input := cur;
      var h := ApplyConv(groupScaleZero[0].conv, cur);
      if h.Err? {
        return Err(ShapeError);
      }
      var flatWidth := h.value.ch * h.value.h * h.value.w;
      var lin := groupScaleZero[1].fc;
      if flatWidth != lin.inF {
        return Err(ShapeError);
      }
      var xLin := Mat(h.value.batch, lin.outF);
      var out := Mat(xLin.rows, decisionLayer.outF);
      var feature := if getFeature then Some(xLin) else None;
      r := Ok(DiscTrace(out, feature, visited, shifts, targets, shift, scale0Input, flatWidth));
    }
  }
}
