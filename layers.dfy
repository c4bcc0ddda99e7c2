/**
 * Layer records of the model editor and the rules `addLayer` uses to fill in
 * a new layer's shape fields from the layers before it.
 *
 * A layer is the editor's flat record: a `layer_type` plus every shape field
 * any kind can carry. A field the editor never assigned, or assigned
 * `undefined`, is `None`; so is a spatial size or feature count that became
 * `NaN` or an infinity in JavaScript arithmetic.
 */
module Layers {
  import opened Wrappers

  datatype Kind = Conv2d | MaxPool | Activation | Linear

  function KindName(k: Kind): string {
    match k
    case Conv2d => "conv2d"
    case MaxPool => "maxpool"
    case Activation => "activation"
    case Linear => "linear"
  }

  /** The `switch(type)` of `addLayer`: one of the four names, or nothing. */
  function ParseKind(t: string): (k: Option<Kind>)
    ensures k.Some? ==> KindName(k.value) == t
    ensures k.None? ==> forall c: Kind :: KindName(c) != t
  {
    if t == "conv2d" then Some(Conv2d)
    else if t == "maxpool" then Some(MaxPool)
    else if t == "activation" then Some(Activation)
    else if t == "linear" then Some(Linear)
    else None
  }

  datatype Layer = Layer(
    kind: Kind,
    inChannels: Option<int>,
    outChannels: Option<int>,
    kernelSize: Option<int>,
    stride: Option<int>,
    padding: Option<int>,
    channels: Option<int>,
    inFeatures: Option<int>,
    outFeatures: Option<int>,
    activation: Option<string>)

  /** Side of the square grayscale input image. */
  const InputSide: int := 28
  /** Output width of every Linear layer the editor appends. */
  const LinearWidth: int := 128

  /**
   * Index of the last layer whose kind is in `kinds`: the
   * `[...layers].reverse().find(...)` backward scans.
   */
  function LastIndexOf(ls: seq<Layer>, kinds: set<Kind>): (r: Option<nat>)
    ensures r.Some? ==> r.value < |ls| && ls[r.value].kind in kinds
    ensures r.Some? ==> forall j :: r.value < j < |ls| ==> ls[j].kind !in kinds
    ensures r.None? ==> forall j :: 0 <= j < |ls| ==> ls[j].kind !in kinds
  {
    if ls == [] then None
    else if ls[|ls| - 1].kind in kinds then Some(|ls| - 1)
    else LastIndexOf(ls[..|ls| - 1], kinds)
  }

  /** Channel count a Conv2D (its `out_channels`) or MaxPool (its `channels`) hands on. */
  function ChannelsOf(l: Layer): Option<int> {
    if l.kind == Conv2d then l.outChannels else l.channels
  }

  /**
   * Channels reaching the end of `ls`: those of the nearest Conv2D or MaxPool,
   * or 1 (grayscale input) when there is none.
   */
  function FeedChannels(ls: seq<Layer>): Option<int> {
    match LastIndexOf(ls, {Conv2d, MaxPool})
    case None => Some(1)
    case Some(j) => ChannelsOf(ls[j])
  }

  /** `out_channels` of the nearest Conv2D, or 1 when there is none. */
  function LastConvChannels(ls: seq<Layer>): Option<int> {
    match LastIndexOf(ls, {Conv2d})
    case None => Some(1)
    case Some(j) => ls[j].outChannels
  }

  /**
   * `Math.floor(a / b)` for integers: the `q` with `q <= a/b < q + 1`, written
   * without reals. Dafny's `/` agrees with it only for `b > 0`.
   */
  function FloorDiv(a: int, b: int): (q: int)
    requires b != 0
    ensures b > 0 ==> q * b <= a < q * b + b
    ensures b < 0 ==> q * b >= a > q * b + b
  {
    if b > 0 then a / b else (-a) / (-b)
  }

  /**
   * One step of the spatial fold: a Conv2D maps `s` to
   * `floor((s - kernel + 2*padding) / stride) + 1`, a MaxPool to
   * `floor(s / kernel)` (its stride is not consulted), other kinds leave it.
   * A missing operand or a division by zero gives a non-finite size, which
   * stays non-finite.
   */
  function StepSize(size: Option<int>, l: Layer): (r: Option<int>)
    ensures size.None? ==> r.None?
    ensures l.kind == Activation || l.kind == Linear ==> r == size
    ensures l.kind == MaxPool && size.Some? && l.kernelSize.Some? && l.kernelSize.value > 0 ==> r.Some?
    ensures l.kind == Conv2d && size.Some? && l.kernelSize.Some? && l.padding.Some? && l.stride == Some(1) ==>
      r == Some(size.value - l.kernelSize.value + 2 * l.padding.value + 1)
  {
    if size.None? then None
    else match l.kind
      case Conv2d =>
        if l.kernelSize.None? || l.padding.None? || l.stride.None? || l.stride.value == 0 then None
        else Some(FloorDiv(size.value - l.kernelSize.value + 2 * l.padding.value, l.stride.value) + 1)
      case MaxPool =>
        if l.kernelSize.None? || l.kernelSize.value == 0 then None
        else Some(FloorDiv(size.value, l.kernelSize.value))
      case Activation => size
      case Linear => size
  }

  /** No layer of `ls` is a Conv2D or a MaxPool. */
  predicate NoShaping(ls: seq<Layer>) {
    forall j :: 0 <= j < |ls| ==> ls[j].kind != Conv2d && ls[j].kind != MaxPool
  }

  /** Spatial side after every layer of `ls`, starting from the 28-pixel input. */
  function FoldSize(ls: seq<Layer>): (r: Option<int>)
    ensures NoShaping(ls) ==> r == Some(InputSide)
  {
    if ls == [] then Some(InputSide) else StepSize(FoldSize(ls[..|ls| - 1]), ls[|ls| - 1])
  }

  /** The `layers.forEach` loop of the Linear case of `addLayer`. */
  method SpatialSize(ls: seq<Layer>) returns (size: Option<int>)
    ensures size == FoldSize(ls)
  {
    size := Some(InputSide);
    var i := 0;
    while i < |ls|
      invariant 0 <= i <= |ls|
      invariant size == FoldSize(ls[..i])
    {
      var l := ls[i];
      if l.kind == Conv2d {
        if size.None? || l.kernelSize.None? || l.padding.None? || l.stride.None? || l.stride.value == 0 {
          size := None;
        } else {
          size := Some(FloorDiv(size.value - l.kernelSize.value + 2 * l.padding.value, l.stride.value) + 1);
        }
      } else if l.kind == MaxPool {
        if size.None? || l.kernelSize.None? || l.kernelSize.value == 0 {
          size := None;
        } else {
          size := Some(FloorDiv(size.value, l.kernelSize.value));
        }
      }
      assert ls[..i + 1][..i] == ls[..i];
      i := i + 1;
    }
    assert ls[..i] == ls;
  }

  /** `size * size * channels`, non-finite when either operand is. */
  function Flattened(size: Option<int>, channels: Option<int>): Option<int> {
    if size.Some? && channels.Some? then Some(size.value * size.value * channels.value) else None
  }

  /** `in_channels` of an appended Conv2D: the branches on the last layer's kind. */
  function ConvInChannels(ls: seq<Layer>): Option<int> {
    if ls == [] then Some(1)
    else match ls[|ls| - 1].kind
      case Conv2d => ls[|ls| - 1].outChannels
      case MaxPool => LastConvChannels(ls)
      case Activation => FeedChannels(ls)
      case Linear => None
  }

  /** `in_features` of an appended Linear layer: the branches on the last layer's kind. */
  function LinearInFeatures(ls: seq<Layer>): Option<int> {
    if ls == [] then Some(InputSide * InputSide)
    else match ls[|ls| - 1].kind
      case Linear => ls[|ls| - 1].outFeatures
      case Conv2d => Flattened(FoldSize(ls), ls[|ls| - 1].outChannels)
      case MaxPool => None
      case Activation => None
  }

  /** The layer `addLayer(KindName(k))` appends to `ls`. */
  function NewLayer(ls: seq<Layer>, k: Kind): (l: Layer)
    ensures l.kind == k
    ensures k != Conv2d ==> l.inChannels.None? && l.outChannels.None? && l.padding.None?
    ensures (k == Conv2d || k == MaxPool) <==> l.kernelSize.Some? && l.stride.Some?
    ensures k != MaxPool ==> l.channels.None?
    ensures k != Linear ==> l.inFeatures.None? && l.outFeatures.None?
    ensures k == Activation <==> l.activation.Some?
  {
    match k
    case Conv2d =>
      var c := ConvInChannels(ls);
      Layer(Conv2d, c, c, Some(3), Some(1), Some(1), None, None, None, None)
    case MaxPool =>
      Layer(MaxPool, None, None, Some(2), Some(2), None, FeedChannels(ls), None, None, None)
    case Activation =>
      Layer(Activation, None, None, None, None, None, None, None, None, Some("relu"))
    case Linear =>
      // `layers.length === layers.length - 1` never holds
      var out := if |ls| == |ls| - 1 then 10 else LinearWidth;
      Layer(Linear, None, None, None, None, None, None, LinearInFeatures(ls), Some(out), None)
  }

  /** The list after `addLayer(t)`: one more layer, or unchanged for an unknown `t`. */
  function Appended(ls: seq<Layer>, t: string): (r: seq<Layer>)
    ensures t in {"conv2d", "maxpool", "activation", "linear"} ==>
      |r| == |ls| + 1 && r[..|ls|] == ls && KindName(r[|ls|].kind) == t
    ensures t !in {"conv2d", "maxpool", "activation", "linear"} ==> r == ls
  {
    match ParseKind(t)
    case None => ls
    case Some(k) =>
      assert (ls + [NewLayer(ls, k)])[..|ls|] == ls;
      ls + [NewLayer(ls, k)]
  }

  /** The list after `removeLastLayer()`. */
  function WithoutLast(ls: seq<Layer>): (r: seq<Layer>)
    ensures ls == [] ==> r == []
    ensures ls != [] ==> r + [ls[|ls| - 1]] == ls
  {
    if |ls| > 0 then ls[..|ls| - 1] else ls
  }

  // ---------------------------------------------------------------------
  // What an append fills in
  // ---------------------------------------------------------------------

  /** The first layer of an empty model: a 1-to-1 channel 3x3 convolution, stride 1, padding 1. */
  lemma ConvOnEmpty()
    ensures NewLayer([], Conv2d) == Layer(Conv2d, Some(1), Some(1), Some(3), Some(1), Some(1), None, None, None, None)
  {
  }

  /** An appended Conv2D starts with `out_channels == in_channels`, kernel 3, stride 1, padding 1. */
  lemma ConvDefaults(ls: seq<Layer>)
    ensures NewLayer(ls, Conv2d).outChannels == NewLayer(ls, Conv2d).inChannels
    ensures NewLayer(ls, Conv2d).kernelSize == Some(3) && NewLayer(ls, Conv2d).stride == Some(1)
    ensures NewLayer(ls, Conv2d).padding == Some(1)
  {
  }

  /** Only the nearest layer of a kind in `kinds` can be the one the backward scan finds. */
  lemma LastIndexOfIs(ls: seq<Layer>, kinds: set<Kind>, j: nat)
    requires j < |ls| && ls[j].kind in kinds
    requires forall k :: j < k < |ls| ==> ls[k].kind !in kinds
    ensures LastIndexOf(ls, kinds) == Some(j)
  {
  }

  /** A Conv2D appended after a Conv2D takes that layer's `out_channels`. */
  lemma ConvAfterConv(ls: seq<Layer>)
    requires ls != [] && ls[|ls| - 1].kind == Conv2d
    ensures NewLayer(ls, Conv2d).inChannels == ls[|ls| - 1].outChannels
  {
  }

  /**
   * A Conv2D appended after a MaxPool takes the `out_channels` of the nearest
   * Conv2D at index `j`, not the MaxPool's own `channels`.
   */
  lemma ConvAfterPool(ls: seq<Layer>, j: nat)
    requires ls != [] && ls[|ls| - 1].kind == MaxPool
    requires j < |ls| && ls[j].kind == Conv2d
    requires forall k :: j < k < |ls| ==> ls[k].kind != Conv2d
    ensures NewLayer(ls, Conv2d).inChannels == ls[j].outChannels
  {
    LastIndexOfIs(ls, {Conv2d}, j);
  }

  /**
   * A Conv2D appended after an activation takes the channels of the nearest
   * Conv2D or MaxPool, at index `j`.
   */
  lemma ConvAfterActivation(ls: seq<Layer>, j: nat)
    requires ls != [] && ls[|ls| - 1].kind == Activation
    requires j < |ls| && ls[j].kind in {Conv2d, MaxPool}
    requires forall k :: j < k < |ls| ==> ls[k].kind !in {Conv2d, MaxPool}
    ensures NewLayer(ls, Conv2d).inChannels == ChannelsOf(ls[j])
  {
    LastIndexOfIs(ls, {Conv2d, MaxPool}, j);
  }

  /** With no Conv2D or MaxPool before it, a Conv2D appended after an activation reads 1 channel. */
  lemma ConvAfterActivationOnly(ls: seq<Layer>)
    requires ls != [] && ls[|ls| - 1].kind == Activation
    requires forall k :: 0 <= k < |ls| ==> ls[k].kind !in {Conv2d, MaxPool}
    ensures NewLayer(ls, Conv2d).inChannels == Some(1)
  {
  }

  /** A Conv2D appended after a Linear layer gets undefined channel counts. */
  lemma ConvAfterLinear(ls: seq<Layer>)
    requires ls != [] && ls[|ls| - 1].kind == Linear
    ensures NewLayer(ls, Conv2d).inChannels == None && NewLayer(ls, Conv2d).outChannels == None
  {
  }

  /**
   * An appended MaxPool has kernel 2, stride 2, and the channels of the
   * nearest Conv2D or MaxPool, at index `j`.
   */
  lemma PoolChannels(ls: seq<Layer>, j: nat)
    requires j < |ls| && ls[j].kind in {Conv2d, MaxPool}
    requires forall k :: j < k < |ls| ==> ls[k].kind !in {Conv2d, MaxPool}
    ensures NewLayer(ls, MaxPool).channels == ChannelsOf(ls[j])
    ensures NewLayer(ls, MaxPool).kernelSize == Some(2) && NewLayer(ls, MaxPool).stride == Some(2)
  {
    LastIndexOfIs(ls, {Conv2d, MaxPool}, j);
  }

  /** With no Conv2D or MaxPool in the model, an appended MaxPool has 1 channel. */
  lemma PoolChannelsDefault(ls: seq<Layer>)
    requires forall k :: 0 <= k < |ls| ==> ls[k].kind !in {Conv2d, MaxPool}
    ensures NewLayer(ls, MaxPool).channels == Some(1)
  {
  }

  /** The first layer of an empty model, if Linear, reads the flattened 28x28 image. */
  lemma LinearOnEmpty()
    ensures NewLayer([], Linear).inFeatures == Some(784)
  {
  }

  /** Every appended Linear layer has 128 outputs: the 10-output branch is dead. */
  lemma LinearWidthAlways(ls: seq<Layer>)
    ensures NewLayer(ls, Linear).outFeatures == Some(128)
  {
  }

  /** After a Linear layer, a Linear layer reads its `out_features`. */
  lemma LinearAfterLinear(ls: seq<Layer>)
    requires ls != [] && ls[|ls| - 1].kind == Linear
    ensures NewLayer(ls, Linear).inFeatures == ls[|ls| - 1].outFeatures
  {
  }

  /**
   * After a Conv2D, a Linear layer reads `side * side * out_channels`, where
   * `side` is the spatial fold over every layer so far.
   */
  lemma LinearAfterConv(ls: seq<Layer>, side: int, c: int)
    requires ls != [] && ls[|ls| - 1].kind == Conv2d
    requires FoldSize(ls) == Some(side) && ls[|ls| - 1].outChannels == Some(c)
    ensures NewLayer(ls, Linear).inFeatures == Some(side * side * c)
  {
  }

  /** After a MaxPool or an activation, a Linear layer's `in_features` is undefined. */
  lemma LinearAfterPoolOrActivation(ls: seq<Layer>)
    requires ls != [] && ls[|ls| - 1].kind in {MaxPool, Activation}
    ensures NewLayer(ls, Linear).inFeatures == None
  {
  }

  // ---------------------------------------------------------------------
  // The spatial fold
  // ---------------------------------------------------------------------

  /** The layers that change the spatial size, in order. */
  function Shaping(ls: seq<Layer>): (r: seq<Layer>)
    ensures forall k :: 0 <= k < |r| ==> r[k].kind in {Conv2d, MaxPool}
  {
    if ls == [] then []
    else if ls[|ls| - 1].kind in {Conv2d, MaxPool} then Shaping(ls[..|ls| - 1]) + [ls[|ls| - 1]]
    else Shaping(ls[..|ls| - 1])
  }

  /**
   * Activation and Linear layers are transparent to the fold, wherever they
   * stand: even a Conv2D placed before an earlier Linear layer still shrinks
   * the size.
   */
  lemma {:induction false} FoldSizeShaping(ls: seq<Layer>)
    ensures FoldSize(ls) == FoldSize(Shaping(ls))
  {
    if ls != [] {
      var init := ls[..|ls| - 1];
      FoldSizeShaping(init);
      if ls[|ls| - 1].kind in {Conv2d, MaxPool} {
        var r := Shaping(init) + [ls[|ls| - 1]];
        assert r[..|r| - 1] == Shaping(init);
      }
    }
  }

  function Conv(inC: int, outC: int): Layer {
    Layer(Conv2d, Some(inC), Some(outC), Some(3), Some(1), Some(1), None, None, None, None)
  }

  const Pool: Layer := Layer(MaxPool, None, None, Some(2), Some(2), None, None, None, None, None)

  /**
   * The five-convolution network of the MNIST model (three 3x3/padding-1
   * convolutions each followed by a 2x2 pool, then two more convolutions down
   * to 8 channels): 28 -> 14 -> 7 -> 3, so a Linear layer appended after the
   * last convolution reads 8 * 3 * 3 = 72 features.
   */
  lemma MnistFeatures()
    ensures NewLayer([Conv(1, 8), Pool, Conv(8, 16), Pool, Conv(16, 32), Pool, Conv(32, 16), Conv(16, 8)], Linear).inFeatures
            == Some(72)
  {
    var ls := [Conv(1, 8), Pool, Conv(8, 16), Pool, Conv(16, 32), Pool, Conv(32, 16), Conv(16, 8)];
    assert FoldSize(ls[..1]) == Some(28) by { assert ls[..1][..0] == []; }
    assert FoldSize(ls[..2]) == Some(14) by { assert ls[..2][..1] == ls[..1]; }
    assert FoldSize(ls[..3]) == Some(14) by { assert ls[..3][..2] == ls[..2]; }
    assert FoldSize(ls[..4]) == Some(7) by { assert ls[..4][..3] == ls[..3]; }
    assert FoldSize(ls[..5]) == Some(7) by { assert ls[..5][..4] == ls[..4]; }
    assert FoldSize(ls[..6]) == Some(3) by { assert ls[..6][..5] == ls[..5]; }
    assert FoldSize(ls[..7]) == Some(3) by { assert ls[..7][..6] == ls[..6]; }
    assert FoldSize(ls) == Some(3) by { assert ls[..7] == ls[..|ls| - 1]; }
  }

  // ---------------------------------------------------------------------
  // Appending and removing
  // ---------------------------------------------------------------------

  /** Removing the last layer undoes a recognised append. */
  lemma RemoveUndoesAppend(ls: seq<Layer>, t: string)
    requires ParseKind(t).Some?
    ensures WithoutLast(Appended(ls, t)) == ls
  {
    assert (ls + [NewLayer(ls, ParseKind(t).value)])[..|ls|] == ls;
  }

  // ---------------------------------------------------------------------
  // The channel invariant
  // ---------------------------------------------------------------------

  /** Layer `j` reads the channels that reach it: Conv2D `in_channels`, MaxPool `channels`. */
  predicate ChannelsAgree(ls: seq<Layer>, j: nat)
    requires j < |ls|
  {
    match ls[j].kind
    case Conv2d => ls[j].inChannels == FeedChannels(ls[..j])
    case MaxPool => ls[j].channels == FeedChannels(ls[..j])
    case Activation => true
    case Linear => true
  }

  /** Every Conv2D and MaxPool reads the channels of the nearest Conv2D or MaxPool before it. */
  predicate ChannelsConsistent(ls: seq<Layer>) {
    forall j :: 0 <= j < |ls| ==> ChannelsAgree(ls, j)
  }

  lemma PrefixConsistent(ls: seq<Layer>, m: nat)
    requires ChannelsConsistent(ls) && m <= |ls|
    ensures ChannelsConsistent(ls[..m])
  {
    forall j | 0 <= j < m
      ensures ChannelsAgree(ls[..m], j)
    {
      assert ls[..m][..j] == ls[..j];
      assert ChannelsAgree(ls, j);
    }
  }

  /**
   * In a consistent model the channels reaching the end are those of the
   * nearest Conv2D (or 1): every MaxPool only passes its Conv2D's count on.
   * This is why the MaxPool branch of a Conv2D append may skip the MaxPool.
   */
  lemma {:induction false} FeedIsLastConv(ls: seq<Layer>)
    requires ChannelsConsistent(ls)
    ensures FeedChannels(ls) == LastConvChannels(ls)
  {
    if ls != [] {
      var n := |ls| - 1;
      var init := ls[..n];
      PrefixConsistent(ls, n);
      FeedIsLastConv(init);
      match ls[n].kind
      case Conv2d =>
      case MaxPool =>
        assert ChannelsAgree(ls, n);
      case Activation =>
      case Linear =>
    }
  }

  /**
   * Appending keeps the channel invariant, except for a Conv2D right after a
   * Linear layer, whose channels are left undefined.
   */
  lemma AppendKeepsChannels(ls: seq<Layer>, k: Kind)
    requires ChannelsConsistent(ls)
    requires k == Conv2d && ls != [] ==> ls[|ls| - 1].kind != Linear
    ensures ChannelsConsistent(ls + [NewLayer(ls, k)])
  {
    var r := ls + [NewLayer(ls, k)];
    forall j | 0 <= j < |r|
      ensures ChannelsAgree(r, j)
    {
      assert r[..j] == if j < |ls| then ls[..j] else ls;
      if j < |ls| {
        assert ChannelsAgree(ls, j);
      } else if k == Conv2d && ls != [] && ls[|ls| - 1].kind == MaxPool {
        FeedIsLastConv(ls);
      }
    }
  }

  /** The invariant survives removing the last layer. */
  lemma RemoveKeepsChannels(ls: seq<Layer>)
    requires ChannelsConsistent(ls)
    ensures ChannelsConsistent(WithoutLast(ls))
  {
    if ls != [] {
      PrefixConsistent(ls, |ls| - 1);
    }
  }

  /** A Conv2D appended right after a Linear layer breaks the invariant. */
  lemma ConvAfterLinearBreaksChannels()
    ensures var ls := [NewLayer([], Linear)];
      ChannelsConsistent(ls) && !ChannelsConsistent(ls + [NewLayer(ls, Conv2d)])
  {
    var ls := [NewLayer([], Linear)];
    var r := ls + [NewLayer(ls, Conv2d)];
    assert r[..1] == ls;
    assert !ChannelsAgree(r, 1);
  }
}
