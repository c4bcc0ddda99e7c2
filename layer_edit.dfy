/**
 * `updateLayer(index, field, value)` of the model editor: parse the typed
 * value, set one field of one layer, and, when a Conv2D's `out_channels`
 * changed, carry the new count forward to the MaxPools after it and to the
 * next Conv2D's `in_channels`, stopping there.
 */
module LayerEdit {
  import opened Wrappers
  import opened JsNumbers
  import opened Layers

  /** The fields the editor's inputs edit. */
  datatype Field = InChannels | OutChannels | KernelSize | Stride | Padding | InFeatures | OutFeatures | Function

  function FieldName(f: Field): string {
    match f
    case InChannels => "in_channels"
    case OutChannels => "out_channels"
    case KernelSize => "kernel_size"
    case Stride => "stride"
    case Padding => "padding"
    case InFeatures => "in_features"
    case OutFeatures => "out_features"
    case Function => "function"
  }

  datatype Value = Int(n: int) | Text(s: string)

  /** `function` keeps the raw text; every other field goes through `parseInt`. */
  function ParseValue(f: Field, raw: string): (v: Option<Value>)
    ensures v.Some? ==> (f == Function <==> v.value.Text?)
    ensures f == Function ==> v.Some?
    ensures f != Function ==> (v.Some? <==> ParseInt(raw).Some?)
    ensures f == Function ==> v == Some(Text(raw))
    ensures f != Function && ParseInt(raw).Some? ==> v == Some(Int(ParseInt(raw).value))
  {
    if f == Function then Some(Text(raw))
    else match ParseInt(raw)
      case None => None
      case Some(n) => Some(Int(n))
  }

  /** Reads one field generically; the result is `None` when it is unset. */
  function Get(l: Layer, f: Field): Option<Value> {
    var asInt := (o: Option<int>) => if o.Some? then Some(Int(o.value)) else None;
    match f
    case InChannels => asInt(l.inChannels)
    case OutChannels => asInt(l.outChannels)
    case KernelSize => asInt(l.kernelSize)
    case Stride => asInt(l.stride)
    case Padding => asInt(l.padding)
    case InFeatures => asInt(l.inFeatures)
    case OutFeatures => asInt(l.outFeatures)
    case Function => if l.activation.Some? then Some(Text(l.activation.value)) else None
  }

  /** `currentLayer[field] = parsedValue`. */
  function WithField(l: Layer, f: Field, v: Value): (r: Layer)
    requires f == Function <==> v.Text?
    ensures Get(r, f) == Some(v)
    ensures forall g :: g != f ==> Get(r, g) == Get(l, g)
    ensures r.kind == l.kind && r.channels == l.channels
  {
    match f
    case InChannels => l.(inChannels := Some(v.n))
    case OutChannels => l.(outChannels := Some(v.n))
    case KernelSize => l.(kernelSize := Some(v.n))
    case Stride => l.(stride := Some(v.n))
    case Padding => l.(padding := Some(v.n))
    case InFeatures => l.(inFeatures := Some(v.n))
    case OutFeatures => l.(outFeatures := Some(v.n))
    case Function => l.(activation := Some(v.s))
  }

  /** Index of the first Conv2D at or after `from`, or `|ls|` when there is none. */
  function NextConv(ls: seq<Layer>, from: nat): (n: nat)
    requires from <= |ls|
    ensures from <= n <= |ls|
    ensures n < |ls| ==> ls[n].kind == Conv2d
    ensures forall j :: from <= j < n ==> ls[j].kind != Conv2d
    decreases |ls| - from
  {
    if from == |ls| || ls[from].kind == Conv2d then from else NextConv(ls, from + 1)
  }

  /**
   * The forward walk after Conv2D `i` received `c` output channels: every
   * MaxPool strictly between `i` and the next Conv2D gets `channels == c`, that
   * Conv2D gets `in_channels == c`, and nothing else changes.
   */
  function Propagated(ls: seq<Layer>, i: nat, c: int): (r: seq<Layer>)
    requires i < |ls|
    ensures |r| == |ls|
    ensures forall j :: 0 <= j < |ls| ==> r[j].kind == ls[j].kind
    ensures forall j :: 0 <= j <= i ==> r[j] == ls[j]
    ensures forall j :: 0 <= j < |ls| && ls[j].kind in {Activation, Linear} ==> r[j] == ls[j]
  {
    var n := NextConv(ls, i + 1);
    seq(|ls|, j requires 0 <= j < |ls| =>
      if i < j < n && ls[j].kind == MaxPool then ls[j].(channels := Some(c))
      else if j == n then ls[j].(inChannels := Some(c))
      else ls[j])
  }

  /** The list after `updateLayer(index, FieldName(f), raw)`. */
  function EditedLayers(ls: seq<Layer>, index: nat, f: Field, raw: string): (r: seq<Layer>)
    requires index < |ls|
    ensures |r| == |ls|
    ensures forall j :: 0 <= j < |ls| ==> r[j].kind == ls[j].kind
    ensures forall j :: 0 <= j < index ==> r[j] == ls[j]
  {
    match ParseValue(f, raw)
    case None => ls
    case Some(v) =>
      var edited := ls[index := WithField(ls[index], f, v)];
      if f == OutChannels && ls[index].kind == Conv2d then Propagated(edited, index, v.n) else edited
  }

  // ---------------------------------------------------------------------
  // Properties of an edit
  // ---------------------------------------------------------------------

  /** A numeric field given text `parseInt` reads as `NaN` leaves every layer as it was. */
  lemma EditRejectsNaN(ls: seq<Layer>, index: nat, f: Field, raw: string)
    requires index < |ls| && f != Function && ParseInt(raw).None?
    ensures EditedLayers(ls, index, f, raw) == ls
  {
  }

  /**
   * A successful edit sets exactly the named field of layer `index` to the
   * parsed value, keeps the layer's other fields and the list's length.
   */
  lemma EditSetsField(ls: seq<Layer>, index: nat, f: Field, raw: string, v: Value)
    requires index < |ls| && ParseValue(f, raw) == Some(v)
    ensures |EditedLayers(ls, index, f, raw)| == |ls|
    ensures Get(EditedLayers(ls, index, f, raw)[index], f) == Some(v)
    ensures forall g :: g != f ==> Get(EditedLayers(ls, index, f, raw)[index], g) == Get(ls[index], g)
    ensures EditedLayers(ls, index, f, raw)[index].kind == ls[index].kind
  {
  }

  /** Unless a Conv2D's `out_channels` changed, no layer but `index` changes. */
  lemma EditIsLocal(ls: seq<Layer>, index: nat, f: Field, raw: string)
    requires index < |ls|
    requires !(f == OutChannels && ls[index].kind == Conv2d)
    ensures |EditedLayers(ls, index, f, raw)| == |ls|
    ensures forall j :: 0 <= j < |ls| && j != index ==> EditedLayers(ls, index, f, raw)[j] == ls[j]
  {
  }

  /**
   * Editing a Conv2D's `out_channels` to `c` reaches the MaxPools up to the
   * next Conv2D (their `channels`) and that Conv2D (its `in_channels`, only),
   * and no layer before `index`, beyond that Conv2D, or of kind Activation or
   * Linear.
   */
  lemma PropagationScope(ls: seq<Layer>, index: nat, raw: string, c: int)
    requires index < |ls| && ls[index].kind == Conv2d && ParseInt(raw) == Some(c)
    ensures var r := EditedLayers(ls, index, OutChannels, raw);
      var n := NextConv(ls, index + 1);
      && |r| == |ls|
      && r[index] == ls[index].(outChannels := Some(c))
      && (forall j :: index < j < n && ls[j].kind == MaxPool ==> r[j] == ls[j].(channels := Some(c)))
      && (n < |ls| ==> r[n] == ls[n].(inChannels := Some(c)))
      && (forall j :: 0 <= j < |ls| && (j < index || n < j) ==> r[j] == ls[j])
      && (forall j :: 0 <= j < |ls| && j != index && ls[j].kind in {Activation, Linear} ==> r[j] == ls[j])
  {
    var edited := ls[index := WithField(ls[index], OutChannels, Int(c))];
    NextConvSameKinds(ls, edited, index + 1);
  }

  /** The next Conv2D depends only on the kinds of the layers. */
  lemma {:induction false} NextConvSameKinds(a: seq<Layer>, b: seq<Layer>, from: nat)
    requires |a| == |b| && from <= |a|
    requires forall j :: 0 <= j < |a| ==> a[j].kind == b[j].kind
    ensures NextConv(a, from) == NextConv(b, from)
    decreases |a| - from
  {
    if from < |a| && a[from].kind != Conv2d {
      NextConvSameKinds(a, b, from + 1);
    }
  }

  /**
   * An edit never recomputes a Linear layer other than the edited one: a
   * Linear layer's `in_features` stays what it was when it was appended.
   */
  lemma EditKeepsOtherLinears(ls: seq<Layer>, index: nat, f: Field, raw: string)
    requires index < |ls|
    ensures forall j :: 0 <= j < |ls| && j != index && ls[j].kind == Linear ==> EditedLayers(ls, index, f, raw)[j] == ls[j]
  {
    if ParseValue(f, raw).Some? && f == OutChannels && ls[index].kind == Conv2d {
      PropagationScope(ls, index, raw, ParseInt(raw).value);
    }
  }

  /**
   * A Linear layer appended after a Conv2D read 784 features; changing the
   * Conv2D's kernel to 5 afterwards keeps 784, although appending now would
   * read 26 * 26 = 676.
   */
  lemma StaleInFeatures()
    ensures var ls := [NewLayer([], Conv2d)];
      var before := ls + [NewLayer(ls, Linear)];
      var after := EditedLayers(before, 0, KernelSize, "5");
      after[1].inFeatures == Some(784) && NewLayer(after[..1], Linear).inFeatures == Some(676)
  {
    var ls := [NewLayer([], Conv2d)];
    assert FoldSize(ls) == Some(28) by {
      assert ls[..0] == [];
      assert FloorDiv(27, 1) == 27;
    }
    var before := ls + [NewLayer(ls, Linear)];
    assert before[1].inFeatures == Some(784);
    assert ParseValue(KernelSize, "5") == Some(Int(5)) by {
      assert Decimal(5) == "5";
      ParseIntDecimal(5);
    }
    var after := EditedLayers(before, 0, KernelSize, "5");
    assert after == before[0 := before[0].(kernelSize := Some(5))];
    assert after[..1] == [ls[0].(kernelSize := Some(5))];
    assert FoldSize(after[..1]) == Some(26) by {
      assert after[..1][..0] == [];
      assert FloorDiv(25, 1) == 25;
    }
  }

  // ---------------------------------------------------------------------
  // The channel invariant survives an out_channels edit
  // ---------------------------------------------------------------------

  /** The backward scan depends only on the kinds of the layers. */
  lemma {:induction false} LastIndexOfSameKinds(a: seq<Layer>, b: seq<Layer>, kinds: set<Kind>)
    requires |a| == |b|
    requires forall j :: 0 <= j < |a| ==> a[j].kind == b[j].kind
    ensures LastIndexOf(a, kinds) == LastIndexOf(b, kinds)
  {
    if a != [] {
      LastIndexOfSameKinds(a[..|a| - 1], b[..|b| - 1], kinds);
    }
  }

  /**
   * Changing Conv2D `index`'s `out_channels` and propagating keeps every
   * Conv2D and MaxPool reading the channels that reach it: the forward walk
   * fixes exactly the layers whose input changed.
   */
  lemma EditKeepsChannels(ls: seq<Layer>, index: nat, raw: string)
    requires ChannelsConsistent(ls)
    requires index < |ls| && ls[index].kind == Conv2d && ParseInt(raw).Some?
    ensures ChannelsConsistent(EditedLayers(ls, index, OutChannels, raw))
  {
    var c := ParseInt(raw).value;
    var r := EditedLayers(ls, index, OutChannels, raw);
    var n := NextConv(ls, index + 1);
    PropagationScope(ls, index, raw, c);
    assert forall j :: 0 <= j < |ls| ==> r[j].kind == ls[j].kind;
    forall j | 0 <= j < |r|
      ensures ChannelsAgree(r, j)
    {
      if j <= index {
        AgreesBefore(ls, r, index, j);
      } else if j <= n {
        AgreesWithin(ls, r, index, n, c, j);
      } else {
        AgreesBeyond(ls, r, n, j);
      }
    }
  }

  /** Up to the edited Conv2D nothing that a layer reads has changed. */
  lemma AgreesBefore(ls: seq<Layer>, r: seq<Layer>, index: nat, j: nat)
    requires ChannelsConsistent(ls)
    requires |r| == |ls| && j <= index < |ls| && ls[index].kind == Conv2d
    requires forall k :: 0 <= k < index ==> r[k] == ls[k]
    requires r[index] == ls[index].(outChannels := r[index].outChannels)
    ensures ChannelsAgree(r, j)
  {
    assert ChannelsAgree(ls, j);
    assert r[..j] == ls[..j];
  }

  /**
   * Between the edited Conv2D and the next one, the nearest Conv2D or MaxPool
   * is the edited layer or a MaxPool the walk set to `c`.
   */
  lemma AgreesWithin(ls: seq<Layer>, r: seq<Layer>, index: nat, n: nat, c: int, j: nat)
    requires |r| == |ls| && index < j <= n <= |ls| && j < |ls|
    requires forall k :: 0 <= k < |ls| ==> r[k].kind == ls[k].kind
    requires ls[index].kind == Conv2d && r[index].outChannels == Some(c)
    requires forall k :: index < k < n ==> ls[k].kind != Conv2d
    requires forall k :: index < k < n && ls[k].kind == MaxPool ==> r[k].channels == Some(c)
    requires n < |ls| ==> ls[n].kind == Conv2d && r[n].inChannels == Some(c)
    ensures ChannelsAgree(r, j)
  {
    var src := LastIndexOf(r[..j], {Conv2d, MaxPool});
    assert r[..j][index].kind == Conv2d;
    assert src.Some? && src.value >= index;
    assert ChannelsOf(r[src.value]) == Some(c);
    assert FeedChannels(r[..j]) == Some(c);
  }

  /** Beyond the next Conv2D the nearest Conv2D or MaxPool kept its channels. */
  lemma AgreesBeyond(ls: seq<Layer>, r: seq<Layer>, n: nat, j: nat)
    requires ChannelsConsistent(ls)
    requires |r| == |ls| && n < j < |ls| && ls[n].kind == Conv2d
    requires forall k :: 0 <= k < |ls| ==> r[k].kind == ls[k].kind
    requires r[n] == ls[n].(inChannels := r[n].inChannels)
    requires forall k :: n < k < |ls| ==> r[k] == ls[k]
    ensures ChannelsAgree(r, j)
  {
    assert ChannelsAgree(ls, j);
    LastIndexOfSameKinds(r[..j], ls[..j], {Conv2d, MaxPool});
    var src := LastIndexOf(r[..j], {Conv2d, MaxPool});
    assert r[..j][n].kind == Conv2d;
    assert src.Some? && src.value >= n;
    assert ChannelsOf(r[src.value]) == ChannelsOf(ls[src.value]);
  }

  /**
   * The worked example: with `[conv2d(out 8), maxpool, conv2d, conv2d]`,
   * setting layer 0's `out_channels` to "16" gives the MaxPool 16 channels and
   * layer 2 16 input channels, and stops there.
   */
  lemma PropagationExample()
    ensures var ls := [Conv(1, 8), Pool.(channels := Some(8)), Conv(8, 8), Conv(8, 8)];
      var r := EditedLayers(ls, 0, OutChannels, "16");
      r == [Conv(1, 16), Pool.(channels := Some(16)), Conv(16, 8), Conv(8, 8)]
  {
    var ls := [Conv(1, 8), Pool.(channels := Some(8)), Conv(8, 8), Conv(8, 8)];
    assert ParseInt("16") == Some(16) by {
      assert Decimal(16) == "16" by { assert NatDecimal(1) == "1"; }
      ParseIntDecimal(16);
    }
    assert NextConv(ls, 1) == 2;
    PropagationScope(ls, 0, "16", 16);
  }
}
