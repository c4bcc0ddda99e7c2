/**
 * The document the editor hands on (`{...config, layers}`, sent as JSON) and
 * what the backend schema makes of it.
 */
module EditorExport {
  import opened Wrappers
  import opened Layers
  import opened TrainingConfig
  import opened Schema

  /**
   * A numeric field as written: an `undefined` field is dropped by
   * `JSON.stringify` and a non-finite one is written as `null`; the schema
   * reads both as `None`, so neither is written here.
   */
  function IntEntry(o: Option<int>): Option<Json> {
    if o.Some? then Some(JInt(o.value)) else None
  }

  /** The value under key `k` of an editor layer's JSON object, if the key is written. */
  function Entry(l: Layer, k: string): Option<Json> {
    if k == "layer_type" then Some(JStr(KindName(l.kind)))
    else if k == "in_channels" then IntEntry(l.inChannels)
    else if k == "out_channels" then IntEntry(l.outChannels)
    else if k == "kernel_size" then IntEntry(l.kernelSize)
    else if k == "stride" then IntEntry(l.stride)
    else if k == "padding" then IntEntry(l.padding)
    else if k == "channels" then IntEntry(l.channels)
    else if k == "in_features" then IntEntry(l.inFeatures)
    else if k == "out_features" then IntEntry(l.outFeatures)
    else if k == "function" && l.activation.Some? then Some(JStr(l.activation.value))
    else None
  }

  /** Keys an editor layer can carry; a MaxPool's `channels` is one the schema does not declare. */
  const EditorKeys: set<string> :=
    {"layer_type", "in_channels", "out_channels", "kernel_size", "stride", "padding", "channels",
     "in_features", "out_features", "function"}

  /** One editor layer as JSON. */
  function LayerJson(l: Layer): Json {
    JObject(map k | k in EditorKeys && Entry(l, k).Some? :: Entry(l, k).value)
  }

  function LayersJson(ls: seq<Layer>): (items: seq<Json>)
    ensures |items| == |ls| && forall i :: 0 <= i < |ls| ==> items[i] == LayerJson(ls[i])
  {
    seq(|ls|, i requires 0 <= i < |ls| => LayerJson(ls[i]))
  }

  /** The editor's state as the JSON document it emits. */
  function DocumentJson(ls: seq<Layer>, c: Config): (j: Json)
    ensures j.JObject? && forall k :: k in DocumentKeys ==> k in j.fields
    ensures "layers" in j.fields && j.fields["layers"].JList? && |j.fields["layers"].items| == |ls|
  {
    DocumentObject(LayersJson(ls), AsModelConfig(ls, c))
  }

  /** The backend record of an editor layer: its fields as they are, `channels` gone. */
  function AsLayerConfig(l: Layer): LayerConfig {
    LayerConfig(KindName(l.kind), l.inChannels, l.outChannels, l.kernelSize, l.stride, l.padding,
      l.inFeatures, l.outFeatures, l.activation)
  }

  function AsLayerConfigs(ls: seq<Layer>): (r: seq<LayerConfig>)
    ensures |r| == |ls| && forall i :: 0 <= i < |ls| ==> r[i] == AsLayerConfig(ls[i])
  {
    seq(|ls|, i requires 0 <= i < |ls| => AsLayerConfig(ls[i]))
  }

  function AsModelConfig(ls: seq<Layer>, c: Config): ModelConfig {
    ModelConfig(AsLayerConfigs(ls),
      c.optimizerType, c.lossFunction, c.learningRate, c.batchSize, c.numEpochs, c.device, c.augmentations)
  }

  /** Every editor layer passes the schema, and its `channels` is ignored. */
  lemma LayerAccepted(l: Layer, loc: seq<Step>)
    ensures ValidateLayer(LayerJson(l), loc) == Success(AsLayerConfig(l))
  {
    EditorJsonChannels(l, loc);
    EditorJsonShape(l, loc);
    EditorJsonFeatures(l, loc);
    LayerOfFields(LayerJson(l).fields, loc, AsLayerConfig(l));
  }

  lemma EditorJsonChannels(l: Layer, loc: seq<Step>)
    ensures RequiredStr(LayerJson(l).fields, "layer_type", loc) == Success(KindName(l.kind))
    ensures OptionalInt(LayerJson(l).fields, "in_channels", loc) == Success(l.inChannels)
    ensures OptionalInt(LayerJson(l).fields, "out_channels", loc) == Success(l.outChannels)
  {
    assert "layer_type" in EditorKeys && "in_channels" in EditorKeys && "out_channels" in EditorKeys;
  }

  lemma EditorJsonShape(l: Layer, loc: seq<Step>)
    ensures OptionalInt(LayerJson(l).fields, "kernel_size", loc) == Success(l.kernelSize)
    ensures OptionalInt(LayerJson(l).fields, "stride", loc) == Success(l.stride)
    ensures OptionalInt(LayerJson(l).fields, "padding", loc) == Success(l.padding)
  {
    assert "kernel_size" in EditorKeys && "stride" in EditorKeys && "padding" in EditorKeys;
  }

  lemma EditorJsonFeatures(l: Layer, loc: seq<Step>)
    ensures OptionalInt(LayerJson(l).fields, "in_features", loc) == Success(l.inFeatures)
    ensures OptionalInt(LayerJson(l).fields, "out_features", loc) == Success(l.outFeatures)
    ensures OptionalStr(LayerJson(l).fields, "function", loc) == Success(l.activation)
  {
    assert "in_features" in EditorKeys && "out_features" in EditorKeys && "function" in EditorKeys;
  }

  lemma LayersAccepted(ls: seq<Layer>)
    ensures ValidateLayers(LayersJson(ls)) == Success(AsLayerConfigs(ls))
  {
    var items := LayersJson(ls);
    forall i | 0 <= i < |items|
      ensures ValidateLayer(items[i], [Key("layers"), Index(i)]) == Success(AsLayerConfig(ls[i]))
    {
      LayerAccepted(ls[i], [Key("layers"), Index(i)]);
    }
    var r := ValidateLayers(items);
    assert r.Success? && |r.value| == |ls|;
    assert forall i :: 0 <= i < |ls| ==> r.value[i] == AsLayerConfigs(ls)[i];
    assert r.value == AsLayerConfigs(ls);
  }

  /**
   * Whatever the editor holds, the document it emits is accepted by the
   * schema and yields the same fields, every layer record included.
   */
  lemma DocumentAccepted(ls: seq<Layer>, c: Config)
    ensures ValidateModel(DocumentJson(ls, c)) == Success(AsModelConfig(ls, c))
  {
    LayersAccepted(ls);
    DocumentObjectValid(LayersJson(ls), AsModelConfig(ls, c));
  }
}
