/**
 * The backend's accepted shape of a training-configuration document: the
 * `LayerConfig` and `ModelConfig` records and what validating a parsed JSON
 * document against them yields.
 */
module Schema {
  import opened Wrappers

  /** A parsed JSON value. */
  datatype Json =
    | JNull
    | JBool(b: bool)
    | JInt(i: int)
    | JReal(r: real)
    | JStr(s: string)
    | JList(items: seq<Json>)
    | JObject(fields: map<string, Json>)

  /** One step of the location a validation problem is reported at. */
  datatype Step = Key(name: string) | Index(i: nat)
  datatype ProblemKind = Missing | WrongType
  datatype Problem = Problem(loc: seq<Step>, kind: ProblemKind)

  type Checked<T> = Result<T, seq<Problem>>

  /** A layer record: only `layer_type` is required; kernel size and stride are shared by all kinds. */
  datatype LayerConfig = LayerConfig(
    layerType: string,
    inChannels: Option<int>,
    outChannels: Option<int>,
    kernelSize: Option<int>,
    stride: Option<int>,
    padding: Option<int>,
    inFeatures: Option<int>,
    outFeatures: Option<int>,
    fn: Option<string>)

  /** The whole document: eight fields, none with a default. */
  datatype ModelConfig = ModelConfig(
    layers: seq<LayerConfig>,
    optimizerType: string,
    lossFunction: string,
    learningRate: real,
    batchSize: int,
    numEpochs: int,
    device: string,
    augmentations: seq<string>)

  /** The field names of a layer record, `layer_type` first. */
  const LayerKeys: seq<string> :=
    ["layer_type", "in_channels", "out_channels", "kernel_size", "stride", "padding", "in_features", "out_features", "function"]

  /** The field names of a document. */
  const DocumentKeys: seq<string> :=
    ["layers", "optimizer_type", "loss_function", "learning_rate", "batch_size", "num_epochs", "device", "augmentations"]

  function Errors<T>(r: Checked<T>): (e: seq<Problem>)
    ensures r.Success? ==> e == []
  {
    if r.Success? then [] else r.error
  }

  /** Every problem lies at `loc` or below it. */
  predicate Within(ps: seq<Problem>, loc: seq<Step>) {
    forall p :: p in ps ==> loc <= p.loc
  }

  function Fail<T>(loc: seq<Step>, kind: ProblemKind): Checked<T> {
    Failure([Problem(loc, kind)])
  }

  // ---------------------------------------------------------------------
  // Field validators
  // ---------------------------------------------------------------------

  /** A required `str` field. */
  function RequiredStr(m: map<string, Json>, k: string, loc: seq<Step>): (r: Checked<string>)
    ensures r.Success? <==> k in m && m[k].JStr?
    ensures r.Success? ==> r.value == m[k].s
    ensures r.Failure? ==> r.error != []
    ensures k !in m ==> r == Fail(loc + [Key(k)], Missing)
    ensures Within(Errors(r), loc)
  {
    if k !in m then Fail(loc + [Key(k)], Missing)
    else if m[k].JStr? then Success(m[k].s)
    else Fail(loc + [Key(k)], WrongType)
  }

  /** A required `int` field. */
  function RequiredInt(m: map<string, Json>, k: string, loc: seq<Step>): (r: Checked<int>)
    ensures r.Success? <==> k in m && m[k].JInt?
    ensures r.Success? ==> r.value == m[k].i
    ensures r.Failure? ==> r.error != []
    ensures k !in m ==> r == Fail(loc + [Key(k)], Missing)
  {
    if k !in m then Fail(loc + [Key(k)], Missing)
    else if m[k].JInt? then Success(m[k].i)
    else Fail(loc + [Key(k)], WrongType)
  }

  /** A required `float` field: an integer is accepted and widened. */
  function RequiredFloat(m: map<string, Json>, k: string, loc: seq<Step>): (r: Checked<real>)
    ensures r.Success? <==> k in m && (m[k].JReal? || m[k].JInt?)
    ensures r.Success? && m[k].JReal? ==> r.value == m[k].r
    ensures r.Success? && m[k].JInt? ==> r.value == m[k].i as real
    ensures r.Failure? ==> r.error != []
    ensures k !in m ==> r == Fail(loc + [Key(k)], Missing)
  {
    if k !in m then Fail(loc + [Key(k)], Missing)
    else if m[k].JReal? then Success(m[k].r)
    else if m[k].JInt? then Success(m[k].i as real)
    else Fail(loc + [Key(k)], WrongType)
  }

  /** An `Optional[int] = None` field: absent and `null` are both `None`. */
  function OptionalInt(m: map<string, Json>, k: string, loc: seq<Step>): (r: Checked<Option<int>>)
    ensures r.Success? <==> k !in m || m[k].JNull? || m[k].JInt?
    ensures r.Success? ==> (r.value.Some? <==> k in m && m[k].JInt?)
    ensures r.Success? && r.value.Some? ==> r.value.value == m[k].i
    ensures r.Failure? ==> r.error != []
    ensures Within(Errors(r), loc)
  {
    if k !in m || m[k].JNull? then Success(None)
    else if m[k].JInt? then Success(Some(m[k].i))
    else Fail(loc + [Key(k)], WrongType)
  }

  /** An `Optional[str] = None` field. */
  function OptionalStr(m: map<string, Json>, k: string, loc: seq<Step>): (r: Checked<Option<string>>)
    ensures r.Success? <==> k !in m || m[k].JNull? || m[k].JStr?
    ensures r.Success? ==> (r.value.Some? <==> k in m && m[k].JStr?)
    ensures r.Success? && r.value.Some? ==> r.value.value == m[k].s
    ensures r.Failure? ==> r.error != []
    ensures Within(Errors(r), loc)
  {
    if k !in m || m[k].JNull? then Success(None)
    else if m[k].JStr? then Success(Some(m[k].s))
    else Fail(loc + [Key(k)], WrongType)
  }

  /** Every item of a `List[str]`, in order; each non-string item is reported at its index. */
  function StrItems(items: seq<Json>, loc: seq<Step>): (r: Checked<seq<string>>)
    ensures r.Success? <==> forall i :: 0 <= i < |items| ==> items[i].JStr?
    ensures r.Success? ==> |r.value| == |items| && forall i :: 0 <= i < |items| ==> r.value[i] == items[i].s
    ensures r.Failure? ==> r.error != []
  {
    if items == [] then Success([])
    else
      var front := StrItems(items[..|items| - 1], loc);
      var last := items[|items| - 1];
      var here := if last.JStr? then [] else [Problem(loc + [Index(|items| - 1)], WrongType)];
      if front.Success? && here == [] then Success(front.value + [last.s])
      else Failure(Errors(front) + here)
  }

  /** A `List[str]` field. */
  function RequiredStrList(m: map<string, Json>, k: string, loc: seq<Step>): (r: Checked<seq<string>>)
    ensures r.Success? <==> k in m && m[k].JList? && forall i :: 0 <= i < |m[k].items| ==> m[k].items[i].JStr?
    ensures r.Success? ==> |r.value| == |m[k].items| && forall i :: 0 <= i < |r.value| ==> r.value[i] == m[k].items[i].s
    ensures r.Failure? ==> r.error != []
    ensures k !in m ==> r == Fail(loc + [Key(k)], Missing)
  {
    if k !in m then Fail(loc + [Key(k)], Missing)
    else if m[k].JList? then StrItems(m[k].items, loc + [Key(k)])
    else Fail(loc + [Key(k)], WrongType)
  }

  // ---------------------------------------------------------------------
  // Records
  // ---------------------------------------------------------------------

  /** Validates one layer record; every problem is collected, keys not declared are ignored. */
  function ValidateLayer(j: Json, loc: seq<Step>): (r: Checked<LayerConfig>)
    ensures r.Failure? ==> r.error != []
    ensures r.Failure? ==> Within(r.error, loc)
    ensures !j.JObject? ==> r == Fail(loc, WrongType)
    ensures r.Success? ==> j.JObject? && "layer_type" in j.fields && j.fields["layer_type"].JStr?
    ensures r.Success? ==> r.value.layerType == j.fields["layer_type"].s
  {
    if !j.JObject? then Fail(loc, WrongType)
    else
      var m := j.fields;
      var t := RequiredStr(m, "layer_type", loc);
      var ic := OptionalInt(m, "in_channels", loc);
      var oc := OptionalInt(m, "out_channels", loc);
      var ks := OptionalInt(m, "kernel_size", loc);
      var st := OptionalInt(m, "stride", loc);
      var pd := OptionalInt(m, "padding", loc);
      var inf := OptionalInt(m, "in_features", loc);
      var outf := OptionalInt(m, "out_features", loc);
      var fn := OptionalStr(m, "function", loc);
      var problems := Errors(t) + Errors(ic) + Errors(oc) + Errors(ks) + Errors(st) + Errors(pd)
        + Errors(inf) + Errors(outf) + Errors(fn);
      if problems == [] then
        Success(LayerConfig(t.value, ic.value, oc.value, ks.value, st.value, pd.value, inf.value, outf.value, fn.value))
      else Failure(problems)
  }

  /** Item results combined in order: every value when all items passed, else every problem. */
  function Collect<T>(rs: seq<Checked<T>>): (r: Checked<seq<T>>)
    requires forall i :: 0 <= i < |rs| && rs[i].Failure? ==> rs[i].error != []
    ensures r.Success? <==> forall i :: 0 <= i < |rs| ==> rs[i].Success?
    ensures r.Success? ==> |r.value| == |rs|
    ensures r.Success? ==> forall i :: 0 <= i < |rs| ==> r.value[i] == rs[i].value
    ensures r.Failure? ==> r.error != []
  {
    if rs == [] then Success([])
    else
      var front := Collect(rs[..|rs| - 1]);
      var last := rs[|rs| - 1];
      if front.Success? && last.Success? then Success(front.value + [last.value])
      else Failure(Errors(front) + Errors(last))
  }

  /** Each item of `layers` validated as a layer record at its index. */
  function LayerChecks(items: seq<Json>): (rs: seq<Checked<LayerConfig>>)
    ensures |rs| == |items|
    ensures forall i :: 0 <= i < |items| ==> rs[i] == ValidateLayer(items[i], [Key("layers"), Index(i)])
  {
    seq(|items|, i requires 0 <= i < |items| => ValidateLayer(items[i], [Key("layers"), Index(i)]))
  }

  /** Validates the items of `layers`, reporting each at its index. */
  function ValidateLayers(items: seq<Json>): (r: Checked<seq<LayerConfig>>)
    ensures r.Success? <==> forall i :: 0 <= i < |items| ==> ValidateLayer(items[i], [Key("layers"), Index(i)]).Success?
    ensures r.Success? ==> |r.value| == |items|
    ensures r.Success? ==>
      forall i :: 0 <= i < |items| ==> r.value[i] == ValidateLayer(items[i], [Key("layers"), Index(i)]).value
    ensures r.Failure? ==> r.error != []
  {
    Collect(LayerChecks(items))
  }

  /** The `layers` field. */
  function RequiredLayers(m: map<string, Json>): (r: Checked<seq<LayerConfig>>)
    ensures r.Failure? ==> r.error != []
    ensures "layers" !in m ==> r == Fail([Key("layers")], Missing)
  {
    if "layers" !in m then Fail([Key("layers")], Missing)
    else if m["layers"].JList? then ValidateLayers(m["layers"].items)
    else Fail([Key("layers")], WrongType)
  }

  /** Validates a whole document. */
  function ValidateModel(j: Json): (r: Checked<ModelConfig>)
    ensures r.Failure? ==> r.error != []
    ensures !j.JObject? ==> r == Fail([], WrongType)
    ensures r.Success? ==> j.JObject? && forall k :: k in DocumentKeys ==> k in j.fields
  {
    if !j.JObject? then Fail([], WrongType)
    else
      var m := j.fields;
      var ls := RequiredLayers(m);
      var opt := RequiredStr(m, "optimizer_type", []);
      var loss := RequiredStr(m, "loss_function", []);
      var lr := RequiredFloat(m, "learning_rate", []);
      var bs := RequiredInt(m, "batch_size", []);
      var ne := RequiredInt(m, "num_epochs", []);
      var dev := RequiredStr(m, "device", []);
      var augs := RequiredStrList(m, "augmentations", []);
      var problems := Errors(ls) + Errors(opt) + Errors(loss) + Errors(lr) + Errors(bs) + Errors(ne)
        + Errors(dev) + Errors(augs);
      if problems == [] then
        Success(ModelConfig(ls.value, opt.value, loss.value, lr.value, bs.value, ne.value, dev.value, augs.value))
      else Failure(problems)
  }

  // ---------------------------------------------------------------------
  // Serialising a validated record
  // ---------------------------------------------------------------------

  function IntOrNull(o: Option<int>): Json {
    if o.Some? then JInt(o.value) else JNull
  }

  function StrOrNull(o: Option<string>): Json {
    if o.Some? then JStr(o.value) else JNull
  }

  /** A layer record as JSON, every field written out (`null` for `None`). */
  function LayerToJson(l: LayerConfig): Json {
    JObject(map[
      "layer_type" := JStr(l.layerType),
      "in_channels" := IntOrNull(l.inChannels),
      "out_channels" := IntOrNull(l.outChannels),
      "kernel_size" := IntOrNull(l.kernelSize),
      "stride" := IntOrNull(l.stride),
      "padding" := IntOrNull(l.padding),
      "in_features" := IntOrNull(l.inFeatures),
      "out_features" := IntOrNull(l.outFeatures),
      "function" := StrOrNull(l.fn)])
  }

  function StrList(s: seq<string>): (j: Json)
    ensures j.JList? && |j.items| == |s| && forall i :: 0 <= i < |s| ==> j.items[i] == JStr(s[i])
  {
    JList(seq(|s|, i requires 0 <= i < |s| => JStr(s[i])))
  }

  /** A document as JSON with the given `layers` items; `c.layers` is not used. */
  function DocumentObject(items: seq<Json>, c: ModelConfig): Json {
    JObject(map[
      "layers" := JList(items),
      "optimizer_type" := JStr(c.optimizerType),
      "loss_function" := JStr(c.lossFunction),
      "learning_rate" := JReal(c.learningRate),
      "batch_size" := JInt(c.batchSize),
      "num_epochs" := JInt(c.numEpochs),
      "device" := JStr(c.device),
      "augmentations" := StrList(c.augmentations)])
  }

  function LayersToJson(ls: seq<LayerConfig>): (items: seq<Json>)
    ensures |items| == |ls| && forall i :: 0 <= i < |ls| ==> items[i] == LayerToJson(ls[i])
  {
    seq(|ls|, i requires 0 <= i < |ls| => LayerToJson(ls[i]))
  }

  /** A document as JSON. */
  function ModelToJson(c: ModelConfig): Json {
    DocumentObject(LayersToJson(c.layers), c)
  }

  // ---------------------------------------------------------------------
  // Properties
  // ---------------------------------------------------------------------

  /**
   * A layer object validates exactly when `layer_type` is a string and every
   * other declared field present is `null` or of its type; the record then
   * holds those values, `None` for the absent ones.
   */
  lemma LayerValidIff(m: map<string, Json>, loc: seq<Step>)
    ensures ValidateLayer(JObject(m), loc).Success? <==>
      ("layer_type" in m && m["layer_type"].JStr?) &&
      (forall k :: k in LayerKeys[1..8] ==> k !in m || m[k].JNull? || m[k].JInt?) &&
      ("function" !in m || m["function"].JNull? || m["function"].JStr?)
    ensures ValidateLayer(JObject(m), loc).Success? ==>
      ValidateLayer(JObject(m), loc).value.layerType == m["layer_type"].s &&
      (ValidateLayer(JObject(m), loc).value.kernelSize.Some? <==> "kernel_size" in m && m["kernel_size"].JInt?)
  {
    assert LayerKeys[1..8] == ["in_channels", "out_channels", "kernel_size", "stride", "padding", "in_features", "out_features"];
  }

  /** `layer_type` alone makes a valid layer: every other field defaults to `None`. */
  lemma OnlyLayerTypeRequired(t: string, loc: seq<Step>)
    ensures ValidateLayer(JObject(map["layer_type" := JStr(t)]), loc) ==
      Success(LayerConfig(t, None, None, None, None, None, None, None, None))
  {
  }

  /** Without `layer_type` a layer is rejected, and the problem names that field. */
  lemma LayerTypeMissing(m: map<string, Json>, loc: seq<Step>)
    requires "layer_type" !in m
    ensures ValidateLayer(JObject(m), loc).Failure?
    ensures Problem(loc + [Key("layer_type")], Missing) in ValidateLayer(JObject(m), loc).error
  {
    var r := ValidateLayer(JObject(m), loc);
    assert RequiredStr(m, "layer_type", loc).error[0] == Problem(loc + [Key("layer_type")], Missing);
  }

  /**
   * `layer_type` is any string and the other fields do not depend on it:
   * replacing it changes only the record's `layerType`. In particular a
   * MaxPool reads the same `kernel_size` and `stride` fields a Conv2D does.
   */
  lemma LayerTypeUnchecked(m: map<string, Json>, loc: seq<Step>, t: string)
    requires ValidateLayer(JObject(m), loc).Success?
    ensures ValidateLayer(JObject(m["layer_type" := JStr(t)]), loc) ==
      Success(ValidateLayer(JObject(m), loc).value.(layerType := t))
  {
    var m' := m["layer_type" := JStr(t)];
    var l := ValidateLayer(JObject(m), loc).value;
    FieldsOfLayer(m, loc);
    SameField(m, m', "in_channels", loc);
    SameField(m, m', "out_channels", loc);
    SameField(m, m', "kernel_size", loc);
    SameField(m, m', "stride", loc);
    SameField(m, m', "padding", loc);
    SameField(m, m', "in_features", loc);
    SameField(m, m', "out_features", loc);
    SameField(m, m', "function", loc);
    LayerOfFields(m', loc, l.(layerType := t));
  }

  /** A valid layer object's nine declared fields read as its record's. */
  lemma FieldsOfLayer(m: map<string, Json>, loc: seq<Step>)
    requires ValidateLayer(JObject(m), loc).Success?
    ensures var l := ValidateLayer(JObject(m), loc).value;
      RequiredStr(m, "layer_type", loc) == Success(l.layerType) &&
      OptionalInt(m, "in_channels", loc) == Success(l.inChannels) &&
      OptionalInt(m, "out_channels", loc) == Success(l.outChannels) &&
      OptionalInt(m, "kernel_size", loc) == Success(l.kernelSize) &&
      OptionalInt(m, "stride", loc) == Success(l.stride) &&
      OptionalInt(m, "padding", loc) == Success(l.padding) &&
      OptionalInt(m, "in_features", loc) == Success(l.inFeatures) &&
      OptionalInt(m, "out_features", loc) == Success(l.outFeatures) &&
      OptionalStr(m, "function", loc) == Success(l.fn)
  {
  }

  /** A field that two objects hold alike reads alike in both. */
  lemma SameField(m: map<string, Json>, m': map<string, Json>, k: string, loc: seq<Step>)
    requires k in m <==> k in m'
    requires k in m ==> m[k] == m'[k]
    ensures OptionalInt(m', k, loc) == OptionalInt(m, k, loc)
    ensures OptionalStr(m', k, loc) == OptionalStr(m, k, loc)
  {
  }

  /** A document missing any of its eight fields is rejected with a problem naming that field. */
  lemma EveryDocumentFieldRequired(m: map<string, Json>, k: string)
    requires k in DocumentKeys && k !in m
    ensures ValidateModel(JObject(m)).Failure?
    ensures Problem([Key(k)], Missing) in ValidateModel(JObject(m)).error
  {
    var p := Problem([Key(k)], Missing);
    var ls := RequiredLayers(m);
    var opt := RequiredStr(m, "optimizer_type", []);
    var loss := RequiredStr(m, "loss_function", []);
    var lr := RequiredFloat(m, "learning_rate", []);
    var bs := RequiredInt(m, "batch_size", []);
    var ne := RequiredInt(m, "num_epochs", []);
    var dev := RequiredStr(m, "device", []);
    var augs := RequiredStrList(m, "augmentations", []);
    assert [] + [Key(k)] == [Key(k)];
    if k == "layers" { assert p in Errors(ls); }
    else if k == "optimizer_type" { assert p in Errors(opt); }
    else if k == "loss_function" { assert p in Errors(loss); }
    else if k == "learning_rate" { assert p in Errors(lr); }
    else if k == "batch_size" { assert p in Errors(bs); }
    else if k == "num_epochs" { assert p in Errors(ne); }
    else if k == "device" { assert p in Errors(dev); }
    else { assert p in Errors(augs); }
  }

  /** A valid document's every layer item is itself a valid layer record, and is what the document holds. */
  lemma ValidDocumentLayers(m: map<string, Json>)
    requires ValidateModel(JObject(m)).Success?
    ensures "layers" in m && m["layers"].JList?
    ensures var items := m["layers"].items;
      |ValidateModel(JObject(m)).value.layers| == |items| &&
      forall i :: 0 <= i < |items| ==>
        ValidateLayer(items[i], [Key("layers"), Index(i)]).Success? &&
        ValidateModel(JObject(m)).value.layers[i] == ValidateLayer(items[i], [Key("layers"), Index(i)]).value
  {
  }

  /** One bad layer item rejects the whole document. */
  lemma BadLayerRejectsDocument(m: map<string, Json>, i: nat)
    requires "layers" in m && m["layers"].JList? && i < |m["layers"].items|
    requires ValidateLayer(m["layers"].items[i], [Key("layers"), Index(i)]).Failure?
    ensures ValidateModel(JObject(m)).Failure?
  {
  }

  /** Serialising a layer record and validating it gives the record back. */
  lemma LayerRoundTrip(l: LayerConfig, loc: seq<Step>)
    ensures ValidateLayer(LayerToJson(l), loc) == Success(l)
  {
    var m := LayerToJson(l).fields;
    LayerJsonChannels(l, loc);
    LayerJsonShape(l, loc);
    LayerJsonFeatures(l, loc);
    LayerOfFields(m, loc, l);
  }

  /** A layer object whose nine declared fields each read as `l`'s validates to `l`. */
  lemma LayerOfFields(m: map<string, Json>, loc: seq<Step>, l: LayerConfig)
    requires RequiredStr(m, "layer_type", loc) == Success(l.layerType)
    requires OptionalInt(m, "in_channels", loc) == Success(l.inChannels)
    requires OptionalInt(m, "out_channels", loc) == Success(l.outChannels)
    requires OptionalInt(m, "kernel_size", loc) == Success(l.kernelSize)
    requires OptionalInt(m, "stride", loc) == Success(l.stride)
    requires OptionalInt(m, "padding", loc) == Success(l.padding)
    requires OptionalInt(m, "in_features", loc) == Success(l.inFeatures)
    requires OptionalInt(m, "out_features", loc) == Success(l.outFeatures)
    requires OptionalStr(m, "function", loc) == Success(l.fn)
    ensures ValidateLayer(JObject(m), loc) == Success(l)
  {
  }

  lemma LayerJsonChannels(l: LayerConfig, loc: seq<Step>)
    ensures RequiredStr(LayerToJson(l).fields, "layer_type", loc) == Success(l.layerType)
    ensures OptionalInt(LayerToJson(l).fields, "in_channels", loc) == Success(l.inChannels)
    ensures OptionalInt(LayerToJson(l).fields, "out_channels", loc) == Success(l.outChannels)
  {
  }

  lemma LayerJsonShape(l: LayerConfig, loc: seq<Step>)
    ensures OptionalInt(LayerToJson(l).fields, "kernel_size", loc) == Success(l.kernelSize)
    ensures OptionalInt(LayerToJson(l).fields, "stride", loc) == Success(l.stride)
    ensures OptionalInt(LayerToJson(l).fields, "padding", loc) == Success(l.padding)
  {
  }

  lemma LayerJsonFeatures(l: LayerConfig, loc: seq<Step>)
    ensures OptionalInt(LayerToJson(l).fields, "in_features", loc) == Success(l.inFeatures)
    ensures OptionalInt(LayerToJson(l).fields, "out_features", loc) == Success(l.outFeatures)
    ensures OptionalStr(LayerToJson(l).fields, "function", loc) == Success(l.fn)
  {
  }

  lemma LayersRoundTrip(ls: seq<LayerConfig>)
    ensures ValidateLayers(LayersToJson(ls)) == Success(ls)
  {
    var items := LayersToJson(ls);
    forall i | 0 <= i < |items|
      ensures ValidateLayer(items[i], [Key("layers"), Index(i)]) == Success(ls[i])
    {
      LayerRoundTrip(ls[i], [Key("layers"), Index(i)]);
    }
    var r := ValidateLayers(items);
    assert r.Success? && |r.value| == |ls|;
    assert forall i :: 0 <= i < |ls| ==> r.value[i] == ls[i];
    assert r.value == ls;
  }

  lemma StrListRoundTrip(s: seq<string>, loc: seq<Step>)
    ensures StrItems(StrList(s).items, loc) == Success(s)
  {
    var r := StrItems(StrList(s).items, loc);
    assert r.Success? && |r.value| == |s|;
    assert forall i :: 0 <= i < |s| ==> r.value[i] == s[i];
    assert r.value == s;
  }

  /** A document object whose eight fields each validate to `c`'s validates to `c`. */
  lemma FieldsValid(m: map<string, Json>, c: ModelConfig)
    requires RequiredLayers(m) == Success(c.layers)
    requires RequiredStr(m, "optimizer_type", []) == Success(c.optimizerType)
    requires RequiredStr(m, "loss_function", []) == Success(c.lossFunction)
    requires RequiredFloat(m, "learning_rate", []) == Success(c.learningRate)
    requires RequiredInt(m, "batch_size", []) == Success(c.batchSize)
    requires RequiredInt(m, "num_epochs", []) == Success(c.numEpochs)
    requires RequiredStr(m, "device", []) == Success(c.device)
    requires RequiredStrList(m, "augmentations", []) == Success(c.augmentations)
    ensures ValidateModel(JObject(m)) == Success(c)
  {
  }

  lemma ListFieldsValid(items: seq<Json>, c: ModelConfig)
    requires ValidateLayers(items) == Success(c.layers)
    ensures RequiredLayers(DocumentObject(items, c).fields) == Success(c.layers)
    ensures RequiredStrList(DocumentObject(items, c).fields, "augmentations", []) == Success(c.augmentations)
  {
    StrListRoundTrip(c.augmentations, [] + [Key("augmentations")]);
  }

  lemma TextFieldsValid(items: seq<Json>, c: ModelConfig)
    ensures RequiredStr(DocumentObject(items, c).fields, "optimizer_type", []) == Success(c.optimizerType)
    ensures RequiredStr(DocumentObject(items, c).fields, "loss_function", []) == Success(c.lossFunction)
    ensures RequiredStr(DocumentObject(items, c).fields, "device", []) == Success(c.device)
  {
  }

  lemma NumberFieldsValid(items: seq<Json>, c: ModelConfig)
    ensures RequiredFloat(DocumentObject(items, c).fields, "learning_rate", []) == Success(c.learningRate)
    ensures RequiredInt(DocumentObject(items, c).fields, "batch_size", []) == Success(c.batchSize)
    ensures RequiredInt(DocumentObject(items, c).fields, "num_epochs", []) == Success(c.numEpochs)
  {
  }

  /** A document whose `layers` items validate to `c.layers` and whose other fields are `c`'s validates to `c`. */
  lemma DocumentObjectValid(items: seq<Json>, c: ModelConfig)
    requires ValidateLayers(items) == Success(c.layers)
    ensures ValidateModel(DocumentObject(items, c)) == Success(c)
  {
    ListFieldsValid(items, c);
    TextFieldsValid(items, c);
    NumberFieldsValid(items, c);
    FieldsValid(DocumentObject(items, c).fields, c);
  }

  /** Serialising a document and validating it gives the document back. */
  lemma ModelRoundTrip(c: ModelConfig)
    ensures ValidateModel(ModelToJson(c)) == Success(c)
  {
    LayersRoundTrip(c.layers);
    DocumentObjectValid(LayersToJson(c.layers), c);
  }
}
