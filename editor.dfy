/**
 * The model editor component: its `layers` and `config` state and the
 * handlers that change them. Each handler is proved to leave the state its
 * specification function in `Layers`, `LayerEdit` or `TrainingConfig` names.
 */
module ModelConfigEditor {
  import opened Wrappers
  import opened JsNumbers
  import opened Layers
  import opened LayerEdit
  import opened TrainingConfig

  /** `[...ls].reverse().find(l => kinds has l.layer_type)`, as an index. */
  method FindLast(ls: seq<Layer>, kinds: set<Kind>) returns (r: Option<nat>)
    ensures r == LastIndexOf(ls, kinds)
  {
    var i := |ls|;
    while i > 0
      invariant 0 <= i <= |ls|
      invariant forall j :: i <= j < |ls| ==> ls[j].kind !in kinds
    {
      if ls[i - 1].kind in kinds {
        LastIndexOfIs(ls, kinds, i - 1);
        return Some(i - 1);
      }
      i := i - 1;
    }
    return None;
  }

  class Editor {
    var layers: seq<Layer>
    var config: Config

    /** A new editor: no layers and the default hyperparameters. */
    constructor ()
      ensures layers == [] && config == DefaultConfig()
    {
      layers := [];
      config := DefaultConfig();
    }

    /** `addLayer(t)`: a recognised kind appends the layer `NewLayer` describes. */
    method AddLayer(t: string)
      modifies this
      ensures layers == Appended(old(layers), t)
      ensures config == old(config)
      ensures ChannelsConsistent(old(layers)) &&
              !(t == "conv2d" && old(layers) != [] && old(layers)[|old(layers)| - 1].kind == Linear) ==>
                ChannelsConsistent(layers)
    {
      var k := ParseKind(t);
      if k.None? {
        return;
      }
      var newLayer: Layer;
      var n := |layers|;
      match k.value {
        case Conv2d =>
          var inChannels: Option<int> := None;
          if n == 0 {
            inChannels := Some(1);
          } else if layers[n - 1].kind == Conv2d {
            inChannels := layers[n - 1].outChannels;
          } else if layers[n - 1].kind == MaxPool {
            var j := FindLast(layers, {Conv2d});
            inChannels := if j.Some? then layers[j.value].outChannels else Some(1);
          } else if layers[n - 1].kind == Activation {
            var j := FindLast(layers, {Conv2d, MaxPool});
            inChannels := if j.Some? then ChannelsOf(layers[j.value]) else Some(1);
          }
          newLayer := Layer(Conv2d, inChannels, inChannels, Some(3), Some(1), Some(1), None, None, None, None);
        case MaxPool =>
          var j := FindLast(layers, {Conv2d, MaxPool});
          var channels := if j.Some? then ChannelsOf(layers[j.value]) else Some(1);
          newLayer := Layer(MaxPool, None, None, Some(2), Some(2), None, channels, None, None, None);
        case Activation =>
          newLayer := Layer(Activation, None, None, None, None, None, None, None, None, Some("relu"));
        case Linear =>
          var inFeatures: Option<int> := None;
          if n == 0 {
            inFeatures := Some(InputSide * InputSide);
          } else if layers[n - 1].kind == Linear {
            inFeatures := layers[n - 1].outFeatures;
          } else if layers[n - 1].kind == Conv2d {
            var size := SpatialSize(layers);
            inFeatures := Flattened(size, layers[n - 1].outChannels);
          }
          var out := if n == n - 1 then 10 else LinearWidth;
          newLayer := Layer(Linear, None, None, None, None, None, None, inFeatures, Some(out), None);
      }
      assert newLayer == NewLayer(layers, k.value);
      if ChannelsConsistent(layers) && !(k.value == Conv2d && n > 0 && layers[n - 1].kind == Linear) {
        AppendKeepsChannels(layers, k.value);
      }
      layers := layers + [newLayer];
    }

    /** `removeLastLayer()`: drops the final layer, if any. */
    method RemoveLastLayer()
      modifies this
      ensures layers == WithoutLast(old(layers))
      ensures config == old(config)
      ensures ChannelsConsistent(old(layers)) ==> ChannelsConsistent(layers)
    {
      if |layers| > 0 {
        if ChannelsConsistent(layers) {
          RemoveKeepsChannels(layers);
        }
        layers := layers[..|layers| - 1];
      }
    }

    /**
     * `updateLayer(index, FieldName(f), raw)`: parse the value, set the field,
     * and for `out_channels` of a Conv2D walk forward through the MaxPools to
     * the next Conv2D. An out-of-range index is reached only when the value
     * is rejected first; otherwise the source writes into `undefined` and throws.
     */
    method UpdateLayer(index: nat, f: Field, raw: string)
      requires index < |layers| || ParseValue(f, raw).None?
      modifies this
      ensures ParseValue(f, raw).None? ==> layers == old(layers)
      ensures index < |old(layers)| ==> layers == EditedLayers(old(layers), index, f, raw)
      ensures config == old(config)
      ensures index < |old(layers)| && ChannelsConsistent(old(layers)) &&
              f == OutChannels && old(layers)[index].kind == Conv2d ==>
                ChannelsConsistent(layers)
    {
      var parsed := ParseValue(f, raw);
      if parsed.None? {
        return;
      }
      var v := parsed.value;
      var current := layers[index];
      var updated := layers[index := WithField(current, f, v)];
      if f == OutChannels && current.kind == Conv2d {
        ghost var edited := updated;
        ghost var target := Propagated(edited, index, v.n);
        ghost var next := NextConv(edited, index + 1);
        var i := index + 1;
        while i < |updated|
          invariant index + 1 <= i <= next
          invariant |updated| == |edited|
          invariant forall j :: 0 <= j < i ==> updated[j] == target[j]
          invariant forall j :: i <= j < |updated| ==> updated[j] == edited[j]
        {
          if updated[i].kind == MaxPool {
            updated := updated[i := updated[i].(channels := Some(v.n))];
          } else if updated[i].kind == Conv2d {
            updated := updated[i := updated[i].(inChannels := Some(v.n))];
            break;
          }
          i := i + 1;
        }
        assert updated == target;
        if ChannelsConsistent(layers) {
          EditKeepsChannels(layers, index, raw);
        }
      }
      layers := updated;
    }

    /** `updateConfig(field, value)`. */
    method UpdateConfig(f: ConfigField, v: ConfigInput)
      requires f == Augmentations <==> v.Items?
      modifies this
      ensures config == UpdatedConfig(old(config), f, v)
      ensures layers == old(layers)
    {
      config := UpdatedConfig(config, f, v);
    }

    /** The batch-size input's blur handler: clamp to [1, 512] and store. */
    method BlurBatchSize(raw: string)
      modifies this
      ensures config == old(config).(batchSize := ClampedBatchSize(raw))
      ensures layers == old(layers)
    {
      var parsed := ParseInt(raw);
      var value := if parsed.None? || parsed.value < 1 then 1 else parsed.value;
      if value > MaxBatchSize {
        value := MaxBatchSize;
      }
      BlurStoresValue(config, BatchSize, value);
      UpdateConfig(BatchSize, Typed(Decimal(value)));
    }

    /** The epochs input's blur handler: at least 1, then store. */
    method BlurNumEpochs(raw: string)
      modifies this
      ensures config == old(config).(numEpochs := ClampedNumEpochs(raw))
      ensures layers == old(layers)
    {
      var parsed := ParseInt(raw);
      var value := if parsed.None? || parsed.value < 1 then 1 else parsed.value;
      BlurStoresValue(config, NumEpochs, value);
      UpdateConfig(NumEpochs, Typed(Decimal(value)));
    }

    /** The horizontal-flip checkbox's change handler. */
    method ToggleHorizontalFlip(checked: bool)
      modifies this
      ensures config == old(config).(augmentations := ToggledAugmentations(old(config).augmentations, checked))
      ensures checked ==> HorizontalFlip in config.augmentations
      ensures !checked ==> HorizontalFlip !in config.augmentations
      ensures layers == old(layers)
    {
      var augs := config.augmentations;
      var newAugs := if checked then augs + [HorizontalFlip] else Without(augs, HorizontalFlip);
      UpdateConfig(Augmentations, Items(newAugs));
      assert checked ==> newAugs[|augs|] == HorizontalFlip;
    }
  }
}
