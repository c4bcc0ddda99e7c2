# Neural-network configuration editor: verified model

This project models, in Dafny, the configuration core of a small tool for
building and training image classifiers:

- the **model editor** (`ModelConfig.js`), which builds an ordered list of
  layer records (`conv2d`, `maxpool`, `activation`, `linear`), fills in each
  new layer's shape fields from the layers before it, propagates an edited
  Conv2D output-channel count forward, and keeps the scalar training
  hyperparameters (optimizer, loss, batch size, epochs, device, augmentations);
- the **backend schema** (`model_config.py`) that the configuration document
  must satisfy (`LayerConfig`, `ModelConfig`);
- the **text preprocessor** `preprocess_text` (`preprocessor.py`);
- the **frontend logger** (`logger.js`), a bounded in-memory log buffer that is
  written to a file every ten entries.

Modules:

| file | module | what it holds |
|---|---|---|
| `wrappers.dfy` | `Wrappers` | `Option`, `Result` |
| `js_numbers.dfy` | `JsNumbers` | `parseInt` without a radix (whitespace, sign, `0x`, digit prefix; `NaN` is `None`) and `String(n)` for integers |
| `layers.dfy` | `Layers` | the layer record, the rules `addLayer` uses (backward scans, the 28-pixel spatial fold), `removeLastLayer`, the channel-consistency invariant |
| `layer_edit.dfy` | `LayerEdit` | `updateLayer` as a function: parse, set, forward propagation of `out_channels` |
| `training_config.dfy` | `TrainingConfig` | the default document, `updateConfig`, the blur clamps, the horizontal-flip toggle |
| `editor.dfy` | `ModelConfigEditor` | class `Editor`: the component's `layers` and `config` state and its handlers as methods, each proved to produce the state its specification function names |
| `schema.dfy` | `Schema` | a JSON value type, validation against `LayerConfig`/`ModelConfig`, serialisation |
| `export.dfy` | `EditorExport` | the document the editor emits, and the proof that the schema accepts it |
| `preprocessor.dfy` | `TextPreprocessor` | `preprocess_text` and its properties |
| `logger.dfy` | `Logging` | class `Logger` and the buffer properties |

A frontend layer is one flat record whose shape fields are all `Option<int>`:
`None` stands for a field the editor never set or set to `undefined`, and
also for a spatial size or feature count that became `NaN` or an infinity in
JavaScript arithmetic (for example after a stride of 0). JavaScript's
`Math.floor(a / b)` is written out as `Layers.FloorDiv`, because Dafny's `/`
rounds differently for negative divisors.

Where the code and its documented intent disagree, the model follows the
code:

- the default `device` is `"cuda"`, not `"gpu"`;
- a Linear layer's `out_features` is always 128, since the condition meant to
  give a final layer 10 outputs (`layers.length === layers.length - 1`) never
  holds;
- a Conv2D appended right after a MaxPool takes its input channels from the
  nearest Conv2D, not from that MaxPool;
- a Conv2D appended right after a Linear layer gets no channel counts at all;
- batch size and epoch count are clamped only when their input loses focus.
  While typing, `updateConfig` stores `parseInt(v) || 1` unclamped, so `-5`
  is stored as -5.
- augmentations are a list, not a set.

## Model

| member | source | states |
|---|---|---|
| JsNumbers.ParseIntPrefix | Assignment_4/frontend/src/components/ModelConfig.js:135 | `parseInt` reads back the decimal text of every integer and stops at the first character that cannot continue it; the only exception is 0 followed by `x`/`X`, which starts a hexadecimal number |
| JsNumbers.ParseIntDecimal | Assignment_4/frontend/src/components/ModelConfig.js:172 | `parseInt(String(n)) == n` for every integer `n` |
| JsNumbers.ParseIntStopsAtLetter | Assignment_4/frontend/src/components/ModelConfig.js:135 | prefix parsing: `"12abc"` reads as 12 |
| JsNumbers.ParseIntMinusThree | Assignment_4/frontend/src/components/ModelConfig.js:135 | `"-3"` reads as -3 |
| JsNumbers.ParseIntNoDigits | Assignment_4/frontend/src/components/ModelConfig.js:135-136 | text holding no digit, blank or sign reads as `NaN` |
| JsNumbers.ParseIntLetters | Assignment_4/frontend/src/components/ModelConfig.js:135-136 | `"abc"` and `""` read as `NaN` |
| JsNumbers.ParseIntSpacePlus | Assignment_4/frontend/src/components/ModelConfig.js:135 | leading whitespace and a `+` sign are skipped: `" +7"` reads as 7 |
| JsNumbers.ParseIntHex | Assignment_4/frontend/src/components/ModelConfig.js:135 | a `0x` prefix switches to base 16: `"0x1A"` reads as 26 |
| JsNumbers.ParseInt | Assignment_4/frontend/src/components/ModelConfig.js:135 | `parseInt` gives a number only when a digit follows the whitespace and sign, and always does then unless a `0x` prefix starts the text; a negative result needs a leading `-`, and a leading `-` never gives a positive result |
| Layers.ParseKind | Assignment_4/frontend/src/components/ModelConfig.js:30-31 | the `switch(type)` recognises exactly the four kind names, each naming its kind |
| Layers.NewLayer | Assignment_4/frontend/src/components/ModelConfig.js:30-108 | a new layer has the requested kind; only a Conv2D has channel counts and padding, exactly Conv2D and MaxPool have kernel and stride, only a MaxPool has `channels`, only a Linear layer has feature counts, and exactly an activation has a function |
| Layers.LastIndexOf | Assignment_4/frontend/src/components/ModelConfig.js:38 | the backward `find`: the result is a layer of one of the kinds, none after it is, and `None` means there is none |
| Layers.FloorDiv | Assignment_4/frontend/src/components/ModelConfig.js:94 | `Math.floor(a / b)` for either sign of `b`: the integer `q` with `q <= a/b < q + 1` |
| Layers.StepSize | Assignment_4/frontend/src/components/ModelConfig.js:93-97 | one step of the fold: an undefined size stays undefined, Activation and Linear layers leave it as is, a MaxPool with a positive kernel gives a number, and a stride-1 Conv2D gives `s - k + 2p + 1` |
| Layers.FoldSize | Assignment_4/frontend/src/components/ModelConfig.js:89-98 | the fold starts from 28, so a list with no Conv2D or MaxPool gives 28 |
| Layers.SpatialSize | Assignment_4/frontend/src/components/ModelConfig.js:89-98 | the `forEach` loop computes the spatial fold over every layer: `floor((s - k + 2p) / stride) + 1` per Conv2D and `floor(s / k)` per MaxPool, from 28 |
| Layers.ConvOnEmpty | Assignment_4/frontend/src/components/ModelConfig.js:34-35 | the first Conv2D has 1 input and 1 output channel, kernel 3, stride 1, padding 1 |
| Layers.ConvDefaults | Assignment_4/frontend/src/components/ModelConfig.js:50-56 | a new Conv2D's `out_channels` always equals its `in_channels`, with kernel 3, stride 1, padding 1 |
| Layers.ConvAfterConv | Assignment_4/frontend/src/components/ModelConfig.js:36-37 | after a Conv2D, `in_channels` is that layer's `out_channels` |
| Layers.ConvAfterPool | Assignment_4/frontend/src/components/ModelConfig.js:38-40 | after a MaxPool, `in_channels` is the nearest Conv2D's `out_channels` (the MaxPool's own `channels` is not read) |
| Layers.ConvAfterActivation | Assignment_4/frontend/src/components/ModelConfig.js:41-46 | after an activation, `in_channels` is the nearest Conv2D's `out_channels` or MaxPool's `channels` |
| Layers.ConvAfterActivationOnly | Assignment_4/frontend/src/components/ModelConfig.js:41-46 | after an activation with no Conv2D or MaxPool before it, `in_channels` is 1 |
| Layers.ConvAfterLinear | Assignment_4/frontend/src/components/ModelConfig.js:33-47 | after a Linear layer no branch applies: both channel counts are undefined |
| Layers.PoolChannels | Assignment_4/frontend/src/components/ModelConfig.js:59-72 | a new MaxPool takes the nearest Conv2D's `out_channels` or MaxPool's `channels`, with kernel 2 and stride 2 |
| Layers.PoolChannelsDefault | Assignment_4/frontend/src/components/ModelConfig.js:63-65 | with no Conv2D or MaxPool before it, a new MaxPool has 1 channel |
| Layers.LinearOnEmpty | Assignment_4/frontend/src/components/ModelConfig.js:84-85 | the first Linear layer reads 784 = 28 * 28 features |
| Layers.LinearWidthAlways | Assignment_4/frontend/src/components/ModelConfig.js:106 | every new Linear layer has 128 outputs |
| Layers.LinearAfterLinear | Assignment_4/frontend/src/components/ModelConfig.js:86-87 | after a Linear layer, `in_features` is its `out_features` |
| Layers.LinearAfterConv | Assignment_4/frontend/src/components/ModelConfig.js:88-101 | after a Conv2D, `in_features` is `side * side * out_channels`, where `side` is the spatial fold over the list |
| Layers.LinearAfterPoolOrActivation | Assignment_4/frontend/src/components/ModelConfig.js:83-101 | after a MaxPool or an activation no branch applies: `in_features` is undefined |
| Layers.FoldSizeShaping | Assignment_4/frontend/src/components/ModelConfig.js:92-98 | the fold depends only on the Conv2D and MaxPool layers, in order, wherever Activation and Linear layers stand |
| Layers.MnistFeatures | Assignment_5_New/model.py:31-40 | three 3x3 convolutions each followed by a 2x2 pool, then two more convolutions down to 8 channels, give 28 -> 14 -> 7 -> 3 and 8 * 3 * 3 = 72 features |
| Layers.Appended | Assignment_4/frontend/src/components/ModelConfig.js:110-113 | a recognised add grows the list by exactly one layer of that kind at the end and keeps every earlier layer; another name (the `default: return`) changes nothing |
| Layers.WithoutLast | Assignment_4/frontend/src/components/ModelConfig.js:116-120 | `removeLastLayer` drops exactly the last layer, the rest being the list without it; on an empty list it does nothing |
| Layers.RemoveUndoesAppend | Assignment_4/frontend/src/components/ModelConfig.js:110-120 | removing the last layer undoes a recognised add |
| Layers.FeedIsLastConv | Assignment_4/frontend/src/components/ModelConfig.js:36-46 | when every layer reads the channels that reach it, the nearest Conv2D and the nearest Conv2D-or-MaxPool carry the same count, so the after-MaxPool and after-activation scans agree |
| Layers.AppendKeepsChannels | Assignment_4/frontend/src/components/ModelConfig.js:31-72 | every append, except a Conv2D right after a Linear layer, keeps every Conv2D and MaxPool reading the channels of the nearest Conv2D or MaxPool before it |
| Layers.RemoveKeepsChannels | Assignment_4/frontend/src/components/ModelConfig.js:116-120 | removing the last layer keeps that invariant |
| Layers.ConvAfterLinearBreaksChannels | Assignment_4/frontend/src/components/ModelConfig.js:33-47 | a Conv2D appended after a Linear layer breaks the invariant |
| LayerEdit.ParseValue | Assignment_4/frontend/src/components/ModelConfig.js:131-140 | `function` always accepts its text, stored as text; any other field is rejected exactly when `parseInt` gives `NaN`, and otherwise holds the number `parseInt` gives |
| LayerEdit.WithField | Assignment_4/frontend/src/components/ModelConfig.js:143 | exactly the named field is set; every other field, the kind and the MaxPool channels are unchanged |
| LayerEdit.Propagated | Assignment_4/frontend/src/components/ModelConfig.js:146-155 | the forward walk keeps the length and every kind, changes no layer up to the edited one and never changes an activation or Linear layer |
| LayerEdit.EditedLayers | Assignment_4/frontend/src/components/ModelConfig.js:122-159 | `updateLayer` keeps the length and every layer's kind, and changes no layer before the edited one |
| LayerEdit.NextConv | Assignment_4/frontend/src/components/ModelConfig.js:147-154 | the walk stops at the first Conv2D after the edited layer; none lies between |
| LayerEdit.EditRejectsNaN | Assignment_4/frontend/src/components/ModelConfig.js:135-139 | a numeric field given text `parseInt` reads as `NaN` leaves every layer unchanged |
| LayerEdit.EditSetsField | Assignment_4/frontend/src/components/ModelConfig.js:143 | otherwise the indexed layer's named field holds the parsed value and its other fields are unchanged |
| LayerEdit.EditIsLocal | Assignment_4/frontend/src/components/ModelConfig.js:146 | unless the field is `out_channels` of a Conv2D, no other layer changes |
| LayerEdit.PropagationScope | Assignment_4/frontend/src/components/ModelConfig.js:146-155 | a Conv2D `out_channels` edit sets `channels` of every MaxPool up to the next Conv2D and that Conv2D's `in_channels`; no layer before it or beyond that Conv2D changes, and neither does any activation or Linear layer |
| LayerEdit.EditKeepsOtherLinears | Assignment_4/frontend/src/components/ModelConfig.js:122-159 | no edit recomputes another layer's Linear `in_features` |
| LayerEdit.StaleInFeatures | Assignment_4/frontend/src/components/ModelConfig.js:122-159 | after a kernel edit to 5 the existing Linear layer keeps 784 features while a new one would read 676 |
| LayerEdit.EditKeepsChannels | Assignment_4/frontend/src/components/ModelConfig.js:146-155 | an `out_channels` edit with its forward walk keeps every Conv2D and MaxPool reading the channels that reach it |
| LayerEdit.PropagationExample | Assignment_4/frontend/src/components/ModelConfig.js:146-155 | on `[conv(8), maxpool, conv, conv]`, setting the first `out_channels` to 16 changes the MaxPool and the second Conv2D only |
| TrainingConfig.IntOrOne | Assignment_4/frontend/src/components/ModelConfig.js:172 | `parseInt(v) \|\| 1`: the parsed value, or 1 for `NaN` and for 0 |
| TrainingConfig.DefaultConfig | Assignment_4/frontend/src/components/ModelConfig.js:6-15 | the initial batch size lies in [1, 512], the epoch count is at least 1, the learning rate is positive and no flip is selected |
| TrainingConfig.UpdatedConfig | Assignment_4/frontend/src/components/ModelConfig.js:161-190 | `updateConfig` changes only the named field: text fields store the text, batch size and epochs `parseInt(v) \|\| 1`, augmentations the list given; the learning rate is never touched |
| TrainingConfig.TypingDoesNotClamp | Assignment_4/frontend/src/components/ModelConfig.js:170-173 | while typing, `"0"` is stored as 1 and `"-5"` as -5 |
| TrainingConfig.ClampedBatchSize | Assignment_4/frontend/src/components/ModelConfig.js:384-389 | the batch size on blur lies in [1, 512]: the parsed value when in range, 512 above, 1 for `NaN` or below 1 |
| TrainingConfig.ClampedNumEpochs | Assignment_4/frontend/src/components/ModelConfig.js:402-406 | the epoch count on blur is at least 1: the parsed value, or 1 for `NaN` or below 1 |
| TrainingConfig.BlurStoresValue | Assignment_4/frontend/src/components/ModelConfig.js:384-389 | the number a blur handler passes to `updateConfig` is stored as is, and nothing else changes |
| TrainingConfig.Without | Assignment_4/frontend/src/components/ModelConfig.js:452 | `filter(aug => aug !== x)` removes every `x` and keeps the count of every other entry |
| TrainingConfig.WithoutKeepsOrder | Assignment_4/frontend/src/components/ModelConfig.js:452 | the entries that remain keep their order |
| TrainingConfig.WithoutIdempotent | Assignment_4/frontend/src/components/ModelConfig.js:452 | unchecking twice is unchecking once |
| TrainingConfig.CheckThenUncheck | Assignment_4/frontend/src/components/ModelConfig.js:449-453 | checking appends the flip, and unchecking afterwards leaves the list without any flip, the rest as before |
| TrainingConfig.UncheckWithoutFlip | Assignment_4/frontend/src/components/ModelConfig.js:452 | unchecking a list that has no flip changes nothing |
| TrainingConfig.ToggledAugmentations | Assignment_4/frontend/src/components/ModelConfig.js:449-453 | after the checkbox handler the flip is in the list exactly when the box is checked, every other entry keeps its count, and checking appends the flip after the old list |
| ModelConfigEditor.FindLast | Assignment_4/frontend/src/components/ModelConfig.js:38 | the backward `find` loop returns the index of the last layer of the given kinds, as `LastIndexOf` specifies |
| ModelConfigEditor.Editor.constructor | Assignment_4/frontend/src/components/ModelConfig.js:5-15 | a new editor has no layers and the default document: adam, cross_entropy, 0.001, 32, 10, cuda, no augmentations |
| ModelConfigEditor.Editor.AddLayer | Assignment_4/frontend/src/components/ModelConfig.js:25-114 | `addLayer` leaves exactly the list `Appended` describes, keeps the hyperparameters, and keeps the channel invariant unless a Conv2D follows a Linear layer |
| ModelConfigEditor.Editor.RemoveLastLayer | Assignment_4/frontend/src/components/ModelConfig.js:116-120 | `removeLastLayer` leaves the list `WithoutLast` describes and keeps the channel invariant |
| ModelConfigEditor.Editor.UpdateLayer | Assignment_4/frontend/src/components/ModelConfig.js:122-159 | the forward walk with its `break` leaves exactly the list `EditedLayers` describes; a rejected value changes nothing; an `out_channels` edit keeps the channel invariant |
| ModelConfigEditor.Editor.UpdateConfig | Assignment_4/frontend/src/components/ModelConfig.js:161-190 | the hyperparameters become `UpdatedConfig` of the old ones; the layers are unchanged |
| ModelConfigEditor.Editor.BlurBatchSize | Assignment_4/frontend/src/components/ModelConfig.js:384-389 | only the batch size changes, to the clamped value |
| ModelConfigEditor.Editor.BlurNumEpochs | Assignment_4/frontend/src/components/ModelConfig.js:402-406 | only the epoch count changes, to the clamped value |
| ModelConfigEditor.Editor.ToggleHorizontalFlip | Assignment_4/frontend/src/components/ModelConfig.js:449-453 | only the augmentations change; afterwards the flip is present exactly when the box was checked |
| Schema.RequiredStr | Assignment_4/backend/app/schemas/model_config.py:22-23 | a required `str` field: accepted exactly when present and a string; reported missing when absent |
| Schema.RequiredInt | Assignment_4/backend/app/schemas/model_config.py:25-26 | a required `int` field: accepted exactly when present and an integer |
| Schema.RequiredFloat | Assignment_4/backend/app/schemas/model_config.py:24 | a required `float` field: accepted exactly when present and a number, an integer being widened |
| Schema.OptionalInt | Assignment_4/backend/app/schemas/model_config.py:7-16 | an `Optional[int] = None` field: absent and `null` give `None`, an integer gives its value, anything else is rejected |
| Schema.OptionalStr | Assignment_4/backend/app/schemas/model_config.py:18 | an `Optional[str] = None` field, likewise |
| Schema.RequiredStrList | Assignment_4/backend/app/schemas/model_config.py:28 | a `List[str]` field: accepted exactly when present and a list of strings, which it holds in order |
| Schema.ValidateLayer | Assignment_4/backend/app/schemas/model_config.py:4-18 | a layer is rejected with at least one problem, each located inside the layer; a non-object is rejected as of the wrong type; an accepted layer has a string `layer_type`, which the record holds |
| Schema.ValidateLayers | Assignment_4/backend/app/schemas/model_config.py:21 | the `layers` list is accepted exactly when every item is a valid layer record, and then holds those records in order |
| Schema.ValidateModel | Assignment_4/backend/app/schemas/model_config.py:20-28 | a document is rejected with at least one problem; a non-object is rejected as of the wrong type; an accepted document holds all eight fields |
| Schema.LayerValidIff | Assignment_4/backend/app/schemas/model_config.py:4-18 | a layer object is accepted exactly when `layer_type` is a string and every other declared field present is `null` or of its type |
| Schema.OnlyLayerTypeRequired | Assignment_4/backend/app/schemas/model_config.py:5-18 | `layer_type` alone makes a valid layer, every other field `None` |
| Schema.LayerTypeMissing | Assignment_4/backend/app/schemas/model_config.py:5 | a layer without `layer_type` is rejected, with a problem naming that field |
| Schema.LayerTypeUnchecked | Assignment_4/backend/app/schemas/model_config.py:5-13 | `layer_type` can be any string and the other fields do not depend on it; a MaxPool reads the same `kernel_size` and `stride` fields as a Conv2D |
| Schema.EveryDocumentFieldRequired | Assignment_4/backend/app/schemas/model_config.py:20-28 | a document missing any of its eight fields is rejected, with a problem naming that field |
| Schema.ValidDocumentLayers | Assignment_4/backend/app/schemas/model_config.py:21 | in a valid document `layers` is a list whose every item is a valid layer record, and the document holds exactly those records |
| Schema.BadLayerRejectsDocument | Assignment_4/backend/app/schemas/model_config.py:21 | one invalid layer item rejects the whole document |
| Schema.LayerRoundTrip | Assignment_4/backend/app/schemas/model_config.py:4-18 | a serialised layer record validates back to itself |
| Schema.ModelRoundTrip | Assignment_4/backend/app/schemas/model_config.py:20-28 | a serialised document validates back to itself |
| EditorExport.LayerAccepted | Assignment_4/backend/app/schemas/model_config.py:4-18 | every layer the editor can hold is accepted, with its fields unchanged and the MaxPool `channels` ignored |
| EditorExport.DocumentJson | Assignment_4/frontend/src/components/ModelConfig.js:17-23 | the emitted `{...config, layers}` object has all eight document fields, and `layers` is a list with one entry per editor layer |
| EditorExport.DocumentAccepted | Assignment_4/frontend/src/components/ModelConfig.js:17-23 | whatever the editor holds, the document it emits (`{...config, layers}`) is accepted by the schema and yields the same fields |
| TextPreprocessor.Lower | Assignment_3/utils/preprocessor.py:14 | `lower` leaves no uppercase letter and keeps letters, digits and whitespace in their classes |
| TextPreprocessor.Words | Assignment_3/utils/preprocessor.py:18 | `split()` yields non-empty, whitespace-free words |
| TextPreprocessor.WordsOfJoin | Assignment_3/utils/preprocessor.py:18 | splitting a space-join of words gives the words back |
| TextPreprocessor.Preprocess | Assignment_3/utils/preprocessor.py:6-19 | the result's whitespace is normalised: every whitespace character is a plain space, none stands at either end and no two stand in a row |
| TextPreprocessor.ResultShape | Assignment_3/utils/preprocessor.py:13-19 | the result holds only lowercase letters, digits and single spaces, with no space at either end and no two in a row |
| TextPreprocessor.KeepsAlnumInOrder | Assignment_3/utils/preprocessor.py:16-18 | the result's non-space characters are exactly the lowercased input's letters and digits, in their original order |
| TextPreprocessor.Idempotent | Assignment_3/utils/preprocessor.py:13-19 | preprocessing twice gives the same as once |
| TextPreprocessor.NoAlnumGivesEmpty | Assignment_3/utils/preprocessor.py:16-18 | empty or all-punctuation text becomes the empty string |
| TextPreprocessor.ApostropheDeleted | Assignment_3/utils/preprocessor.py:16 | on the input `"Don't"`, the apostrophe is deleted and the result is `"dont"` |
| TextPreprocessor.PunctuationVanishes | Assignment_3/utils/preprocessor.py:16 | deleting a character that is neither a letter, a digit nor whitespace leaves no space: the text reads as if that character were absent |
| TextPreprocessor.WordsAround | Assignment_3/utils/preprocessor.py:18 | `split()` of text followed by something that starts with whitespace gives the words of the first part, then the words of the second |
| TextPreprocessor.WhitespaceSeparates | Assignment_3/utils/preprocessor.py:14-18 | whitespace between two texts becomes exactly one space when both keep a letter or digit, and vanishes when either keeps none |
| TextPreprocessor.SpaceRunIsOneSpace | Assignment_3/utils/preprocessor.py:18 | a run of whitespace of any length and kind gives the same result as a single space |
| Logging.Trimmed | Assignment_4/frontend/src/services/logger.js:19-22 | the newest 100 lines in order; a buffer of 100 or fewer is kept as is |
| Logging.Utf8Size | Assignment_4/frontend/src/services/logger.js:28 | the file size in bytes is between one and four times its length in characters |
| Logging.ContainsIff | Assignment_4/frontend/src/services/logger.js:58 | `includes` holds exactly when the text occurs at some position |
| Logging.Saved | Assignment_4/frontend/src/services/logger.js:15-42 | saving an empty buffer changes nothing at all, neither buffer, file nor downloads; any save leaves at most 100 lines, which are the newest lines of the old buffer, and adds at most one download |
| Logging.Pushed | Assignment_4/frontend/src/services/logger.js:44-54 | an append leaves between one line and one more than before, at most 100 when it completes a batch of 10, and never loses a download |
| Logging.Logger.constructor | Assignment_4/frontend/src/services/logger.js:2-9 | a new logger has an empty buffer, an empty file and no downloads |
| Logging.Logger.SaveLogsToFile | Assignment_4/frontend/src/services/logger.js:15-42 | an empty buffer is left alone; otherwise the newest 100 lines are kept and written one per line, and the file is downloaded when larger than 1024 bytes |
| Logging.Logger.AppendToFile | Assignment_4/frontend/src/services/logger.js:44-54 | the line `<timestamp> - <message>` is pushed, and the buffer is saved exactly when its length becomes a multiple of 10 |
| Logging.Logger.Info | Assignment_4/frontend/src/services/logger.js:56-65 | `INFO: <message>[ - <data>]` is appended when the message mentions `Training` or `Error`; otherwise nothing changes |
| Logging.Logger.Error | Assignment_4/frontend/src/services/logger.js:67-73 | `ERROR: <message>[ - <error>]` is always appended |
| Logging.Logger.Debug | Assignment_4/frontend/src/services/logger.js:75-84 | `DEBUG: <message>[ - <data>]` is appended when the message mentions `Training` or `Error`; otherwise nothing changes |
| Logging.Logger.SaveLogs | Assignment_4/frontend/src/services/logger.js:86-88 | `saveLogs` is a save |
| Logging.PushKeepsBound | Assignment_4/frontend/src/services/logger.js:20-22 | after any append the buffer holds at most 100 + 10 - 1 = 109 lines |
| Logging.PushIsSuffix | Assignment_4/frontend/src/services/logger.js:48 | an append puts its line last and never reorders earlier lines; at most some of the oldest are dropped |
| Logging.PushSavesOnBatch | Assignment_4/frontend/src/services/logger.js:51-53 | a save happens exactly when the length after the push is a multiple of 10; lines are dropped only by a save of more than 100 |
| Logging.BoundIsReached | Assignment_4/frontend/src/services/logger.js:51-53 | 109 lines are reachable: 108 plus one are not saved |
| Logging.SaveKeepsNewest | Assignment_4/frontend/src/services/logger.js:19-38 | a save keeps the newest min(n, 100) lines in order, writes exactly those, and downloads at most that file; a second save changes neither buffer nor file |
| Logging.PushesStayBounded | Assignment_4/frontend/src/services/logger.js:44-54 | from any state within 109 lines, every sequence of appends stays within 109 |

## Left out

- The learning rate: the slider (`Math.log10`, `Math.pow`), `parseFloat` and `toExponential` are floating point. The model keeps the field as a `real` that no operation changes.
- JSX rendering, the React `useEffect` that re-emits `{...config, layers}` and the `onConfigChange` callback are re-render plumbing. The emitted document is modelled (`EditorExport.DocumentJson`), but not when or how often it is sent. `updateConfig` also sends the stored `config.layers` (always empty) before the effect sends the real list; that is not modelled.
- Logging calls inside `addLayer` and `updateLayer` (`logger.info`, `logger.debug`) and every `console` call have no effect on the modelled state.
- ModelConfigEditor.Editor.UpdateLayer: the field is one of the eight names the inputs use. `updateLayer` with any other property name would create that property; this is not modelled.
- ModelConfigEditor.Editor.UpdateLayer: the source writes the new value into the layer object shared with the previous state (`[...layers]` copies only the array). The model replaces layers by value, so that aliasing is not captured.
- ModelConfigEditor.Editor.UpdateLayer: an out-of-range index with a value that parses is a precondition, because the source then throws a `TypeError`. An out-of-range index with a rejected value returns quietly, as in the source.
- JsNumbers.ParseInt: numbers are unbounded integers. Double precision is not modelled, including the loss of exactness above 2^53, exponent notation in `String(n)` and `-0`.
- Schema.ValidateModel: values are checked strictly by JSON type. Lax coercions the validation library may apply are not modelled: numeric strings or whole-number floats for `int`, booleans for numbers, and so on. Validation problems carry a location and a kind, not the library's messages.
- TextPreprocessor.Preprocess: characters are classified by ASCII only. A non-ASCII character counts as neither letter, digit nor whitespace, so it is dropped, whereas Python keeps non-ASCII letters and digits and lowercases them by Unicode rules. Python's `isspace` and `split` also treat non-ASCII whitespace (U+0085, U+00A0, U+2028, U+3000 and others) as a word separator. The model instead deletes such a character, so `"a\u00a0b"` gives `"ab"` where Python gives `"a b"`.
- Logging.Logger.Info: attached data is given as the text `JSON.stringify(data, null, 2)` produced, and `None` covers every falsy value (`null`, `undefined`, `0`, `""`, `false`), which the source also treats as "no data". The timestamp is an input, because `new Date().toISOString()` reads the clock.
- Logging.Logger.SaveLogsToFile: the `Blob`, the object URL and the hidden download anchor are browser I/O. A download is recorded as the file contents handed to the browser. The source catches any exception here; the model has none to catch. `saveLogsToFile` is `async` but never awaits, so it runs to completion inside the append that triggers it, as modelled.
- The `beforeunload` hook only calls `saveLogs`, which is modelled.
- `ConfigurationIO.js` (import and export through `JSON.stringify` / `JSON.parse`), the training controls and charts, and the backend's HTTP, socket and training code are not part of this model. The same holds for the image, audio and 3-D preprocessing functions and the augmentation code.
