/**
 * The scalar hyperparameters of the model editor and their handlers:
 * `updateConfig(field, value)`, the batch-size and epoch blur clamps and the
 * horizontal-flip checkbox.
 */
module TrainingConfig {
  import opened Wrappers
  import opened JsNumbers

  datatype Config = Config(
    optimizerType: string,
    lossFunction: string,
    learningRate: real,
    batchSize: int,
    numEpochs: int,
    device: string,
    augmentations: seq<string>)

  /** The document a new editor starts from. */
  function DefaultConfig(): (c: Config)
    ensures 1 <= c.batchSize <= MaxBatchSize && c.numEpochs >= 1
    ensures c.learningRate > 0.0
    ensures HorizontalFlip !in c.augmentations
  {
    Config("adam", "cross_entropy", 0.001, 32, 10, "cuda", [])
  }

  const MaxBatchSize: int := 512
  const HorizontalFlip: string := "random_horizontal_flip"

  /** The fields `updateConfig` is called with (the learning rate is not modelled). */
  datatype ConfigField = OptimizerType | LossFunction | BatchSize | NumEpochs | Device | Augmentations

  /** What a handler passes: an input's text, or the augmentation list. */
  datatype ConfigInput = Typed(text: string) | Items(items: seq<string>)

  /** `parseInt(v) || 1`: `NaN` and 0 are falsy. */
  function IntOrOne(p: Option<int>): (r: int)
    ensures r != 0
    ensures p.Some? && p.value != 0 ==> r == p.value
    ensures p.None? || p.value == 0 ==> r == 1
  {
    if p.Some? && p.value != 0 then p.value else 1
  }

  /** `updateConfig(field, value)`: coerce the value and store it in that field. */
  function UpdatedConfig(c: Config, f: ConfigField, v: ConfigInput): (r: Config)
    requires f == Augmentations <==> v.Items?
    ensures r.learningRate == c.learningRate
    ensures r.optimizerType == if f == OptimizerType then v.text else c.optimizerType
    ensures r.lossFunction == if f == LossFunction then v.text else c.lossFunction
    ensures r.batchSize == if f == BatchSize then IntOrOne(ParseInt(v.text)) else c.batchSize
    ensures r.numEpochs == if f == NumEpochs then IntOrOne(ParseInt(v.text)) else c.numEpochs
    ensures r.device == if f == Device then v.text else c.device
    ensures r.augmentations == if f == Augmentations then v.items else c.augmentations
  {
    match f
    case OptimizerType => c.(optimizerType := v.text)
    case LossFunction => c.(lossFunction := v.text)
    case BatchSize => c.(batchSize := IntOrOne(ParseInt(v.text)))
    case NumEpochs => c.(numEpochs := IntOrOne(ParseInt(v.text)))
    case Device => c.(device := v.text)
    case Augmentations => c.(augmentations := v.items)
  }

  /** While typing, "0" and "-5" are stored as 1 and -5: only the blur handler clamps. */
  lemma TypingDoesNotClamp(c: Config)
    ensures UpdatedConfig(c, BatchSize, Typed("0")).batchSize == 1
    ensures UpdatedConfig(c, BatchSize, Typed("-5")).batchSize == -5
  {
    ParseIntDecimal(0);
    ParseIntDecimal(-5);
    assert Decimal(0) == "0" && Decimal(-5) == "-5";
  }

  /** The batch-size blur handler's value: `parseInt`, 1 for `NaN` or below 1, at most 512. */
  function ClampedBatchSize(raw: string): (r: int)
    ensures 1 <= r <= MaxBatchSize
    ensures ParseInt(raw).Some? && 1 <= ParseInt(raw).value <= MaxBatchSize ==> r == ParseInt(raw).value
    ensures ParseInt(raw).Some? && ParseInt(raw).value > MaxBatchSize ==> r == MaxBatchSize
    ensures ParseInt(raw).None? || ParseInt(raw).value < 1 ==> r == 1
  {
    var p := ParseInt(raw);
    var v := if p.None? || p.value < 1 then 1 else p.value;
    if v > MaxBatchSize then MaxBatchSize else v
  }

  /** The epoch blur handler's value: `parseInt`, 1 for `NaN` or below 1, no upper bound. */
  function ClampedNumEpochs(raw: string): (r: int)
    ensures r >= 1
    ensures ParseInt(raw).Some? && ParseInt(raw).value >= 1 ==> r == ParseInt(raw).value
    ensures ParseInt(raw).None? || ParseInt(raw).value < 1 ==> r == 1
  {
    var p := ParseInt(raw);
    if p.None? || p.value < 1 then 1 else p.value
  }

  /**
   * The blur handler passes a number to `updateConfig`, which reads it back
   * with `parseInt(String(n)) || 1`; for a value of at least 1 that is the
   * value itself, so only the named field changes, to the clamped value.
   */
  lemma {:induction false} BlurStoresValue(c: Config, f: ConfigField, n: int)
    requires f in {BatchSize, NumEpochs} && n >= 1
    ensures UpdatedConfig(c, f, Typed(Decimal(n))) == if f == BatchSize then c.(batchSize := n) else c.(numEpochs := n)
  {
    ParseIntDecimal(n);
  }

  /** Every occurrence of `x` removed, the other entries in their order. */
  function Without(s: seq<string>, x: string): (r: seq<string>)
    ensures x !in r
    ensures forall y :: y != x ==> multiset(r)[y] == multiset(s)[y]
    ensures |r| == |s| - multiset(s)[x]
  {
    if s == [] then []
    else
      assert s == [s[0]] + s[1..];
      (if s[0] == x then [] else [s[0]]) + Without(s[1..], x)
  }

  /** The horizontal-flip checkbox: checking appends the flip, unchecking removes every flip. */
  function ToggledAugmentations(augs: seq<string>, checked: bool): (r: seq<string>)
    ensures HorizontalFlip in r <==> checked
    ensures forall y :: y != HorizontalFlip ==> multiset(r)[y] == multiset(augs)[y]
    ensures checked ==> |r| == |augs| + 1 && r[..|augs|] == augs
  {
    if checked then
      assert (augs + [HorizontalFlip])[..|augs|] == augs;
      assert HorizontalFlip == (augs + [HorizontalFlip])[|augs|];
      augs + [HorizontalFlip]
    else Without(augs, HorizontalFlip)
  }

  /** `r` is `s` with some entries deleted, the rest in order. */
  predicate IsSubsequence(r: seq<string>, s: seq<string>) {
    if r == [] then true
    else if s == [] then false
    else if r[0] == s[0] then IsSubsequence(r[1..], s[1..])
    else IsSubsequence(r, s[1..])
  }

  /** Removing keeps the order of what remains. */
  lemma {:induction false} WithoutKeepsOrder(s: seq<string>, x: string)
    ensures IsSubsequence(Without(s, x), s)
  {
    if s != [] {
      WithoutKeepsOrder(s[1..], x);
      var rest := Without(s[1..], x);
      if s[0] != x {
        assert ([s[0]] + rest)[1..] == rest;
      } else {
        assert [] + rest == rest;
      }
    }
  }

  /** Unchecking twice is unchecking once. */
  lemma {:induction false} WithoutIdempotent(s: seq<string>, x: string)
    ensures Without(Without(s, x), x) == Without(s, x)
  {
    if s != [] {
      WithoutIdempotent(s[1..], x);
      var rest := Without(s[1..], x);
      if s[0] != x {
        var r := [s[0]] + rest;
        assert r[0] == s[0] && r[1..] == rest;
      } else {
        assert [] + rest == rest;
      }
    }
  }

  lemma {:induction false} WithoutAppend(s: seq<string>, x: string)
    ensures Without(s + [x], x) == Without(s, x)
  {
    if s == [] {
      assert [x][1..] == [];
    } else {
      assert (s + [x])[1..] == s[1..] + [x];
      WithoutAppend(s[1..], x);
    }
  }

  /** Checking and then unchecking the flip leaves the list without any flip, the rest unchanged. */
  lemma CheckThenUncheck(augs: seq<string>)
    ensures ToggledAugmentations(ToggledAugmentations(augs, true), false) == Without(augs, HorizontalFlip)
    ensures HorizontalFlip in ToggledAugmentations(augs, true)
  {
    WithoutAppend(augs, HorizontalFlip);
    assert ToggledAugmentations(augs, true)[|augs|] == HorizontalFlip;
  }

  /** On a list without the flip, unchecking changes nothing. */
  lemma {:induction false} UncheckWithoutFlip(s: seq<string>)
    requires HorizontalFlip !in s
    ensures ToggledAugmentations(s, false) == s
  {
    if s != [] {
      UncheckWithoutFlip(s[1..]);
      assert s == [s[0]] + s[1..];
    }
  }
}
