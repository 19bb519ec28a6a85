/**
 * The tree-booster hyperparameters of Src/XGBoost/TreeSettings.cs: two
 * dictionaries, one of integer and one of floating-point parameters, each
 * created with three entries. Every setter stores the value when it lies in
 * the documented range and a fixed default otherwise, so the stored values
 * never leave their ranges. Floating-point values are modelled as reals.
 */
module TreeParams {
  const MaxDepthKey := "max_depth"
  const MinChildWeightKey := "min_child_weight"
  const MaxDeltaStepKey := "max_delta_step"
  const LearningRateKey := "learning_rate"
  const MinSplitLossKey := "min_split_loss"
  const SubsampleKey := "subsample"

  const DefaultMaxDepth := 6
  const DefaultMinChildWeight := 1
  const DefaultMaxDeltaStep := 0
  const DefaultLearningRate: real := 0.6
  const DefaultMinSplitLoss: real := 0.0
  const DefaultSubsample: real := 1.0

  /** `LearningRate`: kept in [0, 1], else the default. */
  function LearningRateStored(value: real): (r: real)
    ensures 0.0 <= r <= 1.0
    ensures r == value <==> 0.0 <= value <= 1.0
    ensures r != value ==> r == DefaultLearningRate
  {
    if 0.0 <= value && value <= 1.0 then value else DefaultLearningRate
  }

  /** `MinSplitLoss`: positive values kept, anything else becomes 0. */
  function MinSplitLossStored(value: real): (r: real)
    ensures r >= 0.0
    ensures r == value <==> value >= 0.0
    ensures r != value ==> r == DefaultMinSplitLoss
  {
    if value > 0.0 then value else 0.0
  }

  /** `MaxDepth`: kept from 1 up, else the default. */
  function MaxDepthStored(value: int): (r: int)
    ensures r >= 1
    ensures r == value <==> value >= 1
    ensures r != value ==> r == DefaultMaxDepth
  {
    if value >= 1 then value else DefaultMaxDepth
  }

  /** `MinChildWeight`: kept from 0 up, else the default. */
  function MinChildWeightStored(value: int): (r: int)
    ensures r >= 0
    ensures r == value <==> value >= 0
    ensures r != value ==> r == DefaultMinChildWeight
  {
    if value >= 0 then value else DefaultMinChildWeight
  }

  /** `MaxDeltaStep`: kept from 0 up, else the default (no constraint). */
  function MaxDeltaStepStored(value: int): (r: int)
    ensures r >= 0
    ensures r == value <==> value >= 0
    ensures r != value ==> r == DefaultMaxDeltaStep
  {
    if value >= 0 then value else DefaultMaxDeltaStep
  }

  /** `Subsample`: kept in (0, 1], else the default. */
  function SubsampleStored(value: real): (r: real)
    ensures 0.0 < r <= 1.0
    ensures r == value <==> 0.0 < value <= 1.0
    ensures r != value ==> r == DefaultSubsample
  {
    if 0.0 < value && value <= 1.0 then value else DefaultSubsample
  }

  class TreeSettings {
    var intParams: map<string, int>
    var floatParams: map<string, real>

    /** The dictionaries hold exactly their three keys, each within range. */
    ghost predicate Valid()
      reads this
    {
      intParams.Keys == {MaxDepthKey, MinChildWeightKey, MaxDeltaStepKey} &&
      floatParams.Keys == {LearningRateKey, MinSplitLossKey, SubsampleKey} &&
      intParams[MaxDepthKey] >= 1 &&
      intParams[MinChildWeightKey] >= 0 &&
      intParams[MaxDeltaStepKey] >= 0 &&
      0.0 <= floatParams[LearningRateKey] <= 1.0 &&
      floatParams[MinSplitLossKey] >= 0.0 &&
      0.0 < floatParams[SubsampleKey] <= 1.0
    }

    constructor ()
      ensures Valid()
      ensures intParams == map[MaxDepthKey := DefaultMaxDepth, MinChildWeightKey := DefaultMinChildWeight,
                               MaxDeltaStepKey := DefaultMaxDeltaStep]
      ensures floatParams == map[LearningRateKey := DefaultLearningRate, MinSplitLossKey := DefaultMinSplitLoss,
                                 SubsampleKey := DefaultSubsample]
    {
      intParams := map[MaxDepthKey := DefaultMaxDepth, MinChildWeightKey := DefaultMinChildWeight,
                       MaxDeltaStepKey := DefaultMaxDeltaStep];
      floatParams := map[LearningRateKey := DefaultLearningRate, MinSplitLossKey := DefaultMinSplitLoss,
                         SubsampleKey := DefaultSubsample];
    }

    function LearningRate(): (r: real)
      requires Valid()
      reads this
      ensures 0.0 <= r <= 1.0
    {
      floatParams[LearningRateKey]
    }

    function MinSplitLoss(): (r: real)
      requires Valid()
      reads this
      ensures r >= 0.0
    {
      floatParams[MinSplitLossKey]
    }

    function MaxDepth(): (r: int)
      requires Valid()
      reads this
      ensures r >= 1
    {
      intParams[MaxDepthKey]
    }

    function MinChildWeight(): (r: int)
      requires Valid()
      reads this
      ensures r >= 0
    {
      intParams[MinChildWeightKey]
    }

    function MaxDeltaStep(): (r: int)
      requires Valid()
      reads this
      ensures r >= 0
    {
      intParams[MaxDeltaStepKey]
    }

    function Subsample(): (r: real)
      requires Valid()
      reads this
      ensures 0.0 < r <= 1.0
    {
      floatParams[SubsampleKey]
    }

    method SetLearningRate(value: real)
      requires Valid()
      modifies this
      ensures Valid()
      ensures floatParams == old(floatParams)[LearningRateKey := LearningRateStored(value)]
      ensures intParams == old(intParams)
      ensures LearningRate() == value <==> 0.0 <= value <= 1.0
    {
      if 0.0 <= value && value <= 1.0 {
        floatParams := floatParams[LearningRateKey := value];
      } else {
        floatParams := floatParams[LearningRateKey := DefaultLearningRate];
      }
    }

    method SetMinSplitLoss(value: real)
      requires Valid()
      modifies this
      ensures Valid()
      ensures floatParams == old(floatParams)[MinSplitLossKey := MinSplitLossStored(value)]
      ensures intParams == old(intParams)
      ensures MinSplitLoss() == value <==> value >= 0.0
    {
      floatParams := floatParams[MinSplitLossKey := if value > 0.0 then value else 0.0];
    }

    method SetMaxDepth(value: int)
      requires Valid()
      modifies this
      ensures Valid()
      ensures intParams == old(intParams)[MaxDepthKey := MaxDepthStored(value)]
      ensures floatParams == old(floatParams)
      ensures MaxDepth() == value <==> value >= 1
    {
      intParams := intParams[MaxDepthKey := if value >= 1 then value else DefaultMaxDepth];
    }

    method SetMinChildWeight(value: int)
      requires Valid()
      modifies this
      ensures Valid()
      ensures intParams == old(intParams)[MinChildWeightKey := MinChildWeightStored(value)]
      ensures floatParams == old(floatParams)
      ensures MinChildWeight() == value <==> value >= 0
    {
      intParams := intParams[MinChildWeightKey := if value >= 0 then value else DefaultMinChildWeight];
    }

    method SetMaxDeltaStep(value: int)
      requires Valid()
      modifies this
      ensures Valid()
      ensures intParams == old(intParams)[MaxDeltaStepKey := MaxDeltaStepStored(value)]
      ensures floatParams == old(floatParams)
      ensures MaxDeltaStep() == value <==> value >= 0
    {
      intParams := intParams[MaxDeltaStepKey := if value >= 0 then value else DefaultMaxDeltaStep];
    }

    method SetSubsample(value: real)
      requires Valid()
      modifies this
      ensures Valid()
      ensures floatParams == old(floatParams)[SubsampleKey := SubsampleStored(value)]
      ensures intParams == old(intParams)
      ensures Subsample() == value <==> 0.0 < value <= 1.0
    {
      if 0.0 < value && value <= 1.0 {
        floatParams := floatParams[SubsampleKey := value];
      } else {
        floatParams := floatParams[SubsampleKey := DefaultSubsample];
      }
    }
  }
}
