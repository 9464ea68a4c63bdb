/**
 * The binary shape opening filter: a composite filter that runs a
 * mini-pipeline of four stages (labelizer, attribute valuator, attribute
 * opening, binarizer) and always works on whole images.
 *
 * The stages' own algorithms are not modelled; what is modelled is what this
 * filter decides: its parameter defaults, its region policy, and how it wires
 * the stages, which settings it forwards to each and with which progress
 * weight each is registered.
 */
module BinaryShapeOpening {
  import opened NumericTraitsRGB
  import opened ImageRegion

  /** The shape attribute the opening selects label objects by. */
  datatype Attribute =
    | NumberOfPixels
    | Perimeter
    | Roundness
    | FeretDiameter
      /**
       * Any other shape attribute, by its code; the code is never that of
       * one of the four attributes named above. None of them affects the wiring.
       */
    | OtherAttribute(code: nat)

  /** A stage setting that is either left at the stage's own default or set explicitly. */
  datatype Setting = Default | Set(value: bool)

  /** The value a setting takes on a stage whose own default is `default`. */
  function Resolve(s: Setting, default: bool): bool
  {
    match s
    case Default => default
    case Set(b) => b
  }

  /** Where a stage reads an image from. */
  datatype DataRef = FilterInput | StageOutput(stage: nat)

  /** The six parameters of the filter. */
  datatype Parameters<P> = Parameters(
    backgroundValue: P,
    foregroundValue: P,
    fullyConnected: bool,
    reverseOrdering: bool,
    lambda: real,
    attribute: Attribute)

  /**
   * One stage of the mini-pipeline with the settings the filter gives it.
   * `weightTenths` is its progress weight in tenths of the filter's total.
   */
  datatype Stage<P> =
    | Labelizer(input: DataRef, inputForegroundValue: P, outputBackgroundValue: P,
                fullyConnected: bool, workUnits: nat, weightTenths: nat)
    | Valuator(input: DataRef, computePerimeter: Setting, computeFeretDiameter: Setting,
               workUnits: nat, weightTenths: nat)
    | Opening(input: DataRef, lambda: real, reverseOrdering: bool, attribute: Attribute,
              workUnits: nat, weightTenths: nat)
    | Binarizer(input: DataRef, foregroundValue: P, backgroundValue: P, backgroundImage: DataRef,
                workUnits: nat, weightTenths: nat)

  /** The stages in registration order and the stage whose output becomes the filter's output. */
  datatype MiniPipeline<P> = MiniPipeline(stages: seq<Stage<P>>, graftedFrom: DataRef)

  /** The valuator's perimeter computation is switched off unless the attribute needs it. */
  function PerimeterSetting(a: Attribute): Setting
  {
    if a != Perimeter && a != Roundness then Set(false) else Default
  }

  /** The valuator's Feret-diameter computation is switched on when the attribute needs it. */
  function FeretDiameterSetting(a: Attribute): Setting
  {
    if a == FeretDiameter then Set(true) else Default
  }

  /** The mini-pipeline the filter builds from its parameters and work-unit count. */
  function Configure<P>(p: Parameters<P>, workUnits: nat): (m: MiniPipeline<P>)
    ensures |m.stages| == 4
    ensures m.graftedFrom == StageOutput(|m.stages| - 1)
  {
    MiniPipeline(
      [ Labelizer(FilterInput, p.foregroundValue, p.backgroundValue, p.fullyConnected, workUnits, 3),
        Valuator(StageOutput(0), PerimeterSetting(p.attribute), FeretDiameterSetting(p.attribute),
                 workUnits, 3),
        Opening(StageOutput(1), p.lambda, p.reverseOrdering, p.attribute, workUnits, 2),
        Binarizer(StageOutput(2), p.foregroundValue, p.backgroundValue, FilterInput, workUnits, 2) ],
      StageOutput(3))
  }

  // ---- properties of the wiring --------------------------------------------

  /** The stages are the labelizer, the valuator, the opening and the binarizer, in that order. */
  lemma StageOrder<P>(p: Parameters<P>, workUnits: nat)
    ensures var s := Configure(p, workUnits).stages;
      s[0].Labelizer? && s[1].Valuator? && s[2].Opening? && s[3].Binarizer?
  {
  }

  /**
   * Each stage reads the previous stage's output, the first reads the
   * filter's input, and the filter's output comes from the last stage.
   */
  lemma Chained<P>(p: Parameters<P>, workUnits: nat)
    ensures var m := Configure(p, workUnits);
      m.stages[0].input == FilterInput &&
      (forall k | 1 <= k < |m.stages| :: m.stages[k].input == StageOutput(k - 1)) &&
      m.graftedFrom == StageOutput(|m.stages| - 1)
  {
  }

  /** What each stage receives from the filter's parameters. */
  lemma ParametersForwarded<P>(p: Parameters<P>, workUnits: nat)
    ensures var s := Configure(p, workUnits).stages;
      s[0].inputForegroundValue == p.foregroundValue &&
      s[0].outputBackgroundValue == p.backgroundValue &&
      s[0].fullyConnected == p.fullyConnected &&
      s[2].lambda == p.lambda &&
      s[2].reverseOrdering == p.reverseOrdering &&
      s[2].attribute == p.attribute &&
      s[3].foregroundValue == p.foregroundValue &&
      s[3].backgroundValue == p.backgroundValue &&
      s[3].backgroundImage == FilterInput
  {
  }

  /** Every stage runs with the filter's own work-unit count. */
  lemma WorkUnitsForwarded<P>(p: Parameters<P>, workUnits: nat)
    ensures var s := Configure(p, workUnits).stages;
      forall k | 0 <= k < |s| :: s[k].workUnits == workUnits
  {
  }

  /**
   * The perimeter is computed exactly when the valuator computes it by
   * default and the attribute is the perimeter or the roundness; for those
   * two the valuator is left at its default.
   */
  lemma PerimeterSelection<P>(p: Parameters<P>, workUnits: nat, valuatorDefault: bool)
    ensures var v := Configure(p, workUnits).stages[1];
      (v.computePerimeter == Default <==> p.attribute == Perimeter || p.attribute == Roundness) &&
      (Resolve(v.computePerimeter, valuatorDefault) <==>
         valuatorDefault && (p.attribute == Perimeter || p.attribute == Roundness))
  {
  }

  /**
   * The Feret diameter is switched on exactly for the Feret-diameter
   * attribute and otherwise left at the valuator's default.
   */
  lemma FeretDiameterSelection<P>(p: Parameters<P>, workUnits: nat, valuatorDefault: bool)
    ensures var v := Configure(p, workUnits).stages[1];
      (v.computeFeretDiameter == Default <==> p.attribute != FeretDiameter) &&
      (Resolve(v.computeFeretDiameter, valuatorDefault) <==>
         valuatorDefault || p.attribute == FeretDiameter)
  {
  }

  // ---- progress weights ------------------------------------------------------

  /** The progress weights of the stages, in tenths, in registration order. */
  function Weights<P>(stages: seq<Stage<P>>): (w: seq<nat>)
    ensures |w| == |stages|
    ensures forall k | 0 <= k < |stages| :: w[k] == stages[k].weightTenths
  {
    seq(|stages|, k requires 0 <= k < |stages| => stages[k].weightTenths)
  }

  /** The sum of the first `k` weights: the progress once `k` stages have completed. */
  function PrefixSum(w: seq<nat>, k: nat): nat
    requires k <= |w|
  {
    if k == 0 then 0 else PrefixSum(w, k - 1) + w[k - 1]
  }

  /** Completing more stages never lowers the accumulated progress. */
  lemma {:induction false} PrefixSumMonotone(w: seq<nat>, i: nat, j: nat)
    requires i <= j <= |w|
    ensures PrefixSum(w, i) <= PrefixSum(w, j)
    decreases j
  {
    if i < j {
      PrefixSumMonotone(w, i, j - 1);
    }
  }

  /** The progress after `k` completed stages, as a fraction of the whole. */
  function Progress(w: seq<nat>, k: nat): real
    requires k <= |w|
  {
    PrefixSum(w, k) as real / 10.0
  }

  /**
   * The weights are 0.3, 0.3, 0.2 and 0.2: the progress after each completed
   * stage is 0.3, 0.6, 0.8 and 1.0, and the weights sum to one.
   */
  lemma ProgressWeights<P>(p: Parameters<P>, workUnits: nat)
    ensures var w := Weights(Configure(p, workUnits).stages);
      w == [3, 3, 2, 2] &&
      Progress(w, 0) == 0.0 && Progress(w, 1) == 0.3 && Progress(w, 2) == 0.6 &&
      Progress(w, 3) == 0.8 && Progress(w, 4) == 1.0
  {
  }

  /** The progress reported as stages complete is non-decreasing and stays within [0, 1]. */
  lemma ProgressNonDecreasing<P>(p: Parameters<P>, workUnits: nat, i: nat, j: nat)
    requires i <= j <= 4
    ensures var w := Weights(Configure(p, workUnits).stages);
      0.0 <= Progress(w, i) <= Progress(w, j) <= 1.0
  {
    var w := Weights(Configure(p, workUnits).stages);
    PrefixSumMonotone(w, i, j);
    PrefixSumMonotone(w, j, 4);
    ProgressWeights(p, workUnits);
  }

  // ---- the filter ------------------------------------------------------------

  /** The filter object: its parameters, work-unit count, input and output image. */
  class BinaryShapeOpeningImageFilter<P> {
    var backgroundValue: P
    var foregroundValue: P
    var fullyConnected: bool
    var reverseOrdering: bool
    var lambda: real
    var attribute: Attribute
    var numberOfWorkUnits: nat
    var input: Image?
    var output: Image

    /**
     * A new filter of the pixel type whose traits are `e`. The work-unit
     * count is the process-wide default handed in as `workUnits`; the output
     * is a fresh image of `dimension` axes with empty regions.
     */
    constructor (e: ScalarTraits<P>, workUnits: nat, dimension: nat)
      ensures backgroundValue == e.nonposMinE
      ensures foregroundValue == e.maxE
      ensures !fullyConnected && !reverseOrdering
      ensures lambda == 0.0
      ensures attribute == NumberOfPixels
      ensures numberOfWorkUnits == workUnits
      ensures input == null && fresh(output)
      ensures output.largestPossibleRegion == EmptyRegion(dimension)
      ensures output.requestedRegion == EmptyRegion(dimension)
    {
      backgroundValue := e.nonposMinE;
      foregroundValue := e.maxE;
      fullyConnected := false;
      reverseOrdering := false;
      lambda := 0.0;
      attribute := NumberOfPixels;
      numberOfWorkUnits := workUnits;
      input := null;
      output := new Image(EmptyRegion(dimension), EmptyRegion(dimension));
    }

    /** The current values of the six parameters. */
    function CurrentParameters(): (p: Parameters<P>)
      reads this
      ensures p.backgroundValue == backgroundValue && p.foregroundValue == foregroundValue
      ensures p.fullyConnected == fullyConnected && p.reverseOrdering == reverseOrdering
      ensures p.lambda == lambda && p.attribute == attribute
    {
      Parameters(backgroundValue, foregroundValue, fullyConnected, reverseOrdering, lambda, attribute)
    }

    /**
     * The filter needs all of its input: the input's requested region becomes
     * its largest possible region. Without an input nothing changes, and an
     * input already requested in full is left as it was.
     */
    method GenerateInputRequestedRegion()
      modifies input
      ensures input == old(input)
      ensures input != null ==> input.requestedRegion == input.largestPossibleRegion
      ensures input != null ==> input.largestPossibleRegion == old(input.largestPossibleRegion)
      ensures input != null && old(input.requestedRegion) == old(input.largestPossibleRegion) ==>
                input.requestedRegion == old(input.requestedRegion)
    {
      if input != null {
        input.SetRequestedRegion(input.largestPossibleRegion);
      }
    }

    /**
     * The output is always produced in full: its requested region becomes its
     * largest possible region. Applied to an output already requested in full
     * it changes nothing, so applying it twice is applying it once.
     */
    method EnlargeOutputRequestedRegion()
      modifies output
      ensures output == old(output)
      ensures output.requestedRegion == output.largestPossibleRegion
      ensures output.largestPossibleRegion == old(output.largestPossibleRegion)
      ensures old(output.requestedRegion) == old(output.largestPossibleRegion) ==>
                output.requestedRegion == old(output.requestedRegion)
    {
      output.SetRequestedRegion(output.largestPossibleRegion);
    }

    /**
     * Builds the mini-pipeline stage by stage: each stage is created reading
     * the previous one, given its settings and registered with its weight;
     * the filter's output is then taken from the last stage.
     */
    method GenerateData() returns (pipeline: MiniPipeline<P>)
      ensures pipeline == Configure(CurrentParameters(), numberOfWorkUnits)
    {
      var labelizer := Labelizer(FilterInput, foregroundValue, backgroundValue, fullyConnected,
                                 numberOfWorkUnits, 3);
      var stages := [labelizer];

      var computePerimeter := Default;
      if attribute != Perimeter && attribute != Roundness {
        computePerimeter := Set(false);
      }
      var computeFeretDiameter := Default;
      if attribute == FeretDiameter {
        computeFeretDiameter := Set(true);
      }
      var valuator := Valuator(StageOutput(|stages| - 1), computePerimeter, computeFeretDiameter,
                               numberOfWorkUnits, 3);
      stages := stages + [valuator];

      var opening := Opening(StageOutput(|stages| - 1), lambda, reverseOrdering, attribute,
                             numberOfWorkUnits, 2);
      stages := stages + [opening];

      var binarizer := Binarizer(StageOutput(|stages| - 1), foregroundValue, backgroundValue,
                                 FilterInput, numberOfWorkUnits, 2);
      stages := stages + [binarizer];

      pipeline := MiniPipeline(stages, StageOutput(|stages| - 1));
    }
  }
}
