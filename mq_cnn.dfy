/** The MQ-CNN estimator's constructor: argument checks, defaults, and the
    encoder, decoder and quantile-head arguments it assembles
    (MQCNNEstimator.__init__ in src/gluonts/model/seq2seq/_mq_dnn_estimator.py). */
module MqCnn {
  import opened Wrappers
  import opened Hyperparams

  /** The constructor's arguments; `None` stands for an omitted optional one. */
  datatype CnnArgs = CnnArgs(
    freq: string,
    predictionLength: int,
    contextLength: Option<int>,
    useFeatDynamicReal: bool,
    useFeatStaticCat: bool,
    cardinality: Option<seq<int>>,
    embeddingDimension: Option<seq<int>>,
    addTimeFeature: bool,
    addAgeFeature: bool,
    enableDecoderDynamicFeature: bool,
    seed: Option<int>,
    decoderMlpDimSeq: Option<seq<int>>,
    channelsSeq: Option<seq<int>>,
    dilationSeq: Option<seq<int>>,
    kernelSizeSeq: Option<seq<int>>,
    useResidual: bool,
    quantiles: Option<seq<real>>,
    scaling: bool)

  /** The arguments when only `freq` and `prediction_length` are given. */
  function DefaultArgs(freq: string, predictionLength: int): (r: CnnArgs)
    ensures r.freq == freq && r.predictionLength == predictionLength
    ensures r.contextLength.None? && r.cardinality.None? && r.embeddingDimension.None? && r.seed.None?
    ensures r.decoderMlpDimSeq.None? && r.channelsSeq.None? && r.dilationSeq.None?
    ensures r.kernelSizeSeq.None? && r.quantiles.None?
    ensures !r.useFeatDynamicReal && !r.useFeatStaticCat && !r.addTimeFeature && !r.addAgeFeature
    ensures !r.enableDecoderDynamicFeature && r.useResidual && !r.scaling
  {
    CnnArgs(freq, predictionLength, None, false, false, None, None, false, false, false,
            None, None, None, None, None, true, None, false)
  }

  const DefaultChannels: seq<int> := [30, 30, 30]
  const DefaultDilations: seq<int> := [1, 3, 5]
  const DefaultKernelSizes: seq<int> := [7, 3, 3]

  /** Arguments of the hierarchical causal convolutional encoder block. */
  datatype CnnEncoderSpec = CnnEncoderSpec(
    dilationSeq: seq<int>,
    kernelSizeSeq: seq<int>,
    channelsSeq: seq<int>,
    useResidual: bool,
    useStaticFeat: bool,
    useDynamicFeat: bool)

  /** A constructed estimator: the normalised sequences it stores, the blocks
      it builds, the seed it applies, and what it hands to the base estimator. */
  datatype CnnEstimator = CnnEstimator(
    decoderMlpDimSeq: seq<int>,
    channelsSeq: seq<int>,
    dilationSeq: seq<int>,
    kernelSizeSeq: seq<int>,
    quantiles: seq<real>,
    appliedSeed: Option<int>,
    encoder: CnnEncoderSpec,
    decoder: DecoderSpec,
    quantileOutput: QuantileOutputSpec,
    freq: string,
    predictionLength: int,
    contextLength: Option<int>,
    useFeatDynamicReal: bool,
    useFeatStaticCat: bool,
    enableDecoderDynamicFeature: bool,
    cardinality: Option<seq<int>>,
    embeddingDimension: Option<seq<int>>,
    addTimeFeature: bool,
    addAgeFeature: bool,
    scaling: bool)
  {
    /** The invariants every constructed MQ-CNN estimator satisfies. */
    predicate Valid() {
      && predictionLength > 0
      && |decoderMlpDimSeq| > 0
      && (forall i :: 0 <= i < |decoderMlpDimSeq| ==> decoderMlpDimSeq[i] > 0)
      && (forall i :: 0 <= i < |channelsSeq| ==> channelsSeq[i] > 0)
      && (forall i :: 0 <= i < |dilationSeq| ==> dilationSeq[i] > 0)
      && (forall i :: 0 <= i < |kernelSizeSeq| ==> kernelSizeSeq[i] > 1)
      && |channelsSeq| == |dilationSeq| == |kernelSizeSeq|
      && (forall i :: 0 <= i < |quantiles| ==> 0.0 <= quantiles[i] <= 1.0)
      && encoder.channelsSeq == channelsSeq
      && encoder.dilationSeq == dilationSeq
      && encoder.kernelSizeSeq == kernelSizeSeq
      && encoder.useStaticFeat && encoder.useDynamicFeat
      && DecoderBuiltFrom(decoder, predictionLength, decoderMlpDimSeq)
      && quantileOutput.quantiles == quantiles
    }
  }

  // The checks only MQ-CNN makes; the shared ones are in Hyperparams.

  predicate ChannelsOk(a: CnnArgs) { SuppliedAllAbove(a.channelsSeq, 0) }
  predicate DilationsOk(a: CnnArgs) { SuppliedAllAbove(a.dilationSeq, 0) }
  predicate KernelSizesOk(a: CnnArgs) { SuppliedAllAbove(a.kernelSizeSeq, 1) }

  /** All six per-element checks on the arguments as given. */
  predicate ElementChecksPass(a: CnnArgs) {
    && HorizonOk(a.predictionLength)
    && DecoderDimsOk(a.decoderMlpDimSeq)
    && ChannelsOk(a) && DilationsOk(a) && KernelSizesOk(a)
    && QuantilesOk(a.quantiles)
  }

  /** After defaulting, the three convolution sequences have one entry per layer. */
  predicate LengthsAgree(a: CnnArgs) {
    |a.channelsSeq.GetOr(DefaultChannels)| == |a.dilationSeq.GetOr(DefaultDilations)|
      == |a.kernelSizeSeq.GetOr(DefaultKernelSizes)|
  }

  /** The arguments the constructor accepts. */
  predicate Accepted(a: CnnArgs) {
    ElementChecksPass(a) && LengthsAgree(a) && DecoderNonEmpty(a.decoderMlpDimSeq)
  }

  /** The optional sequences as stored: a supplied one unchanged, an omitted one
      replaced by its default. */
  predicate StoresResolved(a: CnnArgs, e: CnnEstimator) {
    && e.decoderMlpDimSeq == a.decoderMlpDimSeq.GetOr(DefaultDecoderMlpDims)
    && e.channelsSeq == a.channelsSeq.GetOr(DefaultChannels)
    && e.dilationSeq == a.dilationSeq.GetOr(DefaultDilations)
    && e.kernelSizeSeq == a.kernelSizeSeq.GetOr(DefaultKernelSizes)
    && e.quantiles == a.quantiles.GetOr(DefaultQuantiles)
  }

  /** The arguments that reach the encoder and the base estimator untouched. */
  predicate PassesThrough(a: CnnArgs, e: CnnEstimator) {
    && e.appliedSeed == AppliedSeed(a.seed)
    && e.encoder.useResidual == a.useResidual
    && e.freq == a.freq
    && e.predictionLength == a.predictionLength
    && e.contextLength == a.contextLength
    && e.useFeatDynamicReal == a.useFeatDynamicReal
    && e.useFeatStaticCat == a.useFeatStaticCat
    && e.enableDecoderDynamicFeature == a.enableDecoderDynamicFeature
    && e.cardinality == a.cardinality
    && e.embeddingDimension == a.embeddingDimension
    && e.addTimeFeature == a.addTimeFeature
    && e.addAgeFeature == a.addAgeFeature
    && e.scaling == a.scaling
  }

  /** The first of the six per-element checks that fails, if any. */
  function ElementError(a: CnnArgs): (r: Option<ConfigError>)
    ensures r.None? <==> ElementChecksPass(a)
    ensures r == Some(InvalidPredictionLength(a.predictionLength)) <==> !HorizonOk(a.predictionLength)
    ensures r == Some(DecoderDimNotPositive) <==> HorizonOk(a.predictionLength) && !DecoderDimsOk(a.decoderMlpDimSeq)
    ensures r == Some(ChannelNotPositive) <==> HorizonOk(a.predictionLength) && DecoderDimsOk(a.decoderMlpDimSeq) && !ChannelsOk(a)
    ensures r == Some(DilationNotPositive) <==>
              HorizonOk(a.predictionLength) && DecoderDimsOk(a.decoderMlpDimSeq) && ChannelsOk(a) && !DilationsOk(a)
    ensures r == Some(KernelSizeNotAboveOne) <==>
              HorizonOk(a.predictionLength) && DecoderDimsOk(a.decoderMlpDimSeq) && ChannelsOk(a) && DilationsOk(a) && !KernelSizesOk(a)
    ensures r == Some(QuantileOutOfRange) <==>
              HorizonOk(a.predictionLength) && DecoderDimsOk(a.decoderMlpDimSeq) && ChannelsOk(a) && DilationsOk(a) && KernelSizesOk(a) && !QuantilesOk(a.quantiles)
  {
    if a.predictionLength <= 0 then Some(InvalidPredictionLength(a.predictionLength))
    else if a.decoderMlpDimSeq.Some? && !AllAbove(a.decoderMlpDimSeq.value, 0) then Some(DecoderDimNotPositive)
    else if a.channelsSeq.Some? && !AllAbove(a.channelsSeq.value, 0) then Some(ChannelNotPositive)
    else if a.dilationSeq.Some? && !AllAbove(a.dilationSeq.value, 0) then Some(DilationNotPositive)
    else if a.kernelSizeSeq.Some? && !AllAbove(a.kernelSizeSeq.value, 1) then Some(KernelSizeNotAboveOne)
    else if a.quantiles.Some? && !AllInUnitInterval(a.quantiles.value) then Some(QuantileOutOfRange)
    else None
  }

  /** What the constructor does once the per-element checks pass: fill in
      defaults, check the convolution lengths, then build the blocks. */
  function Assemble(a: CnnArgs): (r: Result<CnnEstimator, ConfigError>)
    requires ElementChecksPass(a)
    ensures r.Success? <==> LengthsAgree(a) && DecoderNonEmpty(a.decoderMlpDimSeq)
    ensures r.Success? ==> r.value.Valid() && StoresResolved(a, r.value) && PassesThrough(a, r.value)
    ensures !LengthsAgree(a) ==>
              r == Failure(CnnLengthMismatch(|a.channelsSeq.GetOr(DefaultChannels)|,
                                             |a.dilationSeq.GetOr(DefaultDilations)|,
                                             |a.kernelSizeSeq.GetOr(DefaultKernelSizes)|))
    ensures LengthsAgree(a) && !DecoderNonEmpty(a.decoderMlpDimSeq) ==> r == Failure(EmptyDecoderDims)
  {
    var mlpDims := a.decoderMlpDimSeq.GetOr(DefaultDecoderMlpDims);
    var channels := a.channelsSeq.GetOr(DefaultChannels);
    var dilations := a.dilationSeq.GetOr(DefaultDilations);
    var kernelSizes := a.kernelSizeSeq.GetOr(DefaultKernelSizes);
    var quantiles := a.quantiles.GetOr(DefaultQuantiles);
    if !(|channels| == |dilations| && |dilations| == |kernelSizes|) then
      Failure(CnnLengthMismatch(|channels|, |dilations|, |kernelSizes|))
    else
      var encoder := CnnEncoderSpec(dilations, kernelSizes, channels, a.useResidual, true, true);
      match BuildDecoder(a.predictionLength, mlpDims)
      case Failure(e) => Failure(e)
      case Success(decoder) =>
        ResolvedAllAbove(a.decoderMlpDimSeq, DefaultDecoderMlpDims, 0);
        ResolvedAllAbove(a.channelsSeq, DefaultChannels, 0);
        ResolvedAllAbove(a.dilationSeq, DefaultDilations, 0);
        ResolvedAllAbove(a.kernelSizeSeq, DefaultKernelSizes, 1);
        ResolvedQuantilesOk(a.quantiles);
        Success(CnnEstimator(
          mlpDims, channels, dilations, kernelSizes, quantiles,
          AppliedSeed(a.seed), encoder, decoder, QuantileOutputSpec(quantiles),
          a.freq, a.predictionLength, a.contextLength, a.useFeatDynamicReal, a.useFeatStaticCat,
          a.enableDecoderDynamicFeature, a.cardinality, a.embeddingDimension,
          a.addTimeFeature, a.addAgeFeature, a.scaling))
  }

  /** Runs the constructor: the first failed check is the error; otherwise the
      estimator with defaults filled in and its blocks' arguments. */
  function Normalize(a: CnnArgs): (r: Result<CnnEstimator, ConfigError>)
    ensures r.Success? <==> Accepted(a)
    ensures r.Success? ==> r.value.Valid() && StoresResolved(a, r.value) && PassesThrough(a, r.value)
    ensures !ElementChecksPass(a) ==> r.Failure? && Some(r.error) == ElementError(a)
    ensures ElementChecksPass(a) && !LengthsAgree(a) ==>
              r == Failure(CnnLengthMismatch(|a.channelsSeq.GetOr(DefaultChannels)|,
                                             |a.dilationSeq.GetOr(DefaultDilations)|,
                                             |a.kernelSizeSeq.GetOr(DefaultKernelSizes)|))
    ensures ElementChecksPass(a) && LengthsAgree(a) && !DecoderNonEmpty(a.decoderMlpDimSeq) ==> r == Failure(EmptyDecoderDims)
  {
    match ElementError(a)
    case Some(e) => Failure(e)
    case None => Assemble(a)
  }

  /** With every optional argument omitted, construction succeeds exactly for a
      positive horizon, and the estimator has three convolution layers
      (channels 30, dilations 1/3/5, kernels 7/3/3), a decoder with final
      dimension 30 and no hidden layers, and the nine deciles as quantiles. */
  lemma DefaultsAccepted(freq: string, predictionLength: int)
    ensures Normalize(DefaultArgs(freq, predictionLength)).Success? <==> predictionLength > 0
    ensures predictionLength > 0 ==>
              var e := Normalize(DefaultArgs(freq, predictionLength)).value;
              && e.encoder.channelsSeq == [30, 30, 30]
              && e.encoder.dilationSeq == [1, 3, 5]
              && e.encoder.kernelSizeSeq == [7, 3, 3]
              && e.decoder == DecoderSpec(predictionLength, 30, [])
              && e.quantileOutput.quantiles == [0.1, 0.2, 0.3, 0.4, 0.5, 0.6, 0.7, 0.8, 0.9]
              && e.appliedSeed == None
  {
  }

  /** Kernel size 1 is rejected, even with every other argument at its default. */
  lemma KernelSizeOneRejected(freq: string, predictionLength: int)
    requires predictionLength > 0
    ensures Normalize(DefaultArgs(freq, predictionLength).(kernelSizeSeq := Some([1, 3, 3])))
              == Failure(KernelSizeNotAboveOne)
  {
  }

  /** The length check runs after defaulting: two channels supplied alone clash
      with the three default dilations and kernel sizes. */
  lemma ShortChannelsAloneRejected(freq: string, predictionLength: int, c0: int, c1: int)
    requires predictionLength > 0 && c0 > 0 && c1 > 0
    ensures Normalize(DefaultArgs(freq, predictionLength).(channelsSeq := Some([c0, c1])))
              == Failure(CnnLengthMismatch(2, 3, 3))
  {
  }

  /** An empty decoder list passes the element check but has no last element. */
  lemma EmptyDecoderListRejected(freq: string, predictionLength: int)
    requires predictionLength > 0
    ensures DecoderDimsOk(Some([]))
    ensures Normalize(DefaultArgs(freq, predictionLength).(decoderMlpDimSeq := Some([])))
              == Failure(EmptyDecoderDims)
  {
  }

  /** The boundary levels 0 and 1 are valid quantiles. */
  lemma BoundaryQuantilesAccepted(freq: string, predictionLength: int)
    requires predictionLength > 0
    ensures Normalize(DefaultArgs(freq, predictionLength).(quantiles := Some([0.0, 1.0]))).Success?
  {
  }
}
