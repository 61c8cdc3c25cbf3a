/** The MQ-RNN estimator's constructor: the horizon, decoder and quantile
    checks and defaults, a fixed recurrent encoder, and the same decoder and
    quantile head as MQ-CNN (MQRNNEstimator.__init__ in
    src/gluonts/model/seq2seq/_mq_dnn_estimator.py). */
module MqRnn {
  import opened Wrappers
  import opened Hyperparams
  import MqCnn

  /** The constructor's arguments; `None` stands for an omitted optional one. */
  datatype RnnArgs = RnnArgs(
    predictionLength: int,
    freq: string,
    contextLength: Option<int>,
    decoderMlpDimSeq: Option<seq<int>>,
    quantiles: Option<seq<real>>,
    scaling: bool)

  /** The arguments when only `prediction_length` and `freq` are given. */
  function DefaultArgs(predictionLength: int, freq: string): (r: RnnArgs)
    ensures r.predictionLength == predictionLength && r.freq == freq
    ensures r.contextLength.None? && r.decoderMlpDimSeq.None? && r.quantiles.None?
    ensures r.scaling
  {
    RnnArgs(predictionLength, freq, None, None, None, true)
  }

  /** Arguments of the recurrent encoder block. */
  datatype RnnEncoderSpec = RnnEncoderSpec(
    mode: string,
    hiddenSize: int,
    numLayers: int,
    bidirectional: bool,
    useStaticFeat: bool,
    useDynamicFeat: bool)

  /** The encoder every MQ-RNN estimator uses: one bidirectional GRU layer of
      hidden size 50, fed static and dynamic features. */
  const FixedEncoder: RnnEncoderSpec := RnnEncoderSpec("gru", 50, 1, true, true, true)

  /** A constructed estimator: the normalised sequences it stores, the blocks
      it builds, and what it hands to the base estimator. */
  datatype RnnEstimator = RnnEstimator(
    decoderMlpDimSeq: seq<int>,
    quantiles: seq<real>,
    encoder: RnnEncoderSpec,
    decoder: DecoderSpec,
    quantileOutput: QuantileOutputSpec,
    freq: string,
    predictionLength: int,
    contextLength: Option<int>,
    scaling: bool)
  {
    /** The invariants every constructed MQ-RNN estimator satisfies. */
    predicate Valid() {
      && predictionLength > 0
      && |decoderMlpDimSeq| > 0
      && (forall i :: 0 <= i < |decoderMlpDimSeq| ==> decoderMlpDimSeq[i] > 0)
      && (forall i :: 0 <= i < |quantiles| ==> 0.0 <= quantiles[i] <= 1.0)
      && encoder == FixedEncoder
      && DecoderBuiltFrom(decoder, predictionLength, decoderMlpDimSeq)
      && quantileOutput.quantiles == quantiles
    }
  }

  /** The arguments the constructor accepts: the checks it shares with MQ-CNN. */
  predicate Accepted(a: RnnArgs) {
    && HorizonOk(a.predictionLength)
    && DecoderDimsOk(a.decoderMlpDimSeq)
    && QuantilesOk(a.quantiles)
    && DecoderNonEmpty(a.decoderMlpDimSeq)
  }

  /** Runs the constructor: the first failed check is the error; otherwise the
      estimator with defaults filled in and its blocks' arguments. */
  function Normalize(a: RnnArgs): (r: Result<RnnEstimator, ConfigError>)
    ensures r.Success? <==> Accepted(a)
    ensures r.Success? ==> r.value.Valid()
    ensures r.Success? ==>
              && r.value.decoderMlpDimSeq == a.decoderMlpDimSeq.GetOr(DefaultDecoderMlpDims)
              && r.value.quantiles == a.quantiles.GetOr(DefaultQuantiles)
              && r.value.freq == a.freq
              && r.value.predictionLength == a.predictionLength
              && r.value.contextLength == a.contextLength
              && r.value.scaling == a.scaling
    ensures r == Failure(InvalidPredictionLength(a.predictionLength)) <==> !HorizonOk(a.predictionLength)
    ensures r == Failure(DecoderDimNotPositive) <==> HorizonOk(a.predictionLength) && !DecoderDimsOk(a.decoderMlpDimSeq)
    ensures r == Failure(QuantileOutOfRange) <==> HorizonOk(a.predictionLength) && DecoderDimsOk(a.decoderMlpDimSeq) && !QuantilesOk(a.quantiles)
    ensures r == Failure(EmptyDecoderDims) <==>
              HorizonOk(a.predictionLength) && DecoderDimsOk(a.decoderMlpDimSeq) && QuantilesOk(a.quantiles) && !DecoderNonEmpty(a.decoderMlpDimSeq)
  {
    if a.predictionLength <= 0 then Failure(InvalidPredictionLength(a.predictionLength))
    else if a.decoderMlpDimSeq.Some? && !AllAbove(a.decoderMlpDimSeq.value, 0) then Failure(DecoderDimNotPositive)
    else if a.quantiles.Some? && !AllInUnitInterval(a.quantiles.value) then Failure(QuantileOutOfRange)
    else
      var mlpDims := a.decoderMlpDimSeq.GetOr(DefaultDecoderMlpDims);
      var quantiles := a.quantiles.GetOr(DefaultQuantiles);
      match BuildDecoder(a.predictionLength, mlpDims)
      case Failure(e) => Failure(e)
      case Success(decoder) =>
        ResolvedAllAbove(a.decoderMlpDimSeq, DefaultDecoderMlpDims, 0);
        ResolvedQuantilesOk(a.quantiles);
        Success(RnnEstimator(mlpDims, quantiles, FixedEncoder, decoder, QuantileOutputSpec(quantiles),
                             a.freq, a.predictionLength, a.contextLength, a.scaling))
  }

  /** The MQ-CNN arguments with the same horizon, decoder dimensions,
      quantiles, frequency, context length and scaling, and everything else
      omitted. */
  function AsCnnArgs(a: RnnArgs): MqCnn.CnnArgs {
    MqCnn.DefaultArgs(a.freq, a.predictionLength).(
      contextLength := a.contextLength,
      decoderMlpDimSeq := a.decoderMlpDimSeq,
      quantiles := a.quantiles,
      scaling := a.scaling)
  }

  /** MQ-RNN makes a subset of MQ-CNN's checks: on the arguments they share,
      both reject with the same error or both accept, with the same decoder
      and the same quantile head. */
  lemma ChecksAreCnnSubset(a: RnnArgs)
    ensures Normalize(a).Success? <==> MqCnn.Normalize(AsCnnArgs(a)).Success?
    ensures Normalize(a).Failure? ==> MqCnn.Normalize(AsCnnArgs(a)) == Failure(Normalize(a).error)
    ensures Normalize(a).Success? ==>
              && Normalize(a).value.decoder == MqCnn.Normalize(AsCnnArgs(a)).value.decoder
              && Normalize(a).value.quantileOutput == MqCnn.Normalize(AsCnnArgs(a)).value.quantileOutput
  {
  }

  /** With every optional argument omitted, construction succeeds exactly for a
      positive horizon, with the fixed GRU encoder, a decoder of final
      dimension 30 and no hidden layers, and the nine deciles. */
  lemma DefaultsAccepted(predictionLength: int, freq: string)
    ensures Normalize(DefaultArgs(predictionLength, freq)).Success? <==> predictionLength > 0
    ensures predictionLength > 0 ==>
              var e := Normalize(DefaultArgs(predictionLength, freq)).value;
              && e.encoder == RnnEncoderSpec("gru", 50, 1, true, true, true)
              && e.decoder == DecoderSpec(predictionLength, 30, [])
              && e.quantileOutput.quantiles == [0.1, 0.2, 0.3, 0.4, 0.5, 0.6, 0.7, 0.8, 0.9]
              && e.scaling
  {
  }
}
