/** The checks, defaults and block arguments shared by the MQ-CNN and MQ-RNN
    estimators (src/gluonts/model/seq2seq/_mq_dnn_estimator.py). */
module Hyperparams {
  import opened Wrappers

  /** Why constructing an estimator fails. Every kind but the last is a failed
      `assert` in the constructor; `EmptyDecoderDims` is the IndexError raised
      by taking the last element of an empty decoder dimension list. */
  datatype ConfigError =
    | InvalidPredictionLength(predictionLength: int)
    | DecoderDimNotPositive
    | ChannelNotPositive
    | DilationNotPositive
    | KernelSizeNotAboveOne
    | QuantileOutOfRange
    | CnnLengthMismatch(channels: nat, dilations: nat, kernelSizes: nat)
    | EmptyDecoderDims

  /** Default decoder MLP dimensions when none are given. */
  const DefaultDecoderMlpDims: seq<int> := [30]

  /** Default quantile levels: the nine deciles. */
  const DefaultQuantiles: seq<real> := [0.1, 0.2, 0.3, 0.4, 0.5, 0.6, 0.7, 0.8, 0.9]

  /** `all(d > bound for d in s)`, walked from the front as Python's `all` does. */
  function AllAbove(s: seq<int>, bound: int): (r: bool)
    ensures r <==> forall i :: 0 <= i < |s| ==> s[i] > bound
  {
    if s == [] then true else s[0] > bound && AllAbove(s[1..], bound)
  }

  /** `all(0 <= d <= 1 for d in q)`, walked from the front. */
  function AllInUnitInterval(q: seq<real>): (r: bool)
    ensures r <==> forall i :: 0 <= i < |q| ==> 0.0 <= q[i] <= 1.0
  {
    if q == [] then true else 0.0 <= q[0] <= 1.0 && AllInUnitInterval(q[1..])
  }

  /** An omitted sequence passes an element check; a supplied one passes when
      every element lies strictly above `bound`. */
  predicate SuppliedAllAbove(s: Option<seq<int>>, bound: int) {
    s.None? || forall i :: 0 <= i < |s.value| ==> s.value[i] > bound
  }

  /** The horizon check: the prediction length is positive. */
  predicate HorizonOk(predictionLength: int) { predictionLength > 0 }

  /** The decoder width check: an omitted list passes, a supplied one needs
      every width positive. */
  predicate DecoderDimsOk(mlpDims: Option<seq<int>>) { SuppliedAllAbove(mlpDims, 0) }

  /** Once defaulted, the decoder width list has a last element. */
  predicate DecoderNonEmpty(mlpDims: Option<seq<int>>) { |mlpDims.GetOr(DefaultDecoderMlpDims)| > 0 }

  /** An omitted quantile list passes; a supplied one passes when every level
      lies in the closed interval [0, 1]. */
  predicate QuantilesOk(q: Option<seq<real>>) {
    q.None? || forall i :: 0 <= i < |q.value| ==> 0.0 <= q.value[i] <= 1.0
  }

  /** A sequence that passes its element check keeps passing once defaulted,
      provided its default does. */
  lemma ResolvedAllAbove(s: Option<seq<int>>, default: seq<int>, bound: int)
    requires SuppliedAllAbove(s, bound)
    requires forall i :: 0 <= i < |default| ==> default[i] > bound
    ensures forall i :: 0 <= i < |s.GetOr(default)| ==> s.GetOr(default)[i] > bound
  {
  }

  /** The supplied or default quantiles all lie in [0, 1] once the check passes. */
  lemma ResolvedQuantilesOk(q: Option<seq<real>>)
    requires QuantilesOk(q)
    ensures forall i :: 0 <= i < |q.GetOr(DefaultQuantiles)| ==> 0.0 <= q.GetOr(DefaultQuantiles)[i] <= 1.0
  {
  }

  /** Arguments of the forking MLP decoder block. */
  datatype DecoderSpec = DecoderSpec(decLen: int, finalDim: int, hiddenDims: seq<int>)

  /** Arguments of the quantile output head. */
  datatype QuantileOutputSpec = QuantileOutputSpec(quantiles: seq<real>)

  /** The decoder `d` has horizon `predictionLength` and splits `mlpDims` into
      hidden widths followed by the final dimension. */
  predicate DecoderBuiltFrom(d: DecoderSpec, predictionLength: int, mlpDims: seq<int>) {
    d.decLen == predictionLength && d.hiddenDims + [d.finalDim] == mlpDims
  }

  /** The decoder arguments: the final dimension is the last MLP width
      (`dims[-1]`), the hidden widths all before it (`dims[:-1]`). An empty
      list has no last element and fails. */
  function BuildDecoder(predictionLength: int, mlpDims: seq<int>): (r: Result<DecoderSpec, ConfigError>)
    ensures r.Success? <==> |mlpDims| > 0
    ensures r.Failure? ==> r.error == EmptyDecoderDims
    ensures r.Success? ==> DecoderBuiltFrom(r.value, predictionLength, mlpDims)
  {
    if |mlpDims| == 0 then Failure(EmptyDecoderDims)
    else Success(DecoderSpec(predictionLength, mlpDims[|mlpDims| - 1], mlpDims[..|mlpDims| - 1]))
  }

  /** Splitting is the inverse of appending the final dimension to the hidden widths. */
  lemma BuildDecoderOfAppend(predictionLength: int, hidden: seq<int>, final: int)
    ensures BuildDecoder(predictionLength, hidden + [final]) == Success(DecoderSpec(predictionLength, final, hidden))
  {
  }

  /** Python's `if seed:` — a seed reseeds the random generators only when it
      is supplied and non-zero; seed 0 is skipped. */
  function AppliedSeed(seed: Option<int>): (r: Option<int>)
    ensures r.Some? <==> seed.Some? && seed.value != 0
    ensures r.Some? ==> r.value == seed.value
  {
    match seed
    case Some(s) => if s != 0 then Some(s) else None
    case None => None
  }
}
