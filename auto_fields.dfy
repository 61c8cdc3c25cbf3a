/** The fields MQ-CNN derives from a training dataset's statistics
    (MQCNNEstimator.derive_auto_fields in
    src/gluonts/model/seq2seq/_mq_dnn_estimator.py). */
module AutoFields {
  import opened Wrappers
  import MqCnn

  /** The two dataset statistics the derivation reads: the number of dynamic
      real features, and for each static categorical feature the set of
      values it takes. They come from an external scan of the dataset. */
  datatype DatasetStatistics = DatasetStatistics(numFeatDynamicReal: nat, featStaticCat: seq<set<int>>)

  /** The derived constructor arguments. */
  datatype DerivedFields = DerivedFields(useFeatDynamicReal: bool, useFeatStaticCat: bool, cardinality: seq<nat>)

  /** `[len(cats) for cats in featStaticCat]`: one entry per feature, in order. */
  function Cardinalities(featStaticCat: seq<set<int>>): (r: seq<nat>)
    ensures |r| == |featStaticCat|
    ensures forall i :: 0 <= i < |featStaticCat| ==> r[i] == |featStaticCat[i]|
  {
    if featStaticCat == [] then [] else [|featStaticCat[0]|] + Cardinalities(featStaticCat[1..])
  }

  /** The derivation: dynamic real features are used when there are any,
      static categorical features when there are any, and the cardinality of
      each categorical feature is the number of its distinct values. */
  function DeriveAutoFields(stats: DatasetStatistics): (r: DerivedFields)
    ensures r.useFeatDynamicReal <==> stats.numFeatDynamicReal > 0
    ensures r.useFeatStaticCat <==> |stats.featStaticCat| > 0
    ensures |r.cardinality| == |stats.featStaticCat|
    ensures forall i :: 0 <= i < |stats.featStaticCat| ==> r.cardinality[i] == |stats.featStaticCat[i]|
  {
    DerivedFields(
      stats.numFeatDynamicReal > 0,
      |stats.featStaticCat| > 0,
      Cardinalities(stats.featStaticCat))
  }

  /** Static categorical features are switched on exactly when a cardinality
      is derived for at least one of them. */
  lemma CardinalityPresentWhenStaticCatUsed(stats: DatasetStatistics)
    ensures DeriveAutoFields(stats).useFeatStaticCat <==> |DeriveAutoFields(stats).cardinality| > 0
  {
  }

  /** Cardinalities follow the features' order: those of two lists of
      features put together are those of each, put together. */
  lemma CardinalitiesAppend(xs: seq<set<int>>, ys: seq<set<int>>)
    ensures Cardinalities(xs + ys) == Cardinalities(xs) + Cardinalities(ys)
  {
  }

  /** No dynamic real features and two categorical features with 5 and 12
      distinct values give: dynamic reals off, static categoricals on,
      cardinality [5, 12]. */
  lemma TwoCategoricalFeatures(a: set<int>, b: set<int>)
    requires |a| == 5 && |b| == 12
    ensures DeriveAutoFields(DatasetStatistics(0, [a, b])) == DerivedFields(false, true, [5, 12])
  {
  }

  /** MQ-CNN arguments with the derived fields filled in. */
  function WithDerivedFields(a: MqCnn.CnnArgs, f: DerivedFields): (r: MqCnn.CnnArgs)
    ensures r.useFeatDynamicReal == f.useFeatDynamicReal
    ensures r.useFeatStaticCat == f.useFeatStaticCat
    ensures r.cardinality == Some(f.cardinality)
    ensures r.(useFeatDynamicReal := a.useFeatDynamicReal, useFeatStaticCat := a.useFeatStaticCat,
               cardinality := a.cardinality) == a
  {
    a.(useFeatDynamicReal := f.useFeatDynamicReal,
       useFeatStaticCat := f.useFeatStaticCat,
       cardinality := Some(f.cardinality))
  }

  /** Up to the base-class constructor, the derived fields never make MQ-CNN
      construction fail or change its outcome, and they are handed to the
      base-class constructor unchanged. */
  lemma DerivedFieldsPassThrough(a: MqCnn.CnnArgs, stats: DatasetStatistics)
    ensures var b := WithDerivedFields(a, DeriveAutoFields(stats));
            && (MqCnn.Normalize(b).Success? <==> MqCnn.Normalize(a).Success?)
            && (MqCnn.Normalize(a).Failure? ==> MqCnn.Normalize(b) == MqCnn.Normalize(a))
            && (MqCnn.Normalize(b).Success? ==>
                  && MqCnn.Normalize(b).value.useFeatDynamicReal == (stats.numFeatDynamicReal > 0)
                  && MqCnn.Normalize(b).value.useFeatStaticCat == (|stats.featStaticCat| > 0)
                  && MqCnn.Normalize(b).value.cardinality == Some(Cardinalities(stats.featStaticCat))
                  && MqCnn.Normalize(b).value.encoder == MqCnn.Normalize(a).value.encoder
                  && MqCnn.Normalize(b).value.decoder == MqCnn.Normalize(a).value.decoder)
  {
  }
}
