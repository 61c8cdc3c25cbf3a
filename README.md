# MQ-CNN / MQ-RNN estimator configuration, in Dafny

This project models the configuration core of GluonTS's multi-quantile
forecasters, as found in `src/gluonts/model/seq2seq/_mq_dnn_estimator.py`:

- **MQ-CNN construction** (`MQCNNEstimator.__init__`). The constructor checks
  its arguments in a fixed order: horizon, decoder MLP widths, convolution
  channels, dilations, kernel sizes, quantiles. It fills in defaults for
  omitted sequences, then requires the three convolution sequences to have
  equal length. It then splits the decoder widths into hidden widths and a
  final dimension. The result is the estimator's stored sequences plus the
  arguments of its encoder, decoder and quantile-head blocks.
- **MQ-RNN construction** (`MQRNNEstimator.__init__`). This runs the horizon,
  decoder and quantile part of the same checks and defaults, with a fixed
  bidirectional GRU encoder.
- **Auto-field derivation** (`derive_auto_fields`). This maps dataset
  statistics to `use_feat_dynamic_real`, `use_feat_static_cat` and
  `cardinality`.

Everything is pure: each constructor is a function
`Normalize(args) -> Result<Estimator, ConfigError>`. `None` arguments are
`Option`s. Each Python `assert`, and the `IndexError` that `[-1]` raises on an
empty decoder list, is a `ConfigError`. The error reported is always the first
check that fails, in source order.

Files:
- `wrappers.dfy`: `Option` and `Result`.
- `hyperparams.dfy`: things both estimators share:
  - the element checks, written as Python's `all(...)`;
  - the default decoder widths and quantiles;
  - the decoder split;
  - the seed rule.
- `mq_cnn.dfy`, `mq_rnn.dfy`, `auto_fields.dfy`: one module per component.

Quantile levels are `real`s, because the source only compares them with 0
and 1. Every construction is a function of its arguments, so constructing
twice with the same arguments gives the same blocks.

The code and its docstring disagree in three places. The model follows the code:
- `enable_decoder_dynamic_feature` defaults to `False` in the signature,
  although the docstring says `True`.
- The kernel-size check demands every size `> 1`, although its message says
  `> 0`.
- The docstring says the seed is set "if specified", but the code tests
  `if seed:`. So a supplied seed of 0 is never applied.

## Model

| member | source | states |
|---|---|---|
| `Hyperparams.AllAbove` | src/gluonts/model/seq2seq/_mq_dnn_estimator.py:134-146 | the front-to-back `all(d > bound ...)` walk holds exactly when every element exceeds the bound |
| `Hyperparams.AllInUnitInterval` | src/gluonts/model/seq2seq/_mq_dnn_estimator.py:147-149 | the `all(0 <= d <= 1 ...)` walk holds exactly when every level lies in the closed interval [0, 1] |
| `Hyperparams.BuildDecoder` | src/gluonts/model/seq2seq/_mq_dnn_estimator.py:194-199 | a decoder is built exactly when the width list is non-empty; its horizon is the prediction length and hidden widths followed by the final dimension give back the list; an empty list fails with the index error |
| `Hyperparams.BuildDecoderOfAppend` | src/gluonts/model/seq2seq/_mq_dnn_estimator.py:194-199 | splitting `hidden + [final]` yields exactly `final` as final dimension and `hidden` as hidden widths (the inverse of the split) |
| `Hyperparams.AppliedSeed` | src/gluonts/model/seq2seq/_mq_dnn_estimator.py:178-180 | a seed is applied exactly when it is supplied and non-zero (`if seed:`), and then it is that seed |
| `MqCnn.DefaultArgs` | src/gluonts/model/seq2seq/_mq_dnn_estimator.py:106-129 | the signature's defaults: every optional argument omitted, feature flags and feature-engineering switches off, `enable_decoder_dynamic_feature` off, `use_residual` on, `scaling` off |
| `MqCnn.ElementError` | src/gluonts/model/seq2seq/_mq_dnn_estimator.py:131-149 | no error exactly when all six element checks pass; each error kind is reported exactly when its check fails and every earlier check passes (horizon, decoder widths, channels, dilations, kernel sizes > 1, quantiles in [0, 1]; omitted sequences pass) |
| `MqCnn.Assemble` | src/gluonts/model/seq2seq/_mq_dnn_estimator.py:151-221 | after the element checks: success exactly when the defaulted convolution sequences have equal length and the defaulted decoder list is non-empty; a length mismatch reports the three lengths; success yields a valid estimator storing supplied sequences unchanged and defaults for omitted ones, with all other arguments passed through |
| `MqCnn.Normalize` | src/gluonts/model/seq2seq/_mq_dnn_estimator.py:131-221 | construction succeeds exactly on accepted arguments (all checks, length check after defaulting, non-empty decoder list); a failure is the first failed check; success gives an estimator with the invariants of a valid MQ-CNN, the defaults or supplied sequences, the seed rule and pass-through fields |
| `MqCnn.DefaultsAccepted` | src/gluonts/model/seq2seq/_mq_dnn_estimator.py:151-176 | with all defaults, construction succeeds exactly for a positive horizon, with channels [30,30,30], dilations [1,3,5], kernels [7,3,3], decoder final dimension 30 and no hidden layers, the nine deciles, and no seed |
| `MqCnn.KernelSizeOneRejected` | src/gluonts/model/seq2seq/_mq_dnn_estimator.py:143-146 | kernel sizes [1,3,3] are rejected with the kernel-size error |
| `MqCnn.ShortChannelsAloneRejected` | src/gluonts/model/seq2seq/_mq_dnn_estimator.py:169-176 | two positive channels supplied alone fail the length check against the default lengths, reporting 2 vs. 3 vs. 3 |
| `MqCnn.EmptyDecoderListRejected` | src/gluonts/model/seq2seq/_mq_dnn_estimator.py:134-199 | an empty decoder list passes the element check yet construction fails at taking its last element |
| `MqCnn.BoundaryQuantilesAccepted` | src/gluonts/model/seq2seq/_mq_dnn_estimator.py:147-149 | quantiles [0, 1] are accepted |
| `MqRnn.DefaultArgs` | src/gluonts/model/seq2seq/_mq_dnn_estimator.py:250-259 | the signature's defaults: context length, decoder widths and quantiles omitted, `scaling` on |
| `MqRnn.Normalize` | src/gluonts/model/seq2seq/_mq_dnn_estimator.py:261-310 | construction succeeds exactly when the horizon is positive, supplied decoder widths are positive, supplied quantiles lie in [0, 1] and the defaulted decoder list is non-empty; each error is the first failed check; success gives the fixed GRU encoder, the split decoder, the defaulted or supplied sequences and pass-through fields |
| `MqRnn.ChecksAreCnnSubset` | src/gluonts/model/seq2seq/_mq_dnn_estimator.py:261-278 | on the arguments both share, MQ-RNN and MQ-CNN fail with the same error or both succeed with the same decoder and quantile head |
| `MqRnn.DefaultsAccepted` | src/gluonts/model/seq2seq/_mq_dnn_estimator.py:271-297 | with all defaults, construction succeeds exactly for a positive horizon, with a bidirectional one-layer GRU encoder of hidden size 50, decoder final dimension 30 and no hidden layers, the nine deciles, and scaling on |
| `AutoFields.Cardinalities` | src/gluonts/model/seq2seq/_mq_dnn_estimator.py:230 | one entry per categorical feature, each the number of that feature's distinct values |
| `AutoFields.DeriveAutoFields` | src/gluonts/model/seq2seq/_mq_dnn_estimator.py:227-231 | dynamic reals are used exactly when their count is positive, static categoricals exactly when there are any, and the cardinality list has one entry per feature equal to its value-set size |
| `AutoFields.CardinalityPresentWhenStaticCatUsed` | src/gluonts/model/seq2seq/_mq_dnn_estimator.py:227-231 | static categoricals are switched on exactly when a non-empty cardinality is derived |
| `AutoFields.CardinalitiesAppend` | src/gluonts/model/seq2seq/_mq_dnn_estimator.py:230 | cardinalities follow the features' order: those of a concatenation are the concatenation of those of the parts |
| `AutoFields.TwoCategoricalFeatures` | src/gluonts/model/seq2seq/_mq_dnn_estimator.py:227-231 | no dynamic reals and two features with 5 and 12 values give false, true and [5, 12] |
| `AutoFields.WithDerivedFields` | src/gluonts/model/seq2seq/_mq_dnn_estimator.py:54-63 | the three derived fields replace `use_feat_dynamic_real`, `use_feat_static_cat` and `cardinality`; every other argument is unchanged |
| `AutoFields.DerivedFieldsPassThrough` | src/gluonts/model/seq2seq/_mq_dnn_estimator.py:205-221 | up to the base-class constructor, filling the derived fields into MQ-CNN arguments never changes whether or how construction fails; the fields are handed to the base-class constructor unchanged, and the encoder and decoder stay the same |

## Left out

- The MXNet blocks are only records of the arguments the constructors pass to
  them. These blocks are `HierarchicalCausalConv1DEncoder`, `RNNEncoder`,
  `ForkingMLPDecoder` and `QuantileOutput`. The base class
  `ForkingSeq2SeqEstimator` is not part of this model. Its own defaults are
  not modelled either, such as the context length and the embedding
  dimensions.
- Random seeding: the model records which seed would be applied. It does not
  model the process-wide effect on the numpy and MXNet random generators. In
  the source, seeding happens before the decoder split. So an empty decoder
  list has already reseeded the generators when construction fails. The pure
  model does not capture that.
- `calculate_dataset_statistics` is an external scan of the dataset. The model
  takes its result as an input record. The log message of
  `derive_auto_fields` is output only.
- Foreign calls are assumed to return: NumPy and MXNet seeding, and the
  encoder and decoder block constructors, all of which run before the
  base-class constructor. In particular, NumPy rejects seeds outside
  [0, 2**32 - 1]. For such a seed the model succeeds where the program
  raises ValueError.
- A successful `Normalize` means construction reaches the base-class
  constructor (`super().__init__`), provided these foreign calls return.
  That constructor's own checks are not part of this model. They include the docstring's rule that `cardinality`
  must be set when `use_feat_static_cat` is on, and the handling of
  `context_length` and `embedding_dimension`. Those arguments are only
  passed through here.
- The MQ-CNN parameters `sampling` and `distr_output` are not modelled. They
  are stored without being checked. `trainer` is an opaque pass-through
  object.
- The MQ-CNN signature's default `GaussianOutput()` and its annotation
  `DistributionOutput` name classes the file does not import. Both are
  evaluated when the class body runs. So importing the module as written
  raises NameError, and neither estimator can be built. The model describes
  the constructors as they would run with those names resolved.
- `@validated()` checks and converts every argument against its type
  annotation before the constructor body runs. The Dafny argument types
  stand in for that step. Its conversions and its errors are not modelled.
- `from_inputs`, which merges the derived fields into the constructor
  arguments, belongs to the base class. `AutoFields.WithDerivedFields` assumes
  the derived values replace the three arguments.
- Error messages are not modelled, only which check failed and, for a length
  mismatch, the three lengths.
- The model treats the checks as always active. Python drops `assert`
  statements under `-O`.
- Floating point: quantiles are exact reals. So a NaN level, which Python
  rejects because every comparison with NaN is false, has no counterpart.
- Training, prediction and all numeric work are done by the framework.
