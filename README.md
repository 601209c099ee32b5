# DenseDepth utilities in Dafny

A Dafny model of the parts of `DenseDepth/utils.py` that have exact behaviour:
these are helper routines for a monocular depth-estimation training pipeline.

- `AverageMeter` (`average_meter.dfy`, module `AverageMeters`) is a running weighted
  average. It is modelled as a class with the four fields `val`, `avg`, `sum` and `count`,
  which `Reset` and `Update` change in place. A ghost record of the samples seen since
  the last reset lets the object invariant `Valid()` say what `avg` means: it is the
  weighted mean of those samples whenever `count` is not zero. `Update` keeps the
  source's order of effects. It sets `val`, `sum` and `count` first, and only then
  divides. When the new count is zero it reports `ZeroDivisionError`; `avg` keeps its
  old value and the other three fields stay updated, exactly as the Python leaves
  them when the division raises.
- The checkpoint bookkeeping (`checkpoints.dfy`, module `Checkpoints`):
  - `load_from_checkpoint` computes the remaining epochs. It rejects the checkpoint
    before restoring anything.
  - `init_or_load_model` computes the start epoch. Its guard looks only at the stored
    epoch, never at the target number of epochs.
  - Models and optimisers are objects holding an opaque state dictionary.
  - A checkpoint is a record of two state dictionaries and an integer `epoch`.
  - The `ValueError` is the `Err` case of a `Result`.
- The threshold-accuracy and `abs_rel` metrics of `compute_depth_estimation_metrics`
  (`depth_metrics.dfy`, module `DepthMetrics`). A depth map is flattened to a sequence
  of positive reals. From it the model computes the symmetric ratio `max(t/p, p/t)`,
  the fractions `a1`, `a2`, `a3` of ratios strictly below `1.25`, `1.25²` and `1.25³`,
  and the mean relative error.
- `depth_norm` (`depth_norm.dfy`, module `DepthNormalization`) is `max_depth / depth`
  for any non-zero depth, with the default `max_depth` of 1000.

The guard in `init_or_load_model` (`DenseDepth/utils.py:160`) only rejects a start
epoch that is not positive. It does not apply the completion check of
`load_from_checkpoint`, although the error message it raises is the same one. The
model follows the code. `GuardsDisagree` exhibits a checkpoint each guard accepts
and the other rejects.

## Model

| member | source | states |
|---|---|---|
| `AverageMeters.AverageMeter.constructor` | DenseDepth/utils.py:70-77 | a new meter has `val`, `avg`, `sum` and `count` all 0, no samples, and satisfies the invariant |
| `AverageMeters.AverageMeter.Reset` | DenseDepth/utils.py:73-77 | sets all four fields to 0 and forgets every sample, restoring the invariant from any state |
| `AverageMeters.AverageMeter.Update` | DenseDepth/utils.py:79-83 | sets `val`; adds `val*n` to `sum` and `n` to `count`; succeeds exactly when the new count is non-zero, and then `avg * count == sum`; on a zero count `avg` is left as it was; keeps `avg` equal to the weighted mean of all samples since the reset |
| `AverageMeters.MeanOfConstant` | DenseDepth/utils.py:79-83 | the weighted mean of samples that all have the value c is c |
| `AverageMeters.MeanWithinBounds` | DenseDepth/utils.py:79-83 | with positive weights, the weighted mean of values in [lo, hi] lies in [lo, hi] |
| `AverageMeters.WeightedSumBounds` | DenseDepth/utils.py:81-82 | with positive weights, `sum` lies between lo and hi times `count` |
| `AverageMeters.BatchAverageExample` | DenseDepth/utils.py:69-83 | after `update(2, 3)` and `update(4)` the average is 2.5, and after `reset` it is 0 |
| `Checkpoints.RemainingEpochs` | DenseDepth/utils.py:127-130 | rejected exactly when the epochs completed (`epoch + 1`) reach the target; otherwise positive, and completed plus remaining equals the target; the error carries the target and the epochs completed |
| `Checkpoints.LoadFromCheckpoint` | DenseDepth/utils.py:125-135 | returns the remaining epochs or the error; on error the model and optimiser are unchanged; on success both hold the checkpoint's state dictionaries |
| `Checkpoints.StartEpoch` | DenseDepth/utils.py:156-162 | 0 without a checkpoint; with one, rejected exactly when the stored epoch is negative, otherwise `epoch + 1`, which is positive |
| `Checkpoints.InitOrLoadModel` | DenseDepth/utils.py:138-164 | fails exactly when the start epoch is rejected; otherwise returns a fresh model and optimiser holding the checkpoint's states, or the initial ones if there is no checkpoint, and the start epoch |
| `Checkpoints.StartEpochIgnoresTarget` | DenseDepth/utils.py:160-162 | whether `init_or_load_model` accepts, and the start epoch, do not depend on the target number of epochs |
| `Checkpoints.ResumeReachesTarget` | DenseDepth/utils.py:127-158 | when both loaders accept a checkpoint, start epoch plus remaining epochs equals the target |
| `Checkpoints.GuardsDisagree` | DenseDepth/utils.py:127-162 | stored epoch 9 with target 10 is rejected by `load_from_checkpoint` and starts at 10 in `init_or_load_model`; stored epoch -3 is accepted by the first with 12 left and rejected by the second |
| `Checkpoints.ResumeExamples` | DenseDepth/utils.py:127-135 | target 10: stored epoch 4 leaves 5 epochs, stored epochs 9 and 12 are rejected |
| `DepthMetrics.ThresholdRatio` | DenseDepth/utils.py:204 | for positive depths the ratio is at least 1, and equals 1 exactly when truth and prediction agree |
| `DepthMetrics.WithinFactor` | DenseDepth/utils.py:204-207 | a ratio is below a band b exactly when each depth is less than b times the other |
| `DepthMetrics.Ratios` | DenseDepth/utils.py:204 | one ratio per pixel, each at least 1 |
| `DepthMetrics.CountBelow` | DenseDepth/utils.py:205-207 | the number of ratios strictly below a band never exceeds the number of pixels |
| `DepthMetrics.CountBelowMonotone` | DenseDepth/utils.py:205-207 | a looser band never counts fewer pixels |
| `DepthMetrics.CountBelowFull` | DenseDepth/utils.py:205-207 | every pixel is counted exactly when every ratio is below the band |
| `DepthMetrics.CountBelowEmpty` | DenseDepth/utils.py:205-207 | no pixel is counted exactly when no ratio is below the band |
| `DepthMetrics.ThresholdAccuracy` | DenseDepth/utils.py:205-207 | the fraction of pixels within a band lies in [0, 1] |
| `DepthMetrics.ThresholdAccuracyMonotone` | DenseDepth/utils.py:205-207 | a looser band never yields a lower accuracy |
| `DepthMetrics.ThresholdAccuracyOne` | DenseDepth/utils.py:205-207 | an accuracy is 1 exactly when every pixel's ratio is below the band |
| `DepthMetrics.SumAbsRel` | DenseDepth/utils.py:210 | the summed relative error is non-negative |
| `DepthMetrics.SumAbsRelZero` | DenseDepth/utils.py:210 | the summed relative error is 0 exactly when the two maps are identical |
| `DepthMetrics.AbsRel` | DenseDepth/utils.py:210 | `abs_rel` is non-negative |
| `DepthMetrics.AbsRelZero` | DenseDepth/utils.py:210 | `abs_rel` is 0 exactly when prediction equals truth |
| `DepthMetrics.ComputeDepthEstimationMetrics` | DenseDepth/utils.py:200-210 | `0 <= a1 <= a2 <= a3 <= 1` and `abs_rel >= 0` for all comparable maps |
| `DepthMetrics.IdenticalMaps` | DenseDepth/utils.py:239 | comparing a depth map with itself gives `a1 = a2 = a3 = 1` and `abs_rel = 0` |
| `DepthMetrics.PerfectAccuracy` | DenseDepth/utils.py:205-207 | `a1`, `a2` and `a3` are each 1 exactly when every ratio is below 1.25, 1.25² and 1.25³ respectively |
| `DepthMetrics.RatioAtBandIsNotCounted` | DenseDepth/utils.py:205-207 | a pixel predicted at exactly 1.25 times its depth is outside `a1` and inside `a2` and `a3`: the comparison is strict |
| `DepthMetrics.MetricsScaleInvariant` | DenseDepth/utils.py:204-210 | scaling both maps by the same positive factor leaves `a1`, `a2`, `a3` and `abs_rel` unchanged |
| `DepthMetrics.SumAbsRelScale` | DenseDepth/utils.py:210 | the summed relative error does not change when both maps are scaled by the same positive factor |
| `DepthMetrics.ThresholdRatioScale` | DenseDepth/utils.py:204 | one pixel's ratio does not change when both depths are scaled by the same positive factor |
| `DepthMetrics.RatiosScale` | DenseDepth/utils.py:204 | the whole ratio tensor does not change when both maps are scaled by the same positive factor |
| `DepthMetrics.AccuraciesSymmetric` | DenseDepth/utils.py:204-207 | `a1`, `a2`, `a3` do not change when truth and prediction swap |
| `DepthMetrics.WorkedExample` | DenseDepth/utils.py:200-210 | truth [1, 2, 4] against prediction [1.25, 2, 3.2] gives `a1 = 1/3`, `a2 = a3 = 1`, `abs_rel = 0.15` |
| `DepthNormalization.DepthNorm` | DenseDepth/utils.py:11-12 | for any non-zero depth and any max_depth, the result times the depth gives max_depth; it is positive exactly when depth and max_depth have the same sign, and zero exactly when max_depth is |
| `DepthNormalization.DepthNormInvolution` | DenseDepth/utils.py:11-12 | normalising twice with the same non-zero max_depth gives the depth back |
| `DepthNormalization.DepthNormAntitone` | DenseDepth/utils.py:11-12 | for a positive max_depth, a farther point gets a strictly smaller normalised value |
| `DepthNormalization.DepthNormDefaults` | DenseDepth/utils.py:11-12 | with the default max_depth of 1000, depth 10 becomes 100 and depth 1000 becomes 1 |

## Left out

- ComputeDepthEstimationMetrics: returns four of the six metrics. `rmse` needs a square root and `log_10` a base-10 logarithm (`DenseDepth/utils.py:213-216`). Neither has an exact counterpart over Dafny's reals.
- ComputeDepthEstimationMetrics: requires non-empty maps of equal length whose entries are all positive. The positivity is a precondition this model imposes; `DenseDepth/utils.py:178-225` does not check it.
  - Zero prediction, positive truth: the ratio is infinite (`utils.py:204`). The pixel misses every band, and its `abs_rel` term is exactly 1.
  - Negative prediction, positive truth: the ratio is negative. The pixel is therefore counted inside all three bands, as if it were accurate, and its `abs_rel` term is `1 + |p|/t`.
  - Zero truth: the ratio and the `abs_rel` term are infinite or NaN. Negative truth: the `abs_rel` term is negative.
  - These cases are not modelled: in the model the ratio is always a real number of at least 1. With a positive truth, the only one of the six metrics that becomes infinite or NaN is the left-out `log_10`, for a zero or negative prediction.
  - An empty map makes the framework's mean NaN. Maps of different shapes are broadcast or rejected by the framework.
- All metric and `depth_norm` arithmetic is over exact reals. The `float32` cast at `DenseDepth/utils.py:12` and the `.float()` / `.item()` conversions are not modelled.
- DepthNorm: is modelled for one depth. The source applies it elementwise to a tensor. It accepts any max_depth and any non-zero depth, negative ones included. A depth of exactly 0 is excluded: there the framework yields an infinity, or NaN when max_depth is also 0, rather than raising.
- AverageMeters.AverageMeter.Update: models `val` and `n` as a real and an integer. The source also accepts tensors, and for a tensor a zero count gives an infinite or NaN average instead of a `ZeroDivisionError`.
- Reading the checkpoint file (`torch.load`) is left out; the checkpoint is passed in as a record. `load_state_dict` is modelled as replacing an opaque state dictionary.
- Building the network, moving it to a device and creating the Adam optimiser (`DenseDepth/utils.py:144-151`) are foreign framework calls. Their resulting states are parameters of `InitOrLoadModel`. The unused `loss_meter` argument of both loaders is dropped.
- `load_image`, `load_data` and `load_images` are left out. They read files (PIL, HDF5) and reshape arrays.
- `show_image`, `show_depth_map` and `apply_colormap` are left out. They are plotting calls and colour-map lookups.
- `main` is left out. It is demonstration code.
