/**
 * Resuming training from a checkpoint: load_from_checkpoint and
 * init_or_load_model in DenseDepth/utils.py.
 *
 * The deep-learning framework is opaque here. A model and an optimiser are
 * objects holding a state dictionary of some type, and restoring them means
 * replacing that dictionary with the one stored in the checkpoint. Only the
 * epoch bookkeeping and the guard that rejects a checkpoint are modelled
 * exactly.
 */
module Checkpoints {

  datatype Option<T> = None | Some(value: T)

  /**
   * A persisted checkpoint: the model's and the optimiser's state
   * dictionaries and the zero-based index of the last completed epoch.
   */
  datatype Checkpoint<P, Q> = Checkpoint(modelState: P, optimState: Q, epoch: int)

  /**
   * The ValueError both loaders raise, with the two numbers its message
   * reports: the epochs provided and the epochs the checkpoint completed.
   */
  datatype EpochError = EpochError(epochsProvided: int, epochsCompleted: int)

  datatype Result<T> = Ok(value: T) | Err(error: EpochError)

  /** A model whose parameters the framework can overwrite in place. */
  class Model<P> {
    var stateDict: P

    constructor (initial: P)
      ensures stateDict == initial
    {
      stateDict := initial;
    }
  }

  /** An optimiser whose state the framework can overwrite in place. */
  class Optimizer<Q> {
    var stateDict: Q

    constructor (initial: Q)
      ensures stateDict == initial
    {
      stateDict := initial;
    }
  }

  /** The number of epochs a checkpoint has completed. */
  function EpochsCompleted<P, Q>(ckpt: Checkpoint<P, Q>): int
  {
    ckpt.epoch + 1
  }

  /**
   * The epochs still to train when resuming towards a total of `epochs`.
   * It is rejected exactly when the checkpoint has already completed
   * `epochs` epochs or more; otherwise it is positive and, added to the
   * epochs completed, reaches the total exactly.
   */
  function RemainingEpochs<P, Q>(ckpt: Checkpoint<P, Q>, epochs: int): (r: Result<int>)
    ensures r.Ok? <==> EpochsCompleted(ckpt) < epochs
    ensures r.Ok? ==> r.value > 0 && EpochsCompleted(ckpt) + r.value == epochs
    ensures r.Err? ==> r.error == EpochError(epochs, EpochsCompleted(ckpt))
  {
    var remaining := epochs - (ckpt.epoch + 1);
    if remaining <= 0 then Err(EpochError(epochs, ckpt.epoch + 1)) else Ok(remaining)
  }

  /**
   * load_from_checkpoint: check the epoch count first and only then restore
   * the model and the optimiser, so a rejected checkpoint leaves both
   * untouched.
   */
  method LoadFromCheckpoint<P, Q>(ckpt: Checkpoint<P, Q>, model: Model<P>, optimizer: Optimizer<Q>, epochs: int)
    returns (r: Result<int>)
    modifies model, optimizer
    ensures r == RemainingEpochs(ckpt, epochs)
    ensures r.Err? ==> unchanged(model, optimizer)
    ensures r.Ok? ==> model.stateDict == ckpt.modelState && optimizer.stateDict == ckpt.optimState
  {
    var remaining := epochs - (ckpt.epoch + 1);
    if remaining <= 0 {
      return Err(EpochError(epochs, ckpt.epoch + 1));
    }
    model.stateDict := ckpt.modelState;
    optimizer.stateDict := ckpt.optimState;
    return Ok(remaining);
  }

  /**
   * The start epoch init_or_load_model computes: 0 without a checkpoint,
   * otherwise the epochs the checkpoint completed, rejected only when that
   * number is not positive. The target `epochs` appears in the error and
   * nowhere else.
   */
  function StartEpoch<P, Q>(ckpt: Option<Checkpoint<P, Q>>, epochs: int): (r: Result<int>)
    ensures ckpt.None? ==> r == Ok(0)
    ensures ckpt.Some? ==> (r.Ok? <==> ckpt.value.epoch >= 0)
    ensures ckpt.Some? && r.Ok? ==> r.value == EpochsCompleted(ckpt.value) && r.value > 0
    ensures ckpt.Some? && r.Err? ==> r.error == EpochError(epochs, EpochsCompleted(ckpt.value))
  {
    match ckpt
    case None => Ok(0)
    case Some(c) =>
      var start := c.epoch + 1;
      if start <= 0 then Err(EpochError(epochs, c.epoch + 1)) else Ok(start)
  }

  /** What init_or_load_model hands back: a fresh model, a fresh optimiser and the start epoch. */
  datatype Initialised<P, Q> = Initialised(model: Model<P>, optimizer: Optimizer<Q>, startEpoch: int)

  /**
   * init_or_load_model: build a fresh model and optimiser (their initial
   * states stand for the framework's construction), overwrite both from the
   * checkpoint if there is one, then compute the start epoch. The restore
   * happens before the guard, but on an error the fresh objects never reach
   * the caller.
   */
  method InitOrLoadModel<P, Q>(initialModel: P, initialOptim: Q, epochs: int, ckpt: Option<Checkpoint<P, Q>>)
    returns (r: Result<Initialised<P, Q>>)
    ensures r.Ok? <==> StartEpoch(ckpt, epochs).Ok?
    ensures r.Err? ==> StartEpoch(ckpt, epochs) == Err(r.error)
    ensures r.Ok? ==> fresh(r.value.model) && fresh(r.value.optimizer)
    ensures r.Ok? ==> r.value.startEpoch == StartEpoch(ckpt, epochs).value
    ensures r.Ok? && ckpt.None? ==>
              r.value.model.stateDict == initialModel && r.value.optimizer.stateDict == initialOptim
    ensures r.Ok? && ckpt.Some? ==>
              r.value.model.stateDict == ckpt.value.modelState && r.value.optimizer.stateDict == ckpt.value.optimState
  {
    var model := new Model(initialModel);
    if ckpt.Some? {
      model.stateDict := ckpt.value.modelState;
    }
    var optimizer := new Optimizer(initialOptim);
    if ckpt.Some? {
      optimizer.stateDict := ckpt.value.optimState;
    }
    var start := 0;
    if ckpt.Some? {
      start := ckpt.value.epoch + 1;
      if start <= 0 {
        return Err(EpochError(epochs, ckpt.value.epoch + 1));
      }
    }
    return Ok(Initialised(model, optimizer, start));
  }

  /** The start epoch of init_or_load_model does not depend on the target number of epochs. */
  lemma StartEpochIgnoresTarget<P, Q>(ckpt: Option<Checkpoint<P, Q>>, epochs1: int, epochs2: int)
    ensures StartEpoch(ckpt, epochs1).Ok? <==> StartEpoch(ckpt, epochs2).Ok?
    ensures StartEpoch(ckpt, epochs1).Ok? ==> StartEpoch(ckpt, epochs1).value == StartEpoch(ckpt, epochs2).value
  {
  }

  /**
   * When both loaders accept the same checkpoint, training from the start
   * epoch for the remaining epochs ends exactly at the target.
   */
  lemma ResumeReachesTarget<P, Q>(ckpt: Checkpoint<P, Q>, epochs: int)
    requires RemainingEpochs(ckpt, epochs).Ok? && StartEpoch(Some(ckpt), epochs).Ok?
    ensures StartEpoch(Some(ckpt), epochs).value + RemainingEpochs(ckpt, epochs).value == epochs
  {
  }

  /**
   * The two guards are different: a checkpoint that has already reached the
   * target is rejected by load_from_checkpoint and accepted by
   * init_or_load_model, and a negative stored epoch is accepted by the first
   * and rejected by the second.
   */
  lemma GuardsDisagree()
    ensures RemainingEpochs(Checkpoint(0, 0, 9), 10) == Err(EpochError(10, 10))
    ensures StartEpoch(Some(Checkpoint(0, 0, 9)), 10) == Ok(10)
    ensures RemainingEpochs(Checkpoint(0, 0, -3), 10) == Ok(12)
    ensures StartEpoch(Some(Checkpoint(0, 0, -3)), 10) == Err(EpochError(10, -2))
  {
  }

  /**
   * Resuming towards 10 epochs: from stored epoch 4 there are 5 left; from
   * stored epoch 9 or 12 the checkpoint is rejected.
   */
  lemma ResumeExamples()
    ensures RemainingEpochs(Checkpoint(0, 0, 4), 10) == Ok(5)
    ensures RemainingEpochs(Checkpoint(0, 0, 9), 10).Err?
    ensures RemainingEpochs(Checkpoint(0, 0, 12), 10) == Err(EpochError(10, 13))
  {
  }
}
