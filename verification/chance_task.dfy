/** `ChanceTask`: the effect-pipeline step that flips a coin.

    One activation asks the game's provider for exactly one coin flip.
    Without `UseFlag`, outcome 0 lets the pipeline continue (COMPLETE) and
    any other outcome stops it (STOP). With `UseFlag`, the step always
    completes and leaves `outcome != 0` in the step's flag for later steps.

    `SimpleTask`, the base class that holds the source, the target and the
    flag and whose `Copy` the clone calls, is not part of this model: its
    state is `TaskBase`, and what `Copy` produces is a parameter of `Clone`. */
module ChanceTask {
  import opened Outcome
  import opened Entities
  import opened Decisions
  import opened Provider
  import RC = RandomController

  /** The two results a chance step can return to the pipeline. */
  datatype TaskState = COMPLETE | STOP

  /** The part of a task that `SimpleTask` owns: the acting and the related
      entity, and the flag (`None` while nothing has set it). */
  datatype TaskBase = TaskBase(ctx: Context, flag: Option<bool>)

  datatype ChanceTask = ChanceTask(useFlag: bool, base: TaskBase)

  /** A task's base state before the pipeline binds it to a source and a target. */
  const Unbound: TaskBase := TaskBase(Context(NoEntity, NoEntity), None)

  /** `new ChanceTask(useFlag = false)`. */
  function New(useFlag: bool := false): (t: ChanceTask)
    ensures t.useFlag == useFlag
    ensures t.base == Unbound
  {
    ChanceTask(useFlag, Unbound)
  }

  /** The constructor's default leaves the flag unused. */
  lemma NewDefaultsToNoFlag()
    ensures !New().useFlag
  {
  }

  /** The decision a coin-flip `outcome` produces: the pipeline signal and
      the ChanceTask afterwards. */
  function Resolve(t: ChanceTask, outcome: int): (r: (TaskState, ChanceTask))
    ensures !t.useFlag ==> (r.0 == COMPLETE <==> outcome == 0)
    ensures !t.useFlag ==> r.1 == t
    ensures t.useFlag ==> r.0 == COMPLETE
    ensures t.useFlag ==> r.1.useFlag && r.1.base.ctx == t.base.ctx
    ensures t.useFlag ==> r.1.base.flag == Some(outcome != 0)
  {
    if !t.useFlag then
      (if outcome == 0 then COMPLETE else STOP, t)
    else
      (COMPLETE, t.(base := t.base.(flag := Some(outcome != 0))))
  }

  /** `Process`: one coin flip from the provider, then the decision. A
      provider failure is passed on unchanged. */
  function Process(t: ChanceTask, p: Provider, rng: nat -> nat): (r: Result<(TaskState, ChanceTask, Provider)>)
    ensures p.Default? ==> r.Ok?
    ensures p.Scripted? ==> r == Err(Unimplemented("CoinFlip"))
    ensures r.Ok? ==> r.value.1.useFlag == t.useFlag && r.value.1.base.ctx == t.base.ctx
    ensures r.Ok? && !t.useFlag ==> r.value.1 == t
    ensures r.Ok? && t.useFlag ==> r.value.0 == COMPLETE
  {
    match Call(p, rng, t.base.ctx, CoinFlip)
    case Err(f) => Err(f)
    case Ok((a, p')) =>
      var (state, t') := Resolve(t, a.n);
      Ok((state, t', p'))
  }

  /** With the default provider, `Process` draws exactly one raw value and
      decides on the coin flip that value gives. */
  lemma {:induction false} ProcessFlipsOnce(t: ChanceTask, used: nat, rng: nat -> nat)
    ensures Process(t, Default(used), rng).Ok?
    ensures Process(t, Default(used), rng).value.2 == Default(used + 1)
    ensures var flip := RC.CoinFlip(rng(used), t.base.ctx);
      !t.useFlag ==> (Process(t, Default(used), rng).value.0 == COMPLETE <==> flip == 0)
    ensures var flip := RC.CoinFlip(rng(used), t.base.ctx);
      t.useFlag ==> Process(t, Default(used), rng).value.1.base.flag == Some(flip == 1)
  {
    var flip := RC.CoinFlip(rng(used), t.base.ctx);
    assert DefaultAnswer(rng, used, t.base.ctx, CoinFlip) == Ok(NumberAnswer(flip)) by {
      assert DefaultNumberAnswer(rng(used), t.base.ctx, CoinFlip) == Ok(NumberAnswer(flip));
    }
  }

  /** `Clone`: a new task with the same `UseFlag`, whose base is what
      `SimpleTask.Copy` makes of the original's. */
  function Clone(t: ChanceTask, copied: TaskBase): (r: ChanceTask)
    ensures r.useFlag == t.useFlag
    ensures r.base == copied
  {
    ChanceTask(t.useFlag, copied)
  }

  /** A clone decides like the original: whatever base `Copy` gives it, one
      activation of the clone succeeds or fails as the original's would, and
      returns the same pipeline signal and leaves the provider in the same
      state, because the coin flip does not read the source or the target. */
  lemma {:induction false} CloneProcessesAlike(t: ChanceTask, copied: TaskBase, p: Provider, rng: nat -> nat)
    ensures Process(Clone(t, copied), p, rng).Ok? == Process(t, p, rng).Ok?
    ensures Process(t, p, rng).Ok? ==>
      Process(Clone(t, copied), p, rng).value.0 == Process(t, p, rng).value.0
      && Process(Clone(t, copied), p, rng).value.2 == Process(t, p, rng).value.2
  {
    CallIgnoresContext(p, rng, CoinFlip, t.base.ctx, copied.ctx);
  }
}
