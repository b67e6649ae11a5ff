/** The gateway tool scheduler: tool calls of any number of concurrent rounds, each taking its
    permits in the order exclusion, batch slot, materialization, and charging a shared budget. */
module GatewayScheduler {
  import opened Basics

  const MAX_CONCURRENT_MATERIALIZATIONS: nat := 16
  const MAX_GATEWAY_TOOL_OUTPUT_BYTES: nat := 1024 * 1024

  /** How a dispatched handler ends. `ErrorOutput` covers an execution or configuration error and an
      elapsed timeout, each of which becomes an output fed back to the model. */
  datatype Dispatch = Output(bytes: nat) | ErrorOutput(bytes: nat) | Fatal

  datatype Task =
    | Bound(batch: nat, exclusion: Option<nat>, dispatch: Dispatch)
    | MissingHandler(batch: nat, bytes: nat)
    | Discovery   // MCP discovery, which takes a materialization permit and nothing else

  datatype Fault = OutputTooLarge | BudgetExceeded | ToolFault

  datatype Stage = Queued | HasExclusion | HasSlot | Running | Finished(outcome: Result<nat, Fault>) | Cancelled

  /** `budgets[b]` is what was left of the request's byte budget when batch `b` began. */
  datatype Config = Config(tasks: seq<Task>, maxCalls: nat, tools: nat, budgets: seq<nat>)

  ghost predicate ValidConfig(cfg: Config) {
    && cfg.maxCalls >= 1
    && forall i | 0 <= i < |cfg.tasks| :: ValidTask(cfg, cfg.tasks[i])
  }

  predicate ValidTask(cfg: Config, task: Task) {
    && (task.Discovery? || task.batch < |cfg.budgets|)
    && (task.Bound? && task.exclusion.Some? ==> task.exclusion.value < cfg.tools)
  }

  datatype State = State(
    stages: seq<Stage>,
    exclusionFree: seq<nat>,
    slotFree: seq<nat>,
    materializationFree: nat,
    remaining: seq<nat>)

  predicate Shaped(cfg: Config, s: State) {
    && |s.stages| == |cfg.tasks|
    && |s.exclusionFree| == cfg.tools
    && |s.slotFree| == |s.remaining| == |cfg.budgets|
  }

  function Init(cfg: Config): (s: State)
    ensures Shaped(cfg, s)
  {
    State(seq(|cfg.tasks|, _ => Queued), seq(cfg.tools, _ => 1), seq(|cfg.budgets|, _ => cfg.maxCalls),
          MAX_CONCURRENT_MATERIALIZATIONS, cfg.budgets)
  }

  predicate Terminal(stage: Stage) {
    stage.Finished? || stage.Cancelled?
  }

  // Which permits a call holds is read off the point it has reached.

  predicate HoldsExclusion(task: Task, stage: Stage, tool: nat) {
    task.Bound? && task.exclusion == Some(tool) && (stage.HasExclusion? || stage.HasSlot? || stage.Running?)
  }

  predicate HoldsSlot(task: Task, stage: Stage, batch: nat) {
    task.Bound? && task.batch == batch && (stage.HasSlot? || stage.Running?)
  }

  predicate HoldsMaterialization(task: Task, stage: Stage) {
    !task.MissingHandler? && stage.Running?
  }

  function One(b: bool): nat { if b then 1 else 0 }

  function ExclusionHolders(cfg: Config, stages: seq<Stage>, tool: nat): seq<nat>
    requires |stages| == |cfg.tasks|
  {
    seq(|stages|, i requires 0 <= i < |stages| => One(HoldsExclusion(cfg.tasks[i], stages[i], tool)))
  }

  function SlotHolders(cfg: Config, stages: seq<Stage>, batch: nat): seq<nat>
    requires |stages| == |cfg.tasks|
  {
    seq(|stages|, i requires 0 <= i < |stages| => One(HoldsSlot(cfg.tasks[i], stages[i], batch)))
  }

  function MaterializationHolders(cfg: Config, stages: seq<Stage>): seq<nat>
    requires |stages| == |cfg.tasks|
  {
    seq(|stages|, i requires 0 <= i < |stages| => One(HoldsMaterialization(cfg.tasks[i], stages[i])))
  }

  datatype Step =
    | TakeExclusion(task: nat)
    | TakeSlot(task: nat)
    | TakeMaterialization(task: nat)
    | Finish(task: nat)
    | Cancel(task: nat)

  predicate Enabled(cfg: Config, s: State, step: Step)
    requires ValidConfig(cfg) && Shaped(cfg, s)
  {
    && step.task < |cfg.tasks|
    && var task, stage := cfg.tasks[step.task], s.stages[step.task];
       match step
       case TakeExclusion(i) =>
         task.Bound? && stage.Queued? && (task.exclusion.Some? ==> s.exclusionFree[task.exclusion.value] > 0)
       case TakeSlot(i) => task.Bound? && stage.HasExclusion? && s.slotFree[task.batch] > 0
       case TakeMaterialization(i) =>
         && s.materializationFree > 0
         && ((task.Bound? && stage.HasSlot?) || (task.Discovery? && stage.Queued?))
       case Finish(i) => if task.MissingHandler? then stage.Queued? else stage.Running?
       case Cancel(i) => !Terminal(stage)
  }

  /** The two checks behind every produced output: its own cap, then the shared budget. */
  function Settle(task: Task, remaining: nat): Result<nat, Fault>
    requires !task.Discovery?
  {
    if task.Bound? && task.dispatch.Fatal? then Failure(ToolFault)
    else
      var bytes := OutputBytes(task);
      if bytes > MAX_GATEWAY_TOOL_OUTPUT_BYTES then Failure(OutputTooLarge)
      else if bytes > remaining then Failure(BudgetExceeded)
      else Success(bytes)
  }

  function OutputBytes(task: Task): nat {
    match task
    case Bound(_, _, Output(bytes)) => bytes
    case Bound(_, _, ErrorOutput(bytes)) => bytes
    case MissingHandler(_, bytes) => bytes
    case _ => 0
  }

  /** Dropping a call's permits, in whatever stage it is. */
  function Release(cfg: Config, s: State, i: nat): State
    requires ValidConfig(cfg) && Shaped(cfg, s) && i < |cfg.tasks|
  {
    var task, stage := cfg.tasks[i], s.stages[i];
    var exclusionFree :=
      if task.Bound? && task.exclusion.Some? && HoldsExclusion(task, stage, task.exclusion.value)
      then s.exclusionFree[task.exclusion.value := s.exclusionFree[task.exclusion.value] + 1] else s.exclusionFree;
    var slotFree :=
      if task.Bound? && HoldsSlot(task, stage, task.batch)
      then s.slotFree[task.batch := s.slotFree[task.batch] + 1] else s.slotFree;
    s.(exclusionFree := exclusionFree, slotFree := slotFree,
       materializationFree := s.materializationFree + One(HoldsMaterialization(task, stage)))
  }

  function Apply(cfg: Config, s: State, step: Step): (s': State)
    requires ValidConfig(cfg) && Shaped(cfg, s) && Enabled(cfg, s, step)
    ensures Shaped(cfg, s')
  {
    var task := cfg.tasks[step.task];
    match step
    case TakeExclusion(i) =>
      var free := if task.exclusion.None? then s.exclusionFree
                  else s.exclusionFree[task.exclusion.value := s.exclusionFree[task.exclusion.value] - 1];
      s.(stages := s.stages[i := HasExclusion], exclusionFree := free)
    case TakeSlot(i) =>
      s.(stages := s.stages[i := HasSlot], slotFree := s.slotFree[task.batch := s.slotFree[task.batch] - 1])
    case TakeMaterialization(i) =>
      s.(stages := s.stages[i := Running], materializationFree := s.materializationFree - 1)
    case Finish(i) =>
      var released := Release(cfg, s, i);
      if task.Discovery? then released.(stages := s.stages[i := Finished(Success(0))])
      else
        var outcome := Settle(task, s.remaining[task.batch]);
        var remaining := if outcome.Success? then s.remaining[task.batch := s.remaining[task.batch] - outcome.value]
                         else s.remaining;
        released.(stages := s.stages[i := Finished(outcome)], remaining := remaining)
    case Cancel(i) => Release(cfg, s, i).(stages := s.stages[i := Cancelled])
  }

  ghost predicate Legal(cfg: Config, s: State, steps: seq<Step>)
    requires ValidConfig(cfg) && Shaped(cfg, s)
    decreases |steps|
  {
    steps == [] || (Enabled(cfg, s, steps[0]) && Legal(cfg, Apply(cfg, s, steps[0]), steps[1..]))
  }

  ghost function Execute(cfg: Config, s: State, steps: seq<Step>): (s': State)
    requires ValidConfig(cfg) && Shaped(cfg, s) && Legal(cfg, s, steps)
    ensures Shaped(cfg, s')
    decreases |steps|
  {
    if steps == [] then s else Execute(cfg, Apply(cfg, s, steps[0]), steps[1..])
  }

  // ----- permits are conserved -----

  ghost predicate PermitsConserved(cfg: Config, s: State)
    requires Shaped(cfg, s)
  {
    && (forall x | 0 <= x < cfg.tools :: s.exclusionFree[x] + Sum(ExclusionHolders(cfg, s.stages, x)) == 1)
    && (forall b | 0 <= b < |cfg.budgets| :: s.slotFree[b] + Sum(SlotHolders(cfg, s.stages, b)) == cfg.maxCalls)
    && s.materializationFree + Sum(MaterializationHolders(cfg, s.stages)) == MAX_CONCURRENT_MATERIALIZATIONS
  }

  lemma InitConservesPermits(cfg: Config)
    requires ValidConfig(cfg)
    ensures PermitsConserved(cfg, Init(cfg))
  {
    var s := Init(cfg);
    forall x | 0 <= x < cfg.tools ensures Sum(ExclusionHolders(cfg, s.stages, x)) == 0 {
      SumZero(ExclusionHolders(cfg, s.stages, x));
    }
    forall b | 0 <= b < |cfg.budgets| ensures Sum(SlotHolders(cfg, s.stages, b)) == 0 {
      SumZero(SlotHolders(cfg, s.stages, b));
    }
    SumZero(MaterializationHolders(cfg, s.stages));
  }

  /** Moving one call to a new stage changes each holder count by that call's own contribution. */
  lemma HoldersAfterMove(cfg: Config, stages: seq<Stage>, i: nat, stage: Stage)
    requires |stages| == |cfg.tasks| && i < |stages|
    ensures forall x: nat ::
      Sum(ExclusionHolders(cfg, stages[i := stage], x)) ==
      Sum(ExclusionHolders(cfg, stages, x)) - One(HoldsExclusion(cfg.tasks[i], stages[i], x))
      + One(HoldsExclusion(cfg.tasks[i], stage, x))
    ensures forall b: nat ::
      Sum(SlotHolders(cfg, stages[i := stage], b)) ==
      Sum(SlotHolders(cfg, stages, b)) - One(HoldsSlot(cfg.tasks[i], stages[i], b))
      + One(HoldsSlot(cfg.tasks[i], stage, b))
    ensures Sum(MaterializationHolders(cfg, stages[i := stage])) ==
            Sum(MaterializationHolders(cfg, stages)) - One(HoldsMaterialization(cfg.tasks[i], stages[i]))
            + One(HoldsMaterialization(cfg.tasks[i], stage))
  {
    var moved := stages[i := stage];
    forall x: nat
      ensures Sum(ExclusionHolders(cfg, moved, x)) ==
        Sum(ExclusionHolders(cfg, stages, x)) - One(HoldsExclusion(cfg.tasks[i], stages[i], x))
        + One(HoldsExclusion(cfg.tasks[i], stage, x))
    {
      assert ExclusionHolders(cfg, moved, x) ==
        ExclusionHolders(cfg, stages, x)[i := One(HoldsExclusion(cfg.tasks[i], stage, x))];
      SumUpdate(ExclusionHolders(cfg, stages, x), i, One(HoldsExclusion(cfg.tasks[i], stage, x)));
    }
    forall b: nat
      ensures Sum(SlotHolders(cfg, moved, b)) ==
        Sum(SlotHolders(cfg, stages, b)) - One(HoldsSlot(cfg.tasks[i], stages[i], b))
        + One(HoldsSlot(cfg.tasks[i], stage, b))
    {
      assert SlotHolders(cfg, moved, b) ==
        SlotHolders(cfg, stages, b)[i := One(HoldsSlot(cfg.tasks[i], stage, b))];
      SumUpdate(SlotHolders(cfg, stages, b), i, One(HoldsSlot(cfg.tasks[i], stage, b)));
    }
    assert MaterializationHolders(cfg, moved) ==
      MaterializationHolders(cfg, stages)[i := One(HoldsMaterialization(cfg.tasks[i], stage))];
    SumUpdate(MaterializationHolders(cfg, stages), i, One(HoldsMaterialization(cfg.tasks[i], stage)));
  }

  lemma StepConservesPermits(cfg: Config, s: State, step: Step)
    requires ValidConfig(cfg) && Shaped(cfg, s) && PermitsConserved(cfg, s) && Enabled(cfg, s, step)
    ensures PermitsConserved(cfg, Apply(cfg, s, step))
  {
    var i := step.task;
    var s' := Apply(cfg, s, step);
    assert s'.stages == s.stages[i := s'.stages[i]];
    assert ValidTask(cfg, cfg.tasks[i]);
    HoldersAfterMove(cfg, s.stages, i, s'.stages[i]);
  }

  /** Permits held plus permits free is the same in every reachable state of every interleaving. */
  lemma {:induction false} PermitsConservedInEveryRun(cfg: Config, s: State, steps: seq<Step>)
    requires ValidConfig(cfg) && Shaped(cfg, s) && PermitsConserved(cfg, s) && Legal(cfg, s, steps)
    ensures PermitsConserved(cfg, Execute(cfg, s, steps))
    decreases |steps|
  {
    if steps != [] {
      StepConservesPermits(cfg, s, steps[0]);
      PermitsConservedInEveryRun(cfg, Apply(cfg, s, steps[0]), steps[1..]);
    }
  }

  /** No interleaving runs two calls of one non-parallel binding, overfills a batch window, or
      materializes more than sixteen results at once across every request. */
  lemma ResourceLimitsHold(cfg: Config, steps: seq<Step>)
    requires ValidConfig(cfg) && Legal(cfg, Init(cfg), steps)
    ensures var s := Execute(cfg, Init(cfg), steps);
      && (forall i, j | 0 <= i < j < |cfg.tasks| && cfg.tasks[i].Bound? && cfg.tasks[j].Bound?
                        && s.stages[i].Running? && s.stages[j].Running? ::
            cfg.tasks[i].exclusion.None? || cfg.tasks[i].exclusion != cfg.tasks[j].exclusion)
      && (forall b | 0 <= b < |cfg.budgets| :: Sum(SlotHolders(cfg, s.stages, b)) <= cfg.maxCalls)
      && Sum(MaterializationHolders(cfg, s.stages)) <= MAX_CONCURRENT_MATERIALIZATIONS
  {
    InitConservesPermits(cfg);
    PermitsConservedInEveryRun(cfg, Init(cfg), steps);
    var s := Execute(cfg, Init(cfg), steps);
    forall i, j | 0 <= i < j < |cfg.tasks| && cfg.tasks[i].Bound? && cfg.tasks[j].Bound?
                  && s.stages[i].Running? && s.stages[j].Running? && cfg.tasks[i].exclusion.Some?
      ensures cfg.tasks[i].exclusion != cfg.tasks[j].exclusion
    {
      assert ValidTask(cfg, cfg.tasks[i]);
      SumAtLeast(ExclusionHolders(cfg, s.stages, cfg.tasks[i].exclusion.value), i, j);
    }
  }

  // ----- no deadlock, and every run ends -----

  /** Only a bound call passes through the intermediate stages. */
  predicate StageFits(task: Task, stage: Stage) {
    match task
    case Bound(_, _, _) => true
    case MissingHandler(_, _) => stage.Queued? || Terminal(stage)
    case Discovery => stage.Queued? || stage.Running? || Terminal(stage)
  }

  ghost predicate StagesFit(cfg: Config, s: State)
    requires Shaped(cfg, s)
  {
    forall i | 0 <= i < |cfg.tasks| :: StageFits(cfg.tasks[i], s.stages[i])
  }

  lemma {:induction false} StagesFitInEveryRun(cfg: Config, s: State, steps: seq<Step>)
    requires ValidConfig(cfg) && Shaped(cfg, s) && StagesFit(cfg, s) && Legal(cfg, s, steps)
    ensures StagesFit(cfg, Execute(cfg, s, steps))
    decreases |steps|
  {
    if steps != [] {
      StagesFitInEveryRun(cfg, Apply(cfg, s, steps[0]), steps[1..]);
    }
  }

  ghost predicate HasProgress(cfg: Config, s: State)
    requires ValidConfig(cfg) && Shaped(cfg, s)
  {
    exists step :: Enabled(cfg, s, step) && !step.Cancel?
  }

  /** While any call is unfinished some call can move, without anybody being cancelled. */
  lemma UnfinishedCallsCanMove(cfg: Config, s: State, u: nat)
    requires ValidConfig(cfg) && Shaped(cfg, s) && PermitsConserved(cfg, s) && StagesFit(cfg, s)
    requires u < |cfg.tasks| && !Terminal(s.stages[u])
    ensures HasProgress(cfg, s)
  {
    if i :| 0 <= i < |cfg.tasks| && s.stages[i].Running? {
      assert StageFits(cfg.tasks[i], s.stages[i]);
      assert Enabled(cfg, s, Finish(i));
    } else {
      SumZero(MaterializationHolders(cfg, s.stages));
      if i :| 0 <= i < |cfg.tasks| && s.stages[i].HasSlot? {
        assert StageFits(cfg.tasks[i], s.stages[i]);
        assert Enabled(cfg, s, TakeMaterialization(i));
      } else if i :| 0 <= i < |cfg.tasks| && s.stages[i].HasExclusion? {
        assert StageFits(cfg.tasks[i], s.stages[i]) && ValidTask(cfg, cfg.tasks[i]);
        SumZero(SlotHolders(cfg, s.stages, cfg.tasks[i].batch));
        assert Enabled(cfg, s, TakeSlot(i));
      } else {
        QueuedCallCanMove(cfg, s, u);
      }
    }
  }

  /** The last case of the progress argument: nobody holds anything. */
  lemma QueuedCallCanMove(cfg: Config, s: State, u: nat)
    requires ValidConfig(cfg) && Shaped(cfg, s) && PermitsConserved(cfg, s) && s.materializationFree > 0
    requires u < |cfg.tasks| && s.stages[u].Queued?
    requires forall i | 0 <= i < |cfg.tasks| :: s.stages[i].Queued? || Terminal(s.stages[i])
    ensures HasProgress(cfg, s)
  {
    var task := cfg.tasks[u];
    assert ValidTask(cfg, task);
    match task
    case Bound(_, exclusion, _) =>
      if exclusion.Some? {
        SumZero(ExclusionHolders(cfg, s.stages, exclusion.value));
      }
      assert Enabled(cfg, s, TakeExclusion(u));
    case MissingHandler(_, _) => assert Enabled(cfg, s, Finish(u));
    case Discovery => assert Enabled(cfg, s, TakeMaterialization(u));
  }

  /** How many moves a call in this stage has left. */
  function Rank(stage: Stage): nat {
    match stage
    case Queued => 4
    case HasExclusion => 3
    case HasSlot => 2
    case Running => 1
    case _ => 0
  }

  function Ranks(stages: seq<Stage>): seq<nat> {
    seq(|stages|, i requires 0 <= i < |stages| => Rank(stages[i]))
  }

  lemma StepLowersRank(cfg: Config, s: State, step: Step)
    requires ValidConfig(cfg) && Shaped(cfg, s) && Enabled(cfg, s, step)
    ensures Sum(Ranks(Apply(cfg, s, step).stages)) < Sum(Ranks(s.stages))
  {
    var i, s' := step.task, Apply(cfg, s, step);
    assert Ranks(s'.stages) == Ranks(s.stages)[i := Rank(s'.stages[i])];
    SumUpdate(Ranks(s.stages), i, Rank(s'.stages[i]));
  }

  lemma {:induction false} RunsAreBounded(cfg: Config, s: State, steps: seq<Step>)
    requires ValidConfig(cfg) && Shaped(cfg, s) && Legal(cfg, s, steps)
    ensures |steps| + Sum(Ranks(Execute(cfg, s, steps).stages)) <= Sum(Ranks(s.stages))
    decreases |steps|
  {
    if steps != [] {
      StepLowersRank(cfg, s, steps[0]);
      RunsAreBounded(cfg, Apply(cfg, s, steps[0]), steps[1..]);
    }
  }

  lemma {:induction false} QueuedRanks(n: nat)
    ensures Sum(Ranks(seq(n, _ => Queued))) == 4 * n
  {
    var ranks := Ranks(seq(n, _ => Queued));
    if n > 0 {
      assert ranks[1..] == Ranks(seq(n - 1, _ => Queued));
      QueuedRanks(n - 1);
    }
  }

  /** Every run has at most four steps per call, and a run that can go no further without a
      cancellation has finished or cancelled every call. */
  lemma SchedulerTerminates(cfg: Config, steps: seq<Step>)
    requires ValidConfig(cfg) && Legal(cfg, Init(cfg), steps)
    ensures |steps| <= 4 * |cfg.tasks|
    ensures var s := Execute(cfg, Init(cfg), steps);
      HasProgress(cfg, s) <==> exists i :: 0 <= i < |cfg.tasks| && !Terminal(s.stages[i])
  {
    var s := Execute(cfg, Init(cfg), steps);
    assert Init(cfg).stages == seq(|cfg.tasks|, _ => Queued);
    QueuedRanks(|cfg.tasks|);
    RunsAreBounded(cfg, Init(cfg), steps);
    InitConservesPermits(cfg);
    PermitsConservedInEveryRun(cfg, Init(cfg), steps);
    StagesFitInEveryRun(cfg, Init(cfg), steps);
    if i :| 0 <= i < |cfg.tasks| && !Terminal(s.stages[i]) {
      UnfinishedCallsCanMove(cfg, s, i);
    }
    if HasProgress(cfg, s) {
      var step :| Enabled(cfg, s, step) && !step.Cancel?;
      assert !Terminal(s.stages[step.task]);
    }
  }

  // ----- the outcome of a batch does not depend on the schedule -----

  /** The bytes batch `b` has charged so far, per call. */
  function Charged(cfg: Config, stages: seq<Stage>, b: nat): seq<nat>
    requires |stages| == |cfg.tasks|
  {
    seq(|stages|, i requires 0 <= i < |stages| =>
      if InBatch(cfg.tasks[i], b) && stages[i].Finished? && stages[i].outcome.Success?
      then stages[i].outcome.value else 0)
  }

  /** The bytes batch `b` asks for in all, per call. */
  function Requested(cfg: Config, b: nat): seq<nat> {
    seq(|cfg.tasks|, i requires 0 <= i < |cfg.tasks| =>
      if InBatch(cfg.tasks[i], b) then OutputBytes(cfg.tasks[i]) else 0)
  }

  predicate InBatch(task: Task, b: nat) {
    !task.Discovery? && task.batch == b
  }

  predicate WithinOwnCap(task: Task) {
    && !(task.Bound? && task.dispatch.Fatal?)
    && OutputBytes(task) <= MAX_GATEWAY_TOOL_OUTPUT_BYTES
  }

  /** Settled outcomes agree with the configuration; a budget failure stays explained by what is left. */
  predicate OutcomeExplained(task: Task, outcome: Result<nat, Fault>, remaining: nat)
    requires !task.Discovery?
  {
    match outcome
    case Success(bytes) => WithinOwnCap(task) && bytes == OutputBytes(task)
    case Failure(BudgetExceeded) => WithinOwnCap(task) && OutputBytes(task) > remaining
    case Failure(_) => !WithinOwnCap(task)
  }

  ghost predicate BudgetAccounted(cfg: Config, s: State)
    requires ValidConfig(cfg) && Shaped(cfg, s)
  {
    && (forall b | 0 <= b < |cfg.budgets| :: s.remaining[b] + Sum(Charged(cfg, s.stages, b)) == cfg.budgets[b])
    && (forall i | 0 <= i < |cfg.tasks| && !cfg.tasks[i].Discovery? && s.stages[i].Finished? ::
          ValidTask(cfg, cfg.tasks[i])
            && OutcomeExplained(cfg.tasks[i], s.stages[i].outcome, s.remaining[cfg.tasks[i].batch]))
  }

  lemma StepAccountsBudget(cfg: Config, s: State, step: Step)
    requires ValidConfig(cfg) && Shaped(cfg, s) && BudgetAccounted(cfg, s) && Enabled(cfg, s, step)
    ensures BudgetAccounted(cfg, Apply(cfg, s, step))
  {
    var i, s' := step.task, Apply(cfg, s, step);
    assert ValidTask(cfg, cfg.tasks[i]);
    forall b | 0 <= b < |cfg.budgets|
      ensures s'.remaining[b] + Sum(Charged(cfg, s'.stages, b)) == cfg.budgets[b]
    {
      var charge := Charged(cfg, s'.stages, b)[i];
      assert Charged(cfg, s'.stages, b) == Charged(cfg, s.stages, b)[i := charge];
      SumUpdate(Charged(cfg, s.stages, b), i, charge);
    }
  }

  lemma {:induction false} BudgetAccountedInEveryRun(cfg: Config, s: State, steps: seq<Step>)
    requires ValidConfig(cfg) && Shaped(cfg, s) && BudgetAccounted(cfg, s) && Legal(cfg, s, steps)
    ensures BudgetAccounted(cfg, Execute(cfg, s, steps))
    decreases |steps|
  {
    if steps != [] {
      StepAccountsBudget(cfg, s, steps[0]);
      BudgetAccountedInEveryRun(cfg, Apply(cfg, s, steps[0]), steps[1..]);
    }
  }

  /** What the join returns: the first failure in item order, or every result in item order. */
  function Join(cfg: Config, s: State, b: nat, from: nat): Result<seq<(nat, nat)>, Fault>
    requires Shaped(cfg, s) && from <= |cfg.tasks|
    requires forall i | 0 <= i < |cfg.tasks| && InBatch(cfg.tasks[i], b) :: s.stages[i].Finished?
    decreases |cfg.tasks| - from
  {
    if from == |cfg.tasks| then Success([])
    else if !InBatch(cfg.tasks[from], b) then Join(cfg, s, b, from + 1)
    else match s.stages[from].outcome
      case Failure(fault) => Failure(fault)
      case Success(bytes) =>
        match Join(cfg, s, b, from + 1)
        case Failure(fault) => Failure(fault)
        case Success(rest) => Success([(from, bytes)] + rest)
  }

  /** The results a successful batch must return, whatever the schedule. */
  function ExpectedResults(cfg: Config, b: nat, from: nat): seq<(nat, nat)>
    requires from <= |cfg.tasks|
    decreases |cfg.tasks| - from
  {
    if from == |cfg.tasks| then []
    else if InBatch(cfg.tasks[from], b) then [(from, OutputBytes(cfg.tasks[from]))] + ExpectedResults(cfg, b, from + 1)
    else ExpectedResults(cfg, b, from + 1)
  }

  ghost predicate IncreasingItems(results: seq<(nat, nat)>, from: nat, upTo: nat) {
    && (forall k | 0 <= k < |results| :: from <= results[k].0 < upTo)
    && (forall j, k | 0 <= j < k < |results| :: results[j].0 < results[k].0)
  }

  /** Results come back in strictly increasing item order. */
  lemma {:induction false} ExpectedResultsIncrease(cfg: Config, b: nat, from: nat)
    requires from <= |cfg.tasks|
    ensures IncreasingItems(ExpectedResults(cfg, b, from), from, |cfg.tasks|)
    decreases |cfg.tasks| - from
  {
    if from < |cfg.tasks| {
      ExpectedResultsIncrease(cfg, b, from + 1);
      var rest := ExpectedResults(cfg, b, from + 1);
      if InBatch(cfg.tasks[from], b) {
        assert ExpectedResults(cfg, b, from) == [(from, OutputBytes(cfg.tasks[from]))] + rest;
      } else {
        assert ExpectedResults(cfg, b, from) == rest;
      }
    }
  }

  lemma {:induction false} JoinIsFirstFailure(cfg: Config, s: State, b: nat, from: nat)
    requires ValidConfig(cfg) && Shaped(cfg, s) && BudgetAccounted(cfg, s) && from <= |cfg.tasks|
    requires forall i | 0 <= i < |cfg.tasks| && InBatch(cfg.tasks[i], b) :: s.stages[i].Finished?
    ensures match Join(cfg, s, b, from)
      case Success(results) =>
        && results == ExpectedResults(cfg, b, from)
        && (forall i | from <= i < |cfg.tasks| && InBatch(cfg.tasks[i], b) :: s.stages[i].outcome.Success?)
      case Failure(fault) =>
        exists i: nat :: FirstFailure(cfg, s, b, from, i) && s.stages[i].outcome == Failure(fault)
    decreases |cfg.tasks| - from
  {
    if from < |cfg.tasks| {
      if !InBatch(cfg.tasks[from], b) || s.stages[from].outcome.Success? {
        JoinIsFirstFailure(cfg, s, b, from + 1);
        if Join(cfg, s, b, from + 1).Failure? {
          var i: nat :| FirstFailure(cfg, s, b, from + 1, i)
            && s.stages[i].outcome == Failure(Join(cfg, s, b, from + 1).error);
          assert FirstFailure(cfg, s, b, from, i);
        }
      } else {
        assert FirstFailure(cfg, s, b, from, from);
      }
    }
  }

  ghost predicate FirstFailure(cfg: Config, s: State, b: nat, from: nat, i: nat)
    requires Shaped(cfg, s)
  {
    && from <= i < |cfg.tasks| && InBatch(cfg.tasks[i], b) && s.stages[i].Finished? && s.stages[i].outcome.Failure?
    && forall j | from <= j < i && InBatch(cfg.tasks[j], b) :: s.stages[j].Finished? && s.stages[j].outcome.Success?
  }

  ghost predicate BatchFits(cfg: Config, b: nat)
    requires b < |cfg.budgets|
  {
    && (forall i | 0 <= i < |cfg.tasks| && InBatch(cfg.tasks[i], b) :: WithinOwnCap(cfg.tasks[i]))
    && Sum(Requested(cfg, b)) <= cfg.budgets[b]
  }

  /** In every schedule that finishes batch `b`: the batch succeeds exactly when every call is within
      its own cap and the sizes together fit the budget; then the results, their order and the budget
      left are fixed by the calls alone; otherwise the error is that of the lowest failing call. */
  lemma BatchOutcome(cfg: Config, steps: seq<Step>, b: nat)
    requires ValidConfig(cfg) && Legal(cfg, Init(cfg), steps) && b < |cfg.budgets|
    requires var s := Execute(cfg, Init(cfg), steps);
      forall i | 0 <= i < |cfg.tasks| && InBatch(cfg.tasks[i], b) :: s.stages[i].Finished?
    ensures var s := Execute(cfg, Init(cfg), steps);
      match Join(cfg, s, b, 0)
      case Success(results) =>
        && BatchFits(cfg, b)
        && results == ExpectedResults(cfg, b, 0)
        && s.remaining[b] == cfg.budgets[b] - Sum(Requested(cfg, b))
      case Failure(fault) =>
        && !BatchFits(cfg, b)
        && (exists i: nat :: FirstFailure(cfg, s, b, 0, i) && s.stages[i].outcome == Failure(fault))
        && ((forall i | 0 <= i < |cfg.tasks| && InBatch(cfg.tasks[i], b) :: WithinOwnCap(cfg.tasks[i]))
            ==> fault == BudgetExceeded)
  {
    var init, s := Init(cfg), Execute(cfg, Init(cfg), steps);
    forall c | 0 <= c < |cfg.budgets| ensures Sum(Charged(cfg, init.stages, c)) == 0 {
      SumZero(Charged(cfg, init.stages, c));
    }
    BudgetAccountedInEveryRun(cfg, init, steps);
    JoinIsFirstFailure(cfg, s, b, 0);
    if Join(cfg, s, b, 0).Success? {
      assert Charged(cfg, s.stages, b) == Requested(cfg, b);
    } else if BatchFits(cfg, b) {
      var i: nat :| FirstFailure(cfg, s, b, 0, i);
      FailureOverrunsBudget(cfg, s, b, i);
    }
  }

  /** A call that found too little left proves that the whole batch asks for too much. */
  lemma FailureOverrunsBudget(cfg: Config, s: State, b: nat, i: nat)
    requires ValidConfig(cfg) && Shaped(cfg, s) && BudgetAccounted(cfg, s) && b < |cfg.budgets|
    requires i < |cfg.tasks| && InBatch(cfg.tasks[i], b) && s.stages[i] == Finished(Failure(BudgetExceeded))
    ensures Sum(Requested(cfg, b)) > cfg.budgets[b]
  {
    var charged := Charged(cfg, s.stages, b);
    SumUpdate(charged, i, OutputBytes(cfg.tasks[i]));
    SumMonotone(charged[i := OutputBytes(cfg.tasks[i])], Requested(cfg, b));
  }

  /** Two schedules of the same calls agree on success or failure, and on the value returned unless
      some call fails on its own account. */
  lemma ScheduleDoesNotMatter(cfg: Config, one: seq<Step>, other: seq<Step>, b: nat)
    requires ValidConfig(cfg) && Legal(cfg, Init(cfg), one) && Legal(cfg, Init(cfg), other) && b < |cfg.budgets|
    requires forall i | 0 <= i < |cfg.tasks| && InBatch(cfg.tasks[i], b) ::
      Execute(cfg, Init(cfg), one).stages[i].Finished? && Execute(cfg, Init(cfg), other).stages[i].Finished?
    ensures var r, r' := Join(cfg, Execute(cfg, Init(cfg), one), b, 0), Join(cfg, Execute(cfg, Init(cfg), other), b, 0);
      && (r.Success? <==> r'.Success?)
      && (r.Success? || (forall i | 0 <= i < |cfg.tasks| && InBatch(cfg.tasks[i], b) :: WithinOwnCap(cfg.tasks[i]))
          ==> r == r')
  {
    BatchOutcome(cfg, one, b);
    BatchOutcome(cfg, other, b);
  }

  // ----- one batch among the tasks of everybody -----

  /** The calls of batch `b`, in order. */
  function BatchTasks(cfg: Config, b: nat, from: nat): seq<Task>
    requires from <= |cfg.tasks|
    decreases |cfg.tasks| - from
  {
    if from == |cfg.tasks| then []
    else if InBatch(cfg.tasks[from], b) then [cfg.tasks[from]] + BatchTasks(cfg, b, from + 1)
    else BatchTasks(cfg, b, from + 1)
  }

  function Bytes(tasks: seq<Task>): seq<nat> {
    seq(|tasks|, k requires 0 <= k < |tasks| => OutputBytes(tasks[k]))
  }

  predicate AllWithinOwnCap(tasks: seq<Task>) {
    forall k | 0 <= k < |tasks| :: WithinOwnCap(tasks[k])
  }

  /** `results` holds, in order, where each of `tasks` stands and its size. */
  predicate ResultsOf(cfg: Config, results: seq<(nat, nat)>, tasks: seq<Task>) {
    && |results| == |tasks|
    && forall k | 0 <= k < |tasks| ::
         results[k].0 < |cfg.tasks| && cfg.tasks[results[k].0] == tasks[k] && results[k].1 == OutputBytes(tasks[k])
  }

  lemma {:induction false} ExpectedOfBatch(cfg: Config, b: nat, from: nat)
    requires from <= |cfg.tasks|
    ensures ResultsOf(cfg, ExpectedResults(cfg, b, from), BatchTasks(cfg, b, from))
    decreases |cfg.tasks| - from
  {
    hide InBatch, OutputBytes;
    if from < |cfg.tasks| {
      ExpectedOfBatch(cfg, b, from + 1);
      if InBatch(cfg.tasks[from], b) {
        OneResultMore(cfg, from, ExpectedResults(cfg, b, from + 1), BatchTasks(cfg, b, from + 1));
      }
    }
  }

  lemma OneResultMore(cfg: Config, from: nat, results: seq<(nat, nat)>, tasks: seq<Task>)
    requires from < |cfg.tasks| && ResultsOf(cfg, results, tasks)
    ensures ResultsOf(cfg, [(from, OutputBytes(cfg.tasks[from]))] + results, [cfg.tasks[from]] + tasks)
  {
    hide OutputBytes;
  }

  lemma {:induction false} BatchAsksFor(cfg: Config, b: nat, from: nat)
    requires from <= |cfg.tasks|
    ensures Sum(Requested(cfg, b)[from..]) == Sum(Bytes(BatchTasks(cfg, b, from)))
    decreases |cfg.tasks| - from
  {
    hide InBatch, OutputBytes;
    if from < |cfg.tasks| {
      BatchAsksFor(cfg, b, from + 1);
      assert Requested(cfg, b)[from..][1..] == Requested(cfg, b)[from + 1..];
      if InBatch(cfg.tasks[from], b) {
        OneTaskMore(cfg.tasks[from], BatchTasks(cfg, b, from + 1));
      }
    }
  }

  lemma OneTaskMore(task: Task, tasks: seq<Task>)
    ensures Sum(Bytes([task] + tasks)) == OutputBytes(task) + Sum(Bytes(tasks))
  {
    hide OutputBytes;
    assert Bytes([task] + tasks) == [OutputBytes(task)] + Bytes(tasks);
    SumAppend([OutputBytes(task)], Bytes(tasks));
  }

  lemma {:induction false} CapsOfBatch(cfg: Config, b: nat, from: nat)
    requires from <= |cfg.tasks|
    ensures AllWithinOwnCap(BatchTasks(cfg, b, from)) <==>
      forall i | from <= i < |cfg.tasks| && InBatch(cfg.tasks[i], b) :: WithinOwnCap(cfg.tasks[i])
    decreases |cfg.tasks| - from
  {
    hide InBatch, WithinOwnCap;
    if from < |cfg.tasks| {
      CapsOfBatch(cfg, b, from + 1);
      if InBatch(cfg.tasks[from], b) {
        OneCapMore(cfg.tasks[from], BatchTasks(cfg, b, from + 1));
      }
    }
  }

  lemma OneCapMore(task: Task, tasks: seq<Task>)
    ensures AllWithinOwnCap([task] + tasks) <==> WithinOwnCap(task) && AllWithinOwnCap(tasks)
  {
    hide WithinOwnCap;
    assert forall k | 0 <= k < |tasks| :: ([task] + tasks)[k + 1] == tasks[k];
    assert ([task] + tasks)[0] == task;
  }

  /** The outcome of a batch is decided by its own calls, in order, whatever else competes for permits. */
  lemma OwnCallsDecide(cfg: Config, steps: seq<Step>, b: nat)
    requires ValidConfig(cfg) && Legal(cfg, Init(cfg), steps) && b < |cfg.budgets|
    requires var s := Execute(cfg, Init(cfg), steps);
      forall i | 0 <= i < |cfg.tasks| && InBatch(cfg.tasks[i], b) :: s.stages[i].Finished?
    ensures var s, tasks := Execute(cfg, Init(cfg), steps), BatchTasks(cfg, b, 0);
      var joined := Join(cfg, s, b, 0);
      && (joined.Success? <==> AllWithinOwnCap(tasks) && Sum(Bytes(tasks)) <= cfg.budgets[b])
      && (joined.Success? ==>
            && ResultsOf(cfg, joined.value, tasks) && IncreasingItems(joined.value, 0, |cfg.tasks|)
            && s.remaining[b] == cfg.budgets[b] - Sum(Bytes(tasks)))
  {
    hide ValidConfig, Legal, Execute, Join, InBatch, WithinOwnCap, ResultsOf, AllWithinOwnCap, Bytes, FirstFailure;
    BatchOutcome(cfg, steps, b);
    ExpectedOfBatch(cfg, b, 0);
    ExpectedResultsIncrease(cfg, b, 0);
    BatchAsksFor(cfg, b, 0);
    CapsOfBatch(cfg, b, 0);
    assert Requested(cfg, b)[0..] == Requested(cfg, b);
  }
}
