/** One round of gateway-owned tool calls: which of the model's output items they are, what the client is
    shown in their place, and how their events are merged with the events that were held back. */
module GatewayRound {
  import opened Basics
  import opened JsonValues
  import opened ConversationItems
  import opened TokenEstimate
  import GatewayScheduler

  // ----- ownership -----

  datatype ToolType = Function | ToolSearch | Custom | Shell | CodexNamespace | Mcp | WebSearch | FileSearch
    | CodeInterpreter

  predicate IsGatewayType(t: ToolType) {
    t.Mcp? || t.WebSearch? || t.FileSearch? || t.CodeInterpreter?
  }

  /** A gateway-owned tool may lack a handler. */
  datatype ToolOwnership = Client | Gateway(bound: bool)

  datatype ToolEntry = ToolEntry(toolType: ToolType, ownership: ToolOwnership)

  /** One entry, so one owner, for each name; ownership follows the tool's type. */
  type Registry = map<string, ToolEntry>

  ghost predicate ValidRegistry(registry: Registry) {
    forall name | name in registry :: IsGatewayType(registry[name].toolType) <==> registry[name].ownership.Gateway?
  }

  predicate IsGatewayOwned(registry: Registry, name: string) {
    name in registry && registry[name].ownership.Gateway?
  }

  predicate IsClientCustom(registry: Registry, name: string) {
    name in registry && registry[name].toolType.Custom?
  }

  predicate IsClientShell(registry: Registry, name: string) {
    name in registry && registry[name].toolType.Shell? && !registry[name].ownership.Gateway?
  }

  /** A call that is not the gateway's own is handed back to the client. */
  predicate RequiresClientAction(item: OutputItem, registry: Registry) {
    match item
    case OutFunctionCall(call) => !IsGatewayOwned(registry, call.name)
    case OutSearchCall(_) => true
    case OutCustomCall(_) => true
    case OutShell(_) => true
    case _ => false
  }

  predicate HasClientOwnedCalls(items: seq<OutputItem>, registry: Registry) {
    exists k :: 0 <= k < |items| && RequiresClientAction(items[k], registry)
  }

  predicate IsGatewayCall(item: OutputItem, registry: Registry) {
    item.OutFunctionCall? && IsGatewayOwned(registry, item.outCall.name)
  }

  predicate IsCustomCall(item: OutputItem, registry: Registry) {
    item.OutFunctionCall? && IsClientCustom(registry, item.outCall.name)
  }

  // ----- planning -----

  /** What handlers project from a call: the item that announces it, and the client's form of its own tools. */
  datatype Projections = Projections(
    started: FunctionToolCall -> Option<OutputItem>,
    custom: FunctionToolCall -> OutputItem,
    shell: FunctionToolCall -> Option<OutputItem>)

  datatype CallPlan = CallPlan(
    itemIndex: nat, call: FunctionToolCall, bound: bool, outputIndex: nat, started: Option<OutputItem>)

  /** Positions are counted in machine words and sent as 32-bit numbers. */
  function PublicIndex(offset: nat, itemIndex: nat): nat {
    if offset + itemIndex <= U32_MAX then offset + itemIndex else U32_MAX
  }

  function PlanOf(call: FunctionToolCall, itemIndex: nat, registry: Registry, offset: nat, p: Projections): CallPlan
    requires IsGatewayOwned(registry, call.name)
  {
    var bound := registry[call.name].ownership.bound;
    CallPlan(itemIndex, call, bound, PublicIndex(offset, itemIndex), if bound then p.started(call) else None)
  }

  function PlanFrom(
      items: seq<OutputItem>, registry: Registry, offset: nat, p: Projections, from: nat): (plans: seq<CallPlan>)
    requires from <= |items|
    decreases |items| - from
  {
    if from == |items| then []
    else (if IsGatewayCall(items[from], registry) then [PlanOf(items[from].outCall, from, registry, offset, p)] else [])
         + PlanFrom(items, registry, offset, p, from + 1)
  }

  ghost predicate PlansCalls(
      plans: seq<CallPlan>, items: seq<OutputItem>, registry: Registry, offset: nat, p: Projections, from: nat)
  {
    && (forall k | 0 <= k < |plans| ::
          && from <= plans[k].itemIndex < |items| && IsGatewayCall(items[plans[k].itemIndex], registry)
          && plans[k] == PlanOf(items[plans[k].itemIndex].outCall, plans[k].itemIndex, registry, offset, p))
    && Increasing(plans)
    && forall i | from <= i < |items| && IsGatewayCall(items[i], registry) :: HasPlan(plans, i)
  }

  ghost predicate HasPlan(plans: seq<CallPlan>, itemIndex: nat) {
    exists k :: 0 <= k < |plans| && plans[k].itemIndex == itemIndex
  }

  /** The plans are exactly the gateway-owned calls among the items, in item order. */
  lemma {:induction false} PlansAreGatewayCalls(
      items: seq<OutputItem>, registry: Registry, offset: nat, p: Projections, from: nat)
    requires from <= |items|
    ensures PlansCalls(PlanFrom(items, registry, offset, p, from), items, registry, offset, p, from)
    decreases |items| - from
  {
    hide PlanOf, IsGatewayCall, PlansCalls;
    NoPlans(items, registry, offset, p);
    if from < |items| {
      PlansAreGatewayCalls(items, registry, offset, p, from + 1);
      var rest := PlanFrom(items, registry, offset, p, from + 1);
      if IsGatewayCall(items[from], registry) {
        PlanOfIndex(items[from], from, registry, offset, p);
        OnePlanMore(PlanOfItem(items[from], from, registry, offset, p), rest, items, registry, offset, p, from);
      } else {
        assert [] + rest == rest;
        NoPlanMore(rest, items, registry, offset, p, from);
      }
    }
  }

  lemma NoPlans(items: seq<OutputItem>, registry: Registry, offset: nat, p: Projections)
    ensures PlansCalls([], items, registry, offset, p, |items|)
  {
  }

  lemma NoPlanMore(
    rest: seq<CallPlan>, items: seq<OutputItem>, registry: Registry, offset: nat, p: Projections, from: nat)
    requires from < |items| && !IsGatewayCall(items[from], registry)
    requires PlansCalls(rest, items, registry, offset, p, from + 1)
    ensures PlansCalls(rest, items, registry, offset, p, from)
  {
    hide PlanOf, IsGatewayCall, HasPlan;
  }

  function PlanOfItem(item: OutputItem, itemIndex: nat, registry: Registry, offset: nat, p: Projections): CallPlan
    requires IsGatewayCall(item, registry)
  {
    PlanOf(item.outCall, itemIndex, registry, offset, p)
  }

  lemma PlanOfIndex(item: OutputItem, itemIndex: nat, registry: Registry, offset: nat, p: Projections)
    requires IsGatewayCall(item, registry)
    ensures PlanOfItem(item, itemIndex, registry, offset, p).itemIndex == itemIndex
  {
  }

  lemma OnePlanMore(
      plan: CallPlan, rest: seq<CallPlan>, items: seq<OutputItem>, registry: Registry, offset: nat, p: Projections,
      from: nat)
    requires from < |items| && IsGatewayCall(items[from], registry)
      && plan == PlanOfItem(items[from], from, registry, offset, p)
    requires plan.itemIndex == from && PlansCalls(rest, items, registry, offset, p, from + 1)
    ensures PlansCalls([plan] + rest, items, registry, offset, p, from)
  {
    hide PlanOf, IsGatewayCall, HasPlan;
    var plans := [plan] + rest;
    assert plans[0] == plan && forall k | 0 <= k < |rest| :: plans[k + 1] == rest[k];
    forall i | from <= i < |items| && IsGatewayCall(items[i], registry) ensures HasPlan(plans, i) {
      HasPlanAfter(plan, rest, i);
    }
  }

  lemma HasPlanAfter(plan: CallPlan, rest: seq<CallPlan>, itemIndex: nat)
    ensures HasPlan([plan] + rest, itemIndex) <==> plan.itemIndex == itemIndex || HasPlan(rest, itemIndex)
  {
    var plans := [plan] + rest;
    assert plans[0] == plan && forall k | 0 <= k < |rest| :: plans[k + 1] == rest[k];
  }

  function Plan(items: seq<OutputItem>, registry: Registry, offset: nat, p: Projections): seq<CallPlan> {
    PlanFrom(items, registry, offset, p, 0)
  }

  predicate Increasing(plans: seq<CallPlan>) {
    forall j, k | 0 <= j < k < |plans| :: plans[j].itemIndex < plans[k].itemIndex
  }

  /** Binary search; plans are in item order. */
  method CallIndexForItem(plans: seq<CallPlan>, itemIndex: nat) returns (k: Option<nat>)
    requires Increasing(plans)
    ensures k.Some? ==> k.value < |plans| && plans[k.value].itemIndex == itemIndex
    ensures k.None? ==> forall j | 0 <= j < |plans| :: plans[j].itemIndex != itemIndex
  {
    var low, high := 0, |plans|;
    while low < high
      invariant 0 <= low <= high <= |plans|
      invariant forall j | 0 <= j < low :: plans[j].itemIndex < itemIndex
      invariant forall j | high <= j < |plans| :: plans[j].itemIndex > itemIndex
    {
      var middle := (low + high) / 2;
      if plans[middle].itemIndex == itemIndex {
        return Some(middle);
      } else if plans[middle].itemIndex < itemIndex {
        low := middle + 1;
      } else {
        high := middle;
      }
    }
    return None;
  }

  /** How many leading calls may be announced before they run, without overtaking a client's custom call. */
  function InitialRunLen(items: seq<OutputItem>, registry: Registry, plans: seq<CallPlan>): (n: nat)
    ensures n <= |plans|
  {
    if plans == [] || (exists i :: 0 <= i < plans[0].itemIndex && i < |items| && IsCustomCall(items[i], registry))
      then 0
    else ContiguousFrom(plans, 0)
  }

  function ContiguousFrom(plans: seq<CallPlan>, n: nat): (m: nat)
    requires plans != [] && n <= |plans|
    ensures n <= m <= |plans|
    ensures forall k | n <= k < m :: plans[k].itemIndex == plans[0].itemIndex + k
    decreases |plans| - n
  {
    if n < |plans| && plans[n].itemIndex == plans[0].itemIndex + n then ContiguousFrom(plans, n + 1) else n
  }

  // ----- execution -----

  /** How a handler's dispatch ended: its output, an error turned into an output, or a fault. */
  datatype ToolReply = Reply(callId: string, output: string, shown: Option<OutputItem>)
    | ErrorReply(error: string, shown: Option<OutputItem>) | Fatal

  datatype CallResult = CallResult(itemIndex: nat, callId: string, output: string, shown: Option<OutputItem>)

  function ErrorOutput(message: string): string {
    "{\"error\":" + Quoted(message) + "}"
  }

  const NO_HANDLER: string := "' has no registered handler"

  /** What one call comes to, before its size is checked. */
  function Answered(plan: CallPlan, reply: ToolReply): Option<CallResult> {
    if !plan.bound then
      Some(CallResult(plan.itemIndex, plan.call.callId, ErrorOutput("gateway tool '" + plan.call.name + NO_HANDLER),
        None))
    else
      match reply
      case Reply(callId, output, shown) => Some(CallResult(plan.itemIndex, callId, output, shown))
      case ErrorReply(error, shown) => Some(CallResult(plan.itemIndex, plan.call.callId, ErrorOutput(error), shown))
      case Fatal => None
  }

  function OutputSize(plan: CallPlan, reply: ToolReply): nat {
    match Answered(plan, reply)
    case Some(result) => TextBytes(result.output)
    case None => 0
  }

  predicate Acceptable(plan: CallPlan, reply: ToolReply) {
    Answered(plan, reply).Some? && OutputSize(plan, reply) <= GatewayScheduler.MAX_GATEWAY_TOOL_OUTPUT_BYTES
  }

  function Sizes(plans: seq<CallPlan>, replies: (nat, FunctionToolCall) -> ToolReply): seq<nat> {
    seq<nat>(|plans|, k requires 0 <= k < |plans| => OutputSize(plans[k], replies(k, plans[k].call)))
  }

  /** The batch succeeds when every call is within its own cap and all fit what is left of the budget. */
  function ExecuteBatch(
      plans: seq<CallPlan>, replies: (nat, FunctionToolCall) -> ToolReply, remaining: nat)
      : Option<(seq<CallResult>, nat)>
  {
    if (forall k | 0 <= k < |plans| :: Acceptable(plans[k], replies(k, plans[k].call)))
      && Sum(Sizes(plans, replies)) <= remaining
    then Some((seq(|plans|, k requires 0 <= k < |plans| => Answered(plans[k], replies(k, plans[k].call)).value),
      remaining - Sum(Sizes(plans, replies))))
    else None
  }

  function TaskOf(b: nat, plan: CallPlan, reply: ToolReply, exclusion: Option<nat>): GatewayScheduler.Task {
    var size := OutputSize(plan, reply);
    if !plan.bound then GatewayScheduler.MissingHandler(b, size)
    else
      match reply
      case Reply(_, _, _) => GatewayScheduler.Bound(b, exclusion, GatewayScheduler.Output(size))
      case ErrorReply(_, _) => GatewayScheduler.Bound(b, exclusion, GatewayScheduler.ErrorOutput(size))
      case Fatal => GatewayScheduler.Bound(b, exclusion, GatewayScheduler.Fatal)
  }

  /** The calls of a round as the tasks of batch `b` of the scheduler. */
  function Tasks(
      b: nat, plans: seq<CallPlan>, replies: (nat, FunctionToolCall) -> ToolReply, exclusions: nat -> Option<nat>)
    : seq<GatewayScheduler.Task>
  {
    seq(|plans|, k requires 0 <= k < |plans| => TaskOf(b, plans[k], replies(k, plans[k].call), exclusions(k)))
  }

  /** Whatever other requests and discoveries compete for permits: in every schedule that finishes the batch of a
      round, the join succeeds exactly when `ExecuteBatch` does, returns one result per call in the order of the
      calls, and leaves the same budget. */
  lemma EveryScheduleExecutesTheBatch(
    cfg: GatewayScheduler.Config, steps: seq<GatewayScheduler.Step>, b: nat,
    plans: seq<CallPlan>, replies: (nat, FunctionToolCall) -> ToolReply, exclusions: nat -> Option<nat>)
    requires GatewayScheduler.ValidConfig(cfg) && GatewayScheduler.Legal(cfg, GatewayScheduler.Init(cfg), steps)
    requires b < |cfg.budgets| && GatewayScheduler.BatchTasks(cfg, b, 0) == Tasks(b, plans, replies, exclusions)
    requires var s := GatewayScheduler.Execute(cfg, GatewayScheduler.Init(cfg), steps);
      forall i | 0 <= i < |cfg.tasks| && GatewayScheduler.InBatch(cfg.tasks[i], b) :: s.stages[i].Finished?
    ensures var s := GatewayScheduler.Execute(cfg, GatewayScheduler.Init(cfg), steps);
      var joined, batch := GatewayScheduler.Join(cfg, s, b, 0), ExecuteBatch(plans, replies, cfg.budgets[b]);
      && (joined.Success? <==> batch.Some?)
      && (batch.Some? ==>
            && |joined.value| == |batch.value.0| == |plans|
            && s.remaining[b] == batch.value.1
            && GatewayScheduler.IncreasingItems(joined.value, 0, |cfg.tasks|)
            && forall k | 0 <= k < |plans| ::
                 && cfg.tasks[joined.value[k].0] == TaskOf(b, plans[k], replies(k, plans[k].call), exclusions(k))
                 && joined.value[k].1 == TextBytes(batch.value.0[k].output))
  {
    hide Answered, TextBytes, OutputSize, TaskOf, Acceptable, GatewayScheduler.ValidConfig, GatewayScheduler.Legal,
      GatewayScheduler.Execute, GatewayScheduler.Join, GatewayScheduler.InBatch, GatewayScheduler.OutputBytes,
      GatewayScheduler.AllWithinOwnCap, GatewayScheduler.BatchTasks, GatewayScheduler.Bytes;
    GatewayScheduler.OwnCallsDecide(cfg, steps, b);
    TasksAskForSizes(b, plans, replies, exclusions);
    if ExecuteBatch(plans, replies, cfg.budgets[b]).Some? {
      ResultSizes(plans, replies, cfg.budgets[b]);
    }
  }

  lemma TaskAsksForSize(b: nat, plan: CallPlan, reply: ToolReply, exclusion: Option<nat>)
    ensures var task := TaskOf(b, plan, reply, exclusion);
      && GatewayScheduler.OutputBytes(task) == OutputSize(plan, reply)
      && (GatewayScheduler.WithinOwnCap(task) <==> Acceptable(plan, reply))
  {
    hide TextBytes, ErrorOutput;
  }

  lemma TasksAskForSizes(
    b: nat, plans: seq<CallPlan>, replies: (nat, FunctionToolCall) -> ToolReply, exclusions: nat -> Option<nat>)
    ensures var tasks := Tasks(b, plans, replies, exclusions);
      && GatewayScheduler.Bytes(tasks) == Sizes(plans, replies)
      && (GatewayScheduler.AllWithinOwnCap(tasks) <==>
            forall k | 0 <= k < |plans| :: Acceptable(plans[k], replies(k, plans[k].call)))
      && forall k | 0 <= k < |plans| ::
           GatewayScheduler.OutputBytes(tasks[k]) == OutputSize(plans[k], replies(k, plans[k].call))
  {
    hide TaskOf, OutputSize, Acceptable, GatewayScheduler.WithinOwnCap, GatewayScheduler.OutputBytes;
    var tasks := Tasks(b, plans, replies, exclusions);
    forall k: nat | k < |plans|
      ensures GatewayScheduler.OutputBytes(tasks[k]) == OutputSize(plans[k], replies(k, plans[k].call))
      ensures GatewayScheduler.WithinOwnCap(tasks[k]) <==> Acceptable(plans[k], replies(k, plans[k].call))
    {
      TaskAsksForSize(b, plans[k], replies(k, plans[k].call), exclusions(k));
    }
  }

  lemma ResultSizes(plans: seq<CallPlan>, replies: (nat, FunctionToolCall) -> ToolReply, remaining: nat)
    requires ExecuteBatch(plans, replies, remaining).Some?
    ensures var results := ExecuteBatch(plans, replies, remaining).value.0;
      |results| == |plans| && forall k: nat | k < |plans| ::
        && Answered(plans[k], replies(k, plans[k].call)) == Some(results[k])
        && OutputSize(plans[k], replies(k, plans[k].call)) == TextBytes(results[k].output)
        && results[k].itemIndex == plans[k].itemIndex
  {
    hide TextBytes, ErrorOutput;
    var results := ExecuteBatch(plans, replies, remaining).value.0;
    forall k: nat | k < |plans|
      ensures Answered(plans[k], replies(k, plans[k].call)) == Some(results[k])
    {
      assert Acceptable(plans[k], replies(k, plans[k].call));
    }
  }

  // ----- what the client is shown -----

  function FindResult(results: seq<CallResult>, itemIndex: nat): Option<CallResult> {
    if results == [] then None
    else if results[0].itemIndex == itemIndex then Some(results[0])
    else FindResult(results[1..], itemIndex)
  }

  /** The public form of one output item; `None` for a shell call that cannot be read. */
  function PublicOutput(
      item: OutputItem, itemIndex: nat, registry: Registry, results: seq<CallResult>, p: Projections)
      : Option<OutputItem>
  {
    if IsCustomCall(item, registry) then Some(p.custom(item.outCall))
    else if item.OutFunctionCall? && IsClientShell(registry, item.outCall.name) then p.shell(item.outCall)
    else if IsGatewayCall(item, registry) then
      match FindResult(results, itemIndex)
      case Some(result) => Some(if result.shown.Some? then result.shown.value else item)
      case None => Some(item)
    else Some(item)
  }

  function PublicFrom(items: seq<OutputItem>, registry: Registry, results: seq<CallResult>, p: Projections, from: nat)
    : (public: Option<seq<OutputItem>>)
    requires from <= |items|
    ensures public.Some? ==> |public.value| == |items| - from
    ensures public.Some? ==> forall i | from <= i < |items| ::
      PublicOutput(items[i], i, registry, results, p) == Some(public.value[i - from])
    decreases |items| - from
  {
    if from == |items| then Some([])
    else
      var shown, rest :=
        PublicOutput(items[from], from, registry, results, p), PublicFrom(items, registry, results, p, from + 1);
      if shown.None? || rest.None? then None
      else
        var public := [shown.value] + rest.value;
        assert forall j | 0 <= j < |rest.value| :: public[j + 1] == rest.value[j];
        Some(public)
  }

  function PublicOutputs(
      items: seq<OutputItem>, registry: Registry, results: seq<CallResult>, p: Projections): Option<seq<OutputItem>>
  {
    PublicFrom(items, registry, results, p, 0)
  }

  lemma {:induction false} FoundAtItsIndex(results: seq<CallResult>, k: nat)
    requires k < |results|
    requires forall i, j | 0 <= i < j < |results| :: results[i].itemIndex < results[j].itemIndex
    ensures FindResult(results, results[k].itemIndex) == Some(results[k])
  {
    if k > 0 {
      assert results[1..][k - 1] == results[k];
      FoundAtItsIndex(results[1..], k - 1);
    }
  }

  /** What a gateway call's handler shows stands in the public output exactly where the call stood. */
  lemma ShownInPlace(
    items: seq<OutputItem>, registry: Registry, offset: nat, p: Projections,
    replies: (nat, FunctionToolCall) -> ToolReply, remaining: nat, k: nat)
    requires ValidRegistry(registry) && k < |Plan(items, registry, offset, p)|
    requires var plans := Plan(items, registry, offset, p);
      && ExecuteBatch(plans, replies, remaining).Some?
      && PublicOutputs(items, registry, ExecuteBatch(plans, replies, remaining).value.0, p).Some?
    ensures var plans := Plan(items, registry, offset, p);
      var results := ExecuteBatch(plans, replies, remaining).value.0;
      var public := PublicOutputs(items, registry, results, p).value;
      && |results| == |plans| && results[k].itemIndex == plans[k].itemIndex < |public| == |items|
      && (results[k].shown.Some? ==> public[plans[k].itemIndex] == results[k].shown.value)
  {
    hide PlanFrom, PublicFrom, Answered, OutputSize, ExecuteBatch;
    var plans := Plan(items, registry, offset, p);
    var results := ExecuteBatch(plans, replies, remaining).value.0;
    PlansAreGatewayCalls(items, registry, offset, p, 0);
    ResultSizes(plans, replies, remaining);
    FoundAtItsIndex(results, k);
    var i := plans[k].itemIndex;
    assert IsGatewayCall(items[i], registry);
    assert PublicOutput(items[i], i, registry, results, p).Some?;
  }
}
