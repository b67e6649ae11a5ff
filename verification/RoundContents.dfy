/** What the calls of a round come to, told from the round's items and the handlers' replies alone: the text the
    model is given, what the client is shown, and the events that say so. */
module RoundContents {
  import opened Basics
  import opened JsonValues
  import opened ConversationItems
  import opened TokenEstimate
  import opened GatewayRound
  import opened RoundEvents
  import opened AgentLoop
  import opened LoopHistories
  import Types = StreamEvents
  import GatewayScheduler

  type Replies = (nat, FunctionToolCall) -> ToolReply

  // ----- the gateway calls of a round -----

  predicate IsOwned(registry: Registry, item: OutputItem) {
    item.OutFunctionCall? && item.outCall.name in registry && registry[item.outCall.name].ownership.Gateway?
  }

  /** Where the gateway calls stand among the items, from position `from` on. */
  function Places(registry: Registry, items: seq<OutputItem>, from: nat): (places: seq<nat>)
    requires from <= |items|
    ensures forall k | 0 <= k < |places| :: from <= places[k] < |items| && IsOwned(registry, items[places[k]])
    ensures forall j, k | 0 <= j < k < |places| :: places[j] < places[k]
    ensures forall i | from <= i < |items| && IsOwned(registry, items[i]) :: i in places
    decreases |items| - from
  {
    if from == |items| then []
    else
      var rest := Places(registry, items, from + 1);
      if IsOwned(registry, items[from]) then
        var places := [from] + rest;
        assert forall i | i in rest :: i in places;
        places
      else rest
  }

  function CallPlaces(registry: Registry, items: seq<OutputItem>): seq<nat> {
    Places(registry, items, 0)
  }

  /** The `k`-th gateway call. */
  function NthCall(registry: Registry, items: seq<OutputItem>, k: nat): (call: FunctionToolCall)
    requires k < |CallPlaces(registry, items)|
    ensures call.name in registry && registry[call.name].ownership.Gateway?
  {
    items[CallPlaces(registry, items)[k]].outCall
  }

  predicate HasHandler(registry: Registry, call: FunctionToolCall)
    requires call.name in registry && registry[call.name].ownership.Gateway?
  {
    registry[call.name].ownership.bound
  }

  /** The text the model is given for a call. */
  function TextFor(registry: Registry, call: FunctionToolCall, reply: ToolReply): string
    requires call.name in registry && registry[call.name].ownership.Gateway?
  {
    if !HasHandler(registry, call)
    then "{\"error\":" + Quoted("gateway tool '" + call.name + "' has no registered handler") + "}"
    else if reply.Reply? then reply.output
    else if reply.ErrorReply? then "{\"error\":" + Quoted(reply.error) + "}"
    else ""
  }

  /** What the call's handler shows the client. */
  function ShownFor(registry: Registry, call: FunctionToolCall, reply: ToolReply): Option<OutputItem>
    requires call.name in registry && registry[call.name].ownership.Gateway?
  {
    if HasHandler(registry, call) && !reply.Fatal? then reply.shown else None
  }

  function NthText(registry: Registry, items: seq<OutputItem>, replies: Replies, k: nat): string
    requires k < |CallPlaces(registry, items)|
  {
    TextFor(registry, NthCall(registry, items, k), replies(k, NthCall(registry, items, k)))
  }

  function NthShown(registry: Registry, items: seq<OutputItem>, replies: Replies, k: nat): Option<OutputItem>
    requires k < |CallPlaces(registry, items)|
  {
    ShownFor(registry, NthCall(registry, items, k), replies(k, NthCall(registry, items, k)))
  }

  /** The outputs that answer the calls, in call order. */
  function ToolOutputs(registry: Registry, items: seq<OutputItem>, replies: Replies): seq<InputItem> {
    seq(|CallPlaces(registry, items)|, k requires 0 <= k < |CallPlaces(registry, items)| =>
      FunctionCallOutput(NthCall(registry, items, k).callId, TextOutput(NthText(registry, items, replies, k))))
  }

  /** The calls as they are stored, in call order. */
  function StoredCalls(registry: Registry, items: seq<OutputItem>): seq<InputItem> {
    seq(|CallPlaces(registry, items)|, k requires 0 <= k < |CallPlaces(registry, items)| =>
      var call := NthCall(registry, items, k);
      FunctionCall(InputFunctionCall(Some(call.id), call.callId, call.name, call.nameSpace, call.arguments,
                                     Some(call.status))))
  }

  function TextSizes(registry: Registry, items: seq<OutputItem>, replies: Replies): seq<nat> {
    seq<nat>(|CallPlaces(registry, items)|, k requires 0 <= k < |CallPlaces(registry, items)| =>
      TextBytes(NthText(registry, items, replies, k)))
  }

  /** No handler fails outright, no text is too long, and all together fit the budget. */
  ghost predicate CallsSucceed(registry: Registry, items: seq<OutputItem>, replies: Replies, remaining: nat) {
    && (forall k | 0 <= k < |CallPlaces(registry, items)| ::
          var call := NthCall(registry, items, k);
          && (HasHandler(registry, call) ==> !replies(k, call).Fatal?)
          && TextBytes(NthText(registry, items, replies, k)) <= GatewayScheduler.MAX_GATEWAY_TOOL_OUTPUT_BYTES)
    && Sum(TextSizes(registry, items, replies)) <= remaining
  }

  ghost predicate StandAt(
      plans: seq<CallPlan>, places: seq<nat>, items: seq<OutputItem>, registry: Registry, offset: nat, p: Projections)
  {
    && |plans| == |places|
    && forall k | 0 <= k < |plans| ::
         && places[k] < |items| && IsGatewayCall(items[places[k]], registry)
         && plans[k] == PlanOfItem(items[places[k]], places[k], registry, offset, p)
  }

  lemma NothingStands(items: seq<OutputItem>, registry: Registry, offset: nat, p: Projections)
    ensures StandAt([], [], items, registry, offset, p)
  {
  }

  lemma OneMoreStands(
      plans: seq<CallPlan>, places: seq<nat>, items: seq<OutputItem>, registry: Registry, offset: nat, p: Projections,
      i: nat)
    requires StandAt(plans, places, items, registry, offset, p) && i < |items| && IsGatewayCall(items[i], registry)
    ensures StandAt([PlanOfItem(items[i], i, registry, offset, p)] + plans, [i] + places, items, registry, offset, p)
  {
    hide PlanOf, PlanOfItem, IsGatewayCall;
  }

  lemma SameOwner(registry: Registry, item: OutputItem)
    ensures IsOwned(registry, item) <==> IsGatewayCall(item, registry)
  {
  }

  lemma {:induction false} PlansStandAt(
      items: seq<OutputItem>, registry: Registry, offset: nat, p: Projections, from: nat)
    requires from <= |items|
    ensures StandAt(
      PlanFrom(items, registry, offset, p, from), Places(registry, items, from), items, registry, offset, p)
    decreases |items| - from
  {
    hide PlanOf, IsOwned, IsGatewayCall, StandAt;
    if from == |items| {
      NothingStands(items, registry, offset, p);
    } else {
      PlansStandAt(items, registry, offset, p, from + 1);
      var plans, places := PlanFrom(items, registry, offset, p, from + 1), Places(registry, items, from + 1);
      SameOwner(registry, items[from]);
      if IsGatewayCall(items[from], registry) {
        OneMoreStands(plans, places, items, registry, offset, p, from);
      } else {
        assert [] + plans == plans;
      }
    }
  }

  lemma NthPlan(items: seq<OutputItem>, registry: Registry, offset: nat, p: Projections, k: nat)
    requires k < |CallPlaces(registry, items)|
    ensures k < |Plan(items, registry, offset, p)|
    ensures var plan, call := Plan(items, registry, offset, p)[k], NthCall(registry, items, k);
      && plan.itemIndex == CallPlaces(registry, items)[k] && plan.call == call
      && plan.bound == HasHandler(registry, call)
      && plan.outputIndex == Capped(offset + CallPlaces(registry, items)[k])
      && plan.started == if HasHandler(registry, call) then p.started(call) else None
  {
    hide PlanFrom, Places;
    PlansStandAt(items, registry, offset, p, 0);
  }

  lemma PlanCount(items: seq<OutputItem>, registry: Registry, offset: nat, p: Projections)
    ensures |Plan(items, registry, offset, p)| == |CallPlaces(registry, items)|
  {
    hide PlanFrom, Places;
    PlansStandAt(items, registry, offset, p, 0);
  }

  function Capped(n: nat): nat {
    Min(n, U32_MAX)
  }

  lemma AnswerOf(plan: CallPlan, registry: Registry, reply: ToolReply)
    requires plan.call.name in registry && registry[plan.call.name].ownership.Gateway?
    requires plan.bound == HasHandler(registry, plan.call)
    ensures Answered(plan, reply).Some? <==> HasHandler(registry, plan.call) ==> !reply.Fatal?
    ensures Answered(plan, reply).Some? ==>
      var result := Answered(plan, reply).value;
      && result.itemIndex == plan.itemIndex && result.output == TextFor(registry, plan.call, reply)
      && result.shown == ShownFor(registry, plan.call, reply)
      && result.callId == if plan.bound && reply.Reply? then reply.callId else plan.call.callId
    ensures Answered(plan, reply).None? ==> TextFor(registry, plan.call, reply) == ""
  {
    hide Quoted;
  }

  /** The size a call is charged is that of its text. */
  lemma SizeOf(plan: CallPlan, registry: Registry, reply: ToolReply)
    requires plan.call.name in registry && registry[plan.call.name].ownership.Gateway?
    requires plan.bound == HasHandler(registry, plan.call)
    ensures OutputSize(plan, reply) == TextBytes(TextFor(registry, plan.call, reply))
  {
    hide Quoted, TextFor, Answered;
    AnswerOf(plan, registry, reply);
    assert TextBytes("") == 0;
  }

  /** The batch of a round succeeds exactly when its calls do, costs their texts, and answers each call at its
      place with its text and with what its handler shows. */
  lemma BatchOfCalls(
      items: seq<OutputItem>, registry: Registry, offset: nat, p: Projections, replies: Replies, remaining: nat)
    ensures var batch := ExecuteBatch(Plan(items, registry, offset, p), replies, remaining);
      && (batch.Some? <==> CallsSucceed(registry, items, replies, remaining))
      && (batch.Some? ==>
            && batch.value.1 + Sum(TextSizes(registry, items, replies)) == remaining
            && |batch.value.0| == |CallPlaces(registry, items)|
            && forall k | 0 <= k < |CallPlaces(registry, items)| ::
                 ResultIsFor(batch.value.0[k], registry, items, replies, k))
  {
    hide PlanFrom, Places, Answered, OutputSize, TextFor, TextBytes, ShownFor, NthText, NthShown;
    var plans := Plan(items, registry, offset, p);
    PlanCount(items, registry, offset, p);
    forall k: nat | k < |plans|
      ensures OutputSize(plans[k], replies(k, plans[k].call)) == TextBytes(NthText(registry, items, replies, k))
      ensures Answered(plans[k], replies(k, plans[k].call)).Some? <==>
        (HasHandler(registry, NthCall(registry, items, k)) ==> !replies(k, NthCall(registry, items, k)).Fatal?)
      ensures Answered(plans[k], replies(k, plans[k].call)).Some? ==>
        ResultIsFor(Answered(plans[k], replies(k, plans[k].call)).value, registry, items, replies, k)
    {
      NthAnswer(items, registry, offset, p, replies, k);
    }
    assert Sizes(plans, replies) == TextSizes(registry, items, replies);
  }

  predicate ResultIsFor(result: CallResult, registry: Registry, items: seq<OutputItem>, replies: Replies, k: nat)
    requires k < |CallPlaces(registry, items)|
  {
    var call := NthCall(registry, items, k);
    && result.itemIndex == CallPlaces(registry, items)[k]
    && result.output == NthText(registry, items, replies, k) && result.shown == NthShown(registry, items, replies, k)
    && (!replies(k, call).Reply? || replies(k, call).callId == call.callId ==> result.callId == call.callId)
  }

  lemma NthAnswer(
      items: seq<OutputItem>, registry: Registry, offset: nat, p: Projections, replies: Replies, k: nat)
    requires k < |CallPlaces(registry, items)|
    ensures k < |Plan(items, registry, offset, p)|
    ensures var plan, call := Plan(items, registry, offset, p)[k], NthCall(registry, items, k);
      var answer := Answered(plan, replies(k, plan.call));
      && OutputSize(plan, replies(k, plan.call)) == TextBytes(NthText(registry, items, replies, k))
      && (answer.Some? <==> (HasHandler(registry, call) ==> !replies(k, call).Fatal?))
      && (answer.Some? ==> ResultIsFor(answer.value, registry, items, replies, k))
  {
    hide PlanFrom, Places, Answered, OutputSize, TextFor, TextBytes, ShownFor, CallPlaces, NthCall;
    NthPlan(items, registry, offset, p, k);
    var plan := Plan(items, registry, offset, p)[k];
    AnswerOf(plan, registry, replies(k, plan.call));
    SizeOf(plan, registry, replies(k, plan.call));
  }

  /** What a round's results put into the histories is what its calls were told. */
  lemma ResultsAreToolOutputs(
      items: seq<OutputItem>, registry: Registry, replies: Replies, results: seq<CallResult>)
    requires Echoes(replies) && |results| == |CallPlaces(registry, items)|
    requires forall k | 0 <= k < |results| :: ResultIsFor(results[k], registry, items, replies, k)
    ensures ResultItems(results) == ToolOutputs(registry, items, replies)
  {
    hide Places, CallPlaces, NthCall, NthText, NthShown;
    forall k | 0 <= k < |results| ensures ResultItems(results)[k] == ToolOutputs(registry, items, replies)[k] {
      assert ResultIsFor(results[k], registry, items, replies, k);
    }
  }

  // ----- what the client is shown -----

  /** The public form of item `i`: an item of the model's own stays as it is; calls of the client's custom and shell
      tools take the client's form; a gateway call is replaced by what its handler shows, if it shows anything. */
  predicate ShownAs(
      registry: Registry, p: Projections, items: seq<OutputItem>, replies: Replies, i: nat, shown: OutputItem)
    requires i < |items|
  {
    if !items[i].OutFunctionCall? then shown == items[i]
    else
      var call := items[i].outCall;
      if call.name !in registry then shown == items[i]
      else if registry[call.name].toolType.Custom? then shown == p.custom(call)
      else if registry[call.name].ownership.Gateway? then
        exists k :: 0 <= k < |CallPlaces(registry, items)| && CallPlaces(registry, items)[k] == i
                    && shown == InPlaceOf(items[i], NthShown(registry, items, replies, k))
      else if registry[call.name].toolType.Shell? then p.shell(call) == Some(shown)
      else shown == items[i]
  }

  function InPlaceOf(item: OutputItem, shown: Option<OutputItem>): OutputItem {
    if shown.Some? then shown.value else item
  }

  /** A call of a client's shell whose arguments cannot be read. */
  predicate IsUnreadable(registry: Registry, p: Projections, item: OutputItem) {
    && item.OutFunctionCall? && item.outCall.name in registry
    && var entry := registry[item.outCall.name];
       !entry.toolType.Custom? && entry.toolType.Shell? && !entry.ownership.Gateway? && p.shell(item.outCall).None?
  }

  ghost predicate AllRepliedTo(registry: Registry, items: seq<OutputItem>, replies: Replies, results: seq<CallResult>) {
    && |results| == |CallPlaces(registry, items)|
    && forall k | 0 <= k < |results| :: ResultIsFor(results[k], registry, items, replies, k)
  }

  lemma ItemIsShown(
      items: seq<OutputItem>, registry: Registry, p: Projections, replies: Replies, results: seq<CallResult>, i: nat)
    requires AllRepliedTo(registry, items, replies, results) && i < |items|
    ensures var shown := PublicOutput(items[i], i, registry, results, p);
      && (shown.None? <==> IsUnreadable(registry, p, items[i]))
      && (shown.Some? ==> ShownAs(registry, p, items, replies, i, shown.value))
  {
    hide Places, NthShown, NthText, FindResult;
    if IsOwned(registry, items[i]) {
      var k :| 0 <= k < |CallPlaces(registry, items)| && CallPlaces(registry, items)[k] == i;
      ResultsInPlace(items, registry, replies, results, k);
    }
  }

  lemma ResultsInPlace(
      items: seq<OutputItem>, registry: Registry, replies: Replies, results: seq<CallResult>, k: nat)
    requires AllRepliedTo(registry, items, replies, results) && k < |results|
    ensures FindResult(results, CallPlaces(registry, items)[k]) == Some(results[k])
    ensures results[k].shown == NthShown(registry, items, replies, k)
  {
    hide Places, NthShown, NthText, FindResult;
    assert forall j | 0 <= j < |results| :: ResultIsFor(results[j], registry, items, replies, j);
    FoundAtItsIndex(results, k);
  }

  /** The public output of a round has every item in its place, in its public form; there is none exactly when a
      client's shell call cannot be read. */
  lemma ItemsAreShown(
      items: seq<OutputItem>, registry: Registry, p: Projections, replies: Replies, results: seq<CallResult>)
    requires AllRepliedTo(registry, items, replies, results)
    ensures var public := PublicOutputs(items, registry, results, p);
      && (public.None? <==> exists i :: 0 <= i < |items| && IsUnreadable(registry, p, items[i]))
      && (public.Some? ==>
            && |public.value| == |items|
            && forall i | 0 <= i < |items| :: ShownAs(registry, p, items, replies, i, public.value[i]))
  {
    hide PublicOutput, ShownAs, AllAnswered, IsUnreadable, PublicFrom;
    var public := PublicOutputs(items, registry, results, p);
    forall i | 0 <= i < |items|
      ensures var shown := PublicOutput(items[i], i, registry, results, p);
        && (shown.None? <==> IsUnreadable(registry, p, items[i]))
        && (shown.Some? ==> ShownAs(registry, p, items, replies, i, shown.value))
    {
      ItemIsShown(items, registry, p, replies, results, i);
    }
    NoneShown(items, registry, results, p, 0);
    if public.Some? {
      forall i | 0 <= i < |items| ensures ShownAs(registry, p, items, replies, i, public.value[i]) {
        assert PublicOutput(items[i], i, registry, results, p) == Some(public.value[i - 0]);
      }
    }
  }

  lemma {:induction false} NoneShown(
      items: seq<OutputItem>, registry: Registry, results: seq<CallResult>, p: Projections, from: nat)
    requires from <= |items|
    ensures PublicFrom(items, registry, results, p, from).None? <==>
      exists i :: from <= i < |items| && PublicOutput(items[i], i, registry, results, p).None?
    decreases |items| - from
  {
    hide PublicOutput;
    if from < |items| {
      NoneShown(items, registry, results, p, from + 1);
    }
  }

  // ----- events -----

  function EventsOf(emitted: seq<Emitted>): seq<ItemEvent>
    requires forall k | 0 <= k < |emitted| :: !emitted[k].Held?
  {
    seq(|emitted|, k requires 0 <= k < |emitted| => emitted[k].event)
  }

  function IdOf(item: OutputItem): string {
    match item
    case OutWebSearch(web) => web.id
    case OutMcpCall(mcp) => mcp.id
    case OutMcpListing(listing) => listing.id
    case _ => ""
  }

  /** The kinds of progress reported when a call begins, in order. */
  function BeginningKinds(item: OutputItem): seq<Types.SSEEventType> {
    if item.OutWebSearch? then [Types.WebSearchCallInProgress, Types.WebSearchCallSearching]
    else if item.OutMcpCall? then [Types.McpCallInProgress, Types.McpCallArgumentsDelta, Types.McpCallArgumentsDone]
    else if item.OutMcpListing? then [Types.McpListToolsInProgress]
    else []
  }

  /** The kind of progress reported when it has ended. */
  function EndingKind(item: OutputItem): Option<Types.SSEEventType> {
    if item.OutWebSearch? then Some(Types.WebSearchCallCompleted)
    else if item.OutMcpCall? then Some(if item.mcp.failed then Types.McpCallFailed else Types.McpCallCompleted)
    else if item.OutMcpListing?
    then Some(if item.outListing.failed then Types.McpListToolsFailed else Types.McpListToolsCompleted)
    else None
  }

  /** Kinds of items for which the gateway sends a done event. */
  predicate IsDoneByGateway(item: OutputItem) {
    match item
    case OutWebSearch(_) => true
    case OutMcpCall(_) => true
    case OutMcpListing(_) => true
    case OutShell(_) => true
    case OutCompaction(_) => true
    case _ => false
  }

  function BeginningDetail(kind: Types.SSEEventType, arguments: string): Detail {
    if kind == Types.McpCallArgumentsDelta || kind == Types.McpCallArgumentsDone then Arguments(arguments) else NoDetail
  }

  /** All that announces a call: its item is added, and makes its progress. */
  function Announcement(started: Option<OutputItem>, arguments: string, index: nat): seq<ItemEvent> {
    if started.None? then []
    else
      var item := started.value;
      [Added(index, item)]
      + seq(|BeginningKinds(item)|, k requires 0 <= k < |BeginningKinds(item)| =>
          Progress(BeginningKinds(item)[k], index, IdOf(item),
                   BeginningDetail(BeginningKinds(item)[k], arguments)))
  }

  /** All that concludes a call: its last progress, and then that its item is done. */
  function Conclusion(shown: Option<OutputItem>, index: nat): seq<ItemEvent> {
    if shown.None? || !IsDoneByGateway(shown.value) then []
    else
      var item := shown.value;
      (match EndingKind(item)
       case None => []
       case Some(kind) =>
         [Progress(kind, index, IdOf(item), if item.OutWebSearch? then WholeItem(item) else NoDetail)])
      + [Done(index, item)]
  }

  lemma StartIsAnnounced(plan: CallPlan)
    ensures StartEvents(plan) == Announcement(plan.started, plan.call.arguments, plan.outputIndex)
  {
  }

  lemma CompletionIsConcluded(plan: CallPlan, shown: Option<OutputItem>)
    ensures CompletedEvents(plan, shown) == Conclusion(shown, plan.outputIndex)
  {
  }

  /** The announcements of the calls of a round from the `k`-th on; `offset` items stand before the round's. */
  function Announcements(
      registry: Registry, p: Projections, items: seq<OutputItem>, offset: nat, k: nat): seq<ItemEvent>
    requires k <= |CallPlaces(registry, items)|
    decreases |CallPlaces(registry, items)| - k
  {
    if k == |CallPlaces(registry, items)| then []
    else
      var call := NthCall(registry, items, k);
      Announcement(if HasHandler(registry, call) then p.started(call) else None, call.arguments,
                   Capped(offset + CallPlaces(registry, items)[k]))
      + Announcements(registry, p, items, offset, k + 1)
  }

  function Conclusions(
      registry: Registry, items: seq<OutputItem>, replies: Replies, offset: nat, k: nat): seq<ItemEvent>
    requires k <= |CallPlaces(registry, items)|
    decreases |CallPlaces(registry, items)| - k
  {
    if k == |CallPlaces(registry, items)| then []
    else
      Conclusion(NthShown(registry, items, replies, k), Capped(offset + CallPlaces(registry, items)[k]))
      + Conclusions(registry, items, replies, offset, k + 1)
  }

  lemma {:induction false} StartsAreAnnouncements(
      items: seq<OutputItem>, registry: Registry, offset: nat, p: Projections, k: nat)
    requires k <= |CallPlaces(registry, items)| == |Plan(items, registry, offset, p)|
    ensures var starts := StartsFrom(Plan(items, registry, offset, p), k, |Plan(items, registry, offset, p)|);
      && (forall j | 0 <= j < |starts| :: starts[j].Starting?)
      && EventsOf(starts) == Announcements(registry, p, items, offset, k)
    decreases |CallPlaces(registry, items)| - k
  {
    hide PlanFrom, CallPlaces, NthCall, StartEvents, Announcement;
    var plans := Plan(items, registry, offset, p);
    if k < |plans| {
      StartsAreAnnouncements(items, registry, offset, p, k + 1);
      NthPlan(items, registry, offset, p, k);
      StartIsAnnounced(plans[k]);
      EventsAppend(StartsOf(k, StartEvents(plans[k])), StartsFrom(plans, k + 1, |plans|));
      assert EventsOf(StartsOf(k, StartEvents(plans[k]))) == StartEvents(plans[k]);
    }
  }

  lemma EventsAppend(xs: seq<Emitted>, ys: seq<Emitted>)
    requires forall k | 0 <= k < |xs| :: !xs[k].Held?
    requires forall k | 0 <= k < |ys| :: !ys[k].Held?
    ensures forall k | 0 <= k < |xs + ys| :: !(xs + ys)[k].Held?
    ensures EventsOf(xs + ys) == EventsOf(xs) + EventsOf(ys)
  {
  }

  lemma {:induction false} CompletionsAreConclusions(
      items: seq<OutputItem>, registry: Registry, offset: nat, p: Projections, replies: Replies,
      results: seq<CallResult>, k: nat)
    requires k <= |CallPlaces(registry, items)| == |Plan(items, registry, offset, p)| == |results|
    requires forall j | 0 <= j < |results| :: results[j].shown == NthShown(registry, items, replies, j)
    ensures var completions := CompletionsFrom(Plan(items, registry, offset, p), results, k);
      && (forall j | 0 <= j < |completions| :: completions[j].Completing?)
      && EventsOf(completions) == Conclusions(registry, items, replies, offset, k)
    decreases |CallPlaces(registry, items)| - k
  {
    hide PlanFrom, CallPlaces, NthCall, NthShown, CompletedEvents, Conclusion;
    var plans := Plan(items, registry, offset, p);
    if k < |plans| {
      CompletionsAreConclusions(items, registry, offset, p, replies, results, k + 1);
      NthPlan(items, registry, offset, p, k);
      CompletionIsConcluded(plans[k], results[k].shown);
      var here := CompletionsOf(k, CompletedEvents(plans[k], results[k].shown));
      EventsAppend(here, CompletionsFrom(plans, results, k + 1));
      assert EventsOf(here) == CompletedEvents(plans[k], results[k].shown);
    }
  }
}
