/** The agent loop: rounds of inference and gateway tool calls that keep in step the model's input, the
    history to be stored, the public output and the events sent to the client. */
module AgentLoop {
  import opened Basics
  import opened JsonValues
  import opened ConversationItems
  import opened ContextCompaction
  import opened GatewayRound
  import opened RoundEvents

  const MAX_ROUNDS: nat := 10

  /** The statuses the loop tells apart. */
  datatype ResponseStatus = Errored | Failed | Incomplete | OtherStatus(name: string)

  /** The answer of the upstream model, charged against the request's byte budget. */
  datatype Fetch =
    | FetchFails
    | Fetched(status: ResponseStatus, usage: Option<ResponseUsage>, items: seq<OutputItem>, held: seq<Frame>,
      bytes: nat)

  /** All that one round learns from outside. */
  datatype RoundInput = RoundInput(
    summary: Result<SummaryResponse, ()>, ids: FreshIds, fetch: Fetch, replies: (nat, FunctionToolCall) -> ToolReply)

  datatype Setup = Setup(
    registry: Registry, projections: Projections, namedConversation: bool, management: seq<ContextManagement>,
    streaming: bool)

  /** `baseInput` and `baseNew` are history: what both histories held when the run began or was last compacted;
      so is `executed`, the gateway calls whose results have been recorded since. */
  datatype LoopState = LoopState(
    histories: Histories,
    output: seq<OutputItem>,
    usage: Option<ResponseUsage>,
    remaining: nat,
    emitted: seq<Emitted>,
    baseInput: seq<InputItem>,
    baseNew: seq<InputItem>,
    executed: seq<FunctionToolCall>)

  datatype LoopError = CompactionFailed(error: CompactionError) | UnusableReasoning | UpstreamFailed | BatchFailed
    | UnreadableShellCall

  datatype Final = Final(status: ResponseStatus, exhausted: bool, state: LoopState)

  datatype Decision = Continue | Finished | RequiresClient | Exhausted

  /** Client-owned calls come first, then a turn without gateway work, then the last permitted round. */
  function ClassifyRound(hasClientOwned: bool, calls: nat, round: nat): Decision {
    if hasClientOwned then RequiresClient
    else if calls == 0 then Finished
    else if round + 1 >= MAX_ROUNDS then Exhausted
    else Continue
  }

  function AccumulateUsage(total: Option<ResponseUsage>, usage: Option<ResponseUsage>): Option<ResponseUsage> {
    if usage.None? then total
    else if total.None? then usage
    else Some(AddUsage(total.value, usage.value))
  }

  // ----- preparing reasoning for the model -----

  predicate HasPlaintext(r: Reasoning) {
    exists k :: 0 <= k < |r.texts| && r.texts[k] != ""
  }

  /** Encrypted state without plaintext cannot be replayed. */
  predicate IsUnusable(item: InputItem) {
    item.ReasoningItem? && !HasPlaintext(item.reasoning)
    && item.reasoning.encryptedContent.Some? && item.reasoning.encryptedContent.value != JsonValues.Null
  }

  function PreparedItems(items: seq<InputItem>): seq<InputItem> {
    if items == [] then []
    else
      var rest := PreparedItems(items[1..]);
      match items[0]
      case ReasoningItem(r) =>
        if HasPlaintext(r) then [ReasoningItem(Reasoning(r.id, [JoinLines(r.texts)], [], None, r.status))] + rest
        else rest
      case _ => [items[0]] + rest
  }

  function PrepareReasoning(input: ResponsesInput): Option<ResponsesInput> {
    match input
    case Text(_) => Some(input)
    case Items(items) =>
      if exists k :: 0 <= k < |items| && IsUnusable(items[k]) then None else Some(Items(PreparedItems(items)))
  }

  // ----- recording history -----

  function InputItems(input: ResponsesInput): seq<InputItem> {
    match input
    case Text(text) => [UserText(text)]
    case Items(items) => items
  }

  function AppendInputItem(input: ResponsesInput, item: InputItem): ResponsesInput {
    Items(InputItems(input) + [item])
  }

  function AppendInputItems(input: ResponsesInput, items: seq<InputItem>): ResponsesInput {
    if items == [] then input else Items(InputItems(input) + items)
  }

  function NoListings(items: seq<OutputItem>): seq<OutputItem> {
    if items == [] then []
    else (if items[0].OutMcpListing? then [] else [items[0]]) + NoListings(items[1..])
  }

  function GatewayCalls(items: seq<OutputItem>, registry: Registry): seq<FunctionToolCall> {
    if items == [] then []
    else (if IsGatewayCall(items[0], registry) then [items[0].outCall] else []) + GatewayCalls(items[1..], registry)
  }

  function CallItems(calls: seq<FunctionToolCall>): seq<InputItem> {
    seq(|calls|, k requires 0 <= k < |calls| => FunctionCall(CallOfFunction(calls[k])))
  }

  /** A session without a named conversation records every round's items itself; otherwise only the gateway's
      own calls are recorded here. */
  predicate RecordsAll(h: Histories, setup: Setup) {
    h.continuation.Some? && !setup.namedConversation
  }

  function RecordRoundHistory(h: Histories, items: seq<OutputItem>, setup: Setup, publicCount: nat): Histories {
    if RecordsAll(h, setup)
    then Histories(h.input, h.newItems + ToInputItems(NoListings(items)),
      Some(Continuation(h.continuation.value.historyReplaced, publicCount)))
    else Histories(h.input, h.newItems + CallItems(GatewayCalls(items, setup.registry)), h.continuation)
  }

  function ResultItem(result: CallResult): InputItem {
    FunctionCallOutput(result.callId, TextOutput(result.output))
  }

  function ResultItems(results: seq<CallResult>): seq<InputItem> {
    seq(|results|, k requires 0 <= k < |results| => ResultItem(results[k]))
  }

  function RecordResults(h: Histories, results: seq<CallResult>): Histories {
    Histories(AppendInputItems(h.input, ResultItems(results)), h.newItems + ResultItems(results), h.continuation)
  }

  // ----- one round -----

  /** Compaction, and before the first fetch the preparation of replayed reasoning. */
  function BeginRound(setup: Setup, s: LoopState, env: RoundInput, round: nat): Result<LoopState, LoopError> {
    match CompactedHistories(s.histories, setup.management, env.summary, env.ids)
    case (_, Failure(e)) => Failure(CompactionFailed(e))
    case (h, Success(Some(usage))) =>
      Success(s.(histories := h, usage := AccumulateUsage(s.usage, Some(usage)), baseInput := h.newItems,
        baseNew := h.newItems, executed := []))
    case (h, Success(None)) =>
      if round > 0 then Success(s.(histories := h))
      else
        match PrepareReasoning(h.input)
        case None => Failure(UnusableReasoning)
        case Some(input) => Success(s.(histories := h.(input := input), baseInput := InputItems(input)))
  }

  datatype RoundOutcome = Stopped(final: Final) | Broken(error: LoopError) | Continued(state: LoopState)

  function Emissions(
      setup: Setup, items: seq<OutputItem>, plans: seq<CallPlan>, results: seq<CallResult>, held: seq<Frame>)
      : seq<Emitted>
    requires |plans| == |results|
  {
    if !setup.streaming then []
    else if held == [] then PlainEvents(plans, results)
    else MergedEvents(plans, results, InitialRunLen(items, setup.registry, plans), held, |items|)
  }

  /** A run goes on only while rounds are left, so it always ends with an answer or an error. */
  function EndRound(setup: Setup, begun: LoopState, env: RoundInput, round: nat): (outcome: RoundOutcome)
    ensures outcome.Continued? ==> round + 1 < MAX_ROUNDS
  {
    match env.fetch
    case FetchFails => Broken(UpstreamFailed)
    case Fetched(status, usage, items, held, bytes) =>
      if bytes > begun.remaining then Broken(UpstreamFailed)
      else
        var s := begun.(usage := AccumulateUsage(begun.usage, usage), remaining := begun.remaining - bytes);
        if status.Errored? || status.Failed? then Stopped(Final(status, false, s.(output := s.output + items)))
        else
          var plans := Plan(items, setup.registry, |s.output|, setup.projections);
          match ExecuteBatch(plans, env.replies, s.remaining)
          case None => Broken(BatchFailed)
          case Some((results, left)) =>
            match PublicOutputs(items, setup.registry, results, setup.projections)
            case None => Broken(UnreadableShellCall)
            case Some(public) =>
              Settled(setup, s.(remaining := left), status, items, held, plans, results, public, round)
  }

  /** The rest of a round whose calls have all been answered. */
  function Settled(
    setup: Setup, s: LoopState, status: ResponseStatus, items: seq<OutputItem>, held: seq<Frame>,
    plans: seq<CallPlan>, results: seq<CallResult>, public: seq<OutputItem>, round: nat): (outcome: RoundOutcome)
    requires |plans| == |results|
    ensures outcome.Continued? ==> round + 1 < MAX_ROUNDS
  {
    var output := s.output + public;
    var recorded := RecordRoundHistory(s.histories, items, setup, |output|);
    var s' := s.(histories := RecordResults(recorded, results), output := output,
                 emitted := s.emitted + Emissions(setup, items, plans, results, held),
                 executed := s.executed + GatewayCalls(items, setup.registry));
    if status.Incomplete? then Stopped(Final(status, false, s'))
    else
      match ClassifyRound(HasClientOwnedCalls(items, setup.registry), |results|, round)
      case RequiresClient => Stopped(Final(status, false, s'))
      case Finished => Stopped(Final(status, false, s'))
      case Exhausted => Stopped(Final(Incomplete, true, s'))
      case Continue =>
        var input := AppendInputItems(recorded.input, ToInputItems(items));
        Continued(s'.(histories := RecordResults(recorded.(input := input), results)))
  }

  function RunFrom(setup: Setup, s: LoopState, env: nat -> RoundInput, round: nat): Result<Final, LoopError>
    requires round < MAX_ROUNDS
    decreases MAX_ROUNDS - round
  {
    match BeginRound(setup, s, env(round), round)
    case Failure(e) => Failure(e)
    case Success(begun) =>
      match EndRound(setup, begun, env(round), round)
      case Broken(e) => Failure(e)
      case Stopped(final) => Success(final)
      case Continued(s') => RunFrom(setup, s', env, round + 1)
  }

  function Start(h: Histories, discovered: seq<OutputItem>, budget: nat): LoopState {
    LoopState(h, discovered, None, budget, [], InputItems(h.input), h.newItems, [])
  }

  /** What the caller gets back. */
  datatype Payload = Payload(
    status: ResponseStatus, exhausted: bool, output: seq<OutputItem>, usage: Option<ResponseUsage>)

  function PayloadOf(r: Result<Final, LoopError>): Result<Payload, LoopError> {
    match r
    case Failure(e) => Failure(e)
    case Success(final) => Success(Payload(final.status, final.exhausted, final.state.output, final.state.usage))
  }

  // ----- the loop -----

  class EngineOrchestration {
    const context: RequestContext
    const registry: Registry
    const projections: Projections
    const streaming: bool
    var output: seq<OutputItem>
    var usage: Option<ResponseUsage>
    var remaining: nat
    var sent: seq<Emitted>
    ghost var baseInput: seq<InputItem>
    ghost var baseNew: seq<InputItem>
    ghost var executed: seq<FunctionToolCall>

    constructor (
        context: RequestContext, registry: Registry, projections: Projections, streaming: bool, budget: nat,
        discovered: seq<OutputItem>)
      ensures Configuration() == Setup(registry, projections, context.namedConversation, context.management, streaming)
      ensures this.context == context && Current() == Start(context.Value(), discovered, budget)
    {
      this.context := context;
      this.registry := registry;
      this.projections := projections;
      this.streaming := streaming;
      output := discovered;
      usage := None;
      remaining := budget;
      sent := [];
      baseInput := InputItems(context.input);
      baseNew := context.newItems;
      executed := [];
    }

    ghost function Current(): LoopState
      reads this, context
    {
      LoopState(context.Value(), output, usage, remaining, sent, baseInput, baseNew, executed)
    }

    function Configuration(): Setup {
      Setup(registry, projections, context.namedConversation, context.management, streaming)
    }

    method ExecuteRoundOutput(
        items: seq<OutputItem>, offset: nat, held: seq<Frame>, replies: (nat, FunctionToolCall) -> ToolReply)
      returns (results: Option<seq<CallResult>>)
      modifies `remaining, `sent
      ensures var plans := Plan(items, registry, offset, projections);
        match ExecuteBatch(plans, replies, old(remaining))
        case None => results.None?
        case Some((expected, left)) =>
          && results == Some(expected) && remaining == left
          && sent == old(sent) + Emissions(Configuration(), items, plans, expected, held)
    {
      hide PlanFrom, Answered, OutputSize, ExecuteBatch, InitialRunLen, StartsFrom, CompletionsFrom, MergedFrom;
      var plans := Plan(items, registry, offset, projections);
      match ExecuteBatch(plans, replies, remaining) {
        case None => return None;
        case Some((answered, left)) =>
          ResultSizes(plans, replies, remaining);
          PlansAreGatewayCalls(items, registry, offset, projections, 0);
          remaining := left;
          if streaming {
            if held == [] {
              sent := sent + PlainEvents(plans, answered);
            } else {
              var events := MergeRoundEvents(items, registry, plans, answered, held);
              sent := sent + events;
            }
          }
          return Some(answered);
      }
    }

    method RecordRound(items: seq<OutputItem>, publicCount: nat)
      modifies context
      ensures context.Value() == RecordRoundHistory(old(context.Value()), items, Configuration(), publicCount)
    {
      if context.continuation.Some? && !context.namedConversation {
        context.newItems := context.newItems + ToInputItems(NoListings(items));
        context.continuation := Some(Continuation(context.continuation.value.historyReplaced, publicCount));
      } else {
        context.newItems := context.newItems + CallItems(GatewayCalls(items, registry));
      }
    }

    method AppendOutputItems(items: seq<InputItem>)
      modifies context
      ensures context.Value() == old(context.Value()).(input := AppendInputItems(old(context.input), items))
    {
      ghost var before := context.input;
      for i := 0 to |items|
        invariant context.newItems == old(context.newItems) && context.continuation == old(context.continuation)
        invariant context.input == AppendInputItems(before, items[..i])
      {
        assert items[..i + 1] == items[..i] + [items[i]];
        context.input := AppendInputItem(context.input, items[i]);
      }
      assert items[..|items|] == items;
    }

    method RecordGatewayResults(results: seq<CallResult>)
      modifies context
      ensures context.Value() == RecordResults(old(context.Value()), results)
    {
      ghost var before := context.Value();
      for i := 0 to |results|
        invariant context.continuation == before.continuation
        invariant context.newItems == before.newItems + ResultItems(results[..i])
        invariant context.input == AppendInputItems(before.input, ResultItems(results[..i]))
      {
        assert ResultItems(results[..i + 1]) == ResultItems(results[..i]) + [ResultItem(results[i])];
        context.newItems := context.newItems + [ResultItem(results[i])];
        context.input := AppendInputItem(context.input, ResultItem(results[i]));
      }
      assert results[..|results|] == results;
    }

    method PrepareRound(env: RoundInput, round: nat) returns (failure: Option<LoopError>)
      modifies this, context
      ensures match BeginRound(Configuration(), old(Current()), env, round)
        case Failure(e) => failure == Some(e)
        case Success(s) => failure.None? && Current() == s
    {
      hide CompactedHistories, PrepareReasoning, AccumulateUsage, InputItems;
      var compacted := context.MaybeCompactContext(env.summary, env.ids);
      if compacted.Failure? {
        return Some(CompactionFailed(compacted.error));
      }
      if compacted.value.Some? {
        usage := AccumulateUsage(usage, compacted.value);
        baseInput, baseNew, executed := context.newItems, context.newItems, [];
      } else if round == 0 {
        var prepared := PrepareReasoning(context.input);
        if prepared.None? {
          return Some(UnusableReasoning);
        }
        context.input := prepared.value;
        baseInput := InputItems(prepared.value);
      }
      return None;
    }

    /** The rest of the round once its calls have been answered; `None` to go on with another round. */
    method SettleRound(
        status: ResponseStatus, items: seq<OutputItem>, results: seq<CallResult>, public: seq<OutputItem>, round: nat)
      returns (end: Option<(ResponseStatus, bool)>)
      modifies `output, `executed, context
      ensures
        && output == old(output) + public && executed == old(executed) + GatewayCalls(items, registry)
        && var recorded := RecordRoundHistory(old(context.Value()), items, Configuration(), |output|);
           var decision := ClassifyRound(HasClientOwnedCalls(items, registry), |results|, round);
           if status.Incomplete? || decision != Continue
           then
             && context.Value() == RecordResults(recorded, results)
             && end == Some((if !status.Incomplete? && decision.Exhausted? then Incomplete else status,
                             !status.Incomplete? && decision.Exhausted?))
           else
             && end.None?
             && var input := AppendInputItems(recorded.input, ToInputItems(items));
                context.Value() == RecordResults(recorded.(input := input), results)
    {
      hide AppendInputItems, ToInputItems, GatewayCalls, HasClientOwnedCalls, RecordRoundHistory, RecordResults;
      output := output + public;
      executed := executed + GatewayCalls(items, registry);
      RecordRound(items, |output|);
      if status.Incomplete? {
        RecordGatewayResults(results);
        return Some((status, false));
      }
      match ClassifyRound(HasClientOwnedCalls(items, registry), |results|, round) {
        case RequiresClient =>
          RecordGatewayResults(results);
          return Some((status, false));
        case Finished =>
          NoResultsToRecord(context.Value(), results);
          return Some((status, false));
        case Exhausted =>
          RecordGatewayResults(results);
          return Some((Incomplete, true));
        case Continue =>
          AppendOutputItems(ToInputItems(items));
          RecordGatewayResults(results);
          return None;
      }
    }

    method PerformRound(env: RoundInput, round: nat) returns (end: Result<Option<(ResponseStatus, bool)>, LoopError>)
      modifies this, context
      ensures match EndRound(Configuration(), old(Current()), env, round)
        case Broken(e) => end == Failure(e)
        case Stopped(final) => end == Success(Some((final.status, final.exhausted))) && Current() == final.state
        case Continued(s) => end == Success(None) && Current() == s
    {
      hide PlanFrom, Answered, OutputSize, ExecuteBatch, PublicFrom, Emissions, RecordRoundHistory, RecordResults,
        AppendInputItems, ToInputItems, GatewayCalls, HasClientOwnedCalls, AccumulateUsage, ClassifyRound;
      match env.fetch {
        case FetchFails => return Failure(UpstreamFailed);
        case Fetched(status, spent, items, held, bytes) =>
          if bytes > remaining {
            return Failure(UpstreamFailed);
          }
          remaining := remaining - bytes;
          usage := AccumulateUsage(usage, spent);
          if status.Errored? || status.Failed? {
            output := output + items;
            return Success(Some((status, false)));
          }
          var results := ExecuteRoundOutput(items, |output|, held, env.replies);
          if results.None? {
            return Failure(BatchFailed);
          }
          var public := PublicOutputs(items, registry, results.value, projections);
          if public.None? {
            return Failure(UnreadableShellCall);
          }
          var stop := SettleRound(status, items, results.value, public.value, round);
          return Success(stop);
      }
    }

    method Run(env: nat -> RoundInput) returns (r: Result<Payload, LoopError>)
      modifies this, context
      ensures var run := RunFrom(Configuration(), old(Current()), env, 0);
        r == PayloadOf(run) && (run.Success? ==> Current() == run.value.state)
    {
      hide BeginRound, EndRound;
      for round := 0 to MAX_ROUNDS
        invariant round < MAX_ROUNDS
        invariant RunFrom(Configuration(), old(Current()), env, 0) == RunFrom(Configuration(), Current(), env, round)
      {
        var failure := PrepareRound(env(round), round);
        if failure.Some? {
          return Failure(failure.value);
        }
        var end := PerformRound(env(round), round);
        if end.Failure? {
          return Failure(end.error);
        }
        if end.value.Some? {
          return Success(Payload(end.value.value.0, end.value.value.1, output, usage));
        }
      }
      assert false;
    }
  }

  lemma NoResultsToRecord(h: Histories, results: seq<CallResult>)
    requires results == []
    ensures RecordResults(h, results) == h
  {
  }
}
