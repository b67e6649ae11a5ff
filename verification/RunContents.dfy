/** What a whole run has done by any fetch and by its return, told from what it learned from outside alone: both
    histories item by item, the output, the events, and the budget. */
module RunContents {
  import opened Basics
  import opened JsonValues
  import opened ConversationItems
  import opened TokenEstimate
  import opened ContextCompaction
  import opened GatewayRound
  import opened RoundEvents
  import opened AgentLoop
  import opened LoopHistories
  import opened LoopRuns
  import opened RoundContents

  function ItemsOf(env: RoundInput): seq<OutputItem> {
    if env.fetch.Fetched? then env.fetch.items else []
  }

  // ----- one round -----

  /** A call that is left to the client. */
  predicate IsClientCall(registry: Registry, item: OutputItem) {
    item.OutSearchCall? || item.OutCustomCall? || item.OutShell? || (item.OutFunctionCall? && !IsOwned(registry, item))
  }

  /** There are gateway calls to continue with, and nothing is left to the client. */
  predicate HasOnlyGatewayWork(registry: Registry, items: seq<OutputItem>) {
    CallPlaces(registry, items) != [] && forall i | 0 <= i < |items| :: !IsClientCall(registry, items[i])
  }

  /** The round can be answered: the fetch succeeds within the budget, and so do the calls, and no call of the
      client's shell is unreadable. */
  ghost predicate IsAnswerable(setup: Setup, remaining: nat, env: RoundInput) {
    && env.fetch.Fetched? && env.fetch.bytes <= remaining
    && (!HasFailed(env.fetch.status) ==>
          && CallsSucceed(setup.registry, env.fetch.items, env.replies, remaining - env.fetch.bytes)
          && forall i | 0 <= i < |env.fetch.items| ::
               !IsUnreadable(setup.registry, setup.projections, env.fetch.items[i]))
  }

  /** A session without a named conversation records its rounds itself. */
  predicate RecordsRounds(setup: Setup, h: Histories) {
    h.continuation.Some? && !setup.namedConversation
  }

  /** The stored form of what the model said in a round. */
  function Stored(setup: Setup, recordsAll: bool, items: seq<OutputItem>): seq<InputItem> {
    if recordsAll then ToInputItems(NoListings(items)) else StoredCalls(setup.registry, items)
  }

  function OutputsOf(setup: Setup, env: RoundInput): seq<InputItem> {
    ToolOutputs(setup.registry, ItemsOf(env), env.replies)
  }

  function Charge(setup: Setup, env: RoundInput): nat {
    if env.fetch.Fetched? then env.fetch.bytes + Sum(TextSizes(setup.registry, env.fetch.items, env.replies)) else 0
  }

  function StartedEvents(emitted: seq<Emitted>): seq<ItemEvent> {
    if emitted == [] then []
    else (if emitted[0].Starting? then [emitted[0].event] else []) + StartedEvents(emitted[1..])
  }

  function EndedEvents(emitted: seq<Emitted>): seq<ItemEvent> {
    if emitted == [] then []
    else (if emitted[0].Completing? then [emitted[0].event] else []) + EndedEvents(emitted[1..])
  }

  function RoundAnnouncements(setup: Setup, env: RoundInput, offset: nat): seq<ItemEvent> {
    Announcements(setup.registry, setup.projections, ItemsOf(env), offset, 0)
  }

  function RoundConclusions(setup: Setup, env: RoundInput, offset: nat): seq<ItemEvent> {
    Conclusions(setup.registry, ItemsOf(env), env.replies, offset, 0)
  }

  function MarkedContinuation(setup: Setup, h: Histories, count: nat): Option<Continuation> {
    if RecordsRounds(setup, h) then Some(Continuation(h.continuation.value.historyReplaced, count)) else h.continuation
  }

  /** What a round adds to the two histories; only a round that goes on hands its items to the model. */
  ghost predicate AddsHistory(setup: Setup, begun: LoopState, env: RoundInput, s: LoopState, goesOn: bool) {
    && s.baseInput == begun.baseInput && s.baseNew == begun.baseNew
    && s.histories.continuation == MarkedContinuation(setup, begun.histories, |s.output|)
    && s.histories.newItems
         == begun.histories.newItems + Stored(setup, RecordsRounds(setup, begun.histories), ItemsOf(env))
            + OutputsOf(setup, env)
    && InputItems(s.histories.input)
         == InputItems(begun.histories.input) + (if goesOn then ToInputItems(ItemsOf(env)) else [])
            + OutputsOf(setup, env)
  }

  /** Item `i` of a round stands in the output, where the round's items begin at `offset`. */
  ghost predicate ShownIn(setup: Setup, env: RoundInput, i: nat, output: seq<OutputItem>, offset: nat) {
    && i < |ItemsOf(env)| && offset + i < |output|
    && ShownAs(setup.registry, setup.projections, ItemsOf(env), env.replies, i, output[offset + i])
  }

  ghost predicate AddsOutput(setup: Setup, begun: LoopState, env: RoundInput, s: LoopState) {
    && begun.output <= s.output && |s.output| == |begun.output| + |ItemsOf(env)|
    && forall i: nat | i < |ItemsOf(env)| :: ShownIn(setup, env, i, s.output, |begun.output|)
  }

  ghost predicate AddsEvents(setup: Setup, begun: LoopState, env: RoundInput, s: LoopState) {
    if setup.streaming then
      && StartedEvents(s.emitted) == StartedEvents(begun.emitted) + RoundAnnouncements(setup, env, |begun.output|)
      && EndedEvents(s.emitted) == EndedEvents(begun.emitted) + RoundConclusions(setup, env, |begun.output|)
    else s.emitted == begun.emitted
  }

  /** All that a round does that ends well. */
  ghost predicate Completes(setup: Setup, begun: LoopState, env: RoundInput, s: LoopState, goesOn: bool) {
    && AddsHistory(setup, begun, env, s, goesOn) && AddsOutput(setup, begun, env, s) && AddsEvents(setup, begun, env, s)
    && s.remaining + Charge(setup, env) == begun.remaining
  }

  lemma {:induction false} EventParts(emitted: seq<Emitted>)
    ensures forall k | 0 <= k < |Starts(emitted)| :: Starts(emitted)[k].Starting?
    ensures forall k | 0 <= k < |Completions(emitted)| :: Completions(emitted)[k].Completing?
    ensures StartedEvents(emitted) == EventsOf(Starts(emitted))
      && EndedEvents(emitted) == EventsOf(Completions(emitted))
  {
    hide EventsOf;
    NoEvents();
    if emitted != [] {
      EventParts(emitted[1..]);
      var starts, completions := Starts(emitted[1..]), Completions(emitted[1..]);
      if emitted[0].Starting? {
        EventFirst(emitted[0], starts);
      } else {
        assert [] + starts == starts && [] + StartedEvents(emitted[1..]) == StartedEvents(emitted[1..]);
      }
      if emitted[0].Completing? {
        EventFirst(emitted[0], completions);
      } else {
        assert [] + completions == completions && [] + EndedEvents(emitted[1..]) == EndedEvents(emitted[1..]);
      }
    }
  }

  lemma NoEvents()
    ensures EventsOf([]) == []
  {
  }

  lemma EventFirst(e: Emitted, rest: seq<Emitted>)
    requires !e.Held? && forall k | 0 <= k < |rest| :: !rest[k].Held?
    ensures forall k | 0 <= k < |[e] + rest| :: !([e] + rest)[k].Held?
    ensures EventsOf([e] + rest) == [e.event] + EventsOf(rest)
  {
  }

  lemma {:induction false} EventPartsAppend(xs: seq<Emitted>, ys: seq<Emitted>)
    ensures StartedEvents(xs + ys) == StartedEvents(xs) + StartedEvents(ys)
    ensures EndedEvents(xs + ys) == EndedEvents(xs) + EndedEvents(ys)
  {
    if xs == [] {
      assert xs + ys == ys;
    } else {
      assert (xs + ys)[1..] == xs[1..] + ys;
      EventPartsAppend(xs[1..], ys);
      AppendAssociates(
        if xs[0].Starting? then [xs[0].event] else [], StartedEvents(xs[1..]), StartedEvents(ys));
      AppendAssociates(
        if xs[0].Completing? then [xs[0].event] else [], EndedEvents(xs[1..]), EndedEvents(ys));
    }
  }

  lemma {:induction false} StoredCallsAre(registry: Registry, items: seq<OutputItem>)
    ensures CallItems(GatewayCalls(items, registry)) == StoredCalls(registry, items)
  {
    hide PlanFrom, Places, CallPlaces, NthCall, GatewayCalls;
    var p := Projections(_ => None, _ => OutUnknown, _ => None);
    PlanCount(items, registry, 0, p);
    PlannedCalls(items, registry, 0, p, 0);
    assert items[0..] == items;
    forall k: nat | k < |CallPlaces(registry, items)|
      ensures k < |GatewayCalls(items, registry)| && GatewayCalls(items, registry)[k] == NthCall(registry, items, k)
    {
      NthPlan(items, registry, 0, p, k);
    }
  }

  lemma RecordIsStored(h: Histories, items: seq<OutputItem>, setup: Setup)
    ensures RoundRecord(h, items, setup) == Stored(setup, RecordsRounds(setup, h), items)
  {
    hide ToInputItems, NoListings, CallItems, GatewayCalls, StoredCalls;
    StoredCallsAre(setup.registry, items);
  }

  lemma ClientCallsAreClientOwned(registry: Registry, items: seq<OutputItem>)
    ensures HasClientOwnedCalls(items, registry) <==> exists i :: 0 <= i < |items| && IsClientCall(registry, items[i])
  {
    assert forall i | 0 <= i < |items| ::
      RequiresClientAction(items[i], registry) <==> IsClientCall(registry, items[i]);
  }

  /** What the streamed events of a round say. */
  lemma EmissionsSay(
      setup: Setup, items: seq<OutputItem>, offset: nat, replies: Replies, results: seq<CallResult>, held: seq<Frame>)
    requires setup.streaming && AllRepliedTo(setup.registry, items, replies, results)
    ensures |Plan(items, setup.registry, offset, setup.projections)| == |results|
    ensures var events :=
      Emissions(setup, items, Plan(items, setup.registry, offset, setup.projections), results, held);
      && StartedEvents(events) == Announcements(setup.registry, setup.projections, items, offset, 0)
      && EndedEvents(events) == Conclusions(setup.registry, items, replies, offset, 0)
  {
    hide PlanFrom, CallPlaces, Emissions, Starts, Completions, StartedEvents, EndedEvents, Announcements, Conclusions,
      StartsFrom, CompletionsFrom, NthShown, NthText;
    var plans := Plan(items, setup.registry, offset, setup.projections);
    PlanCount(items, setup.registry, offset, setup.projections);
    EmissionsHaveAllCalls(setup, items, offset, results, held);
    EventParts(Emissions(setup, items, plans, results, held));
    StartsAreAnnouncements(items, setup.registry, offset, setup.projections, 0);
    assert forall j | 0 <= j < |results| :: ResultIsFor(results[j], setup.registry, items, replies, j);
    CompletionsAreConclusions(items, setup.registry, offset, setup.projections, replies, results, 0);
  }

  /** One round from its fetch on: whether it can be answered, whether the run goes on, and all that it does. */
  lemma RoundDoes(setup: Setup, begun: LoopState, env: RoundInput, round: nat)
    requires Echoes(env.replies)
    ensures match EndRound(setup, begun, env, round)
      case Broken(_) => !IsAnswerable(setup, begun.remaining, env)
      case Continued(s) =>
        && IsAnswerable(setup, begun.remaining, env) && !HasFailed(env.fetch.status) && !env.fetch.status.Incomplete?
        && HasOnlyGatewayWork(setup.registry, env.fetch.items) && round + 1 < 10
        && Completes(setup, begun, env, s, true)
      case Stopped(final) =>
        && IsAnswerable(setup, begun.remaining, env)
        && StopsBecause(setup, env, round, final)
        && if HasFailed(env.fetch.status)
           then final.state.output == begun.output + env.fetch.items && LeftAsIs(begun, final.state, env.fetch.bytes)
           else Completes(setup, begun, env, final.state, false)
  {
    hide Completes, HasOnlyGatewayWork, IsUnreadable, CallsSucceed, Settled, Plan, ExecuteBatch, PublicOutputs, Echoes,
      AccumulateUsage;
    if env.fetch.Fetched? && env.fetch.bytes <= begun.remaining && !HasFailed(env.fetch.status) {
      AnsweredRoundDoes(setup, begun, env, round);
    }
  }

  /** Why a round is the last. */
  predicate StopsBecause(setup: Setup, env: RoundInput, round: nat, final: Final)
    requires env.fetch.Fetched?
  {
    var status := env.fetch.status;
    var outOfRounds := HasOnlyGatewayWork(setup.registry, env.fetch.items) && round + 1 >= 10;
    && (HasFailed(status) || status.Incomplete? || !HasOnlyGatewayWork(setup.registry, env.fetch.items) || outOfRounds)
    && (final.exhausted <==> !HasFailed(status) && !status.Incomplete? && outOfRounds)
    && final.status == if final.exhausted then Incomplete else status
  }

  /** Nothing but the output, the usage and the budget has changed. */
  predicate LeftAsIs(begun: LoopState, s: LoopState, bytes: nat) {
    && s.histories == begun.histories && s.emitted == begun.emitted && s.remaining + bytes == begun.remaining
    && s.baseInput == begun.baseInput && s.baseNew == begun.baseNew
  }

  lemma AnsweredRoundDoes(setup: Setup, begun: LoopState, env: RoundInput, round: nat)
    requires Echoes(env.replies) && env.fetch.Fetched? && env.fetch.bytes <= begun.remaining
    requires !HasFailed(env.fetch.status)
    ensures match EndRound(setup, begun, env, round)
      case Broken(_) => !IsAnswerable(setup, begun.remaining, env)
      case Continued(s) =>
        && IsAnswerable(setup, begun.remaining, env) && !env.fetch.status.Incomplete?
        && HasOnlyGatewayWork(setup.registry, env.fetch.items) && round + 1 < 10
        && Completes(setup, begun, env, s, true)
      case Stopped(final) =>
        && IsAnswerable(setup, begun.remaining, env) && StopsBecause(setup, env, round, final)
        && Completes(setup, begun, env, final.state, false)
  {
    hide Completes, HasOnlyGatewayWork, IsUnreadable, CallsSucceed, Settled, PlanFrom, ExecuteBatch, PublicFrom, Echoes,
      AccumulateUsage, StopsBecause, AllRepliedTo;
    var fetch, offset := env.fetch, |begun.output|;
    var plans := Plan(fetch.items, setup.registry, offset, setup.projections);
    var remaining := begun.remaining - fetch.bytes;
    BatchOfCalls(fetch.items, setup.registry, offset, setup.projections, env.replies, remaining);
    var batch := ExecuteBatch(plans, env.replies, remaining);
    if batch.Some? {
      var results := batch.value.0;
      BatchRepliesToAll(fetch.items, setup.registry, offset, setup.projections, env.replies, remaining);
      ItemsAreShown(fetch.items, setup.registry, setup.projections, env.replies, results);
      var public := PublicOutputs(fetch.items, setup.registry, results, setup.projections);
      if public.Some? {
        var s := begun.(usage := AccumulateUsage(begun.usage, fetch.usage), remaining := batch.value.1);
        PlanCount(fetch.items, setup.registry, offset, setup.projections);
        RepliesAreCounted(setup.registry, fetch.items, env.replies, results);
        SettledRoundDoes(setup, begun, s, env, results, public.value, round);
      }
    }
  }

  lemma RepliesAreCounted(registry: Registry, items: seq<OutputItem>, replies: Replies, results: seq<CallResult>)
    requires AllRepliedTo(registry, items, replies, results)
    ensures |results| == |CallPlaces(registry, items)|
  {
  }

  lemma BatchRepliesToAll(
      items: seq<OutputItem>, registry: Registry, offset: nat, p: Projections, replies: Replies, remaining: nat)
    requires ExecuteBatch(Plan(items, registry, offset, p), replies, remaining).Some?
    ensures AllRepliedTo(
      registry, items, replies, ExecuteBatch(Plan(items, registry, offset, p), replies, remaining).value.0)
  {
    hide PlanFrom, ExecuteBatch, CallsSucceed, ResultIsFor;
    BatchOfCalls(items, registry, offset, p, replies, remaining);
  }

  lemma SettledRoundDoes(
      setup: Setup, begun: LoopState, s: LoopState, env: RoundInput, results: seq<CallResult>, public: seq<OutputItem>,
      round: nat)
    requires Echoes(env.replies) && env.fetch.Fetched? && !HasFailed(env.fetch.status)
    requires s.histories == begun.histories && s.output == begun.output && s.emitted == begun.emitted
    requires s.baseInput == begun.baseInput && s.baseNew == begun.baseNew
    requires s.remaining + Charge(setup, env) == begun.remaining
    requires AllRepliedTo(setup.registry, env.fetch.items, env.replies, results)
    requires |Plan(env.fetch.items, setup.registry, |s.output|, setup.projections)| == |results|
      == |CallPlaces(setup.registry, env.fetch.items)|
    requires |public| == |env.fetch.items| && forall i | 0 <= i < |public| ::
      ShownAs(setup.registry, setup.projections, env.fetch.items, env.replies, i, public[i])
    ensures var fetch := env.fetch;
      var plans := Plan(fetch.items, setup.registry, |s.output|, setup.projections);
      match Settled(setup, s, fetch.status, fetch.items, fetch.held, plans, results, public, round)
      case Broken(_) => false
      case Continued(s') =>
        && !fetch.status.Incomplete? && HasOnlyGatewayWork(setup.registry, fetch.items) && round + 1 < 10
        && Completes(setup, begun, env, s', true)
      case Stopped(final) =>
        StopsBecause(setup, env, round, final) && Completes(setup, begun, env, final.state, false)
  {
    hide PlanFrom, Emissions, RecordRoundHistory, RecordResults, AppendInputItems, GatewayCalls, HasClientOwnedCalls,
      AddsHistory, AddsEvents, AddsOutput, AllRepliedTo, ShownAs, Echoes, CallPlaces, IsClientCall, ToInputItems;
    var fetch := env.fetch;
    var plans := Plan(fetch.items, setup.registry, |s.output|, setup.projections);
    ClientCallsAreClientOwned(setup.registry, fetch.items);
    var outcome := Settled(setup, s, fetch.status, fetch.items, fetch.held, plans, results, public, round);
    var s' := if outcome.Continued? then outcome.state else outcome.final.state;
    var recorded := RecordRoundHistory(s.histories, fetch.items, setup, |s.output + public|);
    var input := if outcome.Continued? then AppendInputItems(recorded.input, ToInputItems(fetch.items))
                 else recorded.input;
    SettledHistory(setup, begun, env, s', recorded, input, results, outcome.Continued?);
    SettledOutput(setup, begun, env, s', public);
    SettledEvents(setup, begun, env, s', plans, results);
  }

  lemma SettledHistory(
      setup: Setup, begun: LoopState, env: RoundInput, s: LoopState, recorded: Histories, input: ResponsesInput,
      results: seq<CallResult>, goesOn: bool)
    requires Echoes(env.replies) && env.fetch.Fetched?
    requires AllRepliedTo(setup.registry, env.fetch.items, env.replies, results)
    requires recorded == RecordRoundHistory(begun.histories, env.fetch.items, setup, |s.output|)
    requires input == if goesOn then AppendInputItems(recorded.input, ToInputItems(env.fetch.items)) else recorded.input
    requires s.histories == RecordResults(recorded.(input := input), results)
    requires s.baseInput == begun.baseInput && s.baseNew == begun.baseNew
    ensures AddsHistory(setup, begun, env, s, goesOn)
  {
    hide RecordRoundHistory, AppendInputItems, ToInputItems, RoundRecord, ToolOutputs, ResultItems, InputItems, Echoes,
      ResultIsFor;
    RecordedHistory(begun.histories, env.fetch.items, setup, |s.output|);
    RecordMarksOutputs(begun.histories, env.fetch.items, setup, |s.output|);
    RecordIsStored(begun.histories, env.fetch.items, setup);
    ResultsAreToolOutputs(env.fetch.items, setup.registry, env.replies, results);
    InputGrows(recorded.input, ToInputItems(env.fetch.items));
    InputGrows(input, ResultItems(results));
    assert InputItems(recorded.input) + [] == InputItems(recorded.input);
  }

  lemma RecordMarksOutputs(h: Histories, items: seq<OutputItem>, setup: Setup, count: nat)
    ensures RecordRoundHistory(h, items, setup, count).continuation == MarkedContinuation(setup, h, count)
  {
    hide ToInputItems, GatewayCalls, CallItems;
  }

  lemma SettledOutput(setup: Setup, begun: LoopState, env: RoundInput, s: LoopState, public: seq<OutputItem>)
    requires env.fetch.Fetched? && s.output == begun.output + public && |public| == |env.fetch.items|
    requires forall i | 0 <= i < |public| ::
      ShownAs(setup.registry, setup.projections, env.fetch.items, env.replies, i, public[i])
    ensures AddsOutput(setup, begun, env, s)
  {
    hide ShownAs;
    assert forall i | 0 <= i < |public| :: s.output[|begun.output| + i] == public[i];
  }

  lemma SettledEvents(
      setup: Setup, begun: LoopState, env: RoundInput, s: LoopState, plans: seq<CallPlan>, results: seq<CallResult>)
    requires env.fetch.Fetched? && AllRepliedTo(setup.registry, env.fetch.items, env.replies, results)
    requires plans == Plan(env.fetch.items, setup.registry, |begun.output|, setup.projections)
    requires |plans| == |results|
    requires s.emitted == begun.emitted + Emissions(setup, env.fetch.items, plans, results, env.fetch.held)
    ensures AddsEvents(setup, begun, env, s)
  {
    hide PlanFrom, Emissions, AllRepliedTo, StartedEvents, EndedEvents, Announcements, Conclusions;
    var events := Emissions(setup, env.fetch.items, plans, results, env.fetch.held);
    if setup.streaming {
      EmissionsSay(setup, env.fetch.items, |begun.output|, env.replies, results, env.fetch.held);
      EventPartsAppend(begun.emitted, events);
    } else {
      NothingWithoutStreaming(setup, env.fetch.items, plans, results, env.fetch.held);
      assert begun.emitted + [] == begun.emitted;
    }
  }

  // ----- the whole run -----

  /** How many items stand before those of round `n`. */
  function Offset(env: nat -> RoundInput, discovered: nat, n: nat): nat {
    if n == 0 then discovered else Offset(env, discovered, n - 1) + |ItemsOf(env(n - 1))|
  }

  /** What rounds `from` up to `n` have added to the model's input: the model's own items, then what its calls came
      to, round by round. */
  function Transcript(setup: Setup, env: nat -> RoundInput, from: nat, n: nat): seq<InputItem> {
    if n <= from then []
    else Transcript(setup, env, from, n - 1) + ToInputItems(ItemsOf(env(n - 1))) + OutputsOf(setup, env(n - 1))
  }

  /** What they have added to the history that is stored. */
  function Recorded(setup: Setup, recordsAll: bool, env: nat -> RoundInput, from: nat, n: nat): seq<InputItem> {
    if n <= from then []
    else
      Recorded(setup, recordsAll, env, from, n - 1) + Stored(setup, recordsAll, ItemsOf(env(n - 1)))
      + OutputsOf(setup, env(n - 1))
  }

  function AllAnnouncements(setup: Setup, env: nat -> RoundInput, discovered: nat, n: nat): seq<ItemEvent> {
    if n == 0 then []
    else
      AllAnnouncements(setup, env, discovered, n - 1)
      + RoundAnnouncements(setup, env(n - 1), Offset(env, discovered, n - 1))
  }

  function AllConclusions(setup: Setup, env: nat -> RoundInput, discovered: nat, n: nat): seq<ItemEvent> {
    if n == 0 then []
    else
      AllConclusions(setup, env, discovered, n - 1)
        + RoundConclusions(setup, env(n - 1), Offset(env, discovered, n - 1))
  }

  function Charged(setup: Setup, env: nat -> RoundInput, n: nat): nat {
    if n == 0 then 0 else Charged(setup, env, n - 1) + Charge(setup, env(n - 1))
  }

  function FirstRound(since: Option<nat>): nat {
    if since.Some? then since.value else 0
  }

  /** A continuation stays one, and knows whether the history has been replaced. */
  predicate ContinuationKept(h: Histories, since: Option<nat>, now: Histories) {
    && (h.continuation.Some? <==> now.continuation.Some?)
    && (h.continuation.Some? ==>
          (now.continuation.value.historyReplaced <==> h.continuation.value.historyReplaced || since.Some?))
  }

  /** The session has marked the first `count` output items as recorded, once a round of its own has been. */
  predicate OutputsMarked(setup: Setup, h: Histories, n: nat, count: nat, now: Histories) {
    h.continuation.Some? ==>
      && now.continuation.Some?
      && now.continuation.value.recordedOutputs
           == if RecordsRounds(setup, h) && n > 0 then count else h.continuation.value.recordedOutputs
  }

  /** What both histories held when the run began to add to them: after a compaction one and the same window that ends
      in the summary; before, the history as it was given, and the input with its reasoning prepared. */
  ghost predicate BaseAccount(setup: Setup, h: Histories, env: nat -> RoundInput, since: Option<nat>, s: LoopState) {
    if since.Some? then
      && s.baseInput == s.baseNew && env(since.value).summary.Success?
      && EndsInSummary(s.baseNew, env(since.value).summary.value, env(since.value).ids.checkpoint)
    else
      && s.baseNew == h.newItems && PrepareReasoning(h.input).Some?
      && s.baseInput == InputItems(PrepareReasoning(h.input).value)
  }

  ghost predicate HistoryAccount(
      setup: Setup, h: Histories, env: nat -> RoundInput, since: Option<nat>, n: nat, s: LoopState)
  {
    && HasBases(s) && ContinuationKept(h, since, s.histories)
    && InputAdded(s) == Transcript(setup, env, FirstRound(since), n)
    && NewAdded(s) == Recorded(setup, RecordsRounds(setup, h), env, FirstRound(since), n)
  }

  /** The output holds what was discovered, then every item of the first `n` rounds in its place and public form. */
  ghost predicate OutputAccount(
      setup: Setup, env: nat -> RoundInput, discovered: seq<OutputItem>, n: nat, output: seq<OutputItem>)
  {
    && discovered <= output && |output| == Offset(env, |discovered|, n)
    && forall k: nat, i: nat | k < n && i < |ItemsOf(env(k))| ::
         ShownIn(setup, env(k), i, output, Offset(env, |discovered|, k))
  }

  ghost predicate EventAccount(
      setup: Setup, env: nat -> RoundInput, discovered: nat, n: nat, emitted: seq<Emitted>)
  {
    if setup.streaming then
      && StartedEvents(emitted) == AllAnnouncements(setup, env, discovered, n)
      && EndedEvents(emitted) == AllConclusions(setup, env, discovered, n)
    else emitted == []
  }

  /** All of this, with what is left of the budget. */
  ghost predicate Account(
      setup: Setup, h: Histories, env: nat -> RoundInput, discovered: seq<OutputItem>, budget: nat,
      since: Option<nat>, n: nat, s: LoopState)
  {
    && HistoryAccount(setup, h, env, since, n, s)
    && OutputAccount(setup, env, discovered, n, s.output)
    && EventAccount(setup, env, |discovered|, n, s.emitted)
    && OutputsMarked(setup, h, n, Offset(env, |discovered|, n), s.histories)
    && s.remaining + Charged(setup, env, n) == budget
  }

  lemma StartHasAccount(
      setup: Setup, env: nat -> RoundInput, h: Histories, discovered: seq<OutputItem>, budget: nat)
    ensures Account(
      setup, h, env, discovered, budget, None, 0, Start(h, discovered, budget))
  {
    StartIsFresh(h, discovered, budget);
  }

  /** A compaction begins both histories anew; nothing else that precedes a fetch adds to them. */
  lemma BeginKeepsAccount(
      setup: Setup, h: Histories, env: nat -> RoundInput, discovered: seq<OutputItem>, budget: nat,
      before: Option<nat>, round: nat, s: LoopState)
    requires Account(setup, h, env, discovered, budget, before, round, s)
    requires round == 0 ==> before.None? && IsFresh(s)
    requires BeginRound(setup, s, env(round), round).Success?
    ensures Account(
      setup, h, env, discovered, budget, LatestCompaction(setup, s, env(round), round, before), round,
      BeginRound(setup, s, env(round), round).value)
  {
    hide HistoryAccount, OutputAccount, EventAccount, BeginRound, Compacts, IsFresh;
    BeginKeepsHistory(setup, h, env, before, round, s);
    BeginShowsNothing(setup, s, env(round), round);
    BeginKeepsMarks(setup, h, s, env(round), round, round, Offset(env, |discovered|, round));
  }

  lemma BeginKeepsMarks(
      setup: Setup, h: Histories, s: LoopState, env: RoundInput, round: nat, n: nat, count: nat)
    requires BeginRound(setup, s, env, round).Success? && OutputsMarked(setup, h, n, count, s.histories)
    ensures OutputsMarked(setup, h, n, count, BeginRound(setup, s, env, round).value.histories)
  {
    hide CompactedHistories, PrepareReasoning, AccumulateUsage;
    CompactionReplacesBothHistories(s.histories, setup.management, env.summary, env.ids);
  }

  /** Where both histories begin, once a round has begun. */
  lemma BeginHasBase(
      setup: Setup, h: Histories, env: nat -> RoundInput, before: Option<nat>, round: nat, s: LoopState)
    requires BeginRound(setup, s, env(round), round).Success?
    requires if round == 0 then s.histories == h && s.baseNew == h.newItems && before.None?
             else BaseAccount(setup, h, env, before, s)
    ensures BaseAccount(
      setup, h, env, LatestCompaction(setup, s, env(round), round, before),
      BeginRound(setup, s, env(round), round).value)
  {
    hide CompactedHistories, PrepareReasoning, AccumulateUsage, EndsInSummary;
    CompactionReplacesBothHistories(s.histories, setup.management, env(round).summary, env(round).ids);
  }

  lemma BeginShowsNothing(setup: Setup, s: LoopState, env: RoundInput, round: nat)
    requires BeginRound(setup, s, env, round).Success?
    ensures var begun := BeginRound(setup, s, env, round).value;
      begun.output == s.output && begun.emitted == s.emitted && begun.remaining == s.remaining
  {
    hide CompactedHistories, PrepareReasoning, AccumulateUsage;
  }

  lemma BeginKeepsHistory(
      setup: Setup, h: Histories, env: nat -> RoundInput, before: Option<nat>, round: nat, s: LoopState)
    requires HistoryAccount(setup, h, env, before, round, s)
    requires round == 0 ==> before.None? && IsFresh(s)
    requires BeginRound(setup, s, env(round), round).Success?
    ensures HistoryAccount(
      setup, h, env, LatestCompaction(setup, s, env(round), round, before), round,
      BeginRound(setup, s, env(round), round).value)
  {
    hide Transcript, Recorded, BeginRound, Compacts, InputItems;
    BeginRestarts(setup, h, s, env(round), round, before);
    NothingYet(setup, RecordsRounds(setup, h), env, round);
  }

  /** A compaction, and the first round, restart what is added; nothing else that precedes a fetch changes it. */
  lemma BeginRestarts(
      setup: Setup, h: Histories, s: LoopState, env: RoundInput, round: nat, before: Option<nat>)
    requires BeginRound(setup, s, env, round).Success? && ContinuationKept(h, before, s.histories)
    requires round == 0 ==> before.None? && IsFresh(s)
    ensures var begun := BeginRound(setup, s, env, round).value;
      && ContinuationKept(h, LatestCompaction(setup, s, env, round, before), begun.histories)
      && if Compacts(setup, s, env) || round == 0 then HasBases(begun) && NewAdded(begun) == []
      && InputAdded(begun) == []
         else begun.histories == s.histories && begun.baseInput == s.baseInput && begun.baseNew == s.baseNew
  {
    hide CompactedHistories, PrepareReasoning, AccumulateUsage;
    CompactionRestarts(s.histories, setup.management, env.summary, env.ids);
    var begun := BeginRound(setup, s, env, round).value;
    if Compacts(setup, s, env) {
      BasesAreAll(begun);
    } else if round == 0 {
      assert begun.histories.newItems[|begun.baseNew|..] == [];
      assert InputItems(begun.histories.input)[|begun.baseInput|..] == [];
    }
  }

  lemma CompactionRestarts(
      h: Histories, entries: seq<ContextManagement>, reply: Result<SummaryResponse, ()>, ids: FreshIds)
    ensures var (after, r) := CompactedHistories(h, entries, reply, ids);
      && (r == Success(None) ==> after == h)
      && (r.Success? && r.value.Some? ==>
            && after.input == Items(after.newItems) && (after.continuation.Some? <==> h.continuation.Some?)
            && (after.continuation.Some? ==> after.continuation.value.historyReplaced))
  {
    hide CompactedHistories, EndsInSummary, AllStandFor, HasMeaning, HasSummary, Estimate;
    CompactionReplacesBothHistories(h, entries, reply, ids);
  }

  lemma NothingYet(setup: Setup, recordsAll: bool, env: nat -> RoundInput, n: nat)
    ensures Transcript(setup, env, n, n) == [] && Recorded(setup, recordsAll, env, n, n) == []
  {
  }

  lemma RoundKeepsHistory(
      setup: Setup, h: Histories, env: nat -> RoundInput, since: Option<nat>, n: nat, begun: LoopState,
      s: LoopState, goesOn: bool)
    requires HistoryAccount(setup, h, env, since, n, begun) && FirstRound(since) <= n
    requires AddsHistory(setup, begun, env(n), s, goesOn)
    ensures goesOn ==> HistoryAccount(setup, h, env, since, n + 1, s)
    ensures HasBases(s)
    ensures NewAdded(s) == Recorded(setup, RecordsRounds(setup, h), env, FirstRound(since), n + 1)
    ensures !goesOn ==> InputAdded(s) == Transcript(setup, env, FirstRound(since), n) + OutputsOf(setup, env(n))
  {
    hide InputItems, ToInputItems, OutputsOf, Stored;
    SuffixGrows(
      begun.baseNew, begun.histories.newItems, Stored(setup, RecordsRounds(setup, h), ItemsOf(env(n))),
        OutputsOf(setup, env(n)));
    SuffixGrows(
      begun.baseInput, InputItems(begun.histories.input), if goesOn then ToInputItems(ItemsOf(env(n))) else [],
      OutputsOf(setup, env(n)));
    assert Transcript(setup, env, FirstRound(since), n) + [] == Transcript(setup, env, FirstRound(since), n);
  }

  lemma RoundMarksOutputs(
      setup: Setup, h: Histories, env: nat -> RoundInput, since: Option<nat>, n: nat, begun: LoopState, s: LoopState,
      goesOn: bool, count: nat)
    requires HistoryAccount(setup, h, env, since, n, begun) && OutputsMarked(setup, h, n, count, begun.histories)
    requires AddsHistory(setup, begun, env(n), s, goesOn)
    ensures ContinuationKept(h, since, s.histories) && OutputsMarked(setup, h, n + 1, |s.output|, s.histories)
  {
    hide Transcript, Recorded, ToInputItems, OutputsOf, Stored, InputItems;
  }

  lemma RoundKeepsOutput(
      setup: Setup, env: nat -> RoundInput, discovered: seq<OutputItem>, n: nat, begun: LoopState, s: LoopState)
    requires OutputAccount(setup, env, discovered, n, begun.output) && AddsOutput(setup, begun, env(n), s)
    ensures OutputAccount(setup, env, discovered, n + 1, s.output)
  {
    hide ShownAs;
    forall k: nat, i: nat | k < n + 1 && i < |ItemsOf(env(k))|
      ensures ShownIn(setup, env(k), i, s.output, Offset(env, |discovered|, k))
    {
      if k < n {
        assert ShownIn(setup, env(k), i, begun.output, Offset(env, |discovered|, k));
      }
    }
  }

  lemma RoundKeepsAccount(
      setup: Setup, h: Histories, env: nat -> RoundInput, discovered: seq<OutputItem>, budget: nat,
      since: Option<nat>, n: nat, begun: LoopState, s: LoopState)
    requires Account(setup, h, env, discovered, budget, since, n, begun) && FirstRound(since) <= n
    requires Completes(setup, begun, env(n), s, true)
    ensures Account(setup, h, env, discovered, budget, since, n + 1, s)
  {
    hide HistoryAccount, OutputAccount, EventAccount, OutputsMarked, AddsHistory, AddsOutput, AddsEvents, Charge;
    RoundKeepsHistory(setup, h, env, since, n, begun, s, true);
    RoundMarksOutputs(setup, h, env, since, n, begun, s, true, Offset(env, |discovered|, n));
    RoundKeepsOutput(setup, env, discovered, n, begun, s);
    RoundKeepsEvents(setup, env, discovered, n, begun, s);
    OutputLength(setup, env, discovered, n + 1, s.output);
  }

  lemma RoundKeepsEvents(
      setup: Setup, env: nat -> RoundInput, discovered: seq<OutputItem>, n: nat, begun: LoopState, s: LoopState)
    requires OutputAccount(setup, env, discovered, n, begun.output)
    requires EventAccount(setup, env, |discovered|, n, begun.emitted) && AddsEvents(setup, begun, env(n), s)
    ensures EventAccount(setup, env, |discovered|, n + 1, s.emitted)
  {
    hide OutputAccount, RoundAnnouncements, RoundConclusions, StartedEvents, EndedEvents;
    OutputLength(setup, env, discovered, n, begun.output);
  }

  lemma OutputLength(
      setup: Setup, env: nat -> RoundInput, discovered: seq<OutputItem>, n: nat, output: seq<OutputItem>)
    requires OutputAccount(setup, env, discovered, n, output)
    ensures |output| == Offset(env, |discovered|, n)
  {
  }

  lemma {:induction false} FetchesHaveAccount(
      setup: Setup, h: Histories, env: nat -> RoundInput, discovered: seq<OutputItem>, budget: nat, s: LoopState,
      round: nat, before: Option<nat>, n: nat, begun: LoopState, since: Option<nat>)
    requires round < MAX_ROUNDS && Contract(setup, env) && FirstRound(before) <= round
    requires round == 0 ==> before.None? && IsFresh(s)
    requires if round == 0 then s.histories == h && s.baseNew == h.newItems else BaseAccount(setup, h, env, before, s)
    requires Account(setup, h, env, discovered, budget, before, round, s)
    requires Fetches(setup, s, env, round, before, n, begun, since)
    ensures Account(setup, h, env, discovered, budget, since, n, begun) && FirstRound(since) <= n
    ensures BaseAccount(setup, h, env, since, begun)
    decreases MAX_ROUNDS - round
  {
    hide Account, BeginRound, EndRound, Compacts, Completes, IsFresh, Echoes, IsAnswerable, HasOnlyGatewayWork,
      BaseAccount;
    BeginHasBase(setup, h, env, before, round, s);
    BeginKeepsAccount(setup, h, env, discovered, budget, before, round, s);
    if round != n {
      var next := BeginRound(setup, s, env(round), round).value;
      var here := LatestCompaction(setup, s, env(round), round, before);
      RoundDoes(setup, next, env(round), round);
      var s' := EndRound(setup, next, env(round), round).state;
      RoundKeepsAccount(setup, h, env, discovered, budget, here, round, next, s');
      RoundKeepsBase(setup, h, env, here, round, next, s');
      FetchesHaveAccount(setup, h, env, discovered, budget, s', round + 1, here, n, begun, since);
    }
  }

  lemma RoundKeepsBase(
      setup: Setup, h: Histories, env: nat -> RoundInput, since: Option<nat>, n: nat, begun: LoopState, s: LoopState)
    requires BaseAccount(setup, h, env, since, begun) && Completes(setup, begun, env(n), s, true)
    ensures BaseAccount(setup, h, env, since, s)
  {
    hide AddsOutput, AddsEvents, EndsInSummary, PrepareReasoning, InputItems;
  }

  /** At every fetch of every run: what the run has added to the model's input, and to the stored history, since it
      began or was last compacted, is the items of the rounds and what their calls were told, in order; the output is
      the discovered items and those of the rounds in their public form; every call has been announced and concluded,
      in order; and the texts of the calls have been charged. */
  lemma RunIsToldByItsRounds(
      setup: Setup, h: Histories, discovered: seq<OutputItem>, budget: nat, env: nat -> RoundInput, n: nat,
      begun: LoopState, since: Option<nat>)
    ensures Contract(setup, env) && Fetches(setup, Start(h, discovered, budget), env, 0, None, n, begun, since) ==>
      && Account(setup, h, env, discovered, budget, since, n, begun) && FirstRound(since) <= n
      && BaseAccount(setup, h, env, since, begun)
  {
    hide Account, Fetches, Contract, BaseAccount;
    if Contract(setup, env) && Fetches(setup, Start(h, discovered, budget), env, 0, None, n, begun, since) {
      StartHasAccount(setup, env, h, discovered, budget);
      StartIsFresh(h, discovered, budget);
      FetchesHaveAccount(
        setup, h, env, discovered, budget, Start(h, discovered, budget), 0, None, n, begun, since);
    }
  }
}
