/** Whole runs of the agent loop: what holds before every fetch, and on every return. */
module LoopRuns {
  import opened Basics
  import opened JsonValues
  import opened ConversationItems
  import opened ContextCompaction
  import opened GatewayRound
  import opened RoundEvents
  import opened AgentLoop
  import opened LoopHistories

  /** What the loop relies on: each name has one owner, and handlers answer under the id they were given. */
  ghost predicate Contract(setup: Setup, env: nat -> RoundInput) {
    ValidRegistry(setup.registry) && forall round: nat :: Echoes(env(round).replies)
  }

  predicate Compacts(setup: Setup, s: LoopState, env: RoundInput) {
    match CompactedHistories(s.histories, setup.management, env.summary, env.ids).1
    case Success(Some(_)) => true
    case _ => false
  }

  function LatestCompaction(setup: Setup, s: LoopState, env: RoundInput, round: nat, before: Option<nat>): Option<nat> {
    if Compacts(setup, s, env) then Some(round) else before
  }

  /** The run fetches in round `n`, in state `begun`; `since` is the round of the latest compaction by then. */
  ghost predicate Fetches(
    setup: Setup, s: LoopState, env: nat -> RoundInput, round: nat, before: Option<nat>, n: nat, begun: LoopState,
    since: Option<nat>)
    requires round < MAX_ROUNDS
    decreases MAX_ROUNDS - round
  {
    var began, here := BeginRound(setup, s, env(round), round), LatestCompaction(setup, s, env(round), round, before);
    began.Success? &&
    if round == n then begun == began.value && since == here
    else
      match EndRound(setup, began.value, env(round), round)
      case Continued(s') => Fetches(setup, s', env, round + 1, here, n, begun, since)
      case _ => false
  }

  /** Holds where a round begins. */
  ghost predicate Sound(setup: Setup, s: LoopState, round: nat, since: Option<nat>) {
    && InStep(setup, s) && EventsShown(s.emitted, s.output)
    && (round == 0 ==> IsFresh(s))
    && (since.Some? ==> s.baseInput == s.baseNew)
  }

  lemma BeginIsSound(setup: Setup, s: LoopState, env: RoundInput, round: nat, before: Option<nat>)
    requires Sound(setup, s, round, before) && (round == 0 ==> before.None?)
      && BeginRound(setup, s, env, round).Success?
    ensures var begun := BeginRound(setup, s, env, round).value;
      && InStep(setup, begun) && EventsShown(begun.emitted, begun.output)
      && (before.Some? || Compacts(setup, s, env) ==> begun.baseInput == begun.baseNew)
      && (RecordsAll(begun.histories, setup) <==> RecordsAll(s.histories, setup))
  {
    hide InStep, EventsShown, CompactedHistories, RecordsAll, IsFresh, PrepareReasoning, AccumulateUsage;
    BeginKeepsInStep(setup, s, env, round);
  }

  lemma {:induction false} FetchesAreSound(
    setup: Setup, s: LoopState, env: nat -> RoundInput, round: nat, before: Option<nat>, n: nat, begun: LoopState,
    since: Option<nat>)
    requires round < MAX_ROUNDS && Contract(setup, env) && Sound(setup, s, round, before)
      && (round == 0 ==> before.None?)
    requires Fetches(setup, s, env, round, before, n, begun, since)
    ensures InStep(setup, begun) && EventsShown(begun.emitted, begun.output)
    ensures since.Some? ==> begun.baseInput == begun.baseNew
    ensures RecordsAll(begun.histories, setup) <==> RecordsAll(s.histories, setup)
    decreases MAX_ROUNDS - round
  {
    hide InStep, EventsShown, BeginRound, EndRound, RecordsAll, IsFresh, Echoes, Compacts;
    BeginIsSound(setup, s, env(round), round, before);
    if round != n {
      var next := BeginRound(setup, s, env(round), round).value;
      RoundKeepsInStep(setup, next, env(round), round);
      FetchesAreSound(setup, EndRound(setup, next, env(round), round).state, env, round + 1,
        LatestCompaction(setup, s, env(round), round, before), n, begun, since);
    }
  }

  /** The round in which a run returned. */
  ghost predicate Returns(
      setup: Setup, s: LoopState, env: nat -> RoundInput, round: nat, before: Option<nat>, n: nat, begun: LoopState,
      since: Option<nat>, final: Final)
    requires round < MAX_ROUNDS
  {
    && round <= n < MAX_ROUNDS && Fetches(setup, s, env, round, before, n, begun, since)
    && EndRound(setup, begun, env(n), n) == Stopped(final)
  }

  lemma {:induction false} RunsReturn(
      setup: Setup, s: LoopState, env: nat -> RoundInput, round: nat, before: Option<nat>)
    returns (n: nat, begun: LoopState, since: Option<nat>)
    requires round < MAX_ROUNDS && RunFrom(setup, s, env, round).Success?
    ensures Returns(setup, s, env, round, before, n, begun, since, RunFrom(setup, s, env, round).value)
    decreases MAX_ROUNDS - round
  {
    hide BeginRound, EndRound, Compacts;
    var here := LatestCompaction(setup, s, env(round), round, before);
    var next := BeginRound(setup, s, env(round), round).value;
    match EndRound(setup, next, env(round), round)
    case Stopped(_) => n, begun, since := round, next, here;
    case Continued(s') => n, begun, since := RunsReturn(setup, s', env, round + 1, here);
  }

  lemma StartIsSound(setup: Setup, h: Histories, discovered: seq<OutputItem>, budget: nat)
    ensures Sound(setup, Start(h, discovered, budget), 0, None)
  {
    StartIsFresh(h, discovered, budget);
    FreshIsInStep(setup, Start(h, discovered, budget));
  }

  /** At every fetch of every run, each gateway call that the run has added to the model's input or to the
      stored history is answered, after it and in call order, and these are exactly the calls it has executed. */
  lemma NoDanglingCallAtAnyFetch(
    setup: Setup, h: Histories, discovered: seq<OutputItem>, budget: nat, env: nat -> RoundInput, n: nat,
    begun: LoopState, since: Option<nat>)
    ensures Contract(setup, env) && Fetches(setup, Start(h, discovered, budget), env, 0, None, n, begun, since) ==>
      && HasBases(begun)
      && Answers(NewAdded(begun), begun.executed, setup.registry)
      && Answers(InputAdded(begun), begun.executed, setup.registry)
  {
    hide Answers, EventsShown, Fetches, Contract;
    if Contract(setup, env) && Fetches(setup, Start(h, discovered, budget), env, 0, None, n, begun, since) {
      StartIsSound(setup, h, discovered, budget);
      FetchesAreSound(setup, Start(h, discovered, budget), env, 0, None, n, begun, since);
    }
  }

  /** In a session that records every round itself, what a run has added to the model's input and to the stored
      history is the same, but for MCP listings, at every fetch; once a compaction has run, the two histories
      are the same as a whole. */
  lemma HistoriesCoincide(
    setup: Setup, h: Histories, discovered: seq<OutputItem>, budget: nat, env: nat -> RoundInput, n: nat,
    begun: LoopState, since: Option<nat>)
    requires RecordsAll(h, setup)
    ensures Contract(setup, env) && Fetches(setup, Start(h, discovered, budget), env, 0, None, n, begun, since) ==>
      && HasBases(begun) && WithoutListings(InputAdded(begun)) == NewAdded(begun)
      && (since.Some? ==>
            WithoutListings(InputItems(begun.histories.input)) == WithoutListings(begun.histories.newItems))
  {
    hide Answers, EventsShown, Fetches, Contract, WithoutListings, InputItems;
    if Contract(setup, env) && Fetches(setup, Start(h, discovered, budget), env, 0, None, n, begun, since) {
      StartIsSound(setup, h, discovered, budget);
      FetchesAreSound(setup, Start(h, discovered, budget), env, 0, None, n, begun, since);
      if since.Some? {
        SameWhole(begun.baseNew, InputItems(begun.histories.input), begun.histories.newItems);
      }
    }
  }

  lemma SameWhole(base: seq<InputItem>, input: seq<InputItem>, stored: seq<InputItem>)
    requires base <= input && base <= stored && WithoutListings(input[|base|..]) == stored[|base|..]
    ensures WithoutListings(input) == WithoutListings(stored)
  {
    hide WithoutListings;
    assert input == base + input[|base|..] && stored == base + stored[|base|..];
    WithoutListingsAppend(base, input[|base|..]);
    WithoutListingsAppend(base, stored[|base|..]);
    WithoutListingsTwice(input[|base|..]);
  }

  lemma {:induction false} WithoutListingsTwice(items: seq<InputItem>)
    ensures WithoutListings(WithoutListings(items)) == WithoutListings(items)
  {
    if items != [] {
      WithoutListingsTwice(items[1..]);
      if !items[0].McpListing? {
        assert WithoutListings(items)[1..] == WithoutListings(items[1..]);
      } else {
        assert [] + WithoutListings(items[1..]) == WithoutListings(items[1..]);
      }
    }
  }

  /** Right after a compaction the two histories are equal, nothing left out. */
  lemma CompactionMakesHistoriesEqual(setup: Setup, s: LoopState, env: RoundInput, round: nat)
    requires BeginRound(setup, s, env, round).Success? && Compacts(setup, s, env)
    ensures var begun := BeginRound(setup, s, env, round).value;
      begun.histories.input == Items(begun.histories.newItems) && IsFresh(begun)
  {
    hide CompactedHistories, PrepareReasoning, AccumulateUsage, IsFresh;
    CompactionReplacesBothHistories(s.histories, setup.management, env.summary, env.ids);
    BasesAreAll(BeginRound(setup, s, env, round).value);
  }

  /** On every return, each gateway call that the run has recorded is answered, after it and in call order,
      unless the last round recorded a client item under the name of a gateway tool, and exactly then. */
  lemma NoDanglingCallOnReturn(
      setup: Setup, h: Histories, discovered: seq<OutputItem>, budget: nat, env: nat -> RoundInput)
    returns (n: nat, begun: LoopState, since: Option<nat>)
    ensures Contract(setup, env) && RunFrom(setup, Start(h, discovered, budget), env, 0).Success? ==>
      var final := RunFrom(setup, Start(h, discovered, budget), env, 0).value;
      && Returns(setup, Start(h, discovered, budget), env, 0, None, n, begun, since, final)
      && Concluded(setup, begun, env(n).fetch, final)
  {
    hide InStep, EventsShown, Concluded, Fetches, EndRound, Echoes, RunFrom;
    n, begun, since := 0, Start(h, discovered, budget), None;
    if Contract(setup, env) && RunFrom(setup, Start(h, discovered, budget), env, 0).Success? {
      StartIsSound(setup, h, discovered, budget);
      n, begun, since := RunsReturn(setup, Start(h, discovered, budget), env, 0, None);
      FetchesAreSound(setup, Start(h, discovered, budget), env, 0, None, n, begun, since);
      RoundKeepsInStep(setup, begun, env(n), n);
    }
  }

  const IMPOSTOR: OutputItem := OutCustomCall(CustomToolCall("ctc_1", None, "call_1", "search", "weather"))

  /** A session that records every round itself, with one gateway tool. */
  function SearchSetup(p: Projections): Setup {
    Setup(map["search" := ToolEntry(WebSearch, Gateway(true))], p, false, [], false)
  }

  function SearchStart(): LoopState {
    Start(Histories(ResponsesInput.Text("Weather?"), [], Some(Continuation(false, 0))), [], 0)
  }

  function ImpostorRound(ids: FreshIds, replies: (nat, FunctionToolCall) -> ToolReply): RoundInput {
    RoundInput(Failure(()), ids, Fetched(OtherStatus("completed"), None, [IMPOSTOR], [], 0), replies)
  }

  /** A custom call that bears the name of a gateway tool is recorded as a call of that tool, and nobody answers
      it: the run ends well, with an item in the stored history that is still to be answered. */
  lemma ImpostorStaysUnanswered(p: Projections, ids: FreshIds, replies: (nat, FunctionToolCall) -> ToolReply)
    requires Echoes(replies)
    ensures var setup, env := SearchSetup(p), (round: nat) => ImpostorRound(ids, replies);
      && Contract(setup, env) && RecordsAll(SearchStart().histories, setup)
      && var run := RunFrom(setup, SearchStart(), env, 0);
         && run.Success? && run.value.status == OtherStatus("completed") && run.value.state.output == [IMPOSTOR]
         && !AllAnswered(run.value.state.histories.newItems, setup.registry)
  {
    hide Echoes, AllAnswered, BeginRound, EndRound;
    ImpostorRoundBegins(p, ids, replies);
    ImpostorRoundStops(p, ids, replies);
  }

  lemma ImpostorRoundBegins(p: Projections, ids: FreshIds, replies: (nat, FunctionToolCall) -> ToolReply)
    ensures BeginRound(SearchSetup(p), SearchStart(), ImpostorRound(ids, replies), 0) == Success(SearchStart())
  {
  }

  lemma ImpostorRoundStops(p: Projections, ids: FreshIds, replies: (nat, FunctionToolCall) -> ToolReply)
    ensures var end := EndRound(SearchSetup(p), SearchStart(), ImpostorRound(ids, replies), 0);
      && end.Stopped? && end.final.status == OtherStatus("completed") && end.final.state.output == [IMPOSTOR]
      && !AllAnswered(end.final.state.histories.newItems, SearchSetup(p).registry)
  {
    hide AllAnswered, ToInputItems, NoListings, GatewayCalls, PlanFrom, PublicFrom, ExecuteBatch, HasClientOwnedCalls;
    var registry := SearchSetup(p).registry;
    ImpostorIsShown(IMPOSTOR, registry, p, replies);
    ImpostorIsRecorded(IMPOSTOR, registry);
    var end := EndRound(SearchSetup(p), SearchStart(), ImpostorRound(ids, replies), 0);
    assert end.final.state.histories.newItems == [FunctionCall(CallOfCustom(IMPOSTOR.outCustom))];
  }

  lemma ImpostorIsShown(
    impostor: OutputItem, registry: Registry, p: Projections, replies: (nat, FunctionToolCall) -> ToolReply)
    requires impostor.OutCustomCall?
    ensures Plan([impostor], registry, 0, p) == [] && ExecuteBatch([], replies, 0) == Some(([], 0))
    ensures PublicOutputs([impostor], registry, [], p) == Some([impostor]) && HasClientOwnedCalls([impostor], registry)
    ensures GatewayCalls([impostor], registry) == []
  {
    assert PlanFrom([impostor], registry, 0, p, 1) == [];
    assert PublicFrom([impostor], registry, [], p, 1) == Some([]);
    assert RequiresClientAction([impostor][0], registry);
    assert PublicOutput([impostor][0], 0, registry, [], p) == Some(impostor);
    var public := PublicOutputs([impostor], registry, [], p);
    assert public.Some? && public.value == [impostor];
    assert Sizes([], replies) == [];
    var batch := ExecuteBatch([], replies, 0);
    assert batch.Some? && batch.value.0 == [];
  }

  lemma ImpostorIsRecorded(impostor: OutputItem, registry: Registry)
    requires impostor.OutCustomCall? && IsGatewayOwned(registry, impostor.outCustom.name)
    ensures var call := FunctionCall(CallOfCustom(impostor.outCustom));
      ToInputItems(NoListings([impostor])) == [call] && !AllAnswered([call], registry)
  {
    hide Quoted, FunctionCallItemId;
    var call := FunctionCall(CallOfCustom(impostor.outCustom));
    assert NoListings([impostor]) == [impostor] + NoListings([]);
    assert ToInputItems([]) == [];
    assert Scan([], [call], registry) == Scan([] + [impostor.outCustom.callId], [], registry);
  }

  /** Every done event of a run for a gateway call names the place in the final output where its item stands;
      when all places can be counted in 32 bits, by its exact number. */
  lemma StreamAgreesWithResponse(
      setup: Setup, h: Histories, discovered: seq<OutputItem>, budget: nat, env: nat -> RoundInput, k: nat)
    ensures Contract(setup, env) && RunFrom(setup, Start(h, discovered, budget), env, 0).Success? ==>
      var state := RunFrom(setup, Start(h, discovered, budget), env, 0).value.state;
      k < |state.emitted| && !state.emitted[k].Held? && state.emitted[k].event.Done? ==>
        var done := state.emitted[k].event;
        && (exists p: nat :: p < |state.output| && state.output[p] == done.item && done.index == PublicIndex(0, p))
        && (|state.output| <= U32_MAX + 1 ==> done.index < |state.output| && state.output[done.index] == done.item)
  {
    hide RunFrom, Fetches, EndRound, Answers, AllAnswered, Contract, Start;
    if Contract(setup, env) && RunFrom(setup, Start(h, discovered, budget), env, 0).Success? {
      var n, begun, since := NoDanglingCallOnReturn(setup, h, discovered, budget, env);
      var state := RunFrom(setup, Start(h, discovered, budget), env, 0).value.state;
      if k < |state.emitted| {
        assert ShownAt(state.emitted[k], state.output);
      }
    }
  }

  // ----- held-back frames -----

  /** The frames that a round's fetch held back. */
  function HeldBy(env: RoundInput): seq<Frame> {
    if env.fetch.Fetched? then env.fetch.held else []
  }

  /** Those of the rounds from `from` up to `upTo`. */
  function Received(env: nat -> RoundInput, from: nat, upTo: nat): seq<Frame>
    decreases upTo - from
  {
    if from >= upTo then [] else HeldBy(env(from)) + Received(env, from + 1, upTo)
  }

  /** The same frames, each as often, and those of one item index in the same order. */
  ghost predicate SameFrames(xs: seq<Frame>, ys: seq<Frame>) {
    multiset(xs) == multiset(ys) && forall i: nat :: FramesAt(xs, i) == FramesAt(ys, i)
  }

  lemma SameFramesAppend(xs: seq<Frame>, ys: seq<Frame>, xs': seq<Frame>, ys': seq<Frame>)
    requires SameFrames(xs, ys) && SameFrames(xs', ys')
    ensures SameFrames(xs + xs', ys + ys')
  {
    hide FramesAt;
    forall i: nat ensures FramesAt(xs + xs', i) == FramesAt(ys + ys', i) {
      FramesAtAppend(xs, xs', i);
      FramesAtAppend(ys, ys', i);
    }
  }

  predicate HasFailed(status: ResponseStatus) {
    status.Errored? || status.Failed?
  }

  /** What a round sends holds exactly the frames it held back. */
  lemma RoundSendsHeld(
      setup: Setup, items: seq<OutputItem>, offset: nat, results: seq<CallResult>, held: seq<Frame>)
    requires |results| == |Plan(items, setup.registry, offset, setup.projections)| && setup.streaming
    ensures var plans := Plan(items, setup.registry, offset, setup.projections);
      SameFrames(HeldFrames(Emissions(setup, items, plans, results, held)), held)
  {
    hide PlanFrom, PlainEvents, MergedEvents, HeldFrames, FramesAt, InitialRunLen;
    var plans := Plan(items, setup.registry, offset, setup.projections);
    PlansAreGatewayCalls(items, setup.registry, offset, setup.projections, 0);
    if held == [] {
      MergingKeepsCallEvents(plans, results, 0, held, |items|);
    } else {
      HeldFramesAreKept(plans, results, InitialRunLen(items, setup.registry, plans), held, |items|);
    }
  }

  /** A round that goes on, or returns a usable answer, has sent its frames; any other that returns has not. */
  lemma RoundSendsFrames(setup: Setup, begun: LoopState, env: RoundInput, round: nat)
    requires setup.streaming
    ensures match EndRound(setup, begun, env, round)
      case Broken(_) => true
      case Continued(s) => SameFrames(HeldFrames(s.emitted), HeldFrames(begun.emitted) + HeldBy(env))
      case Stopped(final) =>
        if HasFailed(final.status) then final.state.emitted == begun.emitted
        else SameFrames(HeldFrames(final.state.emitted), HeldFrames(begun.emitted) + HeldBy(env))
  {
    hide PlanFrom, ExecuteBatch, PublicFrom, Emissions, RecordRoundHistory, RecordResults, GatewayCalls, HeldFrames,
      SameFrames, AppendInputItems, ToInputItems, HasClientOwnedCalls, ClassifyRound, AccumulateUsage;
    if env.fetch.Fetched? && env.fetch.bytes <= begun.remaining && !HasFailed(env.fetch.status) {
      var plans := Plan(env.fetch.items, setup.registry, |begun.output|, setup.projections);
      var batch := ExecuteBatch(plans, env.replies, begun.remaining - env.fetch.bytes);
      if batch.Some? {
        ResultSizes(plans, env.replies, begun.remaining - env.fetch.bytes);
        var events := Emissions(setup, env.fetch.items, plans, batch.value.0, env.fetch.held);
        RoundSendsHeld(setup, env.fetch.items, |begun.output|, batch.value.0, env.fetch.held);
        HeldAppend(begun.emitted, events);
        SameFramesReflexive(HeldFrames(begun.emitted));
        SameFramesAppend(HeldFrames(begun.emitted), HeldFrames(begun.emitted), HeldFrames(events), env.fetch.held);
      }
    }
  }

  /** At every fetch of every streaming run, the frames held back in earlier rounds have been sent, each exactly
      once, and those of one item index in the order they came. */
  lemma {:induction false} FramesAreSentByNextFetch(
    setup: Setup, s: LoopState, env: nat -> RoundInput, round: nat, before: Option<nat>, n: nat, begun: LoopState,
    since: Option<nat>)
    requires round < MAX_ROUNDS && setup.streaming && Fetches(setup, s, env, round, before, n, begun, since)
    ensures round <= n < MAX_ROUNDS
    ensures SameFrames(HeldFrames(begun.emitted), HeldFrames(s.emitted) + Received(env, round, n))
    decreases MAX_ROUNDS - round
  {
    hide BeginRound, EndRound, Compacts, HeldFrames, SameFrames, Received;
    var next := BeginRound(setup, s, env(round), round).value;
    BeginSendsNothing(setup, s, env(round), round);
    if round == n {
      NothingReceived(env, n, HeldFrames(s.emitted));
    } else {
      var here := LatestCompaction(setup, s, env(round), round, before);
      var s' := EndRound(setup, next, env(round), round).state;
      RoundSendsFrames(setup, next, env(round), round);
      FramesAreSentByNextFetch(setup, s', env, round + 1, here, n, begun, since);
      OneRoundReceived(
        HeldFrames(begun.emitted), HeldFrames(s'.emitted), HeldFrames(s.emitted), env, round, n);
    }
  }

  lemma BeginSendsNothing(setup: Setup, s: LoopState, env: RoundInput, round: nat)
    requires BeginRound(setup, s, env, round).Success?
    ensures BeginRound(setup, s, env, round).value.emitted == s.emitted
  {
    hide CompactedHistories, PrepareReasoning, AccumulateUsage;
  }

  lemma NothingReceived(env: nat -> RoundInput, n: nat, sent: seq<Frame>)
    ensures Received(env, n, n) == [] && SameFrames(sent, sent + Received(env, n, n))
  {
    assert sent + [] == sent;
  }

  lemma OneRoundReceived(
      out: seq<Frame>, sent: seq<Frame>, before: seq<Frame>, env: nat -> RoundInput, round: nat, n: nat)
    requires round < n && SameFrames(out, sent + Received(env, round + 1, n))
    requires SameFrames(sent, before + HeldBy(env(round)))
    ensures SameFrames(out, before + Received(env, round, n))
  {
    hide SameFrames, HeldBy;
    var held, rest := HeldBy(env(round)), Received(env, round + 1, n);
    SameFramesReflexive(rest);
    SameFramesAppend(sent, before + held, rest, rest);
    FramesAssociate(before, held, rest);
    SameFramesTransitive(out, sent + rest, before + (held + rest));
  }

  lemma FramesAssociate(a: seq<Frame>, b: seq<Frame>, c: seq<Frame>)
    ensures a + b + c == a + (b + c)
  {
  }

  lemma SameFramesReflexive(xs: seq<Frame>)
    ensures SameFrames(xs, xs)
  {
  }

  lemma SameFramesTransitive(xs: seq<Frame>, ys: seq<Frame>, zs: seq<Frame>)
    requires SameFrames(xs, ys) && SameFrames(ys, zs)
    ensures SameFrames(xs, zs)
  {
    hide FramesAt;
  }

  lemma {:induction false} ReceivedLast(env: nat -> RoundInput, from: nat, n: nat)
    requires from <= n
    ensures Received(env, from, n + 1) == Received(env, from, n) + HeldBy(env(n))
    decreases n - from
  {
    if from < n {
      ReceivedLast(env, from + 1, n);
      assert HeldBy(env(from)) + (Received(env, from + 1, n) + HeldBy(env(n)))
        == HeldBy(env(from)) + Received(env, from + 1, n) + HeldBy(env(n));
    } else {
      assert HeldBy(env(n)) + [] == [] + HeldBy(env(n));
    }
  }

  /** On every return of a streaming run, the frames sent and those of a failed last round are the frames ever held
      back, each exactly once, and those of one item index in the order they came. So every frame is sent exactly
      when the last round did not fail, or held nothing back. */
  lemma HeldFramesAreSentUnlessFailed(
      setup: Setup, h: Histories, discovered: seq<OutputItem>, budget: nat, env: nat -> RoundInput)
    returns (n: nat, begun: LoopState, since: Option<nat>)
    ensures setup.streaming && RunFrom(setup, Start(h, discovered, budget), env, 0).Success? ==>
      var final := RunFrom(setup, Start(h, discovered, budget), env, 0).value;
      var sent, received := HeldFrames(final.state.emitted), Received(env, 0, n + 1);
      && Returns(setup, Start(h, discovered, budget), env, 0, None, n, begun, since, final)
      && SameFrames(sent + (if HasFailed(final.status) then HeldBy(env(n)) else []), received)
      && (SameFrames(sent, received) <==> !HasFailed(final.status) || HeldBy(env(n)) == [])
  {
    hide BeginRound, EndRound, Fetches, RunFrom, HeldFrames, SameFrames, Received;
    n, begun, since := 0, Start(h, discovered, budget), None;
    if setup.streaming && RunFrom(setup, Start(h, discovered, budget), env, 0).Success? {
      var s := Start(h, discovered, budget);
      n, begun, since := RunsReturn(setup, s, env, 0, None);
      var final := RunFrom(setup, s, env, 0).value;
      FramesAreSentByNextFetch(setup, s, env, 0, None, n, begun, since);
      RoundSendsFrames(setup, begun, env(n), n);
      ReceivedLast(env, 0, n);
      NothingSentYet(h, discovered, budget, Received(env, 0, n));
      LastRoundReceived(
        HeldFrames(begun.emitted), HeldFrames(final.state.emitted), Received(env, 0, n), HeldBy(env(n)),
        HasFailed(final.status));
    }
  }

  lemma NothingSentYet(h: Histories, discovered: seq<OutputItem>, budget: nat, received: seq<Frame>)
    ensures HeldFrames(Start(h, discovered, budget).emitted) + received == received
  {
  }

  lemma LastRoundReceived(
      before: seq<Frame>, sent: seq<Frame>, received: seq<Frame>, held: seq<Frame>, failed: bool)
    requires SameFrames(before, received)
    requires if failed then sent == before else SameFrames(sent, before + held)
    ensures SameFrames(sent + (if failed then held else []), received + held)
    ensures SameFrames(sent, received + held) <==> !failed || held == []
  {
    hide FramesAt;
    SameFramesAppend(before, received, held, held);
    if failed {
      assert SameFrames(sent, received + held) ==> |multiset(sent)| == |multiset(received + held)|;
      assert |multiset(before)| == |multiset(received)|;
      assert held == [] ==> before + held == before;
    } else {
      assert sent + [] == sent;
    }
  }

  const HELD_FRAME: Frame := Frame(Some(0), Json.Null)

  /** A run whose only round fails returns without the frame it held back. */
  lemma FailedRoundDropsFrame(p: Projections, ids: FreshIds, replies: (nat, FunctionToolCall) -> ToolReply)
    ensures var setup := Setup(map[], p, false, [], true);
      var env := (round: nat) => RoundInput(Failure(()), ids, Fetched(Failed, None, [], [HELD_FRAME], 0), replies);
      var run := RunFrom(setup, SearchStart(), env, 0);
      && run.Success? && HasFailed(run.value.status)
      && Received(env, 0, 1) == [HELD_FRAME] && run.value.state.emitted == []
  {
    var setup := Setup(map[], p, false, [], true);
    var env := (round: nat) => RoundInput(Failure(()), ids, Fetched(Failed, None, [], [HELD_FRAME], 0), replies);
    assert Received(env, 0, 1) == [HELD_FRAME] + Received(env, 1, 1);
    assert BeginRound(setup, SearchStart(), env(0), 0) == Success(SearchStart());
  }
}
