/** What follows for the model, the client and the caller of a run: every result is told once and unchanged, every
    item shown by a handler is announced as done exactly once, a run goes on exactly while there is work for the
    gateway alone, and what it returns is made of its rounds. */
module RunResults {
  import opened Basics
  import opened JsonValues
  import opened ConversationItems
  import opened ContextCompaction
  import opened GatewayRound
  import opened RoundEvents
  import opened AgentLoop
  import opened LoopHistories
  import opened LoopRuns
  import opened RoundContents
  import opened RunContents

  // ----- on return -----

  /** How the books of a run are closed after round `n`; a failed last round adds only its items to the output. */
  ghost predicate FinalAccount(
      setup: Setup, h: Histories, env: nat -> RoundInput, discovered: seq<OutputItem>, budget: nat,
      since: Option<nat>, n: nat, final: Final)
  {
    var s, from := final.state, FirstRound(since);
    && from <= n && HasBases(s) && ContinuationKept(h, since, s.histories) && BaseAccount(setup, h, env, since, s)
    && if HasFailed(final.status) then
         && NewAdded(s) == Recorded(setup, RecordsRounds(setup, h), env, from, n)
         && InputAdded(s) == Transcript(setup, env, from, n)
         && OutputBeforeFailure(setup, env, discovered, n, s.output)
         && EventAccount(setup, env, |discovered|, n, s.emitted)
         && OutputsMarked(setup, h, n, Offset(env, |discovered|, n), s.histories)
         && env(n).fetch.Fetched? && s.remaining + Charged(setup, env, n) + env(n).fetch.bytes == budget
       else
         && NewAdded(s) == Recorded(setup, RecordsRounds(setup, h), env, from, n + 1)
         && InputAdded(s) == Transcript(setup, env, from, n) + OutputsOf(setup, env(n))
         && OutputAccount(setup, env, discovered, n + 1, s.output)
         && EventAccount(setup, env, |discovered|, n + 1, s.emitted)
         && OutputsMarked(setup, h, n + 1, |s.output|, s.histories)
         && s.remaining + Charged(setup, env, n + 1) == budget
  }

  ghost predicate OutputBeforeFailure(
      setup: Setup, env: nat -> RoundInput, discovered: seq<OutputItem>, n: nat, output: seq<OutputItem>)
  {
    var count := Offset(env, |discovered|, n);
    && count <= |output| && OutputAccount(setup, env, discovered, n, output[..count])
    && output[count..] == ItemsOf(env(n))
  }

  /** On every return the histories, the output, the events and the budget are those of the rounds, and the status
      tells why the run has stopped. */
  lemma ReturnIsToldByItsRounds(
      setup: Setup, h: Histories, discovered: seq<OutputItem>, budget: nat, env: nat -> RoundInput)
    returns (n: nat, begun: LoopState, since: Option<nat>)
    ensures Contract(setup, env) && RunFrom(setup, Start(h, discovered, budget), env, 0).Success? ==>
      var final := RunFrom(setup, Start(h, discovered, budget), env, 0).value;
      && Returns(setup, Start(h, discovered, budget), env, 0, None, n, begun, since, final)
      && env(n).fetch.Fetched? && StopsBecause(setup, env(n), n, final)
      && FinalAccount(setup, h, env, discovered, budget, since, n, final)
  {
    hide Account, BaseAccount, EndRound, Echoes, RunFrom, FinalAccount, Fetches, StopsBecause, Completes,
      HasOnlyGatewayWork;
    n, begun, since := 0, Start(h, discovered, budget), None;
    if Contract(setup, env) && RunFrom(setup, Start(h, discovered, budget), env, 0).Success? {
      n, begun, since := RunsReturn(setup, Start(h, discovered, budget), env, 0, None);
      var final := RunFrom(setup, Start(h, discovered, budget), env, 0).value;
      RunIsToldByItsRounds(setup, h, discovered, budget, env, n, begun, since);
      RoundDoes(setup, begun, env(n), n);
      SameFailure(setup, env(n), n, final);
      if HasFailed(env(n).fetch.status) {
        FailedRoundCloses(setup, h, env, discovered, budget, since, n, begun, final);
      } else {
        LastRoundCloses(setup, h, env, discovered, budget, since, n, begun, final);
      }
    }
  }

  lemma SameFailure(setup: Setup, env: RoundInput, round: nat, final: Final)
    requires env.fetch.Fetched? && StopsBecause(setup, env, round, final)
    ensures HasFailed(final.status) <==> HasFailed(env.fetch.status)
  {
    hide HasOnlyGatewayWork;
  }

  lemma FailedRoundCloses(
      setup: Setup, h: Histories, env: nat -> RoundInput, discovered: seq<OutputItem>, budget: nat,
      since: Option<nat>, n: nat, begun: LoopState, final: Final)
    requires Account(setup, h, env, discovered, budget, since, n, begun) && FirstRound(since) <= n
    requires BaseAccount(setup, h, env, since, begun)
    requires env(n).fetch.Fetched? && HasFailed(final.status)
    requires final.state.output == begun.output + env(n).fetch.items
    requires LeftAsIs(begun, final.state, env(n).fetch.bytes)
    ensures FinalAccount(setup, h, env, discovered, budget, since, n, final)
  {
    hide OutputAccount, EventAccount, Transcript, Recorded, InputItems, EndsInSummary, PrepareReasoning;
    OutputLength(setup, env, discovered, n, begun.output);
    assert final.state.output[..|begun.output|] == begun.output;
    assert final.state.output[|begun.output|..] == env(n).fetch.items;
  }

  lemma LastRoundKeepsBase(
      setup: Setup, h: Histories, env: nat -> RoundInput, since: Option<nat>, n: nat, begun: LoopState, s: LoopState)
    requires BaseAccount(setup, h, env, since, begun) && AddsHistory(setup, begun, env(n), s, false)
    ensures BaseAccount(setup, h, env, since, s)
  {
    hide EndsInSummary, PrepareReasoning, InputItems;
  }

  lemma LastRoundCloses(
      setup: Setup, h: Histories, env: nat -> RoundInput, discovered: seq<OutputItem>, budget: nat,
      since: Option<nat>, n: nat, begun: LoopState, final: Final)
    requires Account(setup, h, env, discovered, budget, since, n, begun) && FirstRound(since) <= n
    requires BaseAccount(setup, h, env, since, begun)
    requires Completes(setup, begun, env(n), final.state, false) && !HasFailed(final.status)
    ensures FinalAccount(setup, h, env, discovered, budget, since, n, final)
  {
    hide HistoryAccount, OutputAccount, AddsHistory, AddsOutput, BaseAccount, RoundAnnouncements, RoundConclusions,
      Charge, Transcript, Recorded, OutputsOf;
    RoundKeepsHistory(setup, h, env, since, n, begun, final.state, false);
    RoundMarksOutputs(setup, h, env, since, n, begun, final.state, false, Offset(env, |discovered|, n));
    LastRoundKeepsBase(setup, h, env, since, n, begun, final.state);
    RoundKeepsOutput(setup, env, discovered, n, begun, final.state);
    OutputLength(setup, env, discovered, n, begun.output);
  }

  // ----- what the model is told -----

  /** The tool outputs among items, in order. */
  function ToolMessages(items: seq<InputItem>): seq<InputItem> {
    if items == [] then []
    else (if items[0].FunctionCallOutput? then [items[0]] else []) + ToolMessages(items[1..])
  }

  /** What the calls of rounds `from` up to `n` come to: their ids with the texts of their handlers, in call order. */
  function Told(setup: Setup, env: nat -> RoundInput, from: nat, n: nat): seq<InputItem> {
    if n <= from then [] else Told(setup, env, from, n - 1) + OutputsOf(setup, env(n - 1))
  }

  lemma {:induction false} ToolMessagesAppend(xs: seq<InputItem>, ys: seq<InputItem>)
    ensures ToolMessages(xs + ys) == ToolMessages(xs) + ToolMessages(ys)
  {
    if xs == [] {
      assert xs + ys == ys;
    } else {
      assert (xs + ys)[1..] == xs[1..] + ys;
      ToolMessagesAppend(xs[1..], ys);
      AppendAssociates(
        if xs[0].FunctionCallOutput? then [xs[0]] else [], ToolMessages(xs[1..]), ToolMessages(ys));
    }
  }

  lemma {:induction false} NoToolMessages(items: seq<InputItem>)
    requires NoOutputs(items)
    ensures ToolMessages(items) == []
  {
    if items != [] {
      assert NoOutputs(items[1..]);
      NoToolMessages(items[1..]);
    }
  }

  lemma {:induction false} OnlyToolMessages(items: seq<InputItem>)
    requires forall k | 0 <= k < |items| :: items[k].FunctionCallOutput?
    ensures ToolMessages(items) == items
  {
    if items != [] {
      OnlyToolMessages(items[1..]);
    }
  }

  /** The model's own items hold no outputs, in whatever form they are kept. */
  lemma KeptItemsAreNoOutputs(setup: Setup, recordsAll: bool, items: seq<OutputItem>)
    ensures ToolMessages(ToInputItems(items)) == [] && ToolMessages(Stored(setup, recordsAll, items)) == []
  {
    hide ToInputItems, NoListings, NoOutputs;
    RecordedCalls(items, setup.registry);
    NoToolMessages(ToInputItems(items));
    RecordedCalls(NoListings(items), setup.registry);
    StoredCallsAreNoOutputs(setup.registry, items);
    NoToolMessages(Stored(setup, recordsAll, items));
  }

  lemma StoredCallsAreNoOutputs(registry: Registry, items: seq<OutputItem>)
    ensures NoOutputs(StoredCalls(registry, items))
  {
  }

  lemma OutputsAreOutputs(setup: Setup, env: RoundInput)
    ensures ToolMessages(OutputsOf(setup, env)) == OutputsOf(setup, env)
  {
    hide NthText, NthCall, CallPlaces;
    OnlyToolMessages(OutputsOf(setup, env));
  }

  lemma {:induction false} ToldByHistories(
      setup: Setup, recordsAll: bool, env: nat -> RoundInput, from: nat, n: nat)
    ensures ToolMessages(Transcript(setup, env, from, n)) == Told(setup, env, from, n)
    ensures ToolMessages(Recorded(setup, recordsAll, env, from, n)) == Told(setup, env, from, n)
    decreases n
  {
    hide ToolMessages, ToInputItems, Stored, OutputsOf;
    if n <= from {
      NoToolMessages([]);
    } else {
      ToldByHistories(setup, recordsAll, env, from, n - 1);
      var items, outs := ItemsOf(env(n - 1)), OutputsOf(setup, env(n - 1));
      KeptItemsAreNoOutputs(setup, recordsAll, items);
      OutputsAreOutputs(setup, env(n - 1));
      var told := Transcript(setup, env, from, n - 1);
      ToolMessagesAppend(told + ToInputItems(items), outs);
      ToolMessagesAppend(told, ToInputItems(items));
      var recorded := Recorded(setup, recordsAll, env, from, n - 1);
      ToolMessagesAppend(recorded + Stored(setup, recordsAll, items), outs);
      ToolMessagesAppend(recorded, Stored(setup, recordsAll, items));
      assert Told(setup, env, from, n - 1) + [] == Told(setup, env, from, n - 1);
    }
  }

  /** At every fetch of every run, the tool outputs that the run has added to the model's input and to the stored
      history are, in call order, the executed calls' ids with the texts that their handlers gave. */
  lemma EveryResultIsTold(
      setup: Setup, h: Histories, discovered: seq<OutputItem>, budget: nat, env: nat -> RoundInput, n: nat,
      begun: LoopState, since: Option<nat>)
    ensures Contract(setup, env) && Fetches(setup, Start(h, discovered, budget), env, 0, None, n, begun, since) ==>
      && HasBases(begun)
      && ToolMessages(InputAdded(begun)) == Told(setup, env, FirstRound(since), n)
      && ToolMessages(NewAdded(begun)) == Told(setup, env, FirstRound(since), n)
  {
    hide OutputAccount, EventAccount, Fetches, Contract, ToolMessages, Told, Transcript, Recorded, Start;
    if Contract(setup, env) && Fetches(setup, Start(h, discovered, budget), env, 0, None, n, begun, since) {
      RunIsToldByItsRounds(setup, h, discovered, budget, env, n, begun, since);
      ToldByHistories(setup, RecordsRounds(setup, h), env, FirstRound(since), n);
    }
  }

  /** On every return too, those of the last round included unless it failed. */
  lemma EveryResultIsToldOnReturn(
      setup: Setup, h: Histories, discovered: seq<OutputItem>, budget: nat, env: nat -> RoundInput)
    returns (n: nat, begun: LoopState, since: Option<nat>)
    ensures Contract(setup, env) && RunFrom(setup, Start(h, discovered, budget), env, 0).Success? ==>
      var final := RunFrom(setup, Start(h, discovered, budget), env, 0).value;
      var told := Told(setup, env, FirstRound(since), if HasFailed(final.status) then n else n + 1);
      && Returns(setup, Start(h, discovered, budget), env, 0, None, n, begun, since, final) && HasBases(final.state)
      && ToolMessages(InputAdded(final.state)) == told && ToolMessages(NewAdded(final.state)) == told
  {
    hide OutputAccount, EventAccount, Returns, Contract, ToolMessages, Told, Transcript, Recorded, Start, RunFrom,
      OutputsOf, StopsBecause;
    n, begun, since := ReturnIsToldByItsRounds(setup, h, discovered, budget, env);
    if Contract(setup, env) && RunFrom(setup, Start(h, discovered, budget), env, 0).Success? {
      ToldByHistories(setup, RecordsRounds(setup, h), env, FirstRound(since), n);
      ToldByHistories(setup, RecordsRounds(setup, h), env, FirstRound(since), n + 1);
      ToldOnceMore(setup, env, FirstRound(since), n);
    }
  }

  lemma ToldOnceMore(setup: Setup, env: nat -> RoundInput, from: nat, n: nat)
    requires from <= n
    ensures ToolMessages(Transcript(setup, env, from, n) + OutputsOf(setup, env(n))) == Told(setup, env, from, n + 1)
  {
    hide ToolMessages, ToInputItems, OutputsOf, Transcript;
    ToldByHistories(setup, true, env, from, n);
    ToolMessagesAppend(Transcript(setup, env, from, n), OutputsOf(setup, env(n)));
    OutputsAreOutputs(setup, env(n));
  }

  // ----- when a run goes on -----

  /** A run that has fetched fetches again exactly when the answer is complete and can be dealt with, holds gateway
      calls and no client's, fewer than ten rounds have been made, and the next round can begin. */
  lemma FetchesAgainExactlyWhen(
      setup: Setup, s: LoopState, env: nat -> RoundInput, n: nat, begun: LoopState, since: Option<nat>)
    requires Contract(setup, env) && Fetches(setup, s, env, 0, None, n, begun, since)
    ensures EndRound(setup, begun, env(n), n).Continued? <==>
      && IsAnswerable(setup, begun.remaining, env(n))
      && !HasFailed(env(n).fetch.status) && !env(n).fetch.status.Incomplete?
      && HasOnlyGatewayWork(setup.registry, env(n).fetch.items) && n + 1 < 10
    ensures ReachesFetch(setup, s, env, 0, None, n + 1) <==>
      && EndRound(setup, begun, env(n), n).Continued?
      && BeginRound(setup, EndRound(setup, begun, env(n), n).state, env(n + 1), n + 1).Success?
  {
    hide EndRound, BeginRound, Echoes, Completes, IsAnswerable, HasOnlyGatewayWork, Fetches;
    RoundDoes(setup, begun, env(n), n);
    FetchesOneFurther(setup, s, env, 0, None, n, begun, since);
  }

  ghost predicate ReachesFetch(
      setup: Setup, s: LoopState, env: nat -> RoundInput, round: nat, before: Option<nat>, n: nat)
  {
    round < MAX_ROUNDS && exists begun: LoopState, since: Option<nat> ::
      Fetches(setup, s, env, round, before, n, begun, since)
  }

  lemma ReachesLaterFetch(
      setup: Setup, s: LoopState, env: nat -> RoundInput, round: nat, before: Option<nat>, n: nat)
    requires round < MAX_ROUNDS && BeginRound(setup, s, env(round), round).Success?
    ensures var first := BeginRound(setup, s, env(round), round).value;
      var end := EndRound(setup, first, env(round), round);
      if round == n then ReachesFetch(setup, s, env, round, before, n)
      else ReachesFetch(setup, s, env, round, before, n) <==>
        && end.Continued?
        && ReachesFetch(setup, end.state, env, round + 1, LatestCompaction(setup, s, env(round), round, before), n)
  {
    hide EndRound, BeginRound, Compacts;
    var first := BeginRound(setup, s, env(round), round).value;
    var end := EndRound(setup, first, env(round), round);
    var here := LatestCompaction(setup, s, env(round), round, before);
    if round == n {
      assert Fetches(setup, s, env, round, before, n, first, here);
    } else if end.Continued? {
      if begun: LoopState, since: Option<nat> :| Fetches(setup, s, env, round, before, n, begun, since) {
        assert Fetches(setup, end.state, env, round + 1, here, n, begun, since);
      }
      var later := round + 1;
      if begun: LoopState, since: Option<nat> :| Fetches(setup, end.state, env, later, here, n, begun, since) {
        assert Fetches(setup, s, env, round, before, n, begun, since);
      }
    }
  }

  lemma NothingReached(setup: Setup, s: LoopState, env: nat -> RoundInput, round: nat, before: Option<nat>, n: nat)
    requires round < MAX_ROUNDS && BeginRound(setup, s, env(round), round).Failure?
    ensures !ReachesFetch(setup, s, env, round, before, n)
  {
  }

  lemma {:induction false} FetchesOneFurther(
      setup: Setup, s: LoopState, env: nat -> RoundInput, round: nat, before: Option<nat>, n: nat, begun: LoopState,
      since: Option<nat>)
    requires round < MAX_ROUNDS && Fetches(setup, s, env, round, before, n, begun, since) && round <= n
    ensures ReachesFetch(setup, s, env, round, before, n + 1) <==>
      && EndRound(setup, begun, env(n), n).Continued?
      && BeginRound(setup, EndRound(setup, begun, env(n), n).state, env(n + 1), n + 1).Success?
    decreases MAX_ROUNDS - round
  {
    hide EndRound, BeginRound, Compacts, ReachesFetch;
    var first := BeginRound(setup, s, env(round), round).value;
    var here := LatestCompaction(setup, s, env(round), round, before);
    ReachesLaterFetch(setup, s, env, round, before, n + 1);
    var end := EndRound(setup, first, env(round), round);
    if end.Continued? {
      if round != n {
        FetchesOneFurther(setup, end.state, env, round + 1, here, n, begun, since);
      } else if BeginRound(setup, end.state, env(n + 1), n + 1).Success? {
        ReachesLaterFetch(setup, end.state, env, n + 1, here, n + 1);
      } else {
        NothingReached(setup, end.state, env, n + 1, here, n + 1);
      }
    }
  }

  // ----- done events, one by one -----

  /** An item and the place in the output it is announced under. */
  datatype Placed = Placed(place: nat, item: OutputItem)

  /** What the handler of the `k`-th call announces. */
  function StartedItem(setup: Setup, env: RoundInput, k: nat): Option<OutputItem> {
    if k < |CallPlaces(setup.registry, ItemsOf(env))| then
      var call := NthCall(setup.registry, ItemsOf(env), k);
      if HasHandler(setup.registry, call) then setup.projections.started(call) else None
    else None
  }

  /** What it shows, if that is of a kind the gateway calls done. */
  function DoneItem(setup: Setup, env: RoundInput, k: nat): Option<OutputItem> {
    if k < |CallPlaces(setup.registry, ItemsOf(env))| then
      var shown := NthShown(setup.registry, ItemsOf(env), env.replies, k);
      if shown.Some? && IsDoneByGateway(shown.value) then shown else None
    else None
  }

  /** Those of the calls of a round from the `k`-th on. */
  function RoundPlaced(setup: Setup, env: RoundInput, offset: nat, k: nat, done: bool): seq<Placed>
    requires k <= |CallPlaces(setup.registry, ItemsOf(env))|
    decreases |CallPlaces(setup.registry, ItemsOf(env))| - k
  {
    if k == |CallPlaces(setup.registry, ItemsOf(env))| then []
    else PlacedOf(setup, env, offset, k, done) + RoundPlaced(setup, env, offset, k + 1, done)
  }

  function PlacedOf(setup: Setup, env: RoundInput, offset: nat, k: nat, done: bool): seq<Placed>
    requires k < |CallPlaces(setup.registry, ItemsOf(env))|
  {
    var item := if done then DoneItem(setup, env, k) else StartedItem(setup, env, k);
    if item.Some? then [Placed(offset + CallPlaces(setup.registry, ItemsOf(env))[k], item.value)] else []
  }

  function RunPlaced(setup: Setup, env: nat -> RoundInput, discovered: nat, n: nat, done: bool): seq<Placed> {
    if n == 0 then []
    else
      RunPlaced(setup, env, discovered, n - 1, done)
      + RoundPlaced(setup, env(n - 1), Offset(env, discovered, n - 1), 0, done)
  }

  /** The added, or the done, events among some, in order. */
  function Marks(events: seq<ItemEvent>, done: bool): seq<ItemEvent> {
    if events == [] then []
    else (if (if done then events[0].Done? else events[0].Added?) then [events[0]] else []) + Marks(events[1..], done)
  }

  function MarksFor(placed: seq<Placed>, done: bool): seq<ItemEvent> {
    seq(|placed|, k requires 0 <= k < |placed| =>
      if done then Done(Capped(placed[k].place), placed[k].item) else Added(Capped(placed[k].place), placed[k].item))
  }

  lemma {:induction false} MarksAppend(xs: seq<ItemEvent>, ys: seq<ItemEvent>, done: bool)
    ensures Marks(xs + ys, done) == Marks(xs, done) + Marks(ys, done)
  {
    if xs == [] {
      assert xs + ys == ys;
    } else {
      assert (xs + ys)[1..] == xs[1..] + ys;
      MarksAppend(xs[1..], ys, done);
      var head := if (if done then xs[0].Done? else xs[0].Added?) then [xs[0]] else [];
      AppendAssociates(head, Marks(xs[1..], done), Marks(ys, done));
    }
  }

  lemma {:induction false} NoMarks(events: seq<ItemEvent>, done: bool)
    requires forall k | 0 <= k < |events| :: if done then !events[k].Done? else !events[k].Added?
    ensures Marks(events, done) == []
  {
    if events != [] {
      NoMarks(events[1..], done);
    }
  }

  lemma MarksOfAnnouncement(started: Option<OutputItem>, arguments: string, index: nat)
    ensures Marks(Announcement(started, arguments, index), false) ==
      if started.Some? then [Added(index, started.value)] else []
    ensures Marks(Announcement(started, arguments, index), true) == []
  {
    hide BeginningKinds, BeginningDetail, IdOf;
    if started.Some? {
      var all := Announcement(started, arguments, index);
      assert all[0] == Added(index, started.value);
      NoMarks(all[1..], false);
      NoMarks(all, true);
    }
  }

  lemma MarksOfConclusion(shown: Option<OutputItem>, index: nat)
    ensures Marks(Conclusion(shown, index), true) ==
      if shown.Some? && IsDoneByGateway(shown.value) then [Done(index, shown.value)] else []
    ensures Marks(Conclusion(shown, index), false) == []
  {
    hide EndingKind, IdOf, IsDoneByGateway;
    if shown.Some? && IsDoneByGateway(shown.value) {
      var all, n := Conclusion(shown, index), |Conclusion(shown, index)| - 1;
      assert all[n] == Done(index, shown.value) && all == all[..n] + [all[n]];
      NoMarks(all[..n], true);
      NoMarks(all[..n], false);
      MarksAppend(all[..n], [all[n]], true);
      MarksAppend(all[..n], [all[n]], false);
      assert Marks([all[n]], true) == [all[n]] + Marks([], true);
      assert Marks([all[n]], false) == [] + Marks([], false);
    }
  }

  lemma MarksForAppend(xs: seq<Placed>, ys: seq<Placed>, done: bool)
    ensures MarksFor(xs + ys, done) == MarksFor(xs, done) + MarksFor(ys, done)
  {
    hide Capped;
  }

  lemma NothingMarked(done: bool)
    ensures Marks([], done) == [] && MarksFor([], done) == []
  {
  }

  /** The announcement of one call. */
  function NthAnnouncement(setup: Setup, env: RoundInput, offset: nat, k: nat): seq<ItemEvent>
    requires k < |CallPlaces(setup.registry, ItemsOf(env))|
  {
    var call := NthCall(setup.registry, ItemsOf(env), k);
    Announcement(if HasHandler(setup.registry, call) then setup.projections.started(call) else None, call.arguments,
                 Capped(offset + CallPlaces(setup.registry, ItemsOf(env))[k]))
  }

  lemma MarksOfNthAnnouncement(setup: Setup, env: RoundInput, offset: nat, k: nat)
    requires k < |CallPlaces(setup.registry, ItemsOf(env))|
    ensures var events := NthAnnouncement(setup, env, offset, k);
      Marks(events, false) == MarksFor(PlacedOf(setup, env, offset, k, false), false) && Marks(events, true) == []
  {
    hide Marks, CallPlaces, NthCall, Announcement, Capped, HasHandler;
    var call := NthCall(setup.registry, ItemsOf(env), k);
    var started := if HasHandler(setup.registry, call) then setup.projections.started(call) else None;
    MarksOfAnnouncement(started, call.arguments, Capped(offset + CallPlaces(setup.registry, ItemsOf(env))[k]));
  }

  lemma {:induction false} MarksOfAnnouncements(setup: Setup, env: RoundInput, offset: nat, k: nat)
    requires k <= |CallPlaces(setup.registry, ItemsOf(env))|
    ensures var events := Announcements(setup.registry, setup.projections, ItemsOf(env), offset, k);
      Marks(events, false) == MarksFor(RoundPlaced(setup, env, offset, k, false), false) && Marks(events, true) == []
    decreases |CallPlaces(setup.registry, ItemsOf(env))| - k
  {
    hide Marks, MarksFor, CallPlaces, PlacedOf;
    NothingMarked(false);
    NothingMarked(true);
    if k < |CallPlaces(setup.registry, ItemsOf(env))| {
      MarksOfAnnouncements(setup, env, offset, k + 1);
      MarksOfNthAnnouncement(setup, env, offset, k);
      var here := NthAnnouncement(setup, env, offset, k);
      var rest := Announcements(setup.registry, setup.projections, ItemsOf(env), offset, k + 1);
      MarksAppend(here, rest, false);
      MarksAppend(here, rest, true);
      MarksForAppend(PlacedOf(setup, env, offset, k, false), RoundPlaced(setup, env, offset, k + 1, false), false);
    }
  }

  lemma MarksOfNthConclusion(setup: Setup, env: RoundInput, offset: nat, k: nat)
    requires k < |CallPlaces(setup.registry, ItemsOf(env))|
    ensures var events := Conclusion(NthShown(setup.registry, ItemsOf(env), env.replies, k),
                                     Capped(offset + CallPlaces(setup.registry, ItemsOf(env))[k]));
      Marks(events, true) == MarksFor(PlacedOf(setup, env, offset, k, true), true) && Marks(events, false) == []
  {
    hide Marks, CallPlaces, NthShown, Conclusion, Capped, IsDoneByGateway;
    MarksOfConclusion(NthShown(setup.registry, ItemsOf(env), env.replies, k),
                      Capped(offset + CallPlaces(setup.registry, ItemsOf(env))[k]));
  }

  lemma {:induction false} MarksOfConclusions(setup: Setup, env: RoundInput, offset: nat, k: nat)
    requires k <= |CallPlaces(setup.registry, ItemsOf(env))|
    ensures var events := Conclusions(setup.registry, ItemsOf(env), env.replies, offset, k);
      Marks(events, true) == MarksFor(RoundPlaced(setup, env, offset, k, true), true) && Marks(events, false) == []
    decreases |CallPlaces(setup.registry, ItemsOf(env))| - k
  {
    hide Marks, MarksFor, CallPlaces, PlacedOf, NthShown, Conclusion, Capped;
    NothingMarked(false);
    NothingMarked(true);
    if k < |CallPlaces(setup.registry, ItemsOf(env))| {
      MarksOfConclusions(setup, env, offset, k + 1);
      MarksOfNthConclusion(setup, env, offset, k);
      var here := Conclusion(NthShown(setup.registry, ItemsOf(env), env.replies, k),
                             Capped(offset + CallPlaces(setup.registry, ItemsOf(env))[k]));
      var rest := Conclusions(setup.registry, ItemsOf(env), env.replies, offset, k + 1);
      MarksAppend(here, rest, true);
      MarksAppend(here, rest, false);
      MarksForAppend(PlacedOf(setup, env, offset, k, true), RoundPlaced(setup, env, offset, k + 1, true), true);
    }
  }

  lemma {:induction false} MarksOfRun(setup: Setup, env: nat -> RoundInput, discovered: nat, n: nat)
    ensures Marks(AllAnnouncements(setup, env, discovered, n), false) ==
      MarksFor(RunPlaced(setup, env, discovered, n, false), false)
    ensures Marks(AllConclusions(setup, env, discovered, n), true) ==
      MarksFor(RunPlaced(setup, env, discovered, n, true), true)
    ensures Marks(AllAnnouncements(setup, env, discovered, n), true) == []
    ensures Marks(AllConclusions(setup, env, discovered, n), false) == []
  {
    hide Marks, CallPlaces, Announcements, Conclusions, RoundPlaced;
    if n == 0 {
      NoMarks([], false);
      NoMarks([], true);
    } else {
      var offset := Offset(env, discovered, n - 1);
      MarksOfRun(setup, env, discovered, n - 1);
      MarksOfAnnouncements(setup, env(n - 1), offset, 0);
      MarksOfConclusions(setup, env(n - 1), offset, 0);
      var announced, concluded :=
        AllAnnouncements(setup, env, discovered, n - 1), AllConclusions(setup, env, discovered, n - 1);
      MarksAppend(announced, RoundAnnouncements(setup, env(n - 1), offset), false);
      MarksAppend(announced, RoundAnnouncements(setup, env(n - 1), offset), true);
      MarksAppend(concluded, RoundConclusions(setup, env(n - 1), offset), false);
      MarksAppend(concluded, RoundConclusions(setup, env(n - 1), offset), true);
    }
  }

  /** All added or done events of gateway calls, whether sent at the start or at the end of a call. */
  function MarksSent(emitted: seq<Emitted>, done: bool): seq<ItemEvent> {
    if emitted == [] then []
    else
      (if !emitted[0].Held? && (if done then emitted[0].event.Done? else emitted[0].event.Added?)
       then [emitted[0].event] else [])
      + MarksSent(emitted[1..], done)
  }

  lemma {:induction false} MarksAreOfOneSide(emitted: seq<Emitted>, done: bool)
    requires if done then Marks(StartedEvents(emitted), true) == [] else Marks(EndedEvents(emitted), false) == []
    ensures MarksSent(emitted, done) == Marks(if done then EndedEvents(emitted) else StartedEvents(emitted), done)
  {
    if emitted != [] {
      var rest := emitted[1..];
      if emitted[0].Starting? {
        MarksAppend([emitted[0].event], StartedEvents(rest), done);
      }
      if emitted[0].Completing? {
        MarksAppend([emitted[0].event], EndedEvents(rest), done);
      }
      OneMark(emitted[0], done);
      assert [] + StartedEvents(rest) == StartedEvents(rest) && [] + EndedEvents(rest) == EndedEvents(rest);
      MarksAreOfOneSide(rest, done);
    }
  }

  lemma OneMark(e: Emitted, done: bool)
    ensures !e.Held? ==>
      Marks([e.event], done) == if (if done then e.event.Done? else e.event.Added?) then [e.event] else []
  {
  }

  /** The `j`-th gateway call of a round announces, or shows, the item at its place. */
  predicate IsPlacedBy(setup: Setup, env: RoundInput, offset: nat, j: nat, done: bool, placed: Placed) {
    && j < |CallPlaces(setup.registry, ItemsOf(env))|
    && placed.place == offset + CallPlaces(setup.registry, ItemsOf(env))[j]
    && Some(placed.item) == if done then DoneItem(setup, env, j) else StartedItem(setup, env, j)
  }

  ghost predicate IsPlacedFrom(setup: Setup, env: RoundInput, offset: nat, k: nat, done: bool, placed: Placed) {
    exists j: nat :: k <= j && IsPlacedBy(setup, env, offset, j, done, placed)
  }

  ghost predicate IsPlaced(
      setup: Setup, env: nat -> RoundInput, discovered: nat, n: nat, done: bool, placed: Placed)
  {
    exists k: nat :: k < n && IsPlacedFrom(setup, env(k), Offset(env, discovered, k), 0, done, placed)
  }

  ghost predicate Ascending(placed: seq<Placed>, from: nat, upTo: nat) {
    && (forall a | 0 <= a < |placed| :: from <= placed[a].place < upTo)
    && forall a, b | 0 <= a < b < |placed| :: placed[a].place < placed[b].place
  }

  lemma NothingAscends(upTo: nat)
    ensures Ascending([], upTo, upTo)
  {
  }

  lemma AscendingAppend(xs: seq<Placed>, ys: seq<Placed>, from: nat, middle: nat, upTo: nat)
    requires Ascending(xs, from, middle) && Ascending(ys, middle, upTo) && from <= middle <= upTo
    ensures Ascending(xs + ys, from, upTo)
  {
  }

  lemma {:induction false} RoundPlacedAre(
      setup: Setup, env: RoundInput, offset: nat, k: nat, done: bool, x: Placed)
    requires k <= |CallPlaces(setup.registry, ItemsOf(env))|
    ensures x in RoundPlaced(setup, env, offset, k, done) <==> IsPlacedFrom(setup, env, offset, k, done, x)
    decreases |CallPlaces(setup.registry, ItemsOf(env))| - k
  {
    hide DoneItem, StartedItem, CallPlaces;
    var places := CallPlaces(setup.registry, ItemsOf(env));
    if k < |places| {
      RoundPlacedAre(setup, env, offset, k + 1, done, x);
      assert IsPlacedFrom(setup, env, offset, k, done, x) <==>
        IsPlacedBy(setup, env, offset, k, done, x) || IsPlacedFrom(setup, env, offset, k + 1, done, x);
    }
  }

  lemma {:induction false} RoundPlacedAscends(setup: Setup, env: RoundInput, offset: nat, k: nat, done: bool)
    requires k <= |CallPlaces(setup.registry, ItemsOf(env))|
    ensures var places := CallPlaces(setup.registry, ItemsOf(env));
      Ascending(
        RoundPlaced(setup, env, offset, k, done), offset + (if k < |places| then places[k] else |ItemsOf(env)|),
        offset + |ItemsOf(env)|)
    decreases |CallPlaces(setup.registry, ItemsOf(env))| - k
  {
    hide PlacedOf, CallPlaces, Ascending;
    var places, upTo := CallPlaces(setup.registry, ItemsOf(env)), offset + |ItemsOf(env)|;
    if k < |places| {
      RoundPlacedAscends(setup, env, offset, k + 1, done);
      NextPlace(setup.registry, ItemsOf(env), k);
      var rest := RoundPlaced(setup, env, offset, k + 1, done);
      var next := offset + if k + 1 < |places| then places[k + 1] else |ItemsOf(env)|;
      PlacedOfIsThere(setup, env, offset, k, done);
      AscendingCons(PlacedOf(setup, env, offset, k, done), rest, offset + places[k], next, upTo);
    } else {
      NothingAscends(upTo);
    }
  }

  lemma PlacedOfIsThere(setup: Setup, env: RoundInput, offset: nat, k: nat, done: bool)
    requires k < |CallPlaces(setup.registry, ItemsOf(env))|
    ensures var placed := PlacedOf(setup, env, offset, k, done);
      |placed| <= 1 && forall x | x in placed :: x.place == offset + CallPlaces(setup.registry, ItemsOf(env))[k]
  {
    hide CallPlaces, DoneItem, StartedItem;
  }

  lemma NextPlace(registry: Registry, items: seq<OutputItem>, k: nat)
    requires k < |CallPlaces(registry, items)|
    ensures var places := CallPlaces(registry, items);
      places[k] < (if k + 1 < |places| then places[k + 1] else |items|) <= |items|
  {
  }

  lemma AscendingCons(head: seq<Placed>, rest: seq<Placed>, from: nat, next: nat, upTo: nat)
    requires Ascending(rest, next, upTo) && from < next <= upTo
    requires |head| <= 1 && forall x | x in head :: x.place == from
    ensures Ascending(head + rest, from, upTo)
  {
  }

  lemma {:induction false} RunPlacedAre(
      setup: Setup, env: nat -> RoundInput, discovered: nat, n: nat, done: bool, x: Placed)
    ensures x in RunPlaced(setup, env, discovered, n, done) <==> IsPlaced(setup, env, discovered, n, done, x)
  {
    hide IsPlacedFrom, RoundPlaced, IsPlaced, CallPlaces;
    NothingPlaced(setup, env, discovered, done, x);
    if n > 0 {
      RunPlacedAre(setup, env, discovered, n - 1, done, x);
      RoundPlacedAre(setup, env(n - 1), Offset(env, discovered, n - 1), 0, done, x);
      PlacedInLastRound(setup, env, discovered, n - 1, done, x);
    }
  }

  lemma NothingPlaced(setup: Setup, env: nat -> RoundInput, discovered: nat, done: bool, x: Placed)
    ensures !IsPlaced(setup, env, discovered, 0, done, x)
  {
  }

  lemma PlacedInLastRound(
      setup: Setup, env: nat -> RoundInput, discovered: nat, n: nat, done: bool, x: Placed)
    ensures IsPlaced(setup, env, discovered, n + 1, done, x) <==>
      || IsPlaced(setup, env, discovered, n, done, x)
      || IsPlacedFrom(setup, env(n), Offset(env, discovered, n), 0, done, x)
  {
    hide IsPlacedFrom;
  }

  lemma {:induction false} RunPlacedAscends(setup: Setup, env: nat -> RoundInput, discovered: nat, n: nat, done: bool)
    ensures Ascending(RunPlaced(setup, env, discovered, n, done), 0, Offset(env, discovered, n))
  {
    hide RoundPlaced, CallPlaces;
    if n > 0 {
      var offset := Offset(env, discovered, n - 1);
      RunPlacedAscends(setup, env, discovered, n - 1, done);
      RoundPlacedAscends(setup, env(n - 1), offset, 0, done);
      AscendingAppend(
        RunPlaced(setup, env, discovered, n - 1, done), RoundPlaced(setup, env(n - 1), offset, 0, done), 0, offset,
        offset + |ItemsOf(env(n - 1))|);
    }
  }

  /** The place of a call shows what its handler has shown. */
  lemma DonePlacesShowItems(
      setup: Setup, env: nat -> RoundInput, discovered: seq<OutputItem>, n: nat, output: seq<OutputItem>, x: Placed)
    requires ValidRegistry(setup.registry) && OutputAccount(setup, env, discovered, n, output)
    requires IsPlaced(setup, env, |discovered|, n, true, x)
    ensures x.place < |output| && output[x.place] == x.item
  {
    hide OutputAccount, ValidRegistry, IsPlacedBy, ShownIn, CallPlaces;
    var k: nat :| k < n && IsPlacedFrom(setup, env(k), Offset(env, |discovered|, k), 0, true, x);
    var j: nat :| IsPlacedBy(setup, env(k), Offset(env, |discovered|, k), j, true, x);
    PlacedByCall(setup, env(k), Offset(env, |discovered|, k), j, true, x);
    CallPlaceInside(setup.registry, ItemsOf(env(k)), j);
    StandsInOutput(setup, env, discovered, n, output, k, CallPlaces(setup.registry, ItemsOf(env(k)))[j]);
    RoundShowsItem(setup, env(k), output, Offset(env, |discovered|, k), j, x);
  }

  lemma PlacedByCall(setup: Setup, env: RoundInput, offset: nat, j: nat, done: bool, x: Placed)
    requires IsPlacedBy(setup, env, offset, j, done, x)
    ensures j < |CallPlaces(setup.registry, ItemsOf(env))|
  {
  }

  lemma RoundShowsItem(
      setup: Setup, env: RoundInput, output: seq<OutputItem>, offset: nat, j: nat, x: Placed)
    requires ValidRegistry(setup.registry) && IsPlacedBy(setup, env, offset, j, true, x)
    requires j < |CallPlaces(setup.registry, ItemsOf(env))|
    requires ShownIn(setup, env, CallPlaces(setup.registry, ItemsOf(env))[j], output, offset)
    ensures x.place < |output| && output[x.place] == x.item
  {
    hide ShownAs, CallPlaces, ValidRegistry, DoneItem;
    CallPlaceInside(setup.registry, ItemsOf(env), j);
    CallIsShown(setup, env, j, output[x.place]);
  }

  lemma CallPlaceInside(registry: Registry, items: seq<OutputItem>, j: nat)
    requires j < |CallPlaces(registry, items)|
    ensures CallPlaces(registry, items)[j] < |items|
  {
  }

  lemma StandsInOutput(
      setup: Setup, env: nat -> RoundInput, discovered: seq<OutputItem>, n: nat, output: seq<OutputItem>, k: nat,
      i: nat)
    requires OutputAccount(setup, env, discovered, n, output) && k < n && i < |ItemsOf(env(k))|
    ensures ShownIn(setup, env(k), i, output, Offset(env, |discovered|, k))
  {
  }

  lemma CallIsShown(setup: Setup, env: RoundInput, j: nat, shown: OutputItem)
    requires ValidRegistry(setup.registry) && j < |CallPlaces(setup.registry, ItemsOf(env))|
    requires ShownAs(setup.registry, setup.projections, ItemsOf(env), env.replies,
                     CallPlaces(setup.registry, ItemsOf(env))[j], shown)
    ensures DoneItem(setup, env, j).Some? ==> shown == DoneItem(setup, env, j).value
  {
    hide NthShown;
    var places := CallPlaces(setup.registry, ItemsOf(env));
    var call := NthCall(setup.registry, ItemsOf(env), j);
    assert IsGatewayType(setup.registry[call.name].toolType);
  }

  /** The added events of a run are exactly those of its announced calls, and its done events exactly those of the
      items its handlers have shown: one each, by their ascending places in the output; a done event shows the item
      that stands there. Places go by their 32-bit number, so below the largest one no two events share an index. */
  ghost predicate MarksAreExact(
      setup: Setup, env: nat -> RoundInput, discovered: seq<OutputItem>, n: nat, emitted: seq<Emitted>,
      output: seq<OutputItem>, done: bool, placed: seq<Placed>)
  {
    && MarksSent(emitted, done) == MarksFor(placed, done)
    && Ascending(placed, 0, Offset(env, |discovered|, n))
    && (forall x: Placed :: x in placed <==> IsPlaced(setup, env, |discovered|, n, done, x))
    && (done ==> forall a | 0 <= a < |placed| ::
          placed[a].place < |output| && output[placed[a].place] == placed[a].item)
  }

  lemma MarksOfEmitted(
      setup: Setup, env: nat -> RoundInput, discovered: seq<OutputItem>, n: nat, emitted: seq<Emitted>,
      output: seq<OutputItem>, done: bool)
    requires setup.streaming && ValidRegistry(setup.registry) && EventAccount(setup, env, |discovered|, n, emitted)
    requires OutputAccount(setup, env, discovered, n, output)
    ensures MarksAreExact(
      setup, env, discovered, n, emitted, output, done, RunPlaced(setup, env, |discovered|, n, done))
  {
    hide Marks, OutputAccount, RunPlaced, AllAnnouncements, AllConclusions, IsPlaced, StartedEvents, EndedEvents,
      MarksSent, MarksFor, ValidRegistry;
    var placed := RunPlaced(setup, env, |discovered|, n, done);
    MarksOfRun(setup, env, |discovered|, n);
    MarksAreOfOneSide(emitted, done);
    RunPlacedAscends(setup, env, |discovered|, n, done);
    forall x: Placed ensures x in placed <==> IsPlaced(setup, env, |discovered|, n, done, x) {
      RunPlacedAre(setup, env, |discovered|, n, done, x);
    }
    if done {
      forall a | 0 <= a < |placed| ensures placed[a].place < |output| && output[placed[a].place] == placed[a].item {
        assert placed[a] in placed;
        DonePlacesShowItems(setup, env, discovered, n, output, placed[a]);
      }
    }
  }

  /** At every fetch of every streaming run. */
  lemma EveryShownItemIsDoneOnce(
      setup: Setup, h: Histories, discovered: seq<OutputItem>, budget: nat, env: nat -> RoundInput, n: nat,
      begun: LoopState, since: Option<nat>, done: bool)
    ensures setup.streaming && Contract(setup, env)
            && Fetches(setup, Start(h, discovered, budget), env, 0, None, n, begun, since) ==>
      MarksAreExact(
        setup, env, discovered, n, begun.emitted, begun.output, done, RunPlaced(setup, env, |discovered|, n, done))
  {
    hide HistoryAccount, OutputAccount, EventAccount, Fetches, MarksAreExact, RunPlaced, Echoes;
    if setup.streaming && Contract(setup, env)
       && Fetches(setup, Start(h, discovered, budget), env, 0, None, n, begun, since) {
      RunIsToldByItsRounds(setup, h, discovered, budget, env, n, begun, since);
      MarksOfEmitted(setup, env, discovered, n, begun.emitted, begun.output, done);
    }
  }

  /** On every return of a streaming run, of all rounds but a failed last one. */
  lemma EveryShownItemIsDoneOnReturn(
      setup: Setup, h: Histories, discovered: seq<OutputItem>, budget: nat, env: nat -> RoundInput, done: bool)
    returns (n: nat, begun: LoopState, since: Option<nat>)
    ensures setup.streaming && Contract(setup, env)
            && RunFrom(setup, Start(h, discovered, budget), env, 0).Success? ==>
      var final := RunFrom(setup, Start(h, discovered, budget), env, 0).value;
      var m := if HasFailed(final.status) then n else n + 1;
      && Returns(setup, Start(h, discovered, budget), env, 0, None, n, begun, since, final)
      && MarksAreExact(
           setup, env, discovered, m, final.state.emitted, final.state.output, done,
           RunPlaced(setup, env, |discovered|, m, done))
  {
    hide EventAccount, OutputAccount, Returns, MarksAreExact, RunPlaced, Start, RunFrom, StopsBecause, Echoes,
      Transcript, Recorded;
    n, begun, since := ReturnIsToldByItsRounds(setup, h, discovered, budget, env);
    if setup.streaming && Contract(setup, env) && RunFrom(setup, Start(h, discovered, budget), env, 0).Success? {
      var final := RunFrom(setup, Start(h, discovered, budget), env, 0).value;
      if HasFailed(final.status) {
        var count := Offset(env, |discovered|, n);
        MarksOfEmitted(setup, env, discovered, n, final.state.emitted, final.state.output[..count], done);
        MarksInLongerOutput(
          setup, env, discovered, n, final.state.emitted, final.state.output, count, done,
          RunPlaced(setup, env, |discovered|, n, done));
      } else {
        MarksOfEmitted(setup, env, discovered, n + 1, final.state.emitted, final.state.output, done);
      }
    }
  }

  lemma MarksInLongerOutput(
      setup: Setup, env: nat -> RoundInput, discovered: seq<OutputItem>, n: nat, emitted: seq<Emitted>,
      output: seq<OutputItem>, count: nat, done: bool, placed: seq<Placed>)
    requires count <= |output|
    requires MarksAreExact(setup, env, discovered, n, emitted, output[..count], done, placed)
    ensures MarksAreExact(setup, env, discovered, n, emitted, output, done, placed)
  {
    hide MarksSent, MarksFor, IsPlaced, Ascending;
  }
}
