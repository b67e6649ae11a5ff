/** The usage a run reports: the sum of what its compactions and its fetches have spent, counter by counter. */
module RunUsage {
  import opened Basics
  import opened ConversationItems
  import opened ContextCompaction
  import opened GatewayRound
  import opened AgentLoop
  import opened LoopHistories
  import opened LoopRuns

  function FetchUsage(env: RoundInput): seq<ResponseUsage> {
    if env.fetch.Fetched? && env.fetch.usage.Some? then [env.fetch.usage.value] else []
  }

  function CompactionUsage(setup: Setup, s: LoopState, env: RoundInput): seq<ResponseUsage> {
    match CompactedHistories(s.histories, setup.management, env.summary, env.ids).1
    case Success(Some(usage)) => [usage]
    case _ => []
  }

  /** What has been spent from round `round` on, by the fetch of round `n`: each compaction, each fetch. */
  ghost function Spent(setup: Setup, s: LoopState, env: nat -> RoundInput, round: nat, n: nat): seq<ResponseUsage>
    requires round < MAX_ROUNDS
    decreases MAX_ROUNDS - round
  {
    CompactionUsage(setup, s, env(round)) +
      match BeginRound(setup, s, env(round), round)
      case Failure(_) => []
      case Success(begun) =>
        if round >= n then []
        else
          match EndRound(setup, begun, env(round), round)
          case Continued(s') => FetchUsage(env(round)) + Spent(setup, s', env, round + 1, n)
          case _ => []
  }

  function Accumulated(total: Option<ResponseUsage>, spent: seq<ResponseUsage>): Option<ResponseUsage>
    decreases |spent|
  {
    if spent == [] then total else Accumulated(AccumulateUsage(total, Some(spent[0])), spent[1..])
  }

  lemma {:induction false} AccumulatedAppend(
      total: Option<ResponseUsage>, xs: seq<ResponseUsage>, ys: seq<ResponseUsage>)
    ensures Accumulated(total, xs + ys) == Accumulated(Accumulated(total, xs), ys)
    decreases |xs|
  {
    hide AccumulateUsage;
    if xs == [] {
      assert xs + ys == ys;
    } else {
      assert (xs + ys)[1..] == xs[1..] + ys;
      AccumulatedAppend(AccumulateUsage(total, Some(xs[0])), xs[1..], ys);
    }
  }

  lemma BeginSpends(setup: Setup, s: LoopState, env: RoundInput, round: nat)
    requires BeginRound(setup, s, env, round).Success?
    ensures BeginRound(setup, s, env, round).value.usage == Accumulated(s.usage, CompactionUsage(setup, s, env))
  {
    hide CompactedHistories, PrepareReasoning, AccumulateUsage;
    if CompactionUsage(setup, s, env) != [] {
      assert CompactionUsage(setup, s, env)[1..] == [];
    }
  }

  lemma EndSpends(setup: Setup, begun: LoopState, env: RoundInput, round: nat)
    ensures var end := EndRound(setup, begun, env, round);
      && (end.Continued? ==> end.state.usage == Accumulated(begun.usage, FetchUsage(env)))
      && (end.Stopped? ==> end.final.state.usage == Accumulated(begun.usage, FetchUsage(env)))
  {
    hide ExecuteBatch, PublicFrom, PlanFrom, AccumulateUsage, Emissions, RecordRoundHistory, RecordResults,
      ClassifyRound, AppendInputItems, ToInputItems, GatewayCalls, HasClientOwnedCalls, Accumulated;
    if env.fetch.Fetched? {
      SpentOnFetch(begun.usage, env);
    }
  }

  lemma SpentOnFetch(total: Option<ResponseUsage>, env: RoundInput)
    requires env.fetch.Fetched?
    ensures Accumulated(total, FetchUsage(env)) == AccumulateUsage(total, env.fetch.usage)
  {
    hide AddUsage;
    if env.fetch.usage.Some? {
      assert FetchUsage(env)[1..] == [];
    }
  }

  lemma {:induction false} FetchesHaveSpent(
      setup: Setup, s: LoopState, env: nat -> RoundInput, round: nat, before: Option<nat>, n: nat, begun: LoopState,
      since: Option<nat>)
    requires round < MAX_ROUNDS && Fetches(setup, s, env, round, before, n, begun, since) && round <= n
    ensures begun.usage == Accumulated(s.usage, Spent(setup, s, env, round, n))
    decreases MAX_ROUNDS - round
  {
    hide BeginRound, EndRound, Compacts, CompactionUsage, FetchUsage, Accumulated;
    var first := BeginRound(setup, s, env(round), round).value;
    var compaction, fetch := CompactionUsage(setup, s, env(round)), FetchUsage(env(round));
    BeginSpends(setup, s, env(round), round);
    if round == n {
      assert compaction + [] == compaction;
    } else {
      var s' := EndRound(setup, first, env(round), round).state;
      var here := LatestCompaction(setup, s, env(round), round, before);
      EndSpends(setup, first, env(round), round);
      FetchesHaveSpent(setup, s', env, round + 1, here, n, begun, since);
      AccumulatedAppend(s.usage, compaction, fetch + Spent(setup, s', env, round + 1, n));
      AccumulatedAppend(first.usage, fetch, Spent(setup, s', env, round + 1, n));
    }
  }

  // ----- counter by counter -----

  datatype Counter = InputTokens | OutputTokens | TotalTokens | CachedTokens | ReasoningTokens

  function At(usage: ResponseUsage, c: Counter): int {
    match c
    case InputTokens => usage.inputTokens
    case OutputTokens => usage.outputTokens
    case TotalTokens => usage.totalTokens
    case CachedTokens => usage.cachedTokens
    case ReasoningTokens => usage.reasoningTokens
  }

  function SumAt(spent: seq<ResponseUsage>, c: Counter): int {
    if spent == [] then 0 else At(spent[0], c) + SumAt(spent[1..], c)
  }

  /** No sum of a beginning leaves the 64 bits of a counter. */
  ghost predicate StaysInRange(start: int, spent: seq<ResponseUsage>, c: Counter) {
    forall k | 0 <= k <= |spent| :: I64_MIN <= start + SumAt(spent[..k], c) <= I64_MAX
  }

  lemma AddsOne(total: ResponseUsage, usage: ResponseUsage, c: Counter)
    ensures var sum := At(total, c) + At(usage, c);
      At(AddUsage(total, usage), c) == if sum > I64_MAX then I64_MAX else if sum < I64_MIN then I64_MIN else sum
  {
  }

  lemma {:induction false} AddsUpFrom(total: ResponseUsage, spent: seq<ResponseUsage>, c: Counter)
    ensures Accumulated(Some(total), spent).Some?
    ensures StaysInRange(At(total, c), spent, c) ==>
      At(Accumulated(Some(total), spent).value, c) == At(total, c) + SumAt(spent, c)
    ensures 0 <= At(total, c) <= I64_MAX && (forall k | 0 <= k < |spent| :: At(spent[k], c) >= 0) ==>
      At(Accumulated(Some(total), spent).value, c) == Min(At(total, c) + SumAt(spent, c), I64_MAX)
    decreases |spent|
  {
    hide AddUsage, At;
    if spent != [] {
      var next := AddUsage(total, spent[0]);
      AddsOne(total, spent[0], c);
      AddsUpFrom(next, spent[1..], c);
      if StaysInRange(At(total, c), spent, c) {
        RangeOfRest(At(total, c), spent, c);
      }
      if forall k | 0 <= k < |spent| :: At(spent[k], c) >= 0 {
        NothingNegative(spent[1..], c);
      }
    }
  }

  lemma {:induction false} NothingNegative(spent: seq<ResponseUsage>, c: Counter)
    requires forall k | 0 <= k < |spent| :: At(spent[k], c) >= 0
    ensures SumAt(spent, c) >= 0
  {
    if spent != [] {
      NothingNegative(spent[1..], c);
    }
  }

  lemma RangeOfRest(start: int, spent: seq<ResponseUsage>, c: Counter)
    requires spent != [] && StaysInRange(start, spent, c)
    ensures I64_MIN <= start + At(spent[0], c) <= I64_MAX && StaysInRange(start + At(spent[0], c), spent[1..], c)
  {
    forall k | 0 <= k <= |spent[1..]|
      ensures I64_MIN <= start + At(spent[0], c) + SumAt(spent[1..][..k], c) <= I64_MAX
    {
      assert spent[..k + 1][1..] == spent[1..][..k];
    }
    assert spent[1..][..0] == [];
  }

  /** The reported usage is there exactly when anything was; each counter is the sum of what was spent where that
      never leaves 64 bits, and where nothing is negative the sum capped at the largest 64-bit number. */
  lemma CountersAddUp(spent: seq<ResponseUsage>, c: Counter)
    ensures Accumulated(None, spent).Some? <==> spent != []
    ensures spent != [] && StaysInRange(0, spent, c) ==> At(Accumulated(None, spent).value, c) == SumAt(spent, c)
    ensures spent != [] && (forall k | 0 <= k < |spent| :: 0 <= At(spent[k], c) <= I64_MAX) ==>
      At(Accumulated(None, spent).value, c) == Min(SumAt(spent, c), I64_MAX)
  {
    hide At;
    if spent != [] {
      AddsUpFrom(spent[0], spent[1..], c);
      if StaysInRange(0, spent, c) {
        RangeOfRest(0, spent, c);
      }
    }
  }

  /** The usage a run returns is accumulated from its compactions and fetches, in the order in which they were made,
      the last fetch included. */
  lemma UsageIsWhatWasSpent(
      setup: Setup, h: Histories, discovered: seq<OutputItem>, budget: nat, env: nat -> RoundInput)
    returns (n: nat, begun: LoopState, since: Option<nat>)
    ensures RunFrom(setup, Start(h, discovered, budget), env, 0).Success? ==>
      var final := RunFrom(setup, Start(h, discovered, budget), env, 0).value;
      && Returns(setup, Start(h, discovered, budget), env, 0, None, n, begun, since, final)
      && final.state.usage
           == Accumulated(None, Spent(setup, Start(h, discovered, budget), env, 0, n) + FetchUsage(env(n)))
  {
    hide BeginRound, EndRound, Fetches, RunFrom, Spent, FetchUsage, Accumulated;
    n, begun, since := 0, Start(h, discovered, budget), None;
    if RunFrom(setup, Start(h, discovered, budget), env, 0).Success? {
      var s := Start(h, discovered, budget);
      n, begun, since := RunsReturn(setup, s, env, 0, None);
      FetchesHaveSpent(setup, s, env, 0, None, n, begun, since);
      EndSpends(setup, begun, env(n), n);
      AccumulatedAppend(None, Spent(setup, s, env, 0, n), FetchUsage(env(n)));
    }
  }
}
