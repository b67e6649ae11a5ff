/** What a whole run of the agent loop keeps: its events agree with its output, its tool calls are answered,
    and its two histories tell the same story. */
module LoopHistories {
  import opened Basics
  import opened ConversationItems
  import opened ContextCompaction
  import opened GatewayRound
  import opened RoundEvents
  import opened AgentLoop

  // ----- answered calls -----

  /** Reads items in order with the ids of gateway calls that are still to be answered. An output must answer
      the oldest of them; `None` when it does not. */
  function Scan(pending: seq<string>, items: seq<InputItem>, registry: Registry): Option<seq<string>>
    decreases |items|
  {
    if items == [] then Some(pending)
    else
      match items[0]
      case FunctionCall(call) =>
        Scan(if IsGatewayOwned(registry, call.name) then pending + [call.callId] else pending, items[1..], registry)
      case FunctionCallOutput(callId, _) =>
        if pending != [] && pending[0] == callId then Scan(pending[1..], items[1..], registry) else None
      case _ => Scan(pending, items[1..], registry)
  }

  /** Every gateway call among the items is answered, in call order, after it was made; nothing else is. */
  predicate AllAnswered(items: seq<InputItem>, registry: Registry) {
    Scan([], items, registry) == Some([])
  }

  lemma {:induction false} ScanAppend(pending: seq<string>, xs: seq<InputItem>, ys: seq<InputItem>, registry: Registry)
    ensures Scan(pending, xs + ys, registry) ==
      match Scan(pending, xs, registry)
      case Some(left) => Scan(left, ys, registry)
      case None => None
    decreases |xs|
  {
    hide IsGatewayOwned;
    if xs == [] {
      assert xs + ys == ys;
    } else {
      assert (xs + ys)[1..] == xs[1..] + ys;
      match xs[0]
      case FunctionCall(call) =>
        ScanAppend(if IsGatewayOwned(registry, call.name) then pending + [call.callId] else pending, xs[1..], ys,
          registry);
      case FunctionCallOutput(callId, _) =>
        if pending != [] && pending[0] == callId {
          ScanAppend(pending[1..], xs[1..], ys, registry);
        }
      case _ => ScanAppend(pending, xs[1..], ys, registry);
    }
  }

  function OwnedIds(items: seq<InputItem>, registry: Registry): seq<string> {
    if items == [] then []
    else (if items[0].FunctionCall? && IsGatewayOwned(registry, items[0].call.name) then [items[0].call.callId] else [])
         + OwnedIds(items[1..], registry)
  }

  predicate NoOutputs(items: seq<InputItem>) {
    forall k | 0 <= k < |items| :: !items[k].FunctionCallOutput?
  }

  lemma {:induction false} ScanOfCalls(pending: seq<string>, items: seq<InputItem>, registry: Registry)
    requires NoOutputs(items)
    ensures Scan(pending, items, registry) == Some(pending + OwnedIds(items, registry))
    decreases |items|
  {
    hide IsGatewayOwned;
    if items == [] {
      assert pending + OwnedIds(items, registry) == pending;
    } else {
      assert NoOutputs(items[1..]);
      var owned := items[0].FunctionCall? && IsGatewayOwned(registry, items[0].call.name);
      ScanOfCalls(if owned then pending + [items[0].call.callId] else pending, items[1..], registry);
      if owned {
        assert pending + [items[0].call.callId] + OwnedIds(items[1..], registry) == pending + OwnedIds(items, registry);
      } else {
        assert [] + OwnedIds(items[1..], registry) == OwnedIds(items[1..], registry);
      }
    }
  }

  function ResultIds(results: seq<CallResult>): seq<string> {
    seq(|results|, k requires 0 <= k < |results| => results[k].callId)
  }

  function CallIds(calls: seq<FunctionToolCall>): seq<string> {
    seq(|calls|, k requires 0 <= k < |calls| => calls[k].callId)
  }

  /** Outputs answer what is pending exactly when their ids are its beginning. */
  lemma {:induction false} ScanOfResults(pending: seq<string>, results: seq<CallResult>, registry: Registry)
    ensures Scan(pending, ResultItems(results), registry) ==
      if ResultIds(results) <= pending then Some(pending[|results|..]) else None
    decreases |results|
  {
    if results != [] {
      assert ResultItems(results)[1..] == ResultItems(results[1..]);
      assert ResultIds(results) == [results[0].callId] + ResultIds(results[1..]);
      if pending != [] && pending[0] == results[0].callId {
        ScanOfResults(pending[1..], results[1..], registry);
        assert pending == [pending[0]] + pending[1..];
        assert ResultIds(results) <= pending <==> ResultIds(results[1..]) <= pending[1..];
      }
    }
  }

  // ----- what a round records -----

  /** A client's own item that bears the name of a gateway-owned tool. */
  predicate IsImpostor(item: OutputItem, registry: Registry) {
    || (item.OutCustomCall? && IsGatewayOwned(registry, item.outCustom.name))
    || (item.OutShell? && IsGatewayOwned(registry, "shell"))
  }

  predicate NamesApart(items: seq<OutputItem>, registry: Registry) {
    forall k | 0 <= k < |items| :: !IsImpostor(items[k], registry)
  }

  lemma RecordedItem(item: OutputItem, registry: Registry)
    ensures ToInputItem(item).Some? ==> !ToInputItem(item).value.FunctionCallOutput?
    ensures var recorded := ToInputItem(item);
      recorded.Some? && recorded.value.FunctionCall? && IsGatewayOwned(registry, recorded.value.call.name) <==>
      IsGatewayCall(item, registry) || IsImpostor(item, registry)
    ensures !(IsGatewayCall(item, registry) && IsImpostor(item, registry))
    ensures IsGatewayCall(item, registry) ==> ToInputItem(item) == Some(FunctionCall(CallOfFunction(item.outCall)))
  {
    hide Quoted, FunctionCallItemId;
  }

  /** The gateway-owned calls of a round's record are those the model made, exactly when no client item bears a
      gateway tool's name. */
  lemma {:induction false} RecordedCalls(items: seq<OutputItem>, registry: Registry)
    ensures NoOutputs(ToInputItems(items))
    ensures |OwnedIds(ToInputItems(items), registry)| >= |GatewayCalls(items, registry)|
    ensures NamesApart(items, registry) ==>
      OwnedIds(ToInputItems(items), registry) == CallIds(GatewayCalls(items, registry))
    ensures !NamesApart(items, registry) ==> |OwnedIds(ToInputItems(items), registry)| > |GatewayCalls(items, registry)|
  {
    hide ToInputItem, IsGatewayOwned, IsGatewayCall, IsImpostor;
    if items != [] {
      var rest := items[1..];
      RecordedItem(items[0], registry);
      RecordedCalls(rest, registry);
      assert NamesApart(items, registry) <==> !IsImpostor(items[0], registry) && NamesApart(rest, registry) by {
        assert forall k | 0 <= k < |rest| :: rest[k] == items[k + 1];
        assert items == [items[0]] + rest;
      }
      OwnedIdsCons(ToInputItem(items[0]), ToInputItems(rest), registry);
      CallIdsCons(items, registry);
    }
  }

  lemma OwnedIdsCons(item: Option<InputItem>, rest: seq<InputItem>, registry: Registry)
    ensures var items := (if item.Some? then [item.value] else []) + rest;
      && OwnedIds(items, registry) ==
         (if item.Some? && item.value.FunctionCall? && IsGatewayOwned(registry, item.value.call.name)
           then [item.value.call.callId] else [])
         + OwnedIds(rest, registry)
      && (NoOutputs(rest) && (item.Some? ==> !item.value.FunctionCallOutput?) ==> NoOutputs(items))
  {
    hide IsGatewayOwned;
    if item.Some? {
      assert ([item.value] + rest)[1..] == rest;
    } else {
      assert [] + rest == rest;
    }
  }

  lemma CallIdsCons(items: seq<OutputItem>, registry: Registry)
    requires items != []
    ensures CallIds(GatewayCalls(items, registry)) ==
      (if IsGatewayCall(items[0], registry) then [items[0].outCall.callId] else [])
        + CallIds(GatewayCalls(items[1..], registry))
  {
    hide IsGatewayCall;
  }

  lemma {:induction false} CallItemsOwned(calls: seq<FunctionToolCall>, registry: Registry)
    requires forall k | 0 <= k < |calls| :: IsGatewayOwned(registry, calls[k].name)
    ensures OwnedIds(CallItems(calls), registry) == CallIds(calls) && NoOutputs(CallItems(calls))
  {
    hide IsGatewayOwned;
    if calls != [] {
      assert CallItems(calls)[1..] == CallItems(calls[1..]);
      CallItemsOwned(calls[1..], registry);
      assert CallIds(calls) == [calls[0].callId] + CallIds(calls[1..]);
    }
  }

  lemma {:induction false} GatewayCallsAreOwned(items: seq<OutputItem>, registry: Registry)
    ensures forall k | 0 <= k < |GatewayCalls(items, registry)| ::
      IsGatewayOwned(registry, GatewayCalls(items, registry)[k].name)
  {
    hide IsGatewayOwned;
    if items != [] {
      GatewayCallsAreOwned(items[1..], registry);
    }
  }

  /** The plans of a round are its gateway calls. */
  lemma {:induction false} PlannedCalls(
      items: seq<OutputItem>, registry: Registry, offset: nat, p: Projections, from: nat)
    requires from <= |items|
    ensures var plans, calls := PlanFrom(items, registry, offset, p, from), GatewayCalls(items[from..], registry);
      |plans| == |calls| && forall k | 0 <= k < |plans| :: plans[k].call == calls[k]
    decreases |items| - from
  {
    hide IsGatewayCall;
    if from < |items| {
      PlannedCalls(items, registry, offset, p, from + 1);
      assert items[from..][1..] == items[from + 1..];
      PlanKeepsCall(items[from], from, registry, offset, p);
    }
  }

  lemma PlanKeepsCall(item: OutputItem, i: nat, registry: Registry, offset: nat, p: Projections)
    ensures IsGatewayCall(item, registry) ==> PlanOf(item.outCall, i, registry, offset, p).call == item.outCall
  {
  }

  /** A handler answers under the id it was given. */
  ghost predicate Echoes(replies: (nat, FunctionToolCall) -> ToolReply) {
    forall k: nat, call: FunctionToolCall :: replies(k, call).Reply? ==> replies(k, call).callId == call.callId
  }

  lemma ResultsAnswerCalls(
    items: seq<OutputItem>, registry: Registry, offset: nat, p: Projections,
    replies: (nat, FunctionToolCall) -> ToolReply, remaining: nat)
    requires Echoes(replies)
    requires ExecuteBatch(Plan(items, registry, offset, p), replies, remaining).Some?
    ensures var results := ExecuteBatch(Plan(items, registry, offset, p), replies, remaining).value.0;
      ResultIds(results) == CallIds(GatewayCalls(items, registry))
  {
    hide PlanFrom, OutputSize, ErrorOutput, IsGatewayCall, ExecuteBatch;
    var plans := Plan(items, registry, offset, p);
    var results := ExecuteBatch(plans, replies, remaining).value.0;
    ResultSizes(plans, replies, remaining);
    PlannedCalls(items, registry, offset, p, 0);
    assert items[0..] == items;
    forall k: nat | k < |results| ensures results[k].callId == plans[k].call.callId {
      AnsweredUnderItsId(plans[k], replies(k, plans[k].call));
    }
  }

  lemma AnsweredUnderItsId(plan: CallPlan, reply: ToolReply)
    requires reply.Reply? ==> reply.callId == plan.call.callId
    ensures Answered(plan, reply).Some? ==> Answered(plan, reply).value.callId == plan.call.callId
  {
    hide ErrorOutput;
  }

  /** After the record and the results of one round, nothing is pending, exactly when the record holds no more
      gateway calls than the round had. */
  lemma RoundIsAnswered(
      before: seq<InputItem>, record: seq<InputItem>, calls: seq<FunctionToolCall>, results: seq<CallResult>,
      registry: Registry)
    requires AllAnswered(before, registry) && NoOutputs(record) && ResultIds(results) == CallIds(calls)
    requires |OwnedIds(record, registry)| == |calls| ==> OwnedIds(record, registry) == CallIds(calls)
    ensures AllAnswered(before + record + ResultItems(results), registry) <==> |OwnedIds(record, registry)| == |calls|
  {
    hide Scan, OwnedIds, ResultIds, CallIds;
    ScanAppend([], before + record, ResultItems(results), registry);
    ScanAppend([], before, record, registry);
    ScanOfCalls([], record, registry);
    ScanOfResults(OwnedIds(record, registry), results, registry);
    assert [] + OwnedIds(record, registry) == OwnedIds(record, registry);
    assert |ResultIds(results)| == |results| && |CallIds(calls)| == |calls| by { Lengths(results, calls); }
    if |OwnedIds(record, registry)| == |calls| {
      assert OwnedIds(record, registry)[|results|..] == [];
    }
  }

  lemma Lengths(results: seq<CallResult>, calls: seq<FunctionToolCall>)
    ensures |ResultIds(results)| == |results| && |CallIds(calls)| == |calls|
  {
  }

  // ----- listings -----

  /** Input items but for MCP listings, which the model never sees. */
  function WithoutListings(items: seq<InputItem>): seq<InputItem> {
    if items == [] then []
    else (if items[0].McpListing? then [] else [items[0]]) + WithoutListings(items[1..])
  }

  lemma {:induction false} WithoutListingsAppend(xs: seq<InputItem>, ys: seq<InputItem>)
    ensures WithoutListings(xs + ys) == WithoutListings(xs) + WithoutListings(ys)
  {
    if xs == [] {
      assert xs + ys == ys;
    } else {
      assert (xs + ys)[1..] == xs[1..] + ys;
      WithoutListingsAppend(xs[1..], ys);
      AppendAssociates(if xs[0].McpListing? then [] else [xs[0]], WithoutListings(xs[1..]), WithoutListings(ys));
    }
  }

  lemma {:induction false} ResultsAreNoListings(results: seq<CallResult>)
    ensures WithoutListings(ResultItems(results)) == ResultItems(results)
  {
    if results != [] {
      assert ResultItems(results)[1..] == ResultItems(results[1..]);
      ResultsAreNoListings(results[1..]);
    }
  }

  lemma ListingOnlyFromListing(item: OutputItem)
    ensures ToInputItem(item).Some? && ToInputItem(item).value.McpListing? <==> item.OutMcpListing?
  {
    hide Quoted, FunctionCallItemId;
  }

  /** Leaving listings out before or after the conversion is the same. */
  lemma {:induction false} ListingsLeftOut(items: seq<OutputItem>)
    ensures WithoutListings(ToInputItems(items)) == ToInputItems(NoListings(items))
  {
    hide ToInputItem;
    if items != [] {
      ListingsLeftOut(items[1..]);
      ListingOnlyFromListing(items[0]);
      ToInputItemsHead(items);
      if !items[0].OutMcpListing? {
        assert ([items[0]] + NoListings(items[1..]))[1..] == NoListings(items[1..]);
        ToInputItemsHead([items[0]] + NoListings(items[1..]));
      } else {
        assert [] + NoListings(items[1..]) == NoListings(items[1..]);
      }
      var head := ToInputItem(items[0]);
      WithoutListingsAppend(if head.Some? then [head.value] else [], ToInputItems(items[1..]));
    }
  }

  lemma ToInputItemsHead(items: seq<OutputItem>)
    requires items != []
    ensures ToInputItems(items)
      == (if ToInputItem(items[0]).Some? then [ToInputItem(items[0]).value] else []) + ToInputItems(items[1..])
  {
    hide ToInputItem;
  }

  lemma {:induction false} NoListingsKeepsCalls(items: seq<OutputItem>, registry: Registry)
    ensures GatewayCalls(NoListings(items), registry) == GatewayCalls(items, registry)
    ensures NamesApart(NoListings(items), registry) <==> NamesApart(items, registry)
  {
    hide IsGatewayOwned;
    if items != [] {
      NoListingsKeepsCalls(items[1..], registry);
      NamesApartHead(items, registry);
      if items[0].OutMcpListing? {
        assert [] + NoListings(items[1..]) == NoListings(items[1..]);
        assert [] + GatewayCalls(items[1..], registry) == GatewayCalls(items[1..], registry);
      } else {
        var kept := [items[0]] + NoListings(items[1..]);
        assert kept[1..] == NoListings(items[1..]);
        NamesApartHead(kept, registry);
      }
    }
  }

  lemma NamesApartHead(items: seq<OutputItem>, registry: Registry)
    requires items != []
    ensures NamesApart(items, registry) <==> !IsImpostor(items[0], registry) && NamesApart(items[1..], registry)
  {
    hide IsImpostor;
    assert forall k | 0 <= k < |items| - 1 :: items[1..][k] == items[k + 1];
    assert items == [items[0]] + items[1..];
  }

  // ----- what a round adds -----

  function RoundRecord(h: Histories, items: seq<OutputItem>, setup: Setup): seq<InputItem> {
    if RecordsAll(h, setup) then ToInputItems(NoListings(items)) else CallItems(GatewayCalls(items, setup.registry))
  }

  lemma RecordedHistory(h: Histories, items: seq<OutputItem>, setup: Setup, publicCount: nat)
    ensures RecordRoundHistory(h, items, setup, publicCount).newItems == h.newItems + RoundRecord(h, items, setup)
    ensures RecordRoundHistory(h, items, setup, publicCount).input == h.input
    ensures RecordsAll(RecordRoundHistory(h, items, setup, publicCount), setup) <==> RecordsAll(h, setup)
  {
    hide ToInputItems, GatewayCalls, CallItems;
  }

  /** A round's record holds exactly its gateway calls, unless the round records all and a client item bears a
      gateway tool's name; then it holds more. */
  lemma RecordOwnsCalls(h: Histories, items: seq<OutputItem>, setup: Setup)
    ensures var owned, calls :=
      OwnedIds(RoundRecord(h, items, setup), setup.registry), GatewayCalls(items, setup.registry);
      && NoOutputs(RoundRecord(h, items, setup)) && |owned| >= |calls|
      && (|owned| == |calls| <==> owned == CallIds(calls))
      && (|owned| == |calls| <==> !RecordsAll(h, setup) || NamesApart(items, setup.registry))
  {
    hide ToInputItems, GatewayCalls, CallItems, OwnedIds, NamesApart, NoListings;
    RecordedCalls(NoListings(items), setup.registry);
    NoListingsKeepsCalls(items, setup.registry);
    GatewayCallsAreOwned(items, setup.registry);
    CallItemsOwned(GatewayCalls(items, setup.registry), setup.registry);
  }

  lemma {:induction false} OwnedIdsAppend(xs: seq<InputItem>, ys: seq<InputItem>, registry: Registry)
    ensures OwnedIds(xs + ys, registry) == OwnedIds(xs, registry) + OwnedIds(ys, registry)
  {
    hide IsGatewayOwned;
    if xs == [] {
      assert xs + ys == ys;
    } else {
      assert (xs + ys)[1..] == xs[1..] + ys;
      OwnedIdsAppend(xs[1..], ys, registry);
      var owned := xs[0].FunctionCall? && IsGatewayOwned(registry, xs[0].call.name);
      AppendAssociates(if owned then [xs[0].call.callId] else [], OwnedIds(xs[1..], registry), OwnedIds(ys, registry));
    }
  }

  lemma {:induction false} ResultsOwnNothing(results: seq<CallResult>, registry: Registry)
    ensures OwnedIds(ResultItems(results), registry) == []
  {
    if results != [] {
      assert ResultItems(results)[1..] == ResultItems(results[1..]);
      ResultsOwnNothing(results[1..], registry);
    }
  }

  // ----- the invariant of a run -----

  /** What the run has added to each history since it began or was last compacted. */
  ghost predicate HasBases(s: LoopState) {
    s.baseNew <= s.histories.newItems && s.baseInput <= InputItems(s.histories.input)
  }

  ghost function NewAdded(s: LoopState): seq<InputItem>
    requires HasBases(s)
  {
    s.histories.newItems[|s.baseNew|..]
  }

  ghost function InputAdded(s: LoopState): seq<InputItem>
    requires HasBases(s)
  {
    InputItems(s.histories.input)[|s.baseInput|..]
  }

  /** The calls an added stretch of history holds are the executed ones, and each is answered. */
  ghost predicate Answers(added: seq<InputItem>, executed: seq<FunctionToolCall>, registry: Registry) {
    AllAnswered(added, registry) && OwnedIds(added, registry) == CallIds(executed)
  }

  /** Holds before every fetch. */
  ghost predicate InStep(setup: Setup, s: LoopState) {
    && HasBases(s)
    && Answers(NewAdded(s), s.executed, setup.registry) && Answers(InputAdded(s), s.executed, setup.registry)
    && (RecordsAll(s.histories, setup) ==> WithoutListings(InputAdded(s)) == NewAdded(s))
  }

  /** A done event names a place in the public output and shows the item that stands there; places beyond the
      largest 32-bit number all go by that number. */
  predicate ShownAt(e: Emitted, output: seq<OutputItem>) {
    e.Held? || !e.event.Done? || exists p: nat ::
      p < |output| && output[p] == e.event.item && e.event.index == PublicIndex(0, p)
  }

  ghost predicate EventsShown(emitted: seq<Emitted>, output: seq<OutputItem>) {
    forall k | 0 <= k < |emitted| :: ShownAt(emitted[k], output)
  }

  lemma AnswersNothing(registry: Registry)
    ensures Answers([], [], registry)
  {
  }

  /** One round added to a stretch of history that was answered. */
  lemma AnswersOneRoundMore(
    added: seq<InputItem>, executed: seq<FunctionToolCall>, record: seq<InputItem>, calls: seq<FunctionToolCall>,
    results: seq<CallResult>, registry: Registry)
    requires Answers(added, executed, registry) && NoOutputs(record) && ResultIds(results) == CallIds(calls)
    requires |OwnedIds(record, registry)| == |calls| ==> OwnedIds(record, registry) == CallIds(calls)
    ensures AllAnswered(added + record + ResultItems(results), registry) <==> |OwnedIds(record, registry)| == |calls|
    ensures |OwnedIds(record, registry)| == |calls| ==>
      Answers(added + record + ResultItems(results), executed + calls, registry)
  {
    hide AllAnswered, OwnedIds, ResultItems;
    RoundIsAnswered(added, record, calls, results, registry);
    OwnedIdsAppend(added + record, ResultItems(results), registry);
    OwnedIdsAppend(added, record, registry);
    ResultsOwnNothing(results, registry);
    assert CallIds(executed + calls) == CallIds(executed) + CallIds(calls);
    assert OwnedIds(added, registry) + OwnedIds(record, registry) + []
      == OwnedIds(added, registry) + OwnedIds(record, registry);
  }

  /** Nothing has been added: how a run begins. */
  ghost predicate IsFresh(s: LoopState) {
    HasBases(s) && NewAdded(s) == [] && InputAdded(s) == [] && s.executed == []
  }

  lemma FreshIsInStep(setup: Setup, s: LoopState)
    requires IsFresh(s)
    ensures InStep(setup, s)
  {
    AnswersNothing(setup.registry);
  }

  lemma StartIsFresh(h: Histories, discovered: seq<OutputItem>, budget: nat)
    ensures IsFresh(Start(h, discovered, budget))
  {
    hide InputItems;
    var s := Start(h, discovered, budget);
    assert s.histories.newItems[|s.baseNew|..] == [] && InputItems(s.histories.input)[|s.baseInput|..] == [];
  }

  lemma BeginKeepsInStep(setup: Setup, s: LoopState, env: RoundInput, round: nat)
    requires InStep(setup, s) && (round == 0 ==> IsFresh(s))
    requires BeginRound(setup, s, env, round).Success?
    ensures var begun := BeginRound(setup, s, env, round).value;
      && InStep(setup, begun) && begun.output == s.output && begun.emitted == s.emitted
      && begun.remaining == s.remaining
      && (RecordsAll(begun.histories, setup) <==> RecordsAll(s.histories, setup))
  {
    hide CompactedHistories, PrepareReasoning, AccumulateUsage, Answers, WithoutListings;
    CompactionReplacesBothHistories(s.histories, setup.management, env.summary, env.ids);
    var begun := BeginRound(setup, s, env, round).value;
    var (h, compacted) := CompactedHistories(s.histories, setup.management, env.summary, env.ids);
    if compacted.value.Some? {
      assert InputItems(h.input) == h.newItems;
      BasesAreAll(begun);
      FreshIsInStep(setup, begun);
    } else if round == 0 {
      assert begun.histories.input == PrepareReasoning(h.input).value;
      assert begun.histories.newItems[|begun.baseNew|..] == [];
      assert InputItems(begun.histories.input)[|begun.baseInput|..] == [];
      FreshIsInStep(setup, begun);
    }
  }

  lemma BasesAreAll(s: LoopState)
    requires s.baseNew == s.histories.newItems && s.baseInput == InputItems(s.histories.input) && s.executed == []
    ensures IsFresh(s)
  {
  }

  /** A round that goes on had no client items at all. */
  lemma ContinuingRoundsArePure(items: seq<OutputItem>, setup: Setup, results: nat, round: nat)
    requires ClassifyRound(HasClientOwnedCalls(items, setup.registry), results, round) == Continue
    ensures NamesApart(items, setup.registry)
  {
    forall k | 0 <= k < |items| ensures !IsImpostor(items[k], setup.registry) {
      assert !RequiresClientAction(items[k], setup.registry);
    }
  }

  lemma InputGrows(input: ResponsesInput, items: seq<InputItem>)
    ensures InputItems(AppendInputItems(input, items)) == InputItems(input) + items
  {
    if items == [] {
      assert InputItems(input) + [] == InputItems(input);
    }
  }

  lemma SuffixGrows(base: seq<InputItem>, all: seq<InputItem>, record: seq<InputItem>, results: seq<InputItem>)
    requires base <= all
    ensures base <= all + record + results
    ensures (all + record + results)[|base|..] == all[|base|..] + record + results
  {
  }

  /** After a round that goes on, both histories hold its calls, answered, and agree but for listings. */
  lemma ContinuedKeepsInStep(
    setup: Setup, s: LoopState, status: ResponseStatus, items: seq<OutputItem>, held: seq<Frame>,
    plans: seq<CallPlan>, results: seq<CallResult>, public: seq<OutputItem>, round: nat)
    requires InStep(setup, s) && |plans| == |results|
    requires ResultIds(results) == CallIds(GatewayCalls(items, setup.registry))
    requires Settled(setup, s, status, items, held, plans, results, public, round).Continued?
    ensures InStep(setup, Settled(setup, s, status, items, held, plans, results, public, round).state)
    ensures RecordsAll(Settled(setup, s, status, items, held, plans, results, public, round).state.histories, setup)
      <==> RecordsAll(s.histories, setup)
  {
    hide Answers, ResultItems, ResultIds, CallIds, GatewayCalls, ToInputItems, NoListings, OwnedIds, RecordRoundHistory,
      RoundRecord, WithoutListings, InputItems, AppendInputItems, Emissions, HasClientOwnedCalls, ClassifyRound,
      CallItems, NamesApart;
    var s' := Settled(setup, s, status, items, held, plans, results, public, round).state;
    var registry, calls, outs := setup.registry, GatewayCalls(items, setup.registry), ResultItems(results);
    var record := RoundRecord(s.histories, items, setup);
    ContinuingRoundsArePure(items, setup, |results|, round);
    RecordedHistory(s.histories, items, setup, |s.output + public|);
    RecordOwnsCalls(s.histories, items, setup);
    AnswersOneRoundMore(NewAdded(s), s.executed, record, calls, results, registry);
    RecordedCalls(items, registry);
    AnswersOneRoundMore(InputAdded(s), s.executed, ToInputItems(items), calls, results, registry);
    assert |CallIds(calls)| == |calls| by { Lengths([], calls); }
    NextHistories(s, s', record, ToInputItems(items), outs);
    if RecordsAll(s.histories, setup) {
      WithoutListingsAppend(InputAdded(s) + ToInputItems(items), outs);
      WithoutListingsAppend(InputAdded(s), ToInputItems(items));
      ListingsLeftOut(items);
      ResultsAreNoListings(results);
      RecordIsAll(s.histories, items, setup);
    }
  }

  lemma RecordIsAll(h: Histories, items: seq<OutputItem>, setup: Setup)
    requires RecordsAll(h, setup)
    ensures RoundRecord(h, items, setup) == ToInputItems(NoListings(items))
  {
  }

  lemma NextHistories(s: LoopState, s': LoopState, record: seq<InputItem>, added: seq<InputItem>, outs: seq<InputItem>)
    requires HasBases(s) && s'.baseNew == s.baseNew && s'.baseInput == s.baseInput
    requires s'.histories.newItems == s.histories.newItems + record + outs
    requires s'.histories.input == AppendInputItems(AppendInputItems(s.histories.input, added), outs)
    ensures HasBases(s') && NewAdded(s') == NewAdded(s) + record + outs
      && InputAdded(s') == InputAdded(s) + added + outs
  {
    hide InputItems, AppendInputItems;
    InputGrows(s.histories.input, added);
    InputGrows(AppendInputItems(s.histories.input, added), outs);
    SuffixGrows(s.baseNew, s.histories.newItems, record, outs);
    SuffixGrows(s.baseInput, InputItems(s.histories.input), added, outs);
  }

  /** After a round that ends the run, every gateway call the run recorded is answered, exactly when the round
      recorded no client item that bears a gateway tool's name. */
  lemma StoppedIsAnswered(
    setup: Setup, s: LoopState, status: ResponseStatus, items: seq<OutputItem>, held: seq<Frame>,
    plans: seq<CallPlan>, results: seq<CallResult>, public: seq<OutputItem>, round: nat)
    requires InStep(setup, s) && |plans| == |results|
    requires ResultIds(results) == CallIds(GatewayCalls(items, setup.registry))
    requires Settled(setup, s, status, items, held, plans, results, public, round).Stopped?
    ensures var final := Settled(setup, s, status, items, held, plans, results, public, round).final.state;
      && HasNewBase(final) && final.executed == s.executed + GatewayCalls(items, setup.registry)
      && (AllAnswered(final.histories.newItems[|final.baseNew|..], setup.registry) <==>
            !RecordsAll(s.histories, setup) || NamesApart(items, setup.registry))
      && (!RecordsAll(s.histories, setup) || NamesApart(items, setup.registry) ==>
            Answers(final.histories.newItems[|final.baseNew|..], final.executed, setup.registry))
      && (RecordsAll(s.histories, setup) ==>
            final.histories.continuation.Some? && final.histories.continuation.value.recordedOutputs == |final.output|)
  {
    hide Answers, AllAnswered, ResultItems, ResultIds, CallIds, GatewayCalls, ToInputItems, NoListings, OwnedIds,
      RoundRecord, WithoutListings, InputItems, AppendInputItems, Emissions, HasClientOwnedCalls, ClassifyRound,
      CallItems, NamesApart;
    var final := Settled(setup, s, status, items, held, plans, results, public, round).final.state;
    var registry, calls := setup.registry, GatewayCalls(items, setup.registry);
    var record := RoundRecord(s.histories, items, setup);
    RecordedHistory(s.histories, items, setup, |s.output + public|);
    RecordOwnsCalls(s.histories, items, setup);
    AnswersOneRoundMore(NewAdded(s), s.executed, record, calls, results, registry);
    SuffixGrows(s.baseNew, s.histories.newItems, record, ResultItems(results));
  }

  ghost predicate HasNewBase(s: LoopState) {
    s.baseNew <= s.histories.newItems
  }

  // ----- events and output -----

  lemma ShownStays(emitted: seq<Emitted>, output: seq<OutputItem>, more: seq<OutputItem>)
    requires EventsShown(emitted, output)
    ensures EventsShown(emitted, output + more)
  {
    hide PublicIndex;
    forall k | 0 <= k < |emitted| ensures ShownAt(emitted[k], output + more) {
      var e := emitted[k];
      if !e.Held? && e.event.Done? {
        assert ShownAt(e, output);
        var p: nat :| p < |output| && output[p] == e.event.item && e.event.index == PublicIndex(0, p);
        assert (output + more)[p] == e.event.item;
      }
    }
  }

  lemma ShownAppend(xs: seq<Emitted>, ys: seq<Emitted>, output: seq<OutputItem>)
    requires EventsShown(xs, output) && EventsShown(ys, output)
    ensures EventsShown(xs + ys, output)
  {
    hide ShownAt;
  }

  lemma EmissionsHaveAllCalls(
      setup: Setup, items: seq<OutputItem>, offset: nat, results: seq<CallResult>, held: seq<Frame>)
    requires |results| == |Plan(items, setup.registry, offset, setup.projections)| && setup.streaming
    ensures var plans := Plan(items, setup.registry, offset, setup.projections);
      var events := Emissions(setup, items, plans, results, held);
      Starts(events) == StartsFrom(plans, 0, |plans|) && Completions(events) == CompletionsFrom(plans, results, 0)
  {
    hide PlanFrom, StartsFrom, CompletionsFrom, PlainEvents, MergedEvents, Starts, Completions, InitialRunLen;
    var plans := Plan(items, setup.registry, offset, setup.projections);
    PlansAreGatewayCalls(items, setup.registry, offset, setup.projections, 0);
    MergingKeepsCallEvents(plans, results, if held == [] then 0 else InitialRunLen(items, setup.registry, plans), held,
      |items|);
  }

  /** The done events of a round show the public output of that round, in its place after `before`. */
  lemma RoundIsShown(
    setup: Setup, before: seq<OutputItem>, items: seq<OutputItem>, held: seq<Frame>,
    replies: (nat, FunctionToolCall) -> ToolReply, remaining: nat)
    requires ValidRegistry(setup.registry)
    requires var plans := Plan(items, setup.registry, |before|, setup.projections);
      && ExecuteBatch(plans, replies, remaining).Some?
      && PublicOutputs(items, setup.registry, ExecuteBatch(plans, replies, remaining).value.0, setup.projections).Some?
    ensures var plans := Plan(items, setup.registry, |before|, setup.projections);
      var results := ExecuteBatch(plans, replies, remaining).value.0;
      var public := PublicOutputs(items, setup.registry, results, setup.projections).value;
      |results| == |plans| && EventsShown(Emissions(setup, items, plans, results, held), before + public)
  {
    hide ExecuteBatch, PlanFrom, PublicFrom, Emissions, Starts, Completions, StartsFrom, CompletionsFrom;
    var plans := Plan(items, setup.registry, |before|, setup.projections);
    var results := ExecuteBatch(plans, replies, remaining).value.0;
    var public := PublicOutputs(items, setup.registry, results, setup.projections).value;
    ResultSizes(plans, replies, remaining);
    var events := Emissions(setup, items, plans, results, held);
    PlansAreGatewayCalls(items, setup.registry, |before|, setup.projections, 0);
    forall j | 0 <= j < |events| ensures ShownAt(events[j], before + public) {
      var e := events[j];
      if !e.Held? && e.event.Done? {
        NothingWithoutStreaming(setup, items, plans, results, held);
        EmissionsHaveAllCalls(setup, items, |before|, results, held);
        DoneEventsShowResults(events, plans, results, e);
        ShownInPlace(items, setup.registry, |before|, setup.projections, replies, remaining, e.call);
        PlannedIndex(items, setup.registry, |before|, setup.projections, e.call);
        var p: nat := |before| + plans[e.call].itemIndex;
        assert (before + public)[p] == e.event.item && e.event.index == PublicIndex(0, p);
      }
    }
  }

  lemma NothingWithoutStreaming(
      setup: Setup, items: seq<OutputItem>, plans: seq<CallPlan>, results: seq<CallResult>, held: seq<Frame>)
    requires |plans| == |results|
    ensures Emissions(setup, items, plans, results, held) != [] ==> setup.streaming
  {
    hide PlainEvents, MergedEvents;
  }

  lemma PlannedIndex(items: seq<OutputItem>, registry: Registry, offset: nat, p: Projections, k: nat)
    requires k < |Plan(items, registry, offset, p)|
    ensures var plan := Plan(items, registry, offset, p)[k]; plan.outputIndex == PublicIndex(0, offset + plan.itemIndex)
  {
    hide PlanFrom;
    PlansAreGatewayCalls(items, registry, offset, p, 0);
  }

  // ----- one whole round -----

  /** How a run stands once it has returned after a round that began in `begun`. */
  ghost predicate Concluded(setup: Setup, begun: LoopState, fetch: Fetch, final: Final) {
    && fetch.Fetched? && HasNewBase(final.state)
    && EventsShown(final.state.emitted, final.state.output)
    && var recorded := final.state.histories.newItems[|final.state.baseNew|..];
       (AllAnswered(recorded, setup.registry) <==> NothingPosesAsGatewayCall(setup, begun, fetch))
       && (NothingPosesAsGatewayCall(setup, begun, fetch) ==> Answers(recorded, final.state.executed, setup.registry))
  }

  /** The last round was not recorded, or recorded no client item under a gateway tool's name. */
  predicate NothingPosesAsGatewayCall(setup: Setup, begun: LoopState, fetch: Fetch)
    requires fetch.Fetched?
  {
    fetch.status.Errored? || fetch.status.Failed? || !RecordsAll(begun.histories, setup)
      || NamesApart(fetch.items, setup.registry)
  }

  lemma RoundKeepsInStep(setup: Setup, begun: LoopState, env: RoundInput, round: nat)
    requires ValidRegistry(setup.registry) && Echoes(env.replies)
    requires InStep(setup, begun) && EventsShown(begun.emitted, begun.output)
    ensures match EndRound(setup, begun, env, round)
      case Broken(_) => true
      case Stopped(final) => Concluded(setup, begun, env.fetch, final)
      case Continued(s) =>
        && InStep(setup, s) && EventsShown(s.emitted, s.output) && s.baseInput == begun.baseInput
        && s.baseNew == begun.baseNew
        && (RecordsAll(s.histories, setup) <==> RecordsAll(begun.histories, setup))
  {
    hide Answers, AllAnswered, EventsShown, ExecuteBatch, PlanFrom, PublicFrom, RecordsAll, NamesApart, Settled,
      WithoutListings, InputItems, AccumulateUsage, Echoes, ValidRegistry;
    if env.fetch.Fetched? && env.fetch.bytes <= begun.remaining {
      var fetch := env.fetch;
      var s := begun.(usage := AccumulateUsage(begun.usage, fetch.usage), remaining := begun.remaining - fetch.bytes);
      SameHistories(setup, begun, s);
      if fetch.status.Errored? || fetch.status.Failed? {
        ShownStays(s.emitted, s.output, fetch.items);
        AnswersAreAnswered(NewAdded(s), s.executed, setup.registry);
      } else {
        var plans := Plan(fetch.items, setup.registry, |s.output|, setup.projections);
        if ExecuteBatch(plans, env.replies, s.remaining).Some? {
          var (results, left) := ExecuteBatch(plans, env.replies, s.remaining).value;
          if PublicOutputs(fetch.items, setup.registry, results, setup.projections).Some? {
            SettledRoundKeepsInStep(setup, s, env, left, round);
          }
        }
      }
    }
  }

  lemma AnswersAreAnswered(added: seq<InputItem>, executed: seq<FunctionToolCall>, registry: Registry)
    requires Answers(added, executed, registry)
    ensures AllAnswered(added, registry)
  {
  }

  lemma SameHistories(setup: Setup, s: LoopState, s': LoopState)
    requires s.histories == s'.histories && s.baseInput == s'.baseInput && s.baseNew == s'.baseNew
      && s.executed == s'.executed
    ensures InStep(setup, s) <==> InStep(setup, s')
    ensures HasBases(s) ==> HasBases(s') && NewAdded(s) == NewAdded(s')
  {
    hide Answers, InputItems, WithoutListings;
  }

  lemma SettledRoundKeepsInStep(setup: Setup, s: LoopState, env: RoundInput, left: nat, round: nat)
    requires ValidRegistry(setup.registry) && Echoes(env.replies) && env.fetch.Fetched?
    requires InStep(setup, s) && EventsShown(s.emitted, s.output)
    requires !env.fetch.status.Errored? && !env.fetch.status.Failed?
    requires var plans := Plan(env.fetch.items, setup.registry, |s.output|, setup.projections);
      && ExecuteBatch(plans, env.replies, s.remaining).Some?
      && PublicOutputs(env.fetch.items, setup.registry, ExecuteBatch(plans, env.replies, s.remaining).value.0,
           setup.projections).Some?
    ensures var fetch, plans := env.fetch, Plan(env.fetch.items, setup.registry, |s.output|, setup.projections);
      var results := ExecuteBatch(plans, env.replies, s.remaining).value.0;
      var public := PublicOutputs(fetch.items, setup.registry, results, setup.projections).value;
      |results| == |plans| &&
      match Settled(setup, s.(remaining := left), fetch.status, fetch.items, fetch.held, plans, results, public, round)
      case Broken(_) => true
      case Stopped(final) => Concluded(setup, s, fetch, final)
      case Continued(s') =>
        && InStep(setup, s') && EventsShown(s'.emitted, s'.output) && s'.baseInput == s.baseInput
        && s'.baseNew == s.baseNew
        && (RecordsAll(s'.histories, setup) <==> RecordsAll(s.histories, setup))
  {
    hide Answers, AllAnswered, EventsShown, ExecuteBatch, PlanFrom, PublicFrom, RecordsAll, NamesApart, WithoutListings,
      InputItems, Emissions, ResultIds, CallIds, GatewayCalls, InStep, Echoes, ValidRegistry, RecordRoundHistory,
      RecordResults, HasClientOwnedCalls, ClassifyRound;
    var fetch, plans := env.fetch, Plan(env.fetch.items, setup.registry, |s.output|, setup.projections);
    var results := ExecuteBatch(plans, env.replies, s.remaining).value.0;
    var public := PublicOutputs(fetch.items, setup.registry, results, setup.projections).value;
    var s1 := s.(remaining := left);
    SameHistories(setup, s, s1);
    RoundIsShown(setup, s.output, fetch.items, fetch.held, env.replies, s.remaining);
    ShownStays(s.emitted, s.output, public);
    ShownAppend(s.emitted, Emissions(setup, fetch.items, plans, results, fetch.held), s.output + public);
    ResultsAnswerCalls(fetch.items, setup.registry, |s.output|, setup.projections, env.replies, s.remaining);
    match Settled(setup, s1, fetch.status, fetch.items, fetch.held, plans, results, public, round)
    case Broken(_) =>
    case Stopped(_) =>
      StoppedIsAnswered(setup, s1, fetch.status, fetch.items, fetch.held, plans, results, public, round);
    case Continued(_) =>
      ContinuedKeepsInStep(setup, s1, fetch.status, fetch.items, fetch.held, plans, results, public, round);
  }
}
