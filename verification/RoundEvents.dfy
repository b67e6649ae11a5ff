/** The events of one round: those of gateway calls, and the frames of the model's stream that were held back
    while client calls were unresolved, merged into the order of the output items. */
module RoundEvents {
  import opened Basics
  import opened JsonValues
  import opened ConversationItems
  import opened GatewayRound
  import Types = StreamEvents

  datatype Detail = NoDetail | Arguments(text: string) | WholeItem(shown: OutputItem)

  datatype ItemEvent =
    | Added(index: nat, item: OutputItem)
    | Progress(kind: Types.SSEEventType, index: nat, itemId: string, detail: Detail)
    | Done(index: nat, item: OutputItem)

  /** A frame of the model's stream that was held back; its index counts the round's own items. */
  datatype Frame = Frame(outputIndex: Option<nat>, content: Json)

  /** What the client is sent, and why: for a planned call, or a frame that was held back. */
  datatype Emitted =
    | Starting(call: nat, event: ItemEvent)
    | Completing(call: nat, event: ItemEvent)
    | Held(frame: Frame)

  function StartEvents(plan: CallPlan): seq<ItemEvent> {
    match plan.started
    case None => []
    case Some(item) =>
      [Added(plan.outputIndex, item)] +
      (match item
       case OutWebSearch(web) =>
         [Progress(Types.WebSearchCallInProgress, plan.outputIndex, web.id, NoDetail),
          Progress(Types.WebSearchCallSearching, plan.outputIndex, web.id, NoDetail)]
       case OutMcpCall(mcp) =>
         [Progress(Types.McpCallInProgress, plan.outputIndex, mcp.id, NoDetail),
          Progress(Types.McpCallArgumentsDelta, plan.outputIndex, mcp.id, Arguments(plan.call.arguments)),
          Progress(Types.McpCallArgumentsDone, plan.outputIndex, mcp.id, Arguments(plan.call.arguments))]
       case OutMcpListing(listing) => [Progress(Types.McpListToolsInProgress, plan.outputIndex, listing.id, NoDetail)]
       case _ => [])
  }

  /** Items of other kinds are not announced as completed by the gateway. */
  predicate IsCompletable(item: OutputItem) {
    item.OutWebSearch? || item.OutMcpCall? || item.OutMcpListing? || item.OutCompaction? || item.OutShell?
  }

  function CompletedEvents(plan: CallPlan, shown: Option<OutputItem>): seq<ItemEvent> {
    match shown
    case None => []
    case Some(item) =>
      if !IsCompletable(item) then []
      else
        (match item
         case OutWebSearch(web) => [Progress(Types.WebSearchCallCompleted, plan.outputIndex, web.id, WholeItem(item))]
         case OutMcpCall(mcp) =>
           [Progress(if mcp.failed then Types.McpCallFailed else Types.McpCallCompleted, plan.outputIndex, mcp.id,
             NoDetail)]
         case OutMcpListing(listing) =>
           [Progress(if listing.failed then Types.McpListToolsFailed else Types.McpListToolsCompleted, plan.outputIndex,
             listing.id, NoDetail)]
         case _ => [])
        + [Done(plan.outputIndex, item)]
  }

  function StartsOf(call: nat, events: seq<ItemEvent>): seq<Emitted> {
    seq(|events|, i requires 0 <= i < |events| => Starting(call, events[i]))
  }

  function CompletionsOf(call: nat, events: seq<ItemEvent>): seq<Emitted> {
    seq(|events|, i requires 0 <= i < |events| => Completing(call, events[i]))
  }

  function HeldAll(frames: seq<Frame>): seq<Emitted> {
    seq(|frames|, i requires 0 <= i < |frames| => Held(frames[i]))
  }

  /** The starts of calls `from` up to `upTo`. */
  function StartsFrom(plans: seq<CallPlan>, from: nat, upTo: nat): seq<Emitted>
    requires from <= upTo <= |plans|
    decreases upTo - from
  {
    if from == upTo then [] else StartsOf(from, StartEvents(plans[from])) + StartsFrom(plans, from + 1, upTo)
  }

  function CompletionsFrom(plans: seq<CallPlan>, results: seq<CallResult>, from: nat): seq<Emitted>
    requires from <= |plans| == |results|
    decreases |plans| - from
  {
    if from == |plans| then []
    else
      CompletionsOf(from, CompletedEvents(plans[from], results[from].shown)) + CompletionsFrom(plans, results, from + 1)
  }

  /** Without frames that were held back: every start, then, once the batch is done, every completion. */
  function PlainEvents(plans: seq<CallPlan>, results: seq<CallResult>): seq<Emitted>
    requires |plans| == |results|
  {
    StartsFrom(plans, 0, |plans|) + CompletionsFrom(plans, results, 0)
  }

  function FramesAt(frames: seq<Frame>, itemIndex: nat): seq<Frame> {
    if frames == [] then []
    else (if frames[0].outputIndex == Some(itemIndex) then [frames[0]] else []) + FramesAt(frames[1..], itemIndex)
  }

  predicate IsLoose(frame: Frame, n: nat) {
    frame.outputIndex.None? || frame.outputIndex.value >= n
  }

  /** Frames that belong to none of the round's `n` items. */
  function LooseFrames(frames: seq<Frame>, n: nat): seq<Frame> {
    if frames == [] then []
    else (if IsLoose(frames[0], n) then [frames[0]] else []) + LooseFrames(frames[1..], n)
  }

  function CallAt(plans: seq<CallPlan>, itemIndex: nat): (k: Option<nat>)
    ensures k.Some? ==> k.value < |plans| && plans[k.value].itemIndex == itemIndex
    ensures k.None? ==> forall j | 0 <= j < |plans| :: plans[j].itemIndex != itemIndex
  {
    if plans == [] then None
    else if plans[|plans| - 1].itemIndex == itemIndex then Some(|plans| - 1)
    else CallAt(plans[..|plans| - 1], itemIndex)
  }

  /** What the round emits for one item: its gateway call, if it is one, and then its frames. */
  function CallEvents(plans: seq<CallPlan>, results: seq<CallResult>, announced: nat, itemIndex: nat): seq<Emitted>
    requires |plans| == |results|
  {
    match CallAt(plans, itemIndex)
    case None => []
    case Some(k) =>
      (if k >= announced then StartsOf(k, StartEvents(plans[k])) else [])
      + CompletionsOf(k, CompletedEvents(plans[k], results[k].shown))
  }

  function MergedFrom(
      plans: seq<CallPlan>, results: seq<CallResult>, announced: nat, frames: seq<Frame>, n: nat, i: nat): seq<Emitted>
    requires |plans| == |results| && i <= n
    decreases n - i
  {
    if i == n then HeldAll(LooseFrames(frames, n))
    else
      CallEvents(plans, results, announced, i) + HeldAll(FramesAt(frames, i))
      + MergedFrom(plans, results, announced, frames, n, i + 1)
  }

  function MergedEvents(
      plans: seq<CallPlan>, results: seq<CallResult>, announced: nat, frames: seq<Frame>, n: nat): seq<Emitted>
    requires |plans| == |results| && announced <= |plans|
  {
    StartsFrom(plans, 0, announced) + MergedFrom(plans, results, announced, frames, n, 0)
  }

  /** Sorts the frames into one bucket per item, then goes through the items. */
  method MergeRoundEvents(
      items: seq<OutputItem>, registry: Registry, plans: seq<CallPlan>, results: seq<CallResult>, frames: seq<Frame>)
    returns (events: seq<Emitted>)
    requires Increasing(plans) && |plans| == |results|
    ensures events == MergedEvents(plans, results, InitialRunLen(items, registry, plans), frames, |items|)
  {
    hide StartEvents, CompletedEvents, InitialRunLen, FramesAt, LooseFrames, CallEvents;
    var n := |items|;
    var buckets := new seq<Frame>[n](_ => []);
    var loose: seq<Frame> := [];
    NoFrames(n);
    for f := 0 to |frames|
      invariant forall i: nat | i < n :: buckets[i] == FramesAt(frames[..f], i)
      invariant loose == LooseFrames(frames[..f], n)
    {
      assert frames[..f + 1] == frames[..f] + [frames[f]];
      OneFrameMore(frames[..f], frames[f], n);
      if frames[f].outputIndex.Some? && frames[f].outputIndex.value < n {
        var at := frames[f].outputIndex.value;
        buckets[at] := buckets[at] + [frames[f]];
      } else {
        loose := loose + [frames[f]];
      }
    }
    assert frames[..|frames|] == frames;
    var announced := InitialRunLen(items, registry, plans);
    events := StartsFrom(plans, 0, announced);
    for i := 0 to n
      invariant forall j: nat | j < n :: buckets[j] == FramesAt(frames, j)
      invariant events + MergedFrom(plans, results, announced, frames, n, i)
        == MergedEvents(plans, results, announced, frames, n)
    {
      var k := CallIndexForItem(plans, i);
      var emitted := [];
      if k.Some? {
        if k.value >= announced {
          emitted := StartsOf(k.value, StartEvents(plans[k.value]));
        }
        emitted := emitted + CompletionsOf(k.value, CompletedEvents(plans[k.value], results[k.value].shown));
      }
      SameCall(plans, results, announced, i, k);
      Associate(events, emitted, HeldAll(buckets[i]), MergedFrom(plans, results, announced, frames, n, i + 1));
      events := events + (emitted + HeldAll(buckets[i]));
    }
    events := events + HeldAll(loose);
  }

  lemma NoFrames(n: nat)
    ensures LooseFrames([], n) == [] && forall i: nat :: FramesAt([], i) == []
  {
  }

  lemma AppendAssociates<T>(a: seq<T>, b: seq<T>, c: seq<T>)
    ensures a + (b + c) == a + b + c
  {
  }

  lemma {:induction false} FramesAtAppend(xs: seq<Frame>, ys: seq<Frame>, i: nat)
    ensures FramesAt(xs + ys, i) == FramesAt(xs, i) + FramesAt(ys, i)
  {
    if xs == [] {
      assert xs + ys == ys;
    } else {
      assert (xs + ys)[1..] == xs[1..] + ys;
      FramesAtAppend(xs[1..], ys, i);
      var head := if xs[0].outputIndex == Some(i) then [xs[0]] else [];
      AppendAssociates(head, FramesAt(xs[1..], i), FramesAt(ys, i));
    }
  }

  lemma {:induction false} LooseAppend(xs: seq<Frame>, ys: seq<Frame>, n: nat)
    ensures LooseFrames(xs + ys, n) == LooseFrames(xs, n) + LooseFrames(ys, n)
  {
    if xs == [] {
      assert xs + ys == ys;
    } else {
      assert (xs + ys)[1..] == xs[1..] + ys;
      LooseAppend(xs[1..], ys, n);
      var head := if IsLoose(xs[0], n) then [xs[0]] else [];
      AppendAssociates(head, LooseFrames(xs[1..], n), LooseFrames(ys, n));
    }
  }

  lemma OneFrameMore(frames: seq<Frame>, frame: Frame, n: nat)
    ensures forall i: nat ::
      (FramesAt(frames + [frame], i) == if frame.outputIndex == Some(i) then FramesAt(frames, i) + [frame]
        else FramesAt(frames, i))
    ensures LooseFrames(frames + [frame], n) == if IsLoose(frame, n) then LooseFrames(frames, n) + [frame]
      else LooseFrames(frames, n)
  {
    forall i: nat ensures FramesAt(frames + [frame], i) ==
      if frame.outputIndex == Some(i) then FramesAt(frames, i) + [frame] else FramesAt(frames, i)
    {
      FramesAtAppend(frames, [frame], i);
    }
    LooseAppend(frames, [frame], n);
  }

  lemma SameCall(plans: seq<CallPlan>, results: seq<CallResult>, announced: nat, i: nat, k: Option<nat>)
    requires Increasing(plans) && |plans| == |results|
    requires k.Some? ==> k.value < |plans| && plans[k.value].itemIndex == i
    requires k.None? ==> forall j | 0 <= j < |plans| :: plans[j].itemIndex != i
    ensures CallEvents(plans, results, announced, i) ==
      if k.None? then []
      else (if k.value >= announced then StartsOf(k.value, StartEvents(plans[k.value])) else [])
           + CompletionsOf(k.value, CompletedEvents(plans[k.value], results[k.value].shown))
  {
    hide StartEvents, CompletedEvents, StartsOf, CompletionsOf;
    assert CallAt(plans, i) == k;
  }

  lemma Associate(a: seq<Emitted>, b: seq<Emitted>, c: seq<Emitted>, d: seq<Emitted>)
    ensures a + (b + c + d) == a + (b + c) + d
  {
  }

  // ----- nothing is lost, nothing is said twice -----

  /** The frames among what was emitted. */
  function HeldFrames(events: seq<Emitted>): seq<Frame> {
    if events == [] then []
    else (if events[0].Held? then [events[0].frame] else []) + HeldFrames(events[1..])
  }

  function Starts(events: seq<Emitted>): seq<Emitted> {
    if events == [] then []
    else (if events[0].Starting? then [events[0]] else []) + Starts(events[1..])
  }

  function Completions(events: seq<Emitted>): seq<Emitted> {
    if events == [] then []
    else (if events[0].Completing? then [events[0]] else []) + Completions(events[1..])
  }

  lemma {:induction false} PartsAppend(xs: seq<Emitted>, ys: seq<Emitted>)
    ensures HeldFrames(xs + ys) == HeldFrames(xs) + HeldFrames(ys)
    ensures Starts(xs + ys) == Starts(xs) + Starts(ys)
    ensures Completions(xs + ys) == Completions(xs) + Completions(ys)
  {
    if xs == [] {
      assert xs + ys == ys;
    } else {
      assert (xs + ys)[1..] == xs[1..] + ys;
      PartsAppend(xs[1..], ys);
      AppendAssociates(if xs[0].Held? then [xs[0].frame] else [], HeldFrames(xs[1..]), HeldFrames(ys));
      AppendAssociates(if xs[0].Starting? then [xs[0]] else [], Starts(xs[1..]), Starts(ys));
      AppendAssociates(if xs[0].Completing? then [xs[0]] else [], Completions(xs[1..]), Completions(ys));
    }
  }

  lemma {:induction false} PartsOfHeld(frames: seq<Frame>)
    ensures HeldFrames(HeldAll(frames)) == frames && Starts(HeldAll(frames)) == [] && Completions(HeldAll(frames)) == []
  {
    if frames != [] {
      assert HeldAll(frames)[1..] == HeldAll(frames[1..]);
      PartsOfHeld(frames[1..]);
    }
  }

  lemma {:induction false} PartsOfStarts(call: nat, events: seq<ItemEvent>)
    ensures var s := StartsOf(call, events); HeldFrames(s) == [] && Starts(s) == s && Completions(s) == []
  {
    if events != [] {
      assert StartsOf(call, events)[1..] == StartsOf(call, events[1..]);
      PartsOfStarts(call, events[1..]);
    }
  }

  lemma {:induction false} PartsOfCompletions(call: nat, events: seq<ItemEvent>)
    ensures var s := CompletionsOf(call, events); HeldFrames(s) == [] && Starts(s) == [] && Completions(s) == s
  {
    if events != [] {
      assert CompletionsOf(call, events)[1..] == CompletionsOf(call, events[1..]);
      PartsOfCompletions(call, events[1..]);
    }
  }

  lemma {:induction false} PartsOfStartsFrom(plans: seq<CallPlan>, from: nat, upTo: nat)
    requires from <= upTo <= |plans|
    ensures var s := StartsFrom(plans, from, upTo); HeldFrames(s) == [] && Starts(s) == s && Completions(s) == []
    decreases upTo - from
  {
    hide StartEvents, StartsOf;
    if from < upTo {
      PartsOfStarts(from, StartEvents(plans[from]));
      PartsOfStartsFrom(plans, from + 1, upTo);
      PartsAppend(StartsOf(from, StartEvents(plans[from])), StartsFrom(plans, from + 1, upTo));
    }
  }

  /** The frames of the items from `i` on, item by item. */
  function Bucketed(frames: seq<Frame>, n: nat, i: nat): seq<Frame>
    requires i <= n
    decreases n - i
  {
    if i == n then LooseFrames(frames, n) else FramesAt(frames, i) + Bucketed(frames, n, i + 1)
  }

  lemma PartsOfCallEvents(plans: seq<CallPlan>, results: seq<CallResult>, announced: nat, i: nat)
    requires |plans| == |results|
    ensures var s := CallEvents(plans, results, announced, i); var k := CallAt(plans, i);
      && HeldFrames(s) == []
      && Starts(s) == (if k.Some? && k.value >= announced then StartsOf(k.value, StartEvents(plans[k.value])) else [])
      && Completions(s)
           == (if k.Some? then CompletionsOf(k.value, CompletedEvents(plans[k.value], results[k.value].shown)) else [])
  {
    hide StartEvents, CompletedEvents, StartsOf, CompletionsOf, HeldFrames, Starts, Completions;
    var k := CallAt(plans, i);
    PartsOfHeld([]);
    assert HeldAll([]) == [];
    if k.Some? {
      var starts := if k.value >= announced then StartsOf(k.value, StartEvents(plans[k.value])) else [];
      PartsOfStarts(k.value, StartEvents(plans[k.value]));
      PartsOfCompletions(k.value, CompletedEvents(plans[k.value], results[k.value].shown));
      PartsAppend(starts, CompletionsOf(k.value, CompletedEvents(plans[k.value], results[k.value].shown)));
    }
  }

  lemma {:induction false} HeldFramesOfMerged(
      plans: seq<CallPlan>, results: seq<CallResult>, announced: nat, frames: seq<Frame>, n: nat, i: nat)
    requires |plans| == |results| && i <= n
    ensures HeldFrames(MergedFrom(plans, results, announced, frames, n, i)) == Bucketed(frames, n, i)
    decreases n - i
  {
    hide CallEvents, HeldAll, HeldFrames, FramesAt, LooseFrames;
    if i == n {
      PartsOfHeld(LooseFrames(frames, n));
    } else {
      var call, held := CallEvents(plans, results, announced, i), HeldAll(FramesAt(frames, i));
      HeldFramesOfMerged(plans, results, announced, frames, n, i + 1);
      PartsOfCallEvents(plans, results, announced, i);
      PartsOfHeld(FramesAt(frames, i));
      HeldAppend(call + held, MergedFrom(plans, results, announced, frames, n, i + 1));
      HeldAppend(call, held);
      assert [] + FramesAt(frames, i) == FramesAt(frames, i);
    }
  }

  lemma HeldAppend(xs: seq<Emitted>, ys: seq<Emitted>)
    ensures HeldFrames(xs + ys) == HeldFrames(xs) + HeldFrames(ys)
  {
    PartsAppend(xs, ys);
  }

  lemma {:induction false} BucketsHoldEveryFrame(frames: seq<Frame>, n: nat, i: nat)
    requires i <= n
    ensures multiset(Bucketed(frames, n, i)) == multiset(FromIndex(frames, n, i))
    decreases n - i
  {
    if i < n {
      BucketsHoldEveryFrame(frames, n, i + 1);
      SplitAtIndex(frames, n, i);
    } else {
      LooseIsFromEnd(frames, n);
    }
  }

  /** Frames of the items from `i` on, and loose ones. */
  function FromIndex(frames: seq<Frame>, n: nat, i: nat): seq<Frame> {
    if frames == [] then []
    else
      (if IsLoose(frames[0], n) || frames[0].outputIndex.value >= i then [frames[0]] else [])
      + FromIndex(frames[1..], n, i)
  }

  lemma {:induction false} SplitAtIndex(frames: seq<Frame>, n: nat, i: nat)
    requires i < n
    ensures multiset(FromIndex(frames, n, i)) == multiset(FramesAt(frames, i)) + multiset(FromIndex(frames, n, i + 1))
  {
    if frames != [] {
      SplitAtIndex(frames[1..], n, i);
    }
  }

  lemma {:induction false} LooseIsFromEnd(frames: seq<Frame>, n: nat)
    ensures LooseFrames(frames, n) == FromIndex(frames, n, n)
  {
    if frames != [] {
      LooseIsFromEnd(frames[1..], n);
    }
  }

  lemma {:induction false} FromStartIsAll(frames: seq<Frame>, n: nat)
    ensures FromIndex(frames, n, 0) == frames
  {
    if frames != [] {
      FromStartIsAll(frames[1..], n);
    }
  }

  lemma {:induction false} FramesAtOfFiltered(frames: seq<Frame>, j: nat, n: nat, i: nat)
    ensures FramesAt(FramesAt(frames, j), i) == (if i == j then FramesAt(frames, i) else [])
    ensures FramesAt(LooseFrames(frames, n), i) == (if i >= n then FramesAt(frames, i) else [])
  {
    if frames != [] {
      FramesAtOfFiltered(frames[1..], j, n, i);
      var head := if frames[0].outputIndex == Some(j) then [frames[0]] else [];
      FramesAtAppend(head, FramesAt(frames[1..], j), i);
      var loose := if IsLoose(frames[0], n) then [frames[0]] else [];
      FramesAtAppend(loose, LooseFrames(frames[1..], n), i);
    }
  }

  lemma {:induction false} BucketsKeepOrder(frames: seq<Frame>, n: nat, j: nat, i: nat)
    requires j <= n
    ensures FramesAt(Bucketed(frames, n, j), i) == if i >= j then FramesAt(frames, i) else []
    decreases n - j
  {
    hide FramesAt, LooseFrames;
    FramesAtOfFiltered(frames, j, n, i);
    if j < n {
      BucketsKeepOrder(frames, n, j + 1, i);
      FramesAtAppend(FramesAt(frames, j), Bucketed(frames, n, j + 1), i);
    }
  }

  /** Every frame that was held back is emitted exactly once, and the frames of one item keep their order. */
  lemma HeldFramesAreKept(plans: seq<CallPlan>, results: seq<CallResult>, announced: nat, frames: seq<Frame>, n: nat)
    requires |plans| == |results| && announced <= |plans|
    ensures var out := HeldFrames(MergedEvents(plans, results, announced, frames, n));
      multiset(out) == multiset(frames) && forall i: nat :: FramesAt(out, i) == FramesAt(frames, i)
  {
    hide HeldFrames, FramesAt, StartsFrom, MergedFrom, Bucketed, FromIndex;
    HeldAppend(StartsFrom(plans, 0, announced), MergedFrom(plans, results, announced, frames, n, 0));
    PartsOfStartsFrom(plans, 0, announced);
    HeldFramesOfMerged(plans, results, announced, frames, n, 0);
    BucketsHoldEveryFrame(frames, n, 0);
    FromStartIsAll(frames, n);
    assert [] + Bucketed(frames, n, 0) == Bucketed(frames, n, 0);
    forall i: nat ensures FramesAt(Bucketed(frames, n, 0), i) == FramesAt(frames, i) {
      BucketsKeepOrder(frames, n, 0, i);
    }
  }

  /** The calls are those of the items, none left out: item by item, their starts and their completions come
      to all starts and all completions in call order. */
  lemma {:induction false} CallEventsInOrder(
      plans: seq<CallPlan>, results: seq<CallResult>, announced: nat, frames: seq<Frame>, n: nat, i: nat, k: nat)
    requires Increasing(plans) && |plans| == |results| && announced <= |plans| && i <= n && k <= |plans|
    requires forall j | 0 <= j < k :: plans[j].itemIndex < i
    requires forall j | k <= j < |plans| :: i <= plans[j].itemIndex < n
    ensures var s := MergedFrom(plans, results, announced, frames, n, i);
      && Completions(s) == CompletionsFrom(plans, results, k)
      && Starts(s) == StartsFrom(plans, if k < announced then announced else k, |plans|)
    decreases n - i
  {
    hide CallEvents, HeldAll, HeldFrames, FramesAt, LooseFrames, StartsOf, CompletionsOf, StartEvents, CompletedEvents,
      Starts, Completions;
    if i == n {
      PartsOfHeld(LooseFrames(frames, n));
    } else {
      var call, held, rest :=
        CallEvents(plans, results, announced, i), HeldAll(FramesAt(frames, i)),
        MergedFrom(plans, results, announced, frames, n, i + 1);
      PartsOfCallEvents(plans, results, announced, i);
      PartsOfHeld(FramesAt(frames, i));
      PartsAppend(call + held, rest);
      PartsAppend(call, held);
      if k < |plans| && plans[k].itemIndex == i {
        assert CallAt(plans, i) == Some(k);
        CallEventsInOrder(plans, results, announced, frames, n, i + 1, k + 1);
        assert Starts(call) + [] + Starts(rest) == Starts(call) + Starts(rest);
        assert Completions(call) + [] + Completions(rest) == Completions(call) + Completions(rest);
        if k < announced {
          assert [] + Starts(rest) == Starts(rest);
        }
      } else {
        assert CallAt(plans, i).None?;
        CallEventsInOrder(plans, results, announced, frames, n, i + 1, k);
        assert [] + [] + Starts(rest) == Starts(rest) && [] + [] + Completions(rest) == Completions(rest);
      }
    }
  }

  /** Merged or not, the client sees every start and every completion exactly once, in call order. */
  lemma MergingKeepsCallEvents(
      plans: seq<CallPlan>, results: seq<CallResult>, announced: nat, frames: seq<Frame>, n: nat)
    requires Increasing(plans) && |plans| == |results| && announced <= |plans|
    requires forall j | 0 <= j < |plans| :: plans[j].itemIndex < n
    ensures var merged, plain := MergedEvents(plans, results, announced, frames, n), PlainEvents(plans, results);
      && Starts(merged) == Starts(plain) == StartsFrom(plans, 0, |plans|)
      && Completions(merged) == Completions(plain) == CompletionsFrom(plans, results, 0)
      && HeldFrames(plain) == []
  {
    hide HeldFrames, Starts, Completions, StartsFrom, CompletionsFrom, MergedFrom;
    PartsAppend(StartsFrom(plans, 0, announced), MergedFrom(plans, results, announced, frames, n, 0));
    PartsOfStartsFrom(plans, 0, announced);
    CallEventsInOrder(plans, results, announced, frames, n, 0, 0);
    StartsFromSplit(plans, 0, announced, |plans|);
    PartsAppend(StartsFrom(plans, 0, |plans|), CompletionsFrom(plans, results, 0));
    PartsOfStartsFrom(plans, 0, |plans|);
    PartsOfCompletionsFrom(plans, results, 0);
    assert [] + CompletionsFrom(plans, results, 0) == CompletionsFrom(plans, results, 0);
    assert StartsFrom(plans, 0, |plans|) + [] == StartsFrom(plans, 0, |plans|);
  }

  lemma {:induction false} StartsFromSplit(plans: seq<CallPlan>, from: nat, middle: nat, upTo: nat)
    requires from <= middle <= upTo <= |plans|
    ensures StartsFrom(plans, from, upTo) == StartsFrom(plans, from, middle) + StartsFrom(plans, middle, upTo)
    decreases middle - from
  {
    hide StartsOf, StartEvents;
    if from < middle {
      StartsFromSplit(plans, from + 1, middle, upTo);
      AppendAssociates(StartsOf(from, StartEvents(plans[from])), StartsFrom(plans, from + 1, middle),
        StartsFrom(plans, middle, upTo));
    }
  }

  lemma {:induction false} PartsOfCompletionsFrom(plans: seq<CallPlan>, results: seq<CallResult>, from: nat)
    requires from <= |plans| == |results|
    ensures var s := CompletionsFrom(plans, results, from);
      HeldFrames(s) == [] && Starts(s) == [] && Completions(s) == s
    decreases |plans| - from
  {
    hide CompletedEvents, CompletionsOf;
    if from < |plans| {
      PartsOfCompletions(from, CompletedEvents(plans[from], results[from].shown));
      PartsOfCompletionsFrom(plans, results, from + 1);
      PartsAppend(CompletionsOf(from, CompletedEvents(plans[from], results[from].shown)),
        CompletionsFrom(plans, results, from + 1));
    }
  }

  // ----- order -----

  /** Where in a round an event belongs. */
  function Rank(e: Emitted, plans: seq<CallPlan>, announced: nat, n: nat): nat {
    match e
    case Starting(k, _) => if k < announced || k >= |plans| then 0 else 3 * plans[k].itemIndex + 1
    case Completing(k, _) => if k >= |plans| then 0 else 3 * plans[k].itemIndex + 2
    case Held(frame) => if IsLoose(frame, n) then 3 * n + 4 else 3 * frame.outputIndex.value + 3
  }

  /** In order of rank, and within bounds. */
  ghost predicate Ranked(events: seq<Emitted>, plans: seq<CallPlan>, announced: nat, n: nat, low: nat, high: nat) {
    && (forall p | 0 <= p < |events| :: low <= Rank(events[p], plans, announced, n) <= high)
    && (forall p, q | 0 <= p < q < |events| ::
          Rank(events[p], plans, announced, n) <= Rank(events[q], plans, announced, n))
  }

  lemma RankedAppend(
      xs: seq<Emitted>, ys: seq<Emitted>, plans: seq<CallPlan>, announced: nat, n: nat, low: nat, middle: nat,
      above: nat, high: nat)
    requires Ranked(xs, plans, announced, n, low, middle) && Ranked(ys, plans, announced, n, above, high)
    requires low <= above && middle <= above && middle <= high
    ensures Ranked(xs + ys, plans, announced, n, low, high)
  {
    hide Rank;
  }

  lemma {:induction false} FramesAtIndex(frames: seq<Frame>, i: nat, n: nat)
    ensures forall k | 0 <= k < |FramesAt(frames, i)| :: FramesAt(frames, i)[k].outputIndex == Some(i)
    ensures forall k | 0 <= k < |LooseFrames(frames, n)| :: IsLoose(LooseFrames(frames, n)[k], n)
  {
    if frames != [] {
      FramesAtIndex(frames[1..], i, n);
    }
  }

  lemma CallEventsRanked(plans: seq<CallPlan>, results: seq<CallResult>, announced: nat, n: nat, i: nat)
    requires |plans| == |results|
    ensures Ranked(CallEvents(plans, results, announced, i), plans, announced, n, 3 * i + 1, 3 * i + 2)
  {
    hide StartEvents, CompletedEvents;
    match CallAt(plans, i)
    case None =>
    case Some(k) =>
      var starts := if k >= announced then StartsOf(k, StartEvents(plans[k])) else [];
      var completions := CompletionsOf(k, CompletedEvents(plans[k], results[k].shown));
      RankedAppend(starts, completions, plans, announced, n, 3 * i + 1, 3 * i + 1, 3 * i + 2, 3 * i + 2);
  }

  lemma {:induction false} MergedIsRanked(
      plans: seq<CallPlan>, results: seq<CallResult>, announced: nat, frames: seq<Frame>, n: nat, i: nat)
    requires |plans| == |results| && i <= n
    ensures Ranked(MergedFrom(plans, results, announced, frames, n, i), plans, announced, n, 3 * i + 1, 3 * n + 4)
    decreases n - i
  {
    hide CallEvents, Ranked, FramesAt, LooseFrames;
    FramesAtIndex(frames, i, n);
    if i == n {
      HeldRanked(LooseFrames(frames, n), plans, announced, n, 3 * n + 4);
      RankedWithin(HeldAll(LooseFrames(frames, n)), plans, announced, n, 3 * n + 4, 3 * n + 4, 3 * i + 1);
    } else {
      CallEventsRanked(plans, results, announced, n, i);
      HeldRanked(FramesAt(frames, i), plans, announced, n, 3 * i + 3);
      var call, held := CallEvents(plans, results, announced, i), HeldAll(FramesAt(frames, i));
      RankedAppend(call, held, plans, announced, n, 3 * i + 1, 3 * i + 2, 3 * i + 3, 3 * i + 3);
      MergedIsRanked(plans, results, announced, frames, n, i + 1);
      RankedAppend(call + held, MergedFrom(plans, results, announced, frames, n, i + 1), plans, announced, n,
                   3 * i + 1, 3 * i + 3, 3 * i + 4, 3 * n + 4);
    }
  }

  lemma HeldRanked(frames: seq<Frame>, plans: seq<CallPlan>, announced: nat, n: nat, rank: nat)
    requires forall k | 0 <= k < |frames| :: Rank(Held(frames[k]), plans, announced, n) == rank
    ensures Ranked(HeldAll(frames), plans, announced, n, rank, rank)
  {
    hide Rank;
  }

  lemma RankedWithin(
      events: seq<Emitted>, plans: seq<CallPlan>, announced: nat, n: nat, low: nat, high: nat, lower: nat)
    requires Ranked(events, plans, announced, n, low, high) && lower <= low
    ensures Ranked(events, plans, announced, n, lower, high)
  {
    hide Rank;
  }

  lemma {:induction false} AnnouncedRankFirst(plans: seq<CallPlan>, announced: nat, n: nat, from: nat)
    requires from <= announced <= |plans|
    ensures Ranked(StartsFrom(plans, from, announced), plans, announced, n, 0, 0)
    decreases announced - from
  {
    hide StartEvents;
    if from < announced {
      AnnouncedRankFirst(plans, announced, n, from + 1);
      RankedAppend(StartsOf(from, StartEvents(plans[from])), StartsFrom(plans, from + 1, announced), plans, announced,
        n, 0, 0, 0, 0);
    }
  }

  lemma MergedEventsAreRanked(
      plans: seq<CallPlan>, results: seq<CallResult>, announced: nat, frames: seq<Frame>, n: nat)
    requires |plans| == |results| && announced <= |plans|
    ensures Ranked(MergedEvents(plans, results, announced, frames, n), plans, announced, n, 0, 3 * n + 4)
  {
    hide MergedFrom, StartsFrom, Ranked;
    AnnouncedRankFirst(plans, announced, n, 0);
    MergedIsRanked(plans, results, announced, frames, n, 0);
    RankedAppend(StartsFrom(plans, 0, announced), MergedFrom(plans, results, announced, frames, n, 0), plans, announced,
      n, 0, 0, 1, 3 * n + 4);
  }

  /** `first` is the start, and `second` the completion, of one call. */
  predicate StartAndCompletion(first: Emitted, second: Emitted, plans: seq<CallPlan>) {
    first.Starting? && second.Completing? && first.call == second.call < |plans|
  }

  /** `first` is a frame of a client's custom call, and `second` the start of a gateway call after it. */
  predicate CustomFrameAndLaterStart(
      first: Emitted, second: Emitted, plans: seq<CallPlan>, items: seq<OutputItem>, registry: Registry)
  {
    && first.Held? && !IsLoose(first.frame, |items|) && IsCustomCall(items[first.frame.outputIndex.value], registry)
    && second.Starting? && second.call < |plans| && first.frame.outputIndex.value < plans[second.call].itemIndex
  }

  /** `first` completes a call, and `second` is a frame of that item or of a later one. */
  predicate CompletionAndFrame(first: Emitted, second: Emitted, plans: seq<CallPlan>, n: nat) {
    && first.Completing? && first.call < |plans|
    && second.Held? && !IsLoose(second.frame, n) && second.frame.outputIndex.value >= plans[first.call].itemIndex
  }

  predicate LooseFrame(e: Emitted, n: nat) {
    e.Held? && IsLoose(e.frame, n)
  }

  /** In the merged events of a round, the start of a call comes before its completion; no start of a call
      overtakes the held-back frames of a client's custom call before it; an item's call completes before the
      frames of that item and of later ones; and frames that belong to no item come last. */
  lemma MergedEventsAreOrdered(
    items: seq<OutputItem>, registry: Registry, offset: nat, pr: Projections, results: seq<CallResult>,
    frames: seq<Frame>, p: nat, q: nat)
    requires ValidRegistry(registry) && |results| == |Plan(items, registry, offset, pr)|
    requires var plans := Plan(items, registry, offset, pr);
      var events := MergedEvents(plans, results, InitialRunLen(items, registry, plans), frames, |items|);
      p < |events| && q < |events| &&
      (|| StartAndCompletion(events[p], events[q], plans)
       || CustomFrameAndLaterStart(events[p], events[q], plans, items, registry)
       || CompletionAndFrame(events[p], events[q], plans, |items|)
       || (LooseFrame(events[q], |items|) && !LooseFrame(events[p], |items|)))
    ensures p < q
  {
    hide MergedEvents, InitialRunLen, PlanFrom, IsCustomCall;
    var plans, n := Plan(items, registry, offset, pr), |items|;
    var announced := InitialRunLen(items, registry, plans);
    PlansAreGatewayCalls(items, registry, offset, pr, 0);
    var events := MergedEvents(plans, results, announced, frames, n);
    MergedEventsAreRanked(plans, results, announced, frames, n);
    var first, second := events[p], events[q];
    if CustomFrameAndLaterStart(first, second, plans, items, registry) && second.call < announced {
      AnnouncedOvertakesNoCustomCall(items, registry, offset, pr, second.call, first.frame.outputIndex.value);
    }
    RankedLater(first, second, plans, announced, items, registry);
  }

  lemma RankedLater(
      first: Emitted, second: Emitted, plans: seq<CallPlan>, announced: nat, items: seq<OutputItem>,
      registry: Registry)
    requires forall k | 0 <= k < |plans| :: plans[k].itemIndex < |items|
    requires || StartAndCompletion(first, second, plans)
             || (CustomFrameAndLaterStart(first, second, plans, items, registry) && second.call >= announced)
             || CompletionAndFrame(first, second, plans, |items|)
             || (LooseFrame(second, |items|) && !LooseFrame(first, |items|))
    ensures Rank(first, plans, announced, |items|) < Rank(second, plans, announced, |items|)
  {
    hide IsCustomCall;
  }

  /** No client's custom call stands before a call of the initial run. */
  lemma AnnouncedOvertakesNoCustomCall(
      items: seq<OutputItem>, registry: Registry, offset: nat, p: Projections, k: nat, i: nat)
    requires ValidRegistry(registry)
    requires var plans := Plan(items, registry, offset, p);
      k < InitialRunLen(items, registry, plans) && i < plans[k].itemIndex
    ensures i < |items| && !IsCustomCall(items[i], registry)
  {
    hide PlanFrom;
    var plans := Plan(items, registry, offset, p);
    PlansAreGatewayCalls(items, registry, offset, p, 0);
    if i >= plans[0].itemIndex {
      var j := i - plans[0].itemIndex;
      assert plans[j].itemIndex == i;
      assert IsGatewayCall(items[i], registry);
    }
  }

  // ----- what a done event shows -----

  /** Exactly those leading calls are announced before they run that stand side by side, and only if no call of a
      client's custom tool stands before them. */
  lemma AnnouncedFirstExactly(items: seq<OutputItem>, registry: Registry, plans: seq<CallPlan>, k: nat)
    ensures k < InitialRunLen(items, registry, plans) <==>
      && k < |plans|
      && (forall i | 0 <= i < plans[0].itemIndex && i < |items| ::
            !(items[i].OutFunctionCall? && items[i].outCall.name in registry
              && registry[items[i].outCall.name].toolType.Custom?))
      && forall j | 0 <= j <= k :: plans[j].itemIndex == plans[0].itemIndex + j
  {
    if plans != [] {
      ContiguousIsLongest(plans, 0);
    }
  }

  lemma {:induction false} ContiguousIsLongest(plans: seq<CallPlan>, n: nat)
    requires plans != [] && n <= |plans|
    ensures var m := ContiguousFrom(plans, n); m < |plans| ==> plans[m].itemIndex != plans[0].itemIndex + m
    decreases |plans| - n
  {
    if n < |plans| && plans[n].itemIndex == plans[0].itemIndex + n {
      ContiguousIsLongest(plans, n + 1);
    }
  }

  /** Without held-back frames every start comes before every completion. */
  lemma PlainEventsAreOrdered(plans: seq<CallPlan>, results: seq<CallResult>, p: nat, q: nat)
    requires |plans| == |results| && p < |PlainEvents(plans, results)| && q < |PlainEvents(plans, results)|
    requires PlainEvents(plans, results)[p].Starting? && PlainEvents(plans, results)[q].Completing?
    ensures p < q
  {
    hide Starts, Completions, StartsFrom, CompletionsFrom;
    PartsOfStartsFrom(plans, 0, |plans|);
    PartsOfCompletionsFrom(plans, results, 0);
    var starts, completions := StartsFrom(plans, 0, |plans|), CompletionsFrom(plans, results, 0);
    if q < |starts| {
      OnlyStarts(starts, q);
    } else if p >= |starts| {
      OnlyCompletions(completions, p - |starts|);
    }
  }

  lemma {:induction false} OnlyStarts(events: seq<Emitted>, k: nat)
    requires Starts(events) == events && k < |events|
    ensures events[k].Starting?
  {
    StartsAreFewer(events[1..]);
    if k > 0 {
      OnlyStarts(events[1..], k - 1);
    }
  }

  lemma {:induction false} StartsAreFewer(events: seq<Emitted>)
    ensures |Starts(events)| <= |events|
  {
    if events != [] {
      StartsAreFewer(events[1..]);
    }
  }

  lemma {:induction false} OnlyCompletions(events: seq<Emitted>, k: nat)
    requires Completions(events) == events && k < |events|
    ensures events[k].Completing?
  {
    CompletionsAreFewer(events[1..]);
    if k > 0 {
      OnlyCompletions(events[1..], k - 1);
    }
  }

  lemma {:induction false} CompletionsAreFewer(events: seq<Emitted>)
    ensures |Completions(events)| <= |events|
  {
    if events != [] {
      CompletionsAreFewer(events[1..]);
    }
  }

  lemma {:induction false} EventsHaveTheirPart(events: seq<Emitted>, e: Emitted)
    requires e in events
    ensures e.Starting? ==> e in Starts(events)
    ensures e.Completing? ==> e in Completions(events)
  {
    if e != events[0] {
      EventsHaveTheirPart(events[1..], e);
    }
  }

  lemma {:induction false} StartsAnnounce(plans: seq<CallPlan>, from: nat, upTo: nat, e: Emitted)
    requires from <= upTo <= |plans| && e in StartsFrom(plans, from, upTo)
    ensures e.Starting? && !e.event.Done?
    decreases upTo - from
  {
    if e in StartsOf(from, StartEvents(plans[from])) {
    } else {
      StartsAnnounce(plans, from + 1, upTo, e);
    }
  }

  lemma {:induction false} CompletionsShow(plans: seq<CallPlan>, results: seq<CallResult>, from: nat, e: Emitted)
    requires from <= |plans| == |results| && e in CompletionsFrom(plans, results, from)
    ensures e.Completing? && from <= e.call < |plans|
    ensures e.event.Done? ==> e.event.index == plans[e.call].outputIndex && results[e.call].shown == Some(e.event.item)
    decreases |plans| - from
  {
    if e in CompletionsOf(from, CompletedEvents(plans[from], results[from].shown)) {
    } else {
      CompletionsShow(plans, results, from + 1, e);
    }
  }

  /** Every done event of a round carries the public index of a planned call and what its handler showed. */
  lemma DoneEventsShowResults(events: seq<Emitted>, plans: seq<CallPlan>, results: seq<CallResult>, e: Emitted)
    requires |plans| == |results| && e in events && !e.Held? && e.event.Done?
    requires Starts(events) == StartsFrom(plans, 0, |plans|)
      && Completions(events) == CompletionsFrom(plans, results, 0)
    ensures e.Completing? && e.call < |plans| && e.event.index == plans[e.call].outputIndex
      && results[e.call].shown == Some(e.event.item)
  {
    hide StartsFrom, CompletionsFrom, Starts, Completions;
    EventsHaveTheirPart(events, e);
    if e.Starting? {
      StartsAnnounce(plans, 0, |plans|, e);
    } else {
      CompletionsShow(plans, results, 0, e);
    }
  }
}
