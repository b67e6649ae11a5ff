/** Replacing a history that takes too much context by its user messages and a summary. */
module ContextCompaction {
  import opened Basics
  import opened JsonValues
  import opened ConversationItems
  import opened TokenEstimate

  // ----- what the model is given in place of the input -----

  /** The model reads a checkpoint as a message of its own. */
  function AsModelItem(item: InputItem): InputItem {
    if item.CompactionItem?
    then Message(InputMessage(None, ASSISTANT, None, Parts([OutputText(item.compaction.encryptedContent)])))
    else item
  }

  function AsModelItems(items: seq<InputItem>): seq<InputItem> {
    if items == [] then [] else [AsModelItem(items[0])] + AsModelItems(items[1..])
  }

  function ModelInput(input: ResponsesInput): ResponsesInput {
    match input
    case Text(_) => input
    case Items(items) =>
      if LatestWindow(items).Some? then Items(AsModelItems(ModelItems(items)))
      else if exists k :: 0 <= k < |items| && !IsModelVisible(items[k]) then Items(ModelItems(items))
      else input
  }

  predicate AllVisible(items: seq<InputItem>) {
    forall k | 0 <= k < |items| :: IsModelVisible(items[k])
  }

  lemma {:induction false} VisibleOnly(items: seq<InputItem>)
    requires AllVisible(items)
    ensures Visible(items) == items
  {
    hide IsModelVisible;
    if items != [] {
      assert forall k | 0 <= k < |items[1..]| :: items[1..][k] == items[k + 1];
      VisibleOnly(items[1..]);
    }
  }

  lemma {:induction false} SelectedAreVisible(items: seq<InputItem>, window: Option<CompactionWindow>, from: nat)
    requires from <= |items|
    ensures AllVisible(SelectFrom(items, window, from))
    decreases |items| - from
  {
    hide IsModelVisible, IsRetainedUser;
    if from < |items| {
      SelectedAreVisible(items, window, from + 1);
    }
  }

  lemma AsModelItemIsPlain(item: InputItem)
    ensures ItemCost(AsModelItem(item)) == ItemCost(item)
    ensures IsModelVisible(AsModelItem(item)) == IsModelVisible(item) && !AsModelItem(item).CompactionItem?
  {
    hide TextBytes, ASSISTANT, TotalCost;
    if item.CompactionItem? {
      TotalCostHead([OutputText(item.compaction.encryptedContent)], PartCost);
      TotalCostHead<ContentPart>([], PartCost);
    }
  }

  lemma {:induction false} AsModelItemsArePlain(items: seq<InputItem>)
    ensures ItemsCost(AsModelItems(items)) == ItemsCost(items) && !HasCompaction(AsModelItems(items))
    ensures AllVisible(items) ==> AllVisible(AsModelItems(items))
  {
    hide AsModelItem, ItemCost, IsModelVisible, TotalCost;
    TotalCostHead(items, ItemCost);
    if items != [] {
      AsModelItemIsPlain(items[0]);
      AsModelItemsArePlain(items[1..]);
      TotalCostCons(AsModelItem(items[0]), AsModelItems(items[1..]), ItemCost);
      assert AllVisible(items) ==> AllVisible(items[1..]);
    }
  }

  /** What the model is given needs no window any more: it is all visible, holds no checkpoint, and counts
      exactly as the input was estimated to. */
  lemma EstimateCountsModelInput(input: ResponsesInput)
    ensures Estimate(ModelInput(input)) == Estimate(input)
    ensures ModelInput(ModelInput(input)) == ModelInput(input)
    ensures ModelInput(input).Items? ==>
      AllVisible(ModelInput(input).items) && !HasCompaction(ModelInput(input).items)
      && ModelItems(ModelInput(input).items) == ModelInput(input).items
  {
    hide IsModelVisible, AsModelItems, ItemCost, TotalCost, Saturate, TextBytes;
    if input.Items? {
      var items := input.items;
      SelectedAreVisible(items, LatestWindow(items), 0);
      AsModelItemsArePlain(ModelItems(items));
      if LatestWindow(items).Some? {
        PlainListIsItsOwnWindow(AsModelItems(ModelItems(items)));
      } else {
        ModelItemsWithoutCompaction(items);
        FilteredHasNoCompaction(items);
        PlainListIsItsOwnWindow(ModelItems(items));
        if AllVisible(items) {
          VisibleOnly(items);
        }
      }
    }
  }

  lemma PlainListIsItsOwnWindow(items: seq<InputItem>)
    requires AllVisible(items) && !HasCompaction(items)
    ensures ModelItems(items) == items && LatestWindow(items).None?
    ensures ModelInput(Items(items)) == Items(items)
  {
    hide IsModelVisible;
    ModelItemsWithoutCompaction(items);
    VisibleOnly(items);
    assert LastCompaction(items).None?;
  }

  lemma {:induction false} FilteredHasNoCompaction(items: seq<InputItem>)
    requires !HasCompaction(items)
    ensures !HasCompaction(Visible(items))
  {
    hide IsModelVisible;
    if items != [] {
      assert !HasCompaction(items[1..]) by {
        assert forall k | 0 <= k < |items[1..]| :: items[1..][k] == items[k + 1];
      }
      FilteredHasNoCompaction(items[1..]);
    }
  }

  // ----- the compacted window -----

  predicate IsUserMessage(item: InputItem) {
    item.Message? && item.message.role == USER
  }

  /** The message as it stands in a compacted window: complete, under an id of the gateway's own. */
  function Retained(item: InputItem, id: string): InputItem
    requires item.Message?
  {
    Message(InputMessage(Some(id), item.message.role, Some(Completed), item.message.content))
  }

  predicate IsKept(window: Option<CompactionWindow>, index: nat, item: InputItem) {
    IsUserMessage(item)
      && (window.None? || window.value.latestIndex <= index || RetainsUserItem(window.value, index, item))
  }

  function RetainFrom(
      items: seq<InputItem>, window: Option<CompactionWindow>, freshId: nat -> string, from: nat): seq<InputItem>
    requires from <= |items|
    decreases |items| - from
  {
    if from == |items| then []
    else (if IsKept(window, from, items[from]) then [Retained(items[from], freshId(from))] else [])
         + RetainFrom(items, window, freshId, from + 1)
  }

  function RetainedUserWindow(items: seq<InputItem>, freshId: nat -> string): seq<InputItem> {
    RetainFrom(items, LatestWindow(items), freshId, 0)
  }

  function FinishCompactedWindow(retained: seq<InputItem>, summary: string, id: string): seq<InputItem> {
    retained + [CompactionItem(Compaction(Some(id), summary))]
  }

  /** What the user said, message by message. */
  function UserContents(items: seq<InputItem>): seq<MessageContent> {
    if items == [] then []
    else (if IsUserMessage(items[0]) then [items[0].message.content] else []) + UserContents(items[1..])
  }

  lemma {:induction false} UserContentsAppend(xs: seq<InputItem>, ys: seq<InputItem>)
    ensures UserContents(xs + ys) == UserContents(xs) + UserContents(ys)
  {
    hide IsUserMessage;
    if xs == [] {
      assert xs + ys == ys;
    } else {
      assert (xs + ys)[1..] == xs[1..] + ys;
      UserContentsAppend(xs[1..], ys);
      OneUserContent(xs[0]);
      ContentsAssociate(UserContents([xs[0]]), UserContents(xs[1..]), UserContents(ys));
    }
  }

  lemma ContentsAssociate(a: seq<MessageContent>, b: seq<MessageContent>, c: seq<MessageContent>)
    ensures a + (b + c) == a + b + c
  {
  }

  /** The user messages that are kept are exactly those the model was given, in order and word for word. */
  lemma {:induction false} RetainsWhatTheUserSaid(
      items: seq<InputItem>, window: Option<CompactionWindow>, freshId: nat -> string, from: nat)
    requires from <= |items|
    ensures UserContents(RetainFrom(items, window, freshId, from)) == UserContents(SelectFrom(items, window, from))
    ensures forall k | 0 <= k < |RetainFrom(items, window, freshId, from)| ::
      IsRetainedUser(RetainFrom(items, window, freshId, from)[k])
    decreases |items| - from
  {
    hide IsKept, InWindow, UserContents, IsRetainedUser, Retained;
    if from < |items| {
      RetainsWhatTheUserSaid(items, window, freshId, from + 1);
      var item := items[from];
      KeptAsSelected(window, from, item, freshId(from));
      var kept := if IsKept(window, from, item) then [Retained(item, freshId(from))] else [];
      var selected := if InWindow(window, from, item) then [item] else [];
      UserContentsAppend(kept, RetainFrom(items, window, freshId, from + 1));
      UserContentsAppend(selected, SelectFrom(items, window, from + 1));
    }
  }

  /** Each kept message stands for one of the items, in order, under the fresh id of that item's place. */
  ghost predicate StandFor(retained: seq<InputItem>, items: seq<InputItem>, freshId: nat -> string, at: seq<nat>) {
    && |at| == |retained|
    && (forall j, k | 0 <= j < k < |at| :: at[j] < at[k])
    && forall k | 0 <= k < |at| ::
         && at[k] < |items| && items[at[k]].Message?
         && retained[k] == Message(InputMessage(
              Some(freshId(at[k])), items[at[k]].message.role, Some(Completed), items[at[k]].message.content))
  }

  lemma {:induction false} RetainedStandFor(
      items: seq<InputItem>, window: Option<CompactionWindow>, freshId: nat -> string, from: nat)
    returns (at: seq<nat>)
    requires from <= |items|
    ensures StandFor(RetainFrom(items, window, freshId, from), items, freshId, at)
    ensures forall k | 0 <= k < |at| :: from <= at[k]
    decreases |items| - from
  {
    hide IsKept, StandFor, Retained;
    NothingStands(items, freshId);
    if from == |items| {
      at := [];
    } else {
      at := RetainedStandFor(items, window, freshId, from + 1);
      KeptIsMessage(window, from, items[from]);
      var rest := RetainFrom(items, window, freshId, from + 1);
      if IsKept(window, from, items[from]) {
        OneMoreStands(rest, items, freshId, at, from);
        at := [from] + at;
      } else {
        assert [] + rest == rest;
      }
    }
  }

  lemma NothingStands(items: seq<InputItem>, freshId: nat -> string)
    ensures StandFor([], items, freshId, [])
  {
  }

  lemma OneMoreStands(
      retained: seq<InputItem>, items: seq<InputItem>, freshId: nat -> string, at: seq<nat>, i: nat)
    requires StandFor(retained, items, freshId, at) && i < |items| && items[i].Message?
    requires forall k | 0 <= k < |at| :: i < at[k]
    ensures StandFor([Retained(items[i], freshId(i))] + retained, items, freshId, [i] + at)
  {
  }

  lemma KeptIsMessage(window: Option<CompactionWindow>, index: nat, item: InputItem)
    ensures IsKept(window, index, item) ==> item.Message?
  {
  }

  lemma KeptAsSelected(window: Option<CompactionWindow>, index: nat, item: InputItem, id: string)
    ensures IsKept(window, index, item) ==> item.Message? && IsRetainedUser(Retained(item, id))
    ensures UserContents(if IsKept(window, index, item) then [Retained(item, id)] else []) ==
            UserContents(if InWindow(window, index, item) then [item] else [])
  {
    hide UserContents, USER, RetainsUserItem;
    OneUserContent(item);
    if item.Message? {
      OneUserContent(Retained(item, id));
    }
    NoContent();
  }

  lemma NoContent()
    ensures UserContents([]) == []
  {
  }

  lemma OneUserContent(item: InputItem)
    ensures UserContents([item]) == if IsUserMessage(item) then [item.message.content] else []
  {
    hide IsUserMessage;
    assert [item][1..] == [];
  }

  lemma {:induction false} AllRetained(items: seq<InputItem>)
    requires forall k | 0 <= k < |items| :: IsRetainedUser(items[k])
    ensures RetainedUsers(items) == items && !HasCompaction(items)
  {
    hide USER;
    if items != [] {
      assert forall k | 0 <= k < |items[1..]| :: items[1..][k] == items[k + 1];
      AllRetained(items[1..]);
    }
  }

  /** A compacted window is the whole context from then on: the model is given all of it, and all that is
      visible of what follows, until the next compaction; and what the user had said in the replaced context
      is all there. */
  lemma CompactedWindowIsContext(
      items: seq<InputItem>, freshId: nat -> string, summary: string, id: string, more: seq<InputItem>)
    requires !HasCompaction(more)
    ensures var compacted := FinishCompactedWindow(RetainedUserWindow(items, freshId), summary, id);
      && ModelItems(compacted + more) == compacted + Visible(more)
      && UserContents(compacted) == UserContents(ModelItems(items))
  {
    hide IsRetainedUser, IsModelVisible, IsUserMessage, HasCompaction, ModelItems;
    var retained := RetainedUserWindow(items, freshId);
    var latest := CompactionItem(Compaction(Some(id), summary));
    RetainsWhatTheUserSaid(items, LatestWindow(items), freshId, 0);
    AllRetained(retained);
    ModelItemsAroundCompaction([], retained, latest, more);
    assert [] + retained + [latest] + more == retained + [latest] + more;
    UserContentsAppend(retained, [latest]);
    CheckpointIsNoUserMessage(latest);
    OneUserContent(latest);
    ModelItemsAre(items);
  }

  lemma CheckpointIsNoUserMessage(item: InputItem)
    requires item.CompactionItem?
    ensures !IsUserMessage(item)
  {
  }

  lemma ModelItemsAre(items: seq<InputItem>)
    ensures ModelItems(items) == SelectFrom(items, LatestWindow(items), 0)
  {
  }

  /** Compacting again keeps what the user had said before and has said since. */
  lemma CompactingAgainKeepsTheUser(
    items: seq<InputItem>, freshId: nat -> string, summary: string, id: string, more: seq<InputItem>,
    laterId: nat -> string)
    requires !HasCompaction(more)
    ensures var compacted := FinishCompactedWindow(RetainedUserWindow(items, freshId), summary, id);
      UserContents(RetainedUserWindow(compacted + more, laterId))
        == UserContents(ModelItems(items)) + UserContents(Visible(more))
  {
    hide ModelItems, UserContents, HasCompaction, Visible;
    var compacted := FinishCompactedWindow(RetainedUserWindow(items, freshId), summary, id);
    CompactedWindowIsContext(items, freshId, summary, id, more);
    RetainsWhatTheUserSaid(compacted + more, LatestWindow(compacted + more), laterId, 0);
    ModelItemsAre(compacted + more);
    UserContentsAppend(compacted, Visible(more));
  }

  // ----- restoring a session -----

  predicate IsCanonical(window: CompactionWindow, index: nat, item: InputItem) {
    window.latestIndex <= index || RetainsUserItem(window, index, item) || item.McpListing?
  }

  function CanonicalFrom(items: seq<InputItem>, window: CompactionWindow, from: nat): seq<InputItem>
    requires from <= |items|
    decreases |items| - from
  {
    if from == |items| then []
    else (if IsCanonical(window, from, items[from]) then [items[from]] else []) + CanonicalFrom(items, window, from + 1)
  }

  /** What a session restores from a stored chain: the current window, and every MCP listing. */
  function CanonicalSessionHistory(items: seq<InputItem>): seq<InputItem> {
    match LatestWindow(items)
    case None => items
    case Some(window) => CanonicalFrom(items, window, 0)
  }

  predicate IsListing(item: InputItem) {
    item.McpListing?
  }

  predicate IsRetainedOrListing(item: InputItem) {
    IsRetainedUser(item) || IsListing(item)
  }

  predicate Always(item: InputItem) {
    true
  }

  lemma {:induction false} CanonicalIsFilter(
      items: seq<InputItem>, window: CompactionWindow, from: nat, upTo: nat, keep: InputItem -> bool)
    requires from <= upTo <= |items|
    requires forall k | from <= k < upTo :: IsCanonical(window, k, items[k]) <==> keep(items[k])
    ensures CanonicalFrom(items, window, from) == Filter(keep, items[from..upTo]) + CanonicalFrom(items, window, upTo)
    decreases upTo - from
  {
    hide IsCanonical, Filter;
    if from < upTo {
      CanonicalIsFilter(items, window, from + 1, upTo, keep);
      FilterHead(keep, items, from, upTo);
      var head: seq<InputItem> := if keep(items[from]) then [items[from]] else [];
      assert head + (Filter(keep, items[from + 1..upTo]) + CanonicalFrom(items, window, upTo)) ==
             head + Filter(keep, items[from + 1..upTo]) + CanonicalFrom(items, window, upTo);
    } else {
      FilterNone(keep);
      assert items[from..upTo] == [] && [] + CanonicalFrom(items, window, upTo) == CanonicalFrom(items, window, upTo);
    }
  }

  lemma FilterNone(keep: InputItem -> bool)
    ensures Filter(keep, []) == []
  {
  }

  lemma FilterHead(keep: InputItem -> bool, items: seq<InputItem>, from: nat, upTo: nat)
    requires from < upTo <= |items|
    ensures Filter(keep, items[from..upTo])
      == (if keep(items[from]) then [items[from]] else []) + Filter(keep, items[from + 1..upTo])
  {
    assert items[from..upTo][1..] == items[from + 1..upTo];
  }

  lemma {:induction false} KeptIsUncompacted(items: seq<InputItem>)
    requires !HasCompaction(items)
    ensures var kept := Filter(IsRetainedOrListing, items);
      !HasCompaction(kept) && RetainedUsers(kept) == RetainedUsers(items)
  {
    hide IsRetainedUser;
    if items != [] {
      assert !HasCompaction(items[1..]) by {
        assert forall k | 0 <= k < |items[1..]| :: items[1..][k] == items[k + 1];
      }
      KeptIsUncompacted(items[1..]);
      var head := if IsRetainedOrListing(items[0]) then [items[0]] else [];
      FilterAppend(IsRetainedUser, head, Filter(IsRetainedOrListing, items[1..]));
      ListingIsNoUser(items[0]);
      assert [] + RetainedUsers(items[1..]) == RetainedUsers(items[1..]);
    }
  }

  lemma ListingIsNoUser(item: InputItem)
    ensures IsListing(item) ==> !IsRetainedUser(item) && !item.CompactionItem?
  {
  }

  lemma {:induction false} ListingsAreNothing(items: seq<InputItem>)
    ensures var kept := Filter(IsListing, items); !HasCompaction(kept) && RetainedUsers(kept) == []
  {
    hide IsRetainedUser;
    if items != [] {
      ListingsAreNothing(items[1..]);
      ListingIsNoUser(items[0]);
    }
  }

  lemma {:induction false} AlwaysKeepsAll(items: seq<InputItem>)
    ensures Filter(Always, items) == items
  {
    if items != [] {
      AlwaysKeepsAll(items[1..]);
    }
  }

  /** Restoring only the canonical window changes nothing for the model. */
  lemma RestoredSessionIsTheSameContext(items: seq<InputItem>)
    ensures ModelItems(CanonicalSessionHistory(items)) == ModelItems(items)
  {
    hide IsRetainedUser, IsModelVisible, ModelItems, HasCompaction, LatestWindow, Filter, CanonicalFrom,
      IsRetainedOrListing;
    match LatestWindow(items)
    case None =>
    case Some(window) =>
      var n, m := window.retainedStart, window.latestIndex;
      WindowParts(items, window);
      var stale, between, after := items[..n], items[n..m], items[m + 1..];
      CanonicalParts(items, window);
      KeptIsUncompacted(between);
      ListingsAreNothing(stale);
      var kept := Filter(IsListing, stale) + Filter(IsRetainedOrListing, between);
      FilterAppend(IsRetainedUser, Filter(IsListing, stale), Filter(IsRetainedOrListing, between));
      assert RetainedUsers(kept) == RetainedUsers(between);
      UncompactedAppend(Filter(IsListing, stale), Filter(IsRetainedOrListing, between));
      ModelItemsAroundCompaction([], kept, items[m], after);
      ModelItemsAroundCompaction(stale, between, items[m], after);
      assert [] + kept + [items[m]] + after == kept + [items[m]] + after;
      assert items == stale + between + [items[m]] + after;
  }

  lemma UncompactedAppend(xs: seq<InputItem>, ys: seq<InputItem>)
    requires !HasCompaction(xs) && !HasCompaction(ys)
    ensures !HasCompaction(xs + ys)
  {
  }

  lemma WindowParts(items: seq<InputItem>, window: CompactionWindow)
    requires LatestWindow(items) == Some(window)
    ensures window.retainedStart <= window.latestIndex < |items| && items[window.latestIndex].CompactionItem?
    ensures window.retainedStart > 0 ==> items[window.retainedStart - 1].CompactionItem?
    ensures !HasCompaction(items[window.retainedStart..window.latestIndex])
      && !HasCompaction(items[window.latestIndex + 1..])
  {
    hide LastCompaction;
  }

  lemma CanonicalParts(items: seq<InputItem>, window: CompactionWindow)
    requires window.retainedStart <= window.latestIndex < |items|
    ensures CanonicalFrom(items, window, 0) ==
      Filter(IsListing, items[..window.retainedStart])
        + Filter(IsRetainedOrListing, items[window.retainedStart..window.latestIndex])
      + [items[window.latestIndex]] + items[window.latestIndex + 1..]
  {
    hide IsRetainedUser, Filter, IsCanonical, IsRetainedOrListing;
    var n, m := window.retainedStart, window.latestIndex;
    WhichAreCanonical(items, window);
    CanonicalIsFilter(items, window, 0, n, IsListing);
    CanonicalIsFilter(items, window, n, m, IsRetainedOrListing);
    CanonicalIsFilter(items, window, m, |items|, Always);
    AlwaysKeepsAll(items[m..|items|]);
    FourParts(items, n, m, Filter(IsListing, items[0..n]), Filter(IsRetainedOrListing, items[n..m]));
  }

  lemma FourParts(items: seq<InputItem>, n: nat, m: nat, a: seq<InputItem>, b: seq<InputItem>)
    requires n <= m < |items|
    ensures items[0..n] == items[..n]
    ensures a + (b + (items[m..|items|] + [])) == a + b + [items[m]] + items[m + 1..]
  {
    assert items[m..|items|] == [items[m]] + items[m + 1..];
  }

  lemma WhichAreCanonical(items: seq<InputItem>, window: CompactionWindow)
    requires window.retainedStart <= window.latestIndex < |items|
    ensures forall k | 0 <= k < window.retainedStart :: IsCanonical(window, k, items[k]) <==> IsListing(items[k])
    ensures forall k | window.retainedStart <= k < window.latestIndex ::
      IsCanonical(window, k, items[k]) <==> IsRetainedOrListing(items[k])
    ensures forall k | window.latestIndex <= k < |items| :: IsCanonical(window, k, items[k]) <==> Always(items[k])
  {
    hide IsRetainedUser;
  }

  // ----- summarizing -----

  function TrimStart(text: string): string {
    if text != "" && IsWhitespace(text[0]) then TrimStart(text[1..]) else text
  }

  function TrimEnd(text: string): string {
    if text != "" && IsWhitespace(text[|text| - 1]) then TrimEnd(text[..|text| - 1]) else text
  }

  function Trim(text: string): string {
    TrimEnd(TrimStart(text))
  }

  predicate ValueHasContent(value: Json)
    decreases value
  {
    match value
    case Null => false
    case Text(text) => !IsBlank(text)
    case List(items) => AnyHasContent(items)
    case Object(fields) => AnyFieldHasContent(fields)
    case _ => true
  }

  predicate AnyHasContent(items: seq<Json>)
    decreases items
  {
    items != [] && (ValueHasContent(items[0]) || AnyHasContent(items[1..]))
  }

  predicate AnyFieldHasContent(fields: Fields)
    decreases fields
  {
    fields != [] && (FieldHasContent(fields[0]) || AnyFieldHasContent(fields[1..]))
  }

  predicate FieldHasContent(field: Field)
    decreases field
  {
    ValueHasContent(field.value)
  }

  predicate PartIsMeaningful(part: ContentPart) {
    match part
    case InputText(text) => !IsBlank(text)
    case OutputText(text) => !IsBlank(text)
    case ReasoningText(text) => !IsBlank(text)
    case InputImage(image) => image.imageUrl.Some? && !IsBlank(image.imageUrl.value)
    case InputFile(_) => false
    case UnknownPart => false
  }

  predicate OutputHasContent(output: ToolCallOutput) {
    match output
    case TextOutput(text) => !IsBlank(text)
    case ContentOutput(parts) => parts != []
  }

  predicate IsMeaningful(item: InputItem) {
    match item
    case Message(m) =>
      (match m.content
       case PlainText(text) => !IsBlank(text)
       case Parts(parts) => exists k :: 0 <= k < |parts| && PartIsMeaningful(parts[k]))
    case FunctionCall(call) => !IsBlank(call.name) || !IsBlank(call.arguments)
    case FunctionCallOutput(_, output) => OutputHasContent(output)
    case SearchCall(call) => !IsBlank(call.callId) || ValueHasContent(call.arguments)
    case SearchOutput(callId, tools) => !IsBlank(callId) || tools != []
    case CustomCall(call) => !IsBlank(call.name) || !IsBlank(call.input)
    case CustomOutput(_, _, output) => OutputHasContent(output)
    case Shell(call) => call.commands != []
    case ShellOutput(output) => output.results > 0
    case ReasoningItem(r) =>
      (exists k :: 0 <= k < |r.texts| && !IsBlank(r.texts[k])) || AnyHasContent(r.summary)
      || (r.encryptedContent.Some? && ValueHasContent(r.encryptedContent.value))
    case CompactionItem(compaction) => !IsBlank(compaction.encryptedContent)
    case McpListing(_) => false
    case CompactionTrigger => false
    case UnknownInput => false
  }

  predicate HasMeaning(items: seq<InputItem>) {
    exists k :: 0 <= k < |items| && IsMeaningful(items[k])
  }

  // ----- what there is to summarize -----

  function OptionalText(text: Option<string>): seq<string> {
    if text.Some? then [text.value] else []
  }

  function PartTexts(parts: seq<ContentPart>): seq<string> {
    if parts == [] then [] else PartText(parts[0]) + PartTexts(parts[1..])
  }

  function PartText(part: ContentPart): seq<string> {
    match part
    case InputText(text) => [text]
    case OutputText(text) => [text]
    case ReasoningText(text) => [text]
    case InputImage(image) => OptionalText(image.imageUrl)
    case _ => []
  }

  /** The texts within a JSON value, keys left out; a number or a truth value counts as a text of its own. */
  function JsonTexts(value: Json): seq<string>
    decreases value
  {
    match value
    case Null => []
    case Text(text) => [text]
    case List(items) => ListTexts(items)
    case Object(fields) => FieldTexts(fields)
    case _ => ["value"]
  }

  function ListTexts(items: seq<Json>): seq<string>
    decreases items
  {
    if items == [] then [] else JsonTexts(items[0]) + ListTexts(items[1..])
  }

  function FieldTexts(fields: Fields): seq<string>
    decreases fields
  {
    if fields == [] then [] else FieldText(fields[0]) + FieldTexts(fields[1..])
  }

  function FieldText(field: Field): seq<string>
    decreases field
  {
    JsonTexts(field.value)
  }

  /** The texts that give an item a meaning. */
  function MeaningTexts(item: InputItem): seq<string> {
    match item
    case Message(m) => if m.content.PlainText? then [m.content.text] else PartTexts(m.content.parts)
    case FunctionCall(call) => [call.name, call.arguments]
    case FunctionCallOutput(_, output) => if output.TextOutput? then [output.text] else []
    case SearchCall(call) => [call.callId] + JsonTexts(call.arguments)
    case SearchOutput(callId, _) => [callId]
    case CustomCall(call) => [call.name, call.input]
    case CustomOutput(_, _, output) => if output.TextOutput? then [output.text] else []
    case ReasoningItem(r) =>
      r.texts + ListTexts(r.summary) + (if r.encryptedContent.Some? then JsonTexts(r.encryptedContent.value) else [])
    case CompactionItem(compaction) => [compaction.encryptedContent]
    case _ => []
  }

  /** Parts of an output, tools found, shell commands and their results have a meaning whatever they say. */
  predicate HasContents(item: InputItem) {
    match item
    case FunctionCallOutput(_, ContentOutput(parts)) => parts != []
    case CustomOutput(_, _, ContentOutput(parts)) => parts != []
    case SearchOutput(_, tools) => tools != []
    case Shell(call) => call.commands != []
    case ShellOutput(output) => output.results > 0
    case _ => false
  }

  predicate SaysSomething(texts: seq<string>) {
    exists k :: 0 <= k < |texts| && !IsBlank(texts[k])
  }

  lemma SaysSomethingAppend(xs: seq<string>, ys: seq<string>)
    ensures SaysSomething(xs + ys) <==> SaysSomething(xs) || SaysSomething(ys)
  {
    hide IsBlank;
    assert forall k | 0 <= k < |xs| :: (xs + ys)[k] == xs[k];
    assert forall k | 0 <= k < |ys| :: (xs + ys)[|xs| + k] == ys[k];
  }

  lemma OneText(text: string)
    ensures SaysSomething([text]) <==> !IsBlank(text)
    ensures !SaysSomething([])
  {
    hide IsBlank;
    assert [text][0] == text;
  }

  lemma {:induction false} PartsSay(parts: seq<ContentPart>)
    ensures SaysSomething(PartTexts(parts)) <==> exists k :: 0 <= k < |parts| && PartIsMeaningful(parts[k])
  {
    hide IsBlank, SaysSomething;
    OneText("");
    if parts != [] {
      PartsSay(parts[1..]);
      SaysSomethingAppend(PartText(parts[0]), PartTexts(parts[1..]));
      PartSays(parts[0]);
      assert forall k | 0 < k < |parts| :: parts[k] == parts[1..][k - 1];
    }
  }

  lemma PartSays(part: ContentPart)
    ensures SaysSomething(PartText(part)) <==> PartIsMeaningful(part)
  {
    hide IsBlank, SaysSomething;
    OneText("");
    match part
    case InputText(text) => OneText(text);
    case OutputText(text) => OneText(text);
    case ReasoningText(text) => OneText(text);
    case InputImage(image) =>
      if image.imageUrl.Some? {
        OneText(image.imageUrl.value);
      }
    case _ =>
  }

  lemma {:induction false} JsonSays(value: Json)
    ensures SaysSomething(JsonTexts(value)) <==> ValueHasContent(value)
    decreases value
  {
    hide IsBlank, SaysSomething;
    OneText("");
    match value
    case Text(text) => OneText(text);
    case List(items) => ListSays(items);
    case Object(fields) => FieldsSay(fields);
    case Null =>
    case _ =>
      OneText("value");
      NotBlank();
  }

  lemma NotBlank()
    ensures !IsBlank("value")
  {
    assert !IsWhitespace("value"[0]);
  }

  lemma {:induction false} ListSays(items: seq<Json>)
    ensures SaysSomething(ListTexts(items)) <==> AnyHasContent(items)
    decreases items
  {
    hide SaysSomething;
    OneText("");
    if items != [] {
      JsonSays(items[0]);
      ListSays(items[1..]);
      SaysSomethingAppend(JsonTexts(items[0]), ListTexts(items[1..]));
    }
  }

  lemma {:induction false} FieldsSay(fields: Fields)
    ensures SaysSomething(FieldTexts(fields)) <==> AnyFieldHasContent(fields)
    decreases fields
  {
    hide SaysSomething;
    OneText("");
    if fields != [] {
      FieldSays(fields[0]);
      FieldsSay(fields[1..]);
      SaysSomethingAppend(FieldText(fields[0]), FieldTexts(fields[1..]));
    }
  }

  lemma {:induction false} FieldSays(field: Field)
    ensures SaysSomething(FieldText(field)) <==> FieldHasContent(field)
    decreases field
  {
    hide SaysSomething;
    JsonSays(field.value);
  }

  /** An item has a meaning exactly when one of its texts is not blank, or it has contents of another kind. */
  lemma MeaningIsInTexts(item: InputItem)
    ensures IsMeaningful(item) <==> SaysSomething(MeaningTexts(item)) || HasContents(item)
  {
    hide IsBlank, SaysSomething, ValueHasContent, AnyHasContent, PartIsMeaningful;
    OneText("");
    match item {
      case Message(m) =>
        if m.content.PlainText? {
          OneText(m.content.text);
        } else {
          PartsSay(m.content.parts);
        }
      case FunctionCall(call) => TwoTexts(call.name, call.arguments);
      case FunctionCallOutput(_, output) =>
        if output.TextOutput? {
          OneText(output.text);
        }
      case SearchCall(call) =>
        OneText(call.callId);
        JsonSays(call.arguments);
        SaysSomethingAppend([call.callId], JsonTexts(call.arguments));
      case SearchOutput(callId, _) => OneText(callId);
      case CustomCall(call) => TwoTexts(call.name, call.input);
      case CustomOutput(_, _, output) =>
        if output.TextOutput? {
          OneText(output.text);
        }
      case ReasoningItem(r) => ReasoningSays(r);
      case CompactionItem(compaction) => OneText(compaction.encryptedContent);
      case _ =>
    }
  }

  lemma TwoTexts(a: string, b: string)
    ensures SaysSomething([a, b]) <==> !IsBlank(a) || !IsBlank(b)
  {
    hide IsBlank, SaysSomething;
    OneText(a);
    OneText(b);
    SaysSomethingAppend([a], [b]);
    assert [a] + [b] == [a, b];
  }

  lemma ReasoningSays(r: Reasoning)
    ensures IsMeaningful(ReasoningItem(r)) <==> SaysSomething(MeaningTexts(ReasoningItem(r)))
  {
    hide IsBlank, ValueHasContent, AnyHasContent;
    OneText("");
    ListSays(r.summary);
    var encrypted := if r.encryptedContent.Some? then JsonTexts(r.encryptedContent.value) else [];
    if r.encryptedContent.Some? {
      JsonSays(r.encryptedContent.value);
    }
    SaysSomethingAppend(r.texts + ListTexts(r.summary), encrypted);
    SaysSomethingAppend(r.texts, ListTexts(r.summary));
  }

  /** The answer to the summarization request. */
  datatype SummaryResponse = SummaryResponse(
    status: string, failed: bool, output: seq<OutputItem>, usage: Option<ResponseUsage>)

  datatype CompactionError = NothingToCompact | Upstream | NoUsableSummary

  function JoinLines(lines: seq<string>): string {
    if lines == [] then "" else if |lines| == 1 then lines[0] else lines[0] + "\n" + JoinLines(lines[1..])
  }

  function TrimmedTexts(texts: seq<string>): seq<string> {
    if texts == [] then []
    else (if IsBlank(texts[0]) then [] else [Trim(texts[0])]) + TrimmedTexts(texts[1..])
  }

  function MessageTexts(output: seq<OutputItem>): seq<string> {
    if output == [] then []
    else (if output[0].OutMessage? then TrimmedTexts(output[0].outMessage.texts) else []) + MessageTexts(output[1..])
  }

  function SummaryText(response: SummaryResponse): Option<string> {
    if response.status != "completed" || response.failed || MessageTexts(response.output) == [] then None
    else Some(JoinLines(MessageTexts(response.output)))
  }

  // ----- what a summary says -----

  /** Everything the assistant said, text by text. */
  function AssistantTexts(output: seq<OutputItem>): seq<string> {
    if output == [] then []
    else (if output[0].OutMessage? then output[0].outMessage.texts else []) + AssistantTexts(output[1..])
  }

  /** `core` is `text` without the white space around it. */
  ghost predicate IsCore(core: string, text: string) {
    && core != "" && !IsWhitespace(core[0]) && !IsWhitespace(core[|core| - 1])
    && exists before: string, after: string :: IsBlank(before) && IsBlank(after) && text == before + core + after
  }

  /** `cores` are those of the texts that are not blank, in order. */
  ghost predicate AreCores(cores: seq<string>, texts: seq<string>)
    decreases |texts|
  {
    if texts == [] then cores == []
    else if IsBlank(texts[0]) then AreCores(cores, texts[1..])
    else cores != [] && IsCore(cores[0], texts[0]) && AreCores(cores[1..], texts[1..])
  }

  /** The first `n` lines, each but the first on a new line. */
  function Lines(lines: seq<string>, n: nat): string
    requires 0 < n <= |lines|
  {
    if n == 1 then lines[0] else Lines(lines, n - 1) + "\n" + lines[n - 1]
  }

  ghost predicate HasSummary(response: SummaryResponse) {
    var texts := AssistantTexts(response.output);
    response.status == "completed" && !response.failed && exists k :: 0 <= k < |texts| && !IsBlank(texts[k])
  }

  ghost predicate IsSummaryOf(text: string, response: SummaryResponse) {
    exists cores: seq<string> ::
      cores != [] && AreCores(cores, AssistantTexts(response.output)) && text == Lines(cores, |cores|)
  }

  /** A completed answer with any text has a summary: its texts in order, without surrounding white space and
      without blank ones, line by line. */
  lemma SummaryIsWhatWasSaid(response: SummaryResponse)
    ensures SummaryText(response).Some? <==> HasSummary(response)
    ensures SummaryText(response).Some? ==> IsSummaryOf(SummaryText(response).value, response)
  {
    hide IsBlank, Lines, JoinLines, TrimmedTexts;
    MessageTextsAreTrimmed(response.output);
    TrimmedTextsAreCores(AssistantTexts(response.output));
    if MessageTexts(response.output) != [] {
      JoinedInLines(MessageTexts(response.output));
    }
  }

  lemma {:induction false} MessageTextsAreTrimmed(output: seq<OutputItem>)
    ensures MessageTexts(output) == TrimmedTexts(AssistantTexts(output))
  {
    hide TrimmedTexts;
    NothingTrimmed();
    if output != [] {
      MessageTextsAreTrimmed(output[1..]);
      TrimmedTextsAppend(if output[0].OutMessage? then output[0].outMessage.texts else [], AssistantTexts(output[1..]));
    }
  }

  lemma NothingTrimmed()
    ensures TrimmedTexts([]) == []
  {
  }

  lemma {:induction false} TrimmedTextsAppend(xs: seq<string>, ys: seq<string>)
    ensures TrimmedTexts(xs + ys) == TrimmedTexts(xs) + TrimmedTexts(ys)
  {
    hide IsBlank, Trim;
    if xs == [] {
      assert xs + ys == ys;
    } else {
      assert (xs + ys)[1..] == xs[1..] + ys;
      TrimmedTextsAppend(xs[1..], ys);
    }
  }

  lemma {:induction false} TrimmedTextsAreCores(texts: seq<string>)
    ensures AreCores(TrimmedTexts(texts), texts)
    ensures TrimmedTexts(texts) != [] <==> exists k :: 0 <= k < |texts| && !IsBlank(texts[k])
  {
    hide IsBlank, Trim, IsCore;
    if texts != [] {
      TrimmedTextsAreCores(texts[1..]);
      if IsBlank(texts[0]) {
        assert [] + TrimmedTexts(texts[1..]) == TrimmedTexts(texts[1..]);
        assert forall k | 0 < k < |texts| :: texts[k] == texts[1..][k - 1];
      } else {
        TrimIsCore(texts[0]);
      }
    }
  }

  lemma TrimIsCore(text: string)
    requires !IsBlank(text)
    ensures IsCore(Trim(text), text)
  {
    hide IsWhitespace;
    var before := TrimStartCuts(text);
    var after := TrimEndCuts(TrimStart(text));
    assert text == before + Trim(text) + after;
  }

  lemma {:induction false} TrimStartCuts(text: string) returns (before: string)
    requires !IsBlank(text)
    ensures IsBlank(before) && text == before + TrimStart(text)
    ensures TrimStart(text) != "" && !IsWhitespace(TrimStart(text)[0])
  {
    hide IsWhitespace;
    before := "";
    if IsWhitespace(text[0]) {
      assert text == [text[0]] + text[1..];
      var rest := TrimStartCuts(text[1..]);
      before := [text[0]] + rest;
      assert before + TrimStart(text) == [text[0]] + (rest + TrimStart(text[1..]));
    }
  }

  lemma {:induction false} TrimEndCuts(text: string) returns (after: string)
    requires text != "" && !IsWhitespace(text[0])
    ensures IsBlank(after) && text == TrimEnd(text) + after
    ensures TrimEnd(text) != "" && TrimEnd(text)[0] == text[0] && !IsWhitespace(TrimEnd(text)[|TrimEnd(text)| - 1])
  {
    hide IsWhitespace;
    after := "";
    var last := text[|text| - 1];
    if IsWhitespace(last) {
      assert text == text[..|text| - 1] + [last];
      var rest := TrimEndCuts(text[..|text| - 1]);
      after := rest + [last];
      assert TrimEnd(text) + after == TrimEnd(text[..|text| - 1]) + rest + [last];
    }
  }

  lemma {:induction false} JoinedInLines(lines: seq<string>)
    requires lines != []
    ensures JoinLines(lines) == Lines(lines, |lines|)
  {
    if |lines| > 1 {
      JoinedInLines(lines[1..]);
      LinesAfterFirst(lines, |lines|);
    }
  }

  lemma {:induction false} LinesAfterFirst(lines: seq<string>, n: nat)
    requires 1 < n <= |lines|
    ensures Lines(lines, n) == lines[0] + "\n" + Lines(lines[1..], n - 1)
  {
    if n > 2 {
      LinesAfterFirst(lines, n - 1);
      assert lines[0] + "\n" + Lines(lines[1..], n - 2) + "\n" + lines[n - 1]
        == lines[0] + "\n" + (Lines(lines[1..], n - 2) + "\n" + lines[n - 1]);
    }
  }

  /** Fresh ids for the messages kept, by their position, and for the checkpoint. */
  datatype FreshIds = FreshIds(message: nat -> string, checkpoint: string)

  /** `reply` answers the summarization request, if it is made. */
  function CompactItems(input: ResponsesInput, reply: Result<SummaryResponse, ()>, ids: FreshIds)
    : Result<(seq<InputItem>, ResponseUsage), CompactionError>
  {
    var items := AsItems(input);
    if !HasMeaning(items) then Failure(NothingToCompact)
    else
      match reply
      case Failure(_) => Failure(Upstream)
      case Success(response) =>
        match SummaryText(response)
        case None => Failure(NoUsableSummary)
        case Some(summary) =>
          Success((FinishCompactedWindow(RetainedUserWindow(items, ids.message), summary, ids.checkpoint),
                   if response.usage.Some? then response.usage.value else NO_USAGE))
  }

  // ----- the request's histories -----

  /** A session's record of how its history is to be stored. */
  datatype Continuation = Continuation(historyReplaced: bool, recordedOutputs: nat)

  datatype ContextManagement = ContextManagement(kind: string, compactThreshold: Option<nat>)

  function CompactThreshold(entries: seq<ContextManagement>): Option<nat> {
    if entries == [] then None
    else if entries[0].kind == "compaction" then entries[0].compactThreshold
    else CompactThreshold(entries[1..])
  }

  /** `input` goes to the model, `newItems` to storage. */
  datatype Histories = Histories(input: ResponsesInput, newItems: seq<InputItem>, continuation: Option<Continuation>)

  function Replaced(h: Histories, compacted: seq<InputItem>): Histories {
    Histories(Items(compacted), compacted,
              if h.continuation.Some? then Some(Continuation(true, h.continuation.value.recordedOutputs)) else None)
  }

  function CompactedHistories(
      h: Histories, entries: seq<ContextManagement>, reply: Result<SummaryResponse, ()>, ids: FreshIds)
    : (Histories, Result<Option<ResponseUsage>, CompactionError>)
  {
    var threshold := CompactThreshold(entries);
    if threshold.None? || Estimate(h.input) <= threshold.value then (h, Success(None))
    else
      match CompactItems(h.input, reply, ids)
      case Failure(e) => (Histories(Items([]), h.newItems, h.continuation), Failure(e))
      case Success((compacted, usage)) => (Replaced(h, compacted), Success(Some(usage)))
  }

  class RequestContext {
    var input: ResponsesInput
    var newItems: seq<InputItem>
    var continuation: Option<Continuation>
    const namedConversation: bool
    const management: seq<ContextManagement>

    constructor (input: ResponsesInput, newItems: seq<InputItem>, continuation: Option<Continuation>,
                 namedConversation: bool, management: seq<ContextManagement>)
      ensures Value() == Histories(input, newItems, continuation)
      ensures this.namedConversation == namedConversation && this.management == management
    {
      this.input := input;
      this.newItems := newItems;
      this.continuation := continuation;
      this.namedConversation := namedConversation;
      this.management := management;
    }

    function Value(): Histories
      reads this
    {
      Histories(input, newItems, continuation)
    }

    method MaybeCompactContext(reply: Result<SummaryResponse, ()>, ids: FreshIds)
      returns (r: Result<Option<ResponseUsage>, CompactionError>)
      modifies this
      ensures (Value(), r) == CompactedHistories(old(Value()), management, reply, ids)
      ensures r == Success(None) ==> Value() == old(Value())
      ensures r.Failure? ==> Value() == old(Value()).(input := Items([]))
      ensures r.Success? && r.value.Some? ==>
        input == Items(newItems) && EndsInSummary(newItems, reply.value, ids.checkpoint)
    {
      CompactionOutcome(Value(), management, reply, ids);
      hide EndsInSummary, CompactItems, AsItems, CompactThreshold, Estimate;
      var threshold := CompactThreshold(management);
      if threshold.None? {
        return Success(None);
      }
      var estimated := EstimateInputTokens(input);
      if estimated <= threshold.value {
        return Success(None);
      }
      var taken := input;
      input := Items([]);
      match CompactItems(taken, reply, ids) {
        case Failure(e) => return Failure(e);
        case Success((compacted, usage)) =>
          input := Items(compacted);
          newItems := compacted;
          if continuation.Some? {
            continuation := Some(Continuation(true, continuation.value.recordedOutputs));
          }
          return Success(Some(usage));
      }
    }
  }

  /** Nothing but user messages, and then one checkpoint that holds the summary. */
  ghost predicate EndsInSummary(items: seq<InputItem>, response: SummaryResponse, checkpoint: string) {
    && items != []
    && (forall k | 0 <= k < |items| - 1 :: IsRetainedUser(items[k]))
    && var last := items[|items| - 1];
       last.CompactionItem? && last.compaction.id == Some(checkpoint)
       && IsSummaryOf(last.compaction.encryptedContent, response)
  }

  lemma CompactionOutcome(
      h: Histories, entries: seq<ContextManagement>, reply: Result<SummaryResponse, ()>, ids: FreshIds)
    ensures var (after, r) := CompactedHistories(h, entries, reply, ids);
      && (r == Success(None) ==> after == h)
      && (r.Failure? ==> after == h.(input := Items([])))
      && (r.Success? && r.value.Some? ==>
            after.input == Items(after.newItems) && EndsInSummary(after.newItems, reply.value, ids.checkpoint))
  {
    hide CompactedHistories, EndsInSummary, HasMeaning, HasSummary, Estimate;
    CompactionReplacesBothHistories(h, entries, reply, ids);
  }

  lemma WindowEndsInSummary(items: seq<InputItem>, ids: FreshIds, response: SummaryResponse, text: string)
    requires IsSummaryOf(text, response)
    ensures EndsInSummary(
      FinishCompactedWindow(RetainedUserWindow(items, ids.message), text, ids.checkpoint), response, ids.checkpoint)
  {
    hide IsRetainedUser, IsSummaryOf;
    RetainsWhatTheUserSaid(items, LatestWindow(items), ids.message, 0);
  }

  ghost predicate AllStandFor(retained: seq<InputItem>, items: seq<InputItem>, freshId: nat -> string) {
    exists at: seq<nat> :: StandFor(retained, items, freshId, at)
  }

  lemma WindowStandsFor(items: seq<InputItem>, ids: FreshIds, text: string)
    ensures var window := FinishCompactedWindow(RetainedUserWindow(items, ids.message), text, ids.checkpoint);
      window != [] && AllStandFor(window[..|window| - 1], items, ids.message)
  {
    hide StandFor;
    var at := RetainedStandFor(items, LatestWindow(items), ids.message, 0);
    var window := FinishCompactedWindow(RetainedUserWindow(items, ids.message), text, ids.checkpoint);
    assert window[..|window| - 1] == RetainedUserWindow(items, ids.message);
  }

  /** The first entry of the kind decides, also when it names no threshold. */
  lemma {:induction false} FirstEntryDecides(entries: seq<ContextManagement>, k: nat)
    requires k <= |entries| && forall j | 0 <= j < k :: entries[j].kind != "compaction"
    ensures k == |entries| ==> CompactThreshold(entries).None?
    ensures k < |entries| && entries[k].kind == "compaction" ==>
      CompactThreshold(entries) == entries[k].compactThreshold
  {
    if k > 0 {
      FirstEntryDecides(entries[1..], k - 1);
    }
  }

  /** Compaction runs exactly when the estimate passes the threshold. If it does not run, nothing changes. It fails
      exactly when there is nothing to summarize, no answer, or no summary in the answer, and has then emptied the
      model's input. If it succeeds, both histories are the same compacted window, which keeps what the user had
      said and ends in the summary. */
  lemma CompactionReplacesBothHistories(
      h: Histories, entries: seq<ContextManagement>, reply: Result<SummaryResponse, ()>, ids: FreshIds)
    ensures var (after, r) := CompactedHistories(h, entries, reply, ids);
      var runs := CompactThreshold(entries).Some? && Estimate(h.input) > CompactThreshold(entries).value;
      && (r == Success(None) <==> !runs)
      && (!runs ==> after == h)
      && (r.Failure? <==>
            runs && (!HasMeaning(AsItems(h.input)) || reply.Failure? || !HasSummary(reply.value)))
      && (r.Failure? ==> after == h.(input := Items([])))
      && (r.Success? && r.value.Some? ==>
            && after.input == Items(after.newItems)
            && EndsInSummary(after.newItems, reply.value, ids.checkpoint)
            && AllStandFor(after.newItems[..|after.newItems| - 1], AsItems(h.input), ids.message)
            && r.value == Some(if reply.value.usage.Some? then reply.value.usage.value else NO_USAGE)
            && ModelItems(after.newItems) == after.newItems
            && UserContents(after.newItems) == UserContents(ModelItems(AsItems(h.input)))
            && (after.continuation.Some? <==> h.continuation.Some?)
            && (after.continuation.Some? ==>
                  && after.continuation.value.historyReplaced
                  && after.continuation.value.recordedOutputs == h.continuation.value.recordedOutputs))
  {
    hide Estimate, HasMeaning, SummaryText, UserContents, ModelItems, RetainedUserWindow, HasSummary, IsSummaryOf,
      AllStandFor;
    var (after, r) := CompactedHistories(h, entries, reply, ids);
    if reply.Success? {
      SummaryIsWhatWasSaid(reply.value);
    }
    if r.Success? && r.value.Some? {
      CompactedWindowIsContext(AsItems(h.input), ids.message, SummaryText(reply.value).value, ids.checkpoint, []);
      assert after.newItems + [] == after.newItems && after.newItems + Visible([]) == after.newItems;
      WindowEndsInSummary(AsItems(h.input), ids, reply.value, SummaryText(reply.value).value);
      WindowStandsFor(AsItems(h.input), ids, SummaryText(reply.value).value);
    }
  }
}
