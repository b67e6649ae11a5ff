/** How much of the context of the model an input takes: saturating counters against exact sums. */
module TokenEstimate {
  import opened Basics
  import opened JsonValues
  import opened ConversationItems

  const BYTES_PER_TOKEN: nat := 4
  const INPUT_OVERHEAD_TOKENS: nat := 1
  const ITEM_OVERHEAD_TOKENS: nat := 12
  const CONTENT_PART_OVERHEAD_TOKENS: nat := 7
  const JSON_VALUE_OVERHEAD_TOKENS: nat := 1
  const IMAGE_TOKENS: nat := 1024

  const ASSISTANT: string := "assistant"

  function Saturate(n: nat): nat {
    if n <= U64_MAX then n else U64_MAX
  }

  // ----- exact costs, without any bound -----

  /** Bytes of text and tokens of framing. */
  datatype Cost = Cost(bytes: nat, tokens: nat)

  function Plus(a: Cost, b: Cost): Cost {
    Cost(a.bytes + b.bytes, a.tokens + b.tokens)
  }

  function CharBytes(c: char): nat {
    if c < '\U{80}' then 1 else if c < '\U{800}' then 2 else if c < '\U{10000}' then 3 else 4
  }

  function TextBytes(text: string): nat {
    if text == "" then 0 else CharBytes(text[0]) + TextBytes(text[1..])
  }

  function OptionalBytes(text: Option<string>): nat {
    match text
    case Some(t) => TextBytes(t)
    case None => 0
  }

  function Digits(n: nat): nat {
    if n < 10 then 1 else 1 + Digits(n / 10)
  }

  function IntegerBytes(n: int): nat {
    if n < 0 then 1 + Digits(-n) else Digits(n)
  }

  function JsonCost(value: Json): Cost
    decreases value
  {
    var framing := Cost(0, JSON_VALUE_OVERHEAD_TOKENS);
    match value
    case Text(text) => Plus(framing, Cost(TextBytes(text), 0))
    case Integer(n) => Plus(framing, Cost(IntegerBytes(n), 0))
    case Fraction(printed) => Plus(framing, Cost(TextBytes(printed), 0))
    case List(items) => Plus(framing, JsonListCost(items))
    case Object(fields) => Plus(framing, FieldsCost(fields))
    case Null => framing
    case Bool(_) => framing
  }

  function JsonListCost(items: seq<Json>): Cost
    decreases items
  {
    if items == [] then Cost(0, 0) else Plus(JsonCost(items[0]), JsonListCost(items[1..]))
  }

  function FieldsCost(fields: Fields): Cost
    decreases fields
  {
    if fields == [] then Cost(0, 0)
    else Plus(FieldCost(fields[0]), FieldsCost(fields[1..]))
  }

  function FieldCost(field: Field): Cost
    decreases field
  {
    Plus(Cost(TextBytes(field.key), 0), JsonCost(field.value))
  }

  /** What cannot be serialized must not be counted as small. */
  function WireCost(wire: Option<Json>): Cost {
    match wire
    case Some(value) => JsonCost(value)
    case None => Cost(0, U64_MAX)
  }

  function FileBytes(file: File): nat {
    OptionalBytes(file.fileData) + OptionalBytes(file.fileId) + OptionalBytes(file.fileUrl)
    + OptionalBytes(file.filename) + OptionalBytes(file.detail)
  }

  function PartCost(part: ContentPart): Cost {
    match part
    case InputText(text) => Cost(TextBytes(text), CONTENT_PART_OVERHEAD_TOKENS)
    case OutputText(text) => Cost(TextBytes(text), CONTENT_PART_OVERHEAD_TOKENS)
    case ReasoningText(text) => Cost(TextBytes(text), CONTENT_PART_OVERHEAD_TOKENS)
    case InputImage(_) => Cost(0, IMAGE_TOKENS)
    case InputFile(file) => Cost(FileBytes(file), CONTENT_PART_OVERHEAD_TOKENS)
    case UnknownPart => Cost(0, CONTENT_PART_OVERHEAD_TOKENS)
  }

  function TotalCost<T>(xs: seq<T>, cost: T -> Cost): Cost {
    if xs == [] then Cost(0, 0) else Plus(cost(xs[0]), TotalCost(xs[1..], cost))
  }

  function PartsCost(parts: seq<ContentPart>): Cost {
    TotalCost(parts, PartCost)
  }

  function ContentCost(content: MessageContent): Cost {
    match content
    case PlainText(text) => Cost(TextBytes(text), 0)
    case Parts(parts) => PartsCost(parts)
  }

  function OutputCost(output: ToolCallOutput): Cost {
    match output
    case TextOutput(text) => Cost(TextBytes(text), 0)
    case ContentOutput(parts) => PartsCost(parts)
  }

  function ToolsCost(tools: seq<Option<Json>>): Cost {
    TotalCost(tools, WireCost)
  }

  function TextsCost(texts: seq<string>): Cost {
    TotalCost(texts, TextPartCost)
  }

  function TextPartCost(text: string): Cost {
    Cost(TextBytes(text), CONTENT_PART_OVERHEAD_TOKENS)
  }

  function ReasoningCost(r: Reasoning): Cost {
    var texts := Plus(Cost(TextBytes(r.id) + OptionalBytes(r.status), 0),
      Plus(TextsCost(r.texts), JsonListCost(r.summary)));
    if r.encryptedContent.Some? then Plus(texts, JsonCost(r.encryptedContent.value)) else texts
  }

  /** What an item costs beyond its framing. */
  function BodyCost(item: InputItem): Cost {
    match item
    case Message(m) => Plus(Cost(OptionalBytes(m.id) + TextBytes(m.role), 0), ContentCost(m.content))
    case FunctionCall(call) =>
      Cost(OptionalBytes(call.id) + TextBytes(call.callId) + TextBytes(call.name) + OptionalBytes(call.nameSpace)
           + TextBytes(call.arguments), 0)
    case FunctionCallOutput(callId, output) => Plus(Cost(TextBytes(callId), 0), OutputCost(output))
    case SearchCall(call) => Plus(Cost(TextBytes(call.id) + TextBytes(call.callId), 0), JsonCost(call.arguments))
    case SearchOutput(callId, tools) => Plus(Cost(TextBytes(callId), 0), ToolsCost(tools))
    case CustomCall(call) =>
      Cost(TextBytes(call.id) + TextBytes(call.callId) + TextBytes(call.name) + TextBytes(call.input), 0)
    case CustomOutput(callId, name, output) =>
      Plus(Cost(TextBytes(callId) + OptionalBytes(name), 0), OutputCost(output))
    case Shell(call) => WireCost(call.wire)
    case ShellOutput(output) => WireCost(output.wire)
    case ReasoningItem(r) => ReasoningCost(r)
    case CompactionItem(c) => Cost(TextBytes(ASSISTANT) + TextBytes(c.encryptedContent), CONTENT_PART_OVERHEAD_TOKENS)
    case McpListing(_) => Cost(0, 0)
    case CompactionTrigger => Cost(0, 0)
    case UnknownInput => Cost(0, 0)
  }

  predicate IsModelVisible(item: InputItem) {
    !item.McpListing? && !item.CompactionTrigger?
  }

  function ItemCost(item: InputItem): Cost {
    if IsModelVisible(item) then Plus(Cost(0, ITEM_OVERHEAD_TOKENS), BodyCost(item)) else Cost(0, 0)
  }

  function ItemsCost(items: seq<InputItem>): Cost {
    TotalCost(items, ItemCost)
  }

  // ----- the walk -----

  lemma JsonListCostAt(items: seq<Json>, i: nat)
    requires i < |items|
    ensures JsonListCost(items[i..]) == Plus(JsonCost(items[i]), JsonListCost(items[i + 1..]))
  {
    assert items[i..][1..] == items[i + 1..];
  }

  lemma FieldsCostAt(fields: Fields, i: nat)
    requires i < |fields|
    ensures FieldsCost(fields[i..]) == Plus(FieldCost(fields[i]), FieldsCost(fields[i + 1..]))
  {
    assert fields[i..][1..] == fields[i + 1..];
  }

  lemma TotalCostAt<T>(xs: seq<T>, cost: T -> Cost, i: nat)
    requires i < |xs|
    ensures TotalCost(xs[i..], cost) == Plus(cost(xs[i]), TotalCost(xs[i + 1..], cost))
  {
    assert xs[i..][1..] == xs[i + 1..];
  }

  lemma TotalCostEnds<T>(xs: seq<T>, cost: T -> Cost)
    ensures TotalCost(xs[0..], cost) == TotalCost(xs, cost) && TotalCost(xs[|xs|..], cost) == Cost(0, 0)
  {
    assert xs[0..] == xs;
  }

  lemma JsonListCostEnds(items: seq<Json>)
    ensures JsonListCost(items[0..]) == JsonListCost(items) && JsonListCost(items[|items|..]) == Cost(0, 0)
  {
    assert items[0..] == items;
  }

  lemma FieldsCostEnds(fields: Fields)
    ensures FieldsCost(fields[0..]) == FieldsCost(fields) && FieldsCost(fields[|fields|..]) == Cost(0, 0)
  {
    assert fields[0..] == fields;
  }

  /** Two saturating counters; `exact` is what they would hold without a bound. */
  class InputTokenEstimate {
    var textBytes: nat
    var fixedTokens: nat
    ghost var exact: Cost

    constructor ()
      ensures Valid() && exact == Cost(0, 0)
    {
      textBytes := 0;
      fixedTokens := 0;
      exact := Cost(0, 0);
    }

    ghost predicate Valid()
      reads this
    {
      textBytes == Saturate(exact.bytes) && fixedTokens == Saturate(exact.tokens)
    }

    method AddBytes(length: nat)
      requires Valid()
      modifies this
      ensures Valid() && exact == Plus(old(exact), Cost(length, 0))
    {
      var bytes := if length <= U64_MAX then length else U64_MAX;
      textBytes := if textBytes + bytes <= U64_MAX then textBytes + bytes else U64_MAX;
      exact := Plus(exact, Cost(length, 0));
    }

    method AddTokens(tokens: nat)
      requires Valid()
      modifies this
      ensures Valid() && exact == Plus(old(exact), Cost(0, tokens))
    {
      fixedTokens := if fixedTokens + tokens <= U64_MAX then fixedTokens + tokens else U64_MAX;
      exact := Plus(exact, Cost(0, tokens));
    }

    method AddText(text: string)
      requires Valid()
      modifies this
      ensures Valid() && exact == Plus(old(exact), Cost(TextBytes(text), 0))
    {
      AddBytes(TextBytes(text));
    }

    method AddOptionalText(text: Option<string>)
      requires Valid()
      modifies this
      ensures Valid() && exact == Plus(old(exact), Cost(OptionalBytes(text), 0))
    {
      if text.Some? {
        AddText(text.value);
      }
    }

    method AddJsonValue(value: Json)
      requires Valid()
      modifies this
      ensures Valid() && exact == Plus(old(exact), JsonCost(value))
      decreases value
    {
      hide Saturate, IntegerBytes, TextBytes, JsonListCost, FieldsCost;
      AddTokens(JSON_VALUE_OVERHEAD_TOKENS);
      match value {
        case Text(text) => AddText(text);
        case Integer(n) => AddBytes(IntegerBytes(n));
        case Fraction(printed) => AddText(printed);
        case List(items) => AddJsonList(items);
        case Object(fields) => AddFields(fields);
        case Null =>
        case Bool(_) =>
      }
    }

    method AddJsonList(items: seq<Json>)
      requires Valid()
      modifies this
      ensures Valid() && exact == Plus(old(exact), JsonListCost(items))
      decreases items
    {
      hide Saturate, JsonCost, JsonListCost;
      JsonListCostEnds(items);
      for i := 0 to |items|
        invariant Valid() && Plus(exact, JsonListCost(items[i..])) == Plus(old(exact), JsonListCost(items))
      {
        JsonListCostAt(items, i);
        AddJsonValue(items[i]);
      }
    }

    method AddFields(fields: Fields)
      requires Valid()
      modifies this
      ensures Valid() && exact == Plus(old(exact), FieldsCost(fields))
      decreases fields
    {
      hide Saturate, FieldsCost, FieldCost;
      FieldsCostEnds(fields);
      for i := 0 to |fields|
        invariant Valid() && Plus(exact, FieldsCost(fields[i..])) == Plus(old(exact), FieldsCost(fields))
      {
        FieldsCostAt(fields, i);
        AddField(fields[i]);
      }
    }

    method AddField(field: Field)
      requires Valid()
      modifies this
      ensures Valid() && exact == Plus(old(exact), FieldCost(field))
      decreases field
    {
      hide Saturate, JsonCost, TextBytes;
      AddText(field.key);
      AddJsonValue(field.value);
    }

    /** What cannot be serialized adds the largest amount there is. */
    method AddSerialized(wire: Option<Json>)
      requires Valid()
      modifies this
      ensures Valid() && exact == Plus(old(exact), WireCost(wire))
    {
      hide Saturate, JsonCost;
      if wire.Some? {
        AddJsonValue(wire.value);
      } else {
        AddTokens(U64_MAX);
      }
    }

    method AddFile(file: File)
      requires Valid()
      modifies this
      ensures Valid() && exact == Plus(old(exact), Cost(FileBytes(file), CONTENT_PART_OVERHEAD_TOKENS))
    {
      hide Saturate, OptionalBytes;
      AddTokens(CONTENT_PART_OVERHEAD_TOKENS);
      AddOptionalText(file.fileData);
      AddOptionalText(file.fileId);
      AddOptionalText(file.fileUrl);
      AddOptionalText(file.filename);
      AddOptionalText(file.detail);
    }

    method AddParts(parts: seq<ContentPart>)
      requires Valid()
      modifies this
      ensures Valid() && exact == Plus(old(exact), PartsCost(parts))
    {
      hide Saturate, TextBytes, FileBytes, TotalCost;
      TotalCostEnds(parts, PartCost);
      for i := 0 to |parts|
        invariant Valid() && Plus(exact, PartsCost(parts[i..])) == Plus(old(exact), PartsCost(parts))
      {
        TotalCostAt(parts, PartCost, i);
        match parts[i] {
          case InputText(text) => AddTokens(CONTENT_PART_OVERHEAD_TOKENS); AddText(text);
          case OutputText(text) => AddTokens(CONTENT_PART_OVERHEAD_TOKENS); AddText(text);
          case ReasoningText(text) => AddTokens(CONTENT_PART_OVERHEAD_TOKENS); AddText(text);
          case InputImage(_) => AddTokens(IMAGE_TOKENS);
          case InputFile(file) => AddFile(file);
          case UnknownPart => AddTokens(CONTENT_PART_OVERHEAD_TOKENS);
        }
      }
    }

    method AddMessageContent(content: MessageContent)
      requires Valid()
      modifies this
      ensures Valid() && exact == Plus(old(exact), ContentCost(content))
    {
      match content {
        case PlainText(text) => AddText(text);
        case Parts(parts) => AddParts(parts);
      }
    }

    method AddToolCallOutput(output: ToolCallOutput)
      requires Valid()
      modifies this
      ensures Valid() && exact == Plus(old(exact), OutputCost(output))
    {
      match output {
        case TextOutput(text) => AddText(text);
        case ContentOutput(parts) => AddParts(parts);
      }
    }

    method AddTools(tools: seq<Option<Json>>)
      requires Valid()
      modifies this
      ensures Valid() && exact == Plus(old(exact), ToolsCost(tools))
    {
      hide Saturate, WireCost, TotalCost;
      TotalCostEnds(tools, WireCost);
      for i := 0 to |tools|
        invariant Valid() && Plus(exact, ToolsCost(tools[i..])) == Plus(old(exact), ToolsCost(tools))
      {
        TotalCostAt(tools, WireCost, i);
        AddSerialized(tools[i]);
      }
    }

    method AddReasoning(reasoning: Reasoning)
      requires Valid()
      modifies this
      ensures Valid() && exact == Plus(old(exact), ReasoningCost(reasoning))
    {
      hide Saturate, TextBytes, JsonCost, JsonListCost, OptionalBytes;
      AddText(reasoning.id);
      AddOptionalText(reasoning.status);
      AddReasoningTexts(reasoning.texts);
      AddJsonList(reasoning.summary);
      if reasoning.encryptedContent.Some? {
        AddJsonValue(reasoning.encryptedContent.value);
      }
    }

    method AddReasoningTexts(texts: seq<string>)
      requires Valid()
      modifies this
      ensures Valid() && exact == Plus(old(exact), TextsCost(texts))
    {
      hide Saturate, TextBytes, TotalCost;
      TotalCostEnds(texts, TextPartCost);
      for i := 0 to |texts|
        invariant Valid() && Plus(exact, TextsCost(texts[i..])) == Plus(old(exact), TextsCost(texts))
      {
        TotalCostAt(texts, TextPartCost, i);
        AddTokens(CONTENT_PART_OVERHEAD_TOKENS);
        AddText(texts[i]);
      }
    }

    method AddInputItem(item: InputItem)
      requires Valid()
      modifies this
      ensures Valid() && exact == Plus(old(exact), ItemCost(item))
    {
      hide Saturate, BodyCost, Valid;
      if item.McpListing? || item.CompactionTrigger? {
        return;
      }
      AddTokens(ITEM_OVERHEAD_TOKENS);
      AddItemBody(item);
    }

    method AddItemBody(item: InputItem)
      requires Valid()
      modifies this
      ensures Valid() && exact == Plus(old(exact), BodyCost(item))
    {
      hide Saturate, TextBytes, OptionalBytes, JsonCost, ToolsCost, WireCost, ReasoningCost, OutputCost, ContentCost,
        ASSISTANT, Valid;
      match item {
        case Message(message) =>
          AddOptionalText(message.id);
          AddText(message.role);
          AddMessageContent(message.content);
        case FunctionCall(call) =>
          AddOptionalText(call.id);
          AddText(call.callId);
          AddText(call.name);
          AddOptionalText(call.nameSpace);
          AddText(call.arguments);
        case FunctionCallOutput(callId, output) =>
          AddText(callId);
          AddToolCallOutput(output);
        case SearchCall(call) =>
          AddText(call.id);
          AddText(call.callId);
          AddJsonValue(call.arguments);
        case SearchOutput(callId, tools) =>
          AddText(callId);
          AddTools(tools);
        case CustomCall(call) =>
          AddText(call.id);
          AddText(call.callId);
          AddText(call.name);
          AddText(call.input);
        case CustomOutput(callId, name, output) =>
          AddText(callId);
          AddOptionalText(name);
          AddToolCallOutput(output);
        case Shell(call) => AddSerialized(call.wire);
        case ShellOutput(output) => AddSerialized(output.wire);
        case ReasoningItem(reasoning) => AddReasoning(reasoning);
        case CompactionItem(compaction) =>
          AddText(ASSISTANT);
          AddTokens(CONTENT_PART_OVERHEAD_TOKENS);
          AddText(compaction.encryptedContent);
        case UnknownInput =>
        case McpListing(_) =>
        case CompactionTrigger =>
      }
    }

    method TotalTokens() returns (total: nat)
      requires Valid()
      ensures total == TotalOf(exact)
    {
      var textTokens := textBytes / BYTES_PER_TOKEN + (if textBytes % BYTES_PER_TOKEN != 0 then 1 else 0);
      total := if fixedTokens + textTokens <= U64_MAX then fixedTokens + textTokens else U64_MAX;
    }
  }

  /** Text at four bytes a token, rounded up, and framing. */
  function ExactTokens(cost: Cost): nat {
    cost.tokens + (cost.bytes + BYTES_PER_TOKEN - 1) / BYTES_PER_TOKEN
  }

  function TotalOf(cost: Cost): nat {
    Saturate(Saturate(cost.tokens) + (Saturate(cost.bytes) + BYTES_PER_TOKEN - 1) / BYTES_PER_TOKEN)
  }

  // ----- the part of the input that the model is given -----

  datatype CompactionWindow = CompactionWindow(latestIndex: nat, retainedStart: nat)

  function LastCompaction(items: seq<InputItem>): (i: Option<nat>)
    ensures i.Some? ==> i.value < |items| && items[i.value].CompactionItem?
                        && forall k | i.value < k < |items| :: !items[k].CompactionItem?
    ensures i.None? ==> forall k | 0 <= k < |items| :: !items[k].CompactionItem?
  {
    if items == [] then None
    else if items[|items| - 1].CompactionItem? then Some(|items| - 1)
    else LastCompaction(items[..|items| - 1])
  }

  function LatestWindow(items: seq<InputItem>): Option<CompactionWindow> {
    match LastCompaction(items)
    case None => None
    case Some(latest) =>
      match LastCompaction(items[..latest])
      case None => Some(CompactionWindow(latest, 0))
      case Some(earlier) => Some(CompactionWindow(latest, earlier + 1))
  }

  /** A user message that an earlier compaction has kept. */
  predicate IsRetainedUser(item: InputItem) {
    item.Message? && item.message.role == USER && item.message.id.Some? && item.message.status == Some(Completed)
  }

  const USER: string := "user"

  predicate RetainsUserItem(window: CompactionWindow, index: nat, item: InputItem) {
    window.retainedStart <= index < window.latestIndex && IsRetainedUser(item)
  }

  predicate InWindow(window: Option<CompactionWindow>, index: nat, item: InputItem) {
    IsModelVisible(item)
      && (window.None? || window.value.latestIndex <= index || RetainsUserItem(window.value, index, item))
  }

  function SelectFrom(items: seq<InputItem>, window: Option<CompactionWindow>, from: nat): seq<InputItem>
    requires from <= |items|
    decreases |items| - from
  {
    if from == |items| then []
    else (if InWindow(window, from, items[from]) then [items[from]] else []) + SelectFrom(items, window, from + 1)
  }

  function ModelItems(items: seq<InputItem>): seq<InputItem> {
    SelectFrom(items, LatestWindow(items), 0)
  }

  // ----- the estimate -----

  function InputCost(input: ResponsesInput): Cost {
    Plus(Cost(0, INPUT_OVERHEAD_TOKENS),
         match input
         case Text(text) => Cost(TextBytes(text), 0)
         case Items(items) => ItemsCost(ModelItems(items)))
  }

  function Estimate(input: ResponsesInput): nat {
    TotalOf(InputCost(input))
  }

  method EstimateInputTokens(input: ResponsesInput) returns (total: nat)
    ensures total == Estimate(input)
  {
    hide Saturate, TextBytes, TotalCost, ItemCost, ItemsCost, SelectFrom, InWindow, LatestWindow;
    var estimate := new InputTokenEstimate();
    estimate.AddTokens(INPUT_OVERHEAD_TOKENS);
    match input {
      case Text(text) => estimate.AddText(text);
      case Items(items) =>
        var window := LatestWindow(items);
        NothingSelected(items, window);
        for i := 0 to |items|
          invariant estimate.Valid()
          invariant Plus(estimate.exact, ItemsCost(SelectFrom(items, window, i))) == InputCost(input)
        {
          OneMoreSelected(items, window, i);
          if InWindow(window, i, items[i]) {
            estimate.AddInputItem(items[i]);
          }
        }
    }
    total := estimate.TotalTokens();
  }

  lemma NothingSelected(items: seq<InputItem>, window: Option<CompactionWindow>)
    ensures ItemsCost(SelectFrom(items, window, |items|)) == Cost(0, 0)
  {
    TotalCostEnds<InputItem>([], ItemCost);
  }

  lemma OneMoreSelected(items: seq<InputItem>, window: Option<CompactionWindow>, i: nat)
    requires i < |items|
    ensures var later := ItemsCost(SelectFrom(items, window, i + 1));
      ItemsCost(SelectFrom(items, window, i))
        == if InWindow(window, i, items[i]) then Plus(ItemCost(items[i]), later) else later
  {
    hide ItemCost, InWindow, TotalCost;
    if InWindow(window, i, items[i]) {
      TotalCostCons(items[i], SelectFrom(items, window, i + 1), ItemCost);
    } else {
      assert SelectFrom(items, window, i) == [] + SelectFrom(items, window, i + 1) == SelectFrom(items, window, i + 1);
    }
  }

  /** The estimate is the exact count capped at the largest 64-bit number, except for inputs of more than
      2^64 bytes of text whose capped text alone does not reach that number. */
  lemma EstimateIsCappedCount(cost: Cost)
    ensures TotalOf(cost) == Saturate(ExactTokens(cost)) <==>
            cost.bytes <= U64_MAX + 1 || cost.tokens + (U64_MAX + 1) / BYTES_PER_TOKEN >= U64_MAX
    ensures TotalOf(cost) <= Saturate(ExactTokens(cost))
  {
  }

  // ----- what the estimate depends on -----

  lemma {:induction false} TotalCostAppend<T>(xs: seq<T>, ys: seq<T>, cost: T -> Cost)
    ensures TotalCost(xs + ys, cost) == Plus(TotalCost(xs, cost), TotalCost(ys, cost))
  {
    if xs == [] {
      assert xs + ys == ys;
    } else {
      assert (xs + ys)[1..] == xs[1..] + ys;
      TotalCostAppend(xs[1..], ys, cost);
    }
  }

  /** Items may come in any order. */
  lemma {:induction false} TotalCostPermutes<T>(xs: seq<T>, ys: seq<T>, cost: T -> Cost)
    requires multiset(xs) == multiset(ys)
    ensures TotalCost(xs, cost) == TotalCost(ys, cost)
    decreases |xs|
  {
    if xs == [] {
      assert |multiset(ys)| == 0;
    } else {
      var k := IndexOfHead(xs, ys);
      TotalCostPermutes(xs[1..], ys[..k] + ys[k + 1..], cost);
      TotalCostAppend(ys[..k] + [ys[k]], ys[k + 1..], cost);
      TotalCostAppend(ys[..k], [ys[k]], cost);
      TotalCostAppend(ys[..k], ys[k + 1..], cost);
      assert ys == ys[..k] + [ys[k]] + ys[k + 1..];
    }
  }

  lemma IndexOfHead<T>(xs: seq<T>, ys: seq<T>) returns (k: nat)
    requires xs != [] && multiset(xs) == multiset(ys)
    ensures k < |ys| && ys[k] == xs[0] && multiset(xs[1..]) == multiset(ys[..k] + ys[k + 1..])
  {
    k := IndexOf(xs[0], xs, ys);
    WithoutFirst(xs);
    WithoutOne(ys, k);
  }

  lemma WithoutFirst<T>(xs: seq<T>)
    requires xs != []
    ensures multiset(xs[1..]) == multiset(xs) - multiset{xs[0]}
  {
    assert xs == [xs[0]] + xs[1..];
  }

  lemma IndexOf<T>(x: T, xs: seq<T>, ys: seq<T>) returns (k: nat)
    requires x in xs && multiset(xs) == multiset(ys)
    ensures k < |ys| && ys[k] == x
  {
    assert x in multiset(xs);
    k :| 0 <= k < |ys| && ys[k] == x;
  }

  lemma WithoutOne<T>(xs: seq<T>, k: nat)
    requires k < |xs|
    ensures multiset(xs[..k] + xs[k + 1..]) == multiset(xs) - multiset{xs[k]}
  {
    assert xs == xs[..k] + ([xs[k]] + xs[k + 1..]);
  }

  function Visible(items: seq<InputItem>): seq<InputItem> {
    Filter(IsModelVisible, items)
  }

  function RetainedUsers(items: seq<InputItem>): seq<InputItem> {
    Filter(IsRetainedUser, items)
  }

  /** Visible is all but listings and triggers; retained is what a compaction has kept of a user: completed messages
      under an id. */
  lemma VisibleAndRetained(items: seq<InputItem>, item: InputItem)
    ensures item in Visible(items) <==> item in items && !item.McpListing? && !item.CompactionTrigger?
    ensures item in RetainedUsers(items) <==>
      && item in items && item.Message? && item.message.role == "user" && item.message.id.Some?
      && item.message.status == Some(Completed)
  {
    FilterMember(IsModelVisible, items, item);
    FilterMember(IsRetainedUser, items, item);
  }

  predicate HasCompaction(items: seq<InputItem>) {
    exists k :: 0 <= k < |items| && items[k].CompactionItem?
  }

  lemma {:induction false} SelectIsFilter(
      items: seq<InputItem>, window: Option<CompactionWindow>, from: nat, upTo: nat, keep: InputItem -> bool)
    requires from <= upTo <= |items|
    requires forall k | from <= k < upTo :: InWindow(window, k, items[k]) <==> keep(items[k])
    ensures SelectFrom(items, window, from) == Filter(keep, items[from..upTo]) + SelectFrom(items, window, upTo)
    decreases upTo - from
  {
    hide InWindow;
    if from < upTo {
      SelectIsFilter(items, window, from + 1, upTo, keep);
      FilterSlice(keep, items, from, upTo);
      var head := if keep(items[from]) then [items[from]] else [];
      var kept, rest := Filter(keep, items[from + 1..upTo]), SelectFrom(items, window, upTo);
      assert head + (kept + rest) == head + kept + rest;
    }
  }

  lemma FilterSlice<T>(keep: T -> bool, xs: seq<T>, from: nat, upTo: nat)
    requires from < upTo <= |xs|
    ensures Filter(keep, xs[from..upTo])
      == (if keep(xs[from]) then [xs[from]] else []) + Filter(keep, xs[from + 1..upTo])
  {
    assert xs[from..upTo][1..] == xs[from + 1..upTo];
  }

  /** Without a compaction, the model is given every visible item. */
  lemma ModelItemsWithoutCompaction(items: seq<InputItem>)
    requires !HasCompaction(items)
    ensures ModelItems(items) == Visible(items)
  {
    assert LastCompaction(items).None?;
    SelectIsFilter(items, None, 0, |items|, IsModelVisible);
    assert items[0..|items|] == items && Filter(IsModelVisible, items) + [] == Filter(IsModelVisible, items);
  }

  /** With one, it is given the user messages that the latest compaction has kept, that compaction, and what
      is visible after it; what an earlier compaction superseded does not come back. */
  lemma ModelItemsAroundCompaction(
      stale: seq<InputItem>, between: seq<InputItem>, latest: InputItem, after: seq<InputItem>)
    requires stale == [] || stale[|stale| - 1].CompactionItem?
    requires !HasCompaction(between) && latest.CompactionItem? && !HasCompaction(after)
    ensures ModelItems(stale + between + [latest] + after) == RetainedUsers(between) + [latest] + Visible(after)
  {
    hide IsRetainedUser, IsModelVisible, LatestWindow, SelectFrom, Filter, HasCompaction;
    var items := stale + between + [latest] + after;
    var n, m := |stale|, |stale| + |between|;
    LatestIsFound(stale, between, latest, after);
    SelectAround(items, n, m);
    PiecesAround(stale, between, latest, after);
    VisibleFromCompaction(latest, after);
  }

  /** What a window from `n` to `m` selects. */
  lemma SelectAround(items: seq<InputItem>, n: nat, m: nat)
    requires n <= m <= |items|
    ensures SelectFrom(items, Some(CompactionWindow(m, n)), 0)
      == RetainedUsers(items[n..m]) + Visible(items[m..|items|])
  {
    hide IsRetainedUser, IsModelVisible, InWindow, Filter, SelectFrom;
    var window := Some(CompactionWindow(m, n));
    SelectEnds(items, window);
    OnlyKeptBefore(items, n, m);
    SelectIsFilter(items, window, 0, n, Nothing);
    NothingFiltered(items[0..n]);
    SelectIsFilter(items, window, n, m, IsRetainedUser);
    SelectIsFilter(items, window, m, |items|, IsModelVisible);
  }

  lemma SelectEnds(items: seq<InputItem>, window: Option<CompactionWindow>)
    ensures SelectFrom(items, window, |items|) == []
  {
  }

  lemma PiecesAround<T>(stale: seq<T>, between: seq<T>, latest: T, after: seq<T>)
    ensures var items, n, m := stale + between + [latest] + after, |stale|, |stale| + |between|;
      items[n..m] == between && items[m..|items|] == [latest] + after
  {
  }

  lemma VisibleFromCompaction(latest: InputItem, after: seq<InputItem>)
    requires latest.CompactionItem?
    ensures Visible([latest] + after) == [latest] + Visible(after)
  {
    CompactionIsVisible(latest);
    assert ([latest] + after)[1..] == after;
  }

  lemma LatestIsFound(stale: seq<InputItem>, between: seq<InputItem>, latest: InputItem, after: seq<InputItem>)
    requires stale == [] || stale[|stale| - 1].CompactionItem?
    requires !HasCompaction(between) && latest.CompactionItem? && !HasCompaction(after)
    ensures LatestWindow(stale + between + [latest] + after) == Some(CompactionWindow(|stale| + |between|, |stale|))
  {
    var items := stale + between + [latest] + after;
    var n, m := |stale|, |stale| + |between|;
    assert items[m] == latest;
    assert forall k | m < k < |items| :: items[k] == after[k - m - 1];
    assert LastCompaction(items) == Some(m);
    assert forall k | n <= k < m :: items[..m][k] == between[k - n];
    assert n > 0 ==> items[..m][n - 1] == stale[n - 1];
  }

  lemma OnlyKeptBefore(items: seq<InputItem>, n: nat, m: nat)
    requires n <= m <= |items|
    ensures var window := Some(CompactionWindow(m, n));
      && (forall k | 0 <= k < n :: !InWindow(window, k, items[k]))
      && (forall k | n <= k < m :: InWindow(window, k, items[k]) <==> IsRetainedUser(items[k]))
      && (forall k | m <= k < |items| :: InWindow(window, k, items[k]) <==> IsModelVisible(items[k]))
  {
  }

  predicate Nothing(item: InputItem) {
    false
  }

  lemma {:induction false} NothingFiltered(items: seq<InputItem>)
    ensures Filter(Nothing, items) == []
  {
    if items != [] {
      NothingFiltered(items[1..]);
    }
  }

  lemma CompactionIsVisible(item: InputItem)
    requires item.CompactionItem?
    ensures IsModelVisible(item)
  {
  }

  // ----- order, images, and splitting -----

  function RetainedCost(item: InputItem): Cost {
    if IsRetainedUser(item) then ItemCost(item) else Cost(0, 0)
  }

  lemma TotalCostCons<T>(x: T, xs: seq<T>, cost: T -> Cost)
    ensures TotalCost([x] + xs, cost) == Plus(cost(x), TotalCost(xs, cost))
  {
    assert ([x] + xs)[1..] == xs;
  }

  lemma TotalCostHead<T>(xs: seq<T>, cost: T -> Cost)
    ensures TotalCost(xs, cost) == if xs == [] then Cost(0, 0) else Plus(cost(xs[0]), TotalCost(xs[1..], cost))
  {
  }

  lemma {:induction false} CostOfFiltered<T>(keep: T -> bool, xs: seq<T>, cost: T -> Cost, kept: T -> Cost)
    requires forall x: T :: kept(x) == if keep(x) then cost(x) else Cost(0, 0)
    ensures TotalCost(Filter(keep, xs), cost) == TotalCost(xs, kept)
  {
    hide TotalCost;
    TotalCostHead(xs, kept);
    if xs == [] {
      TotalCostHead<T>([], cost);
    } else {
      CostOfFiltered(keep, xs[1..], cost, kept);
      TotalCostCons(xs[0], Filter(keep, xs[1..]), cost);
    }
  }

  lemma CostOfVisible(items: seq<InputItem>)
    ensures ItemsCost(Visible(items)) == ItemsCost(items)
  {
    hide BodyCost, IsModelVisible;
    CostOfFiltered(IsModelVisible, items, ItemCost, ItemCost);
  }

  lemma CostOfRetained(items: seq<InputItem>)
    ensures ItemsCost(RetainedUsers(items)) == TotalCost(items, RetainedCost)
  {
    hide ItemCost, IsRetainedUser;
    CostOfFiltered(IsRetainedUser, items, ItemCost, RetainedCost);
  }

  /** The cost of a compacted history, part by part. */
  lemma CostAroundCompaction(stale: seq<InputItem>, between: seq<InputItem>, latest: InputItem, after: seq<InputItem>)
    requires stale == [] || stale[|stale| - 1].CompactionItem?
    requires !HasCompaction(between) && latest.CompactionItem? && !HasCompaction(after)
    ensures ItemsCost(ModelItems(stale + between + [latest] + after)) ==
            Plus(Plus(TotalCost(between, RetainedCost), ItemCost(latest)), ItemsCost(after))
  {
    hide ItemCost, IsRetainedUser, IsModelVisible, ModelItems, HasCompaction;
    ModelItemsAroundCompaction(stale, between, latest, after);
    TotalCostAppend(RetainedUsers(between) + [latest], Visible(after), ItemCost);
    TotalCostAppend(RetainedUsers(between), [latest], ItemCost);
    CostOfRetained(between);
    CostOfVisible(after);
  }

  /** Within the window the estimate does not depend on the order of the items, nor at all on what was
      superseded by an earlier compaction. */
  lemma EstimateIgnoresOrder(
    stale: seq<InputItem>, between: seq<InputItem>, latest: InputItem, after: seq<InputItem>,
    otherStale: seq<InputItem>, otherBetween: seq<InputItem>, otherAfter: seq<InputItem>)
    requires stale == [] || stale[|stale| - 1].CompactionItem?
    requires otherStale == [] || otherStale[|otherStale| - 1].CompactionItem?
    requires !HasCompaction(between) && latest.CompactionItem? && !HasCompaction(after)
    requires !HasCompaction(otherBetween) && !HasCompaction(otherAfter)
    requires multiset(between) == multiset(otherBetween) && multiset(after) == multiset(otherAfter)
    ensures Estimate(Items(stale + between + [latest] + after)) ==
            Estimate(Items(otherStale + otherBetween + [latest] + otherAfter))
  {
    hide ItemCost, RetainedCost, ModelItems, HasCompaction, TotalCost, Saturate;
    CostAroundCompaction(stale, between, latest, after);
    CostAroundCompaction(otherStale, otherBetween, latest, otherAfter);
    TotalCostPermutes(between, otherBetween, RetainedCost);
    TotalCostPermutes(after, otherAfter, ItemCost);
  }

  lemma EstimateIgnoresOrderWithoutCompaction(items: seq<InputItem>, others: seq<InputItem>)
    requires !HasCompaction(items) && multiset(items) == multiset(others)
    ensures Estimate(Items(items)) == Estimate(Items(others))
  {
    hide ItemCost, ModelItems, TotalCost, Saturate;
    assert !HasCompaction(others) by {
      forall k | 0 <= k < |others| ensures !others[k].CompactionItem? {
        assert others[k] in multiset(others);
        assert others[k] in items;
      }
    }
    ModelItemsWithoutCompaction(items);
    ModelItemsWithoutCompaction(others);
    CostOfVisible(items);
    CostOfVisible(others);
    TotalCostPermutes(items, others, ItemCost);
  }

  function WithoutImage(part: ContentPart): ContentPart {
    if part.InputImage? then InputImage(Image(None, None, None)) else part
  }

  function WithoutImages(parts: seq<ContentPart>): seq<ContentPart> {
    if parts == [] then [] else [WithoutImage(parts[0])] + WithoutImages(parts[1..])
  }

  function OutputWithoutImages(output: ToolCallOutput): ToolCallOutput {
    if output.ContentOutput? then ContentOutput(WithoutImages(output.parts)) else output
  }

  /** The item with every image emptied of its payload. */
  function ItemWithoutImages(item: InputItem): InputItem {
    match item
    case Message(InputMessage(id, role, status, Parts(parts))) =>
      Message(InputMessage(id, role, status, Parts(WithoutImages(parts))))
    case FunctionCallOutput(callId, output) => FunctionCallOutput(callId, OutputWithoutImages(output))
    case CustomOutput(callId, name, output) => CustomOutput(callId, name, OutputWithoutImages(output))
    case _ => item
  }

  function ItemsWithoutImages(items: seq<InputItem>): seq<InputItem> {
    seq(|items|, i requires 0 <= i < |items| => ItemWithoutImages(items[i]))
  }

  lemma {:induction false} ImagesCostTheSame(parts: seq<ContentPart>)
    ensures PartsCost(WithoutImages(parts)) == PartsCost(parts)
  {
    hide TotalCost, TextBytes, FileBytes;
    TotalCostHead(parts, PartCost);
    if parts != [] {
      ImagesCostTheSame(parts[1..]);
      TotalCostCons(WithoutImage(parts[0]), WithoutImages(parts[1..]), PartCost);
    }
  }

  lemma ItemWithoutImagesCostsTheSame(item: InputItem)
    ensures ItemCost(ItemWithoutImages(item)) == ItemCost(item)
    ensures IsModelVisible(ItemWithoutImages(item)) == IsModelVisible(item)
    ensures IsRetainedUser(ItemWithoutImages(item)) == IsRetainedUser(item)
    ensures ItemWithoutImages(item).CompactionItem? == item.CompactionItem?
  {
    hide TextBytes, TotalCost, WithoutImages;
    match item
    case Message(m) => if m.content.Parts? { ImagesCostTheSame(m.content.parts); }
    case FunctionCallOutput(_, output) => if output.ContentOutput? { ImagesCostTheSame(output.parts); }
    case CustomOutput(_, _, output) => if output.ContentOutput? { ImagesCostTheSame(output.parts); }
    case _ =>
  }

  /** No change of the payload of any image changes the estimate. */
  lemma EstimateIgnoresImages(items: seq<InputItem>, others: seq<InputItem>)
    requires ItemsWithoutImages(items) == ItemsWithoutImages(others)
    ensures Estimate(Items(items)) == Estimate(Items(others))
  {
    hide ItemWithoutImages, TotalCost, ItemCost, Saturate, LatestWindow;
    WindowWithoutImages(items);
    WindowWithoutImages(others);
    SelectedWithoutImages(items, LatestWindow(items), 0);
    SelectedWithoutImages(others, LatestWindow(others), 0);
  }

  lemma {:induction false} LastCompactionWithoutImages(items: seq<InputItem>)
    ensures LastCompaction(ItemsWithoutImages(items)) == LastCompaction(items)
  {
    hide ItemWithoutImages;
    if items != [] {
      var n := |items| - 1;
      ItemWithoutImagesCostsTheSame(items[n]);
      assert ItemsWithoutImages(items)[..n] == ItemsWithoutImages(items[..n]);
      LastCompactionWithoutImages(items[..n]);
    }
  }

  lemma WindowWithoutImages(items: seq<InputItem>)
    ensures LatestWindow(ItemsWithoutImages(items)) == LatestWindow(items)
  {
    hide ItemWithoutImages;
    LastCompactionWithoutImages(items);
    match LastCompaction(items)
    case None =>
    case Some(latest) =>
      assert ItemsWithoutImages(items)[..latest] == ItemsWithoutImages(items[..latest]);
      LastCompactionWithoutImages(items[..latest]);
  }

  lemma {:induction false} SelectedWithoutImages(items: seq<InputItem>, window: Option<CompactionWindow>, from: nat)
    requires from <= |items|
    ensures ItemsCost(SelectFrom(ItemsWithoutImages(items), window, from)) == ItemsCost(SelectFrom(items, window, from))
    decreases |items| - from
  {
    hide ItemWithoutImages, ItemCost, IsRetainedUser, IsModelVisible, TotalCost;
    if from < |items| {
      var blank := ItemsWithoutImages(items);
      ItemWithoutImagesCostsTheSame(items[from]);
      SelectedWithoutImages(items, window, from + 1);
      var blankRest, rest := SelectFrom(blank, window, from + 1), SelectFrom(items, window, from + 1);
      TotalCostCons(blank[from], blankRest, ItemCost);
      TotalCostCons(items[from], rest, ItemCost);
      assert [] + blankRest == blankRest && [] + rest == rest;
    }
  }

  /** Counting two stretches of history apart differs from counting them together by one token at most, and
      only through rounding up the text. */
  lemma SplittingCostsOneTokenAtMost(items: seq<InputItem>, more: seq<InputItem>)
    ensures var apart := ExactTokens(ItemsCost(items)) + ExactTokens(ItemsCost(more));
      apart - 1 <= ExactTokens(ItemsCost(items + more)) <= apart
    ensures ItemsCost(items).bytes % BYTES_PER_TOKEN == 0 ==>
      ExactTokens(ItemsCost(items + more)) == ExactTokens(ItemsCost(items)) + ExactTokens(ItemsCost(more))
  {
    hide TotalCost;
    TotalCostAppend(items, more, ItemCost);
  }
}
