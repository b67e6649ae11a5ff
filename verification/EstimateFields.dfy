/** Which texts of an item the token estimate counts: every one that the model reads, byte for byte, and no
    other field. */
module EstimateFields {
  import opened Basics
  import opened JsonValues
  import opened ConversationItems
  import opened TokenEstimate

  predicate TextLonger(text: string, longer: string, n: nat) {
    TextBytes(longer) == TextBytes(text) + n
  }

  /** A text that was left out counts as empty. */
  predicate OptionalLonger(text: Option<string>, longer: Option<string>, n: nat) {
    longer.Some? && TextLonger(if text.Some? then text.value else "", longer.value, n)
  }

  /** One element differs, and `differs` says how. */
  ghost predicate OneDiffers<T(!new)>(xs: seq<T>, ys: seq<T>, differs: (T, T) -> bool) {
    |xs| == |ys| && exists k :: 0 <= k < |xs| && differs(xs[k], ys[k]) && ys == xs[k := ys[k]]
  }

  /** One text, key or number within a JSON value takes `n` bytes more. */
  ghost predicate JsonLonger(value: Json, longer: Json, n: nat)
    decreases value
  {
    match (value, longer)
    case (Text(a), Text(b)) => TextLonger(a, b, n)
    case (Fraction(a), Fraction(b)) => TextLonger(a, b, n)
    case (List(xs), List(ys)) =>
      |xs| == |ys| && exists k :: 0 <= k < |xs| && JsonLonger(xs[k], ys[k], n) && ys == xs[k := ys[k]]
    case (Object(xs), Object(ys)) =>
      |xs| == |ys| && exists k :: 0 <= k < |xs| && FieldLonger(xs[k], ys[k], n) && ys == xs[k := ys[k]]
    case _ => false
  }

  ghost predicate FieldLonger(field: Field, longer: Field, n: nat)
    decreases field
  {
    || (TextLonger(field.key, longer.key, n) && field.value == longer.value)
    || (field.key == longer.key && JsonLonger(field.value, longer.value, n))
  }

  predicate FileLonger(file: File, longer: File, n: nat) {
    || (OptionalLonger(file.fileData, longer.fileData, n) && longer == file.(fileData := longer.fileData))
    || (OptionalLonger(file.fileId, longer.fileId, n) && longer == file.(fileId := longer.fileId))
    || (OptionalLonger(file.fileUrl, longer.fileUrl, n) && longer == file.(fileUrl := longer.fileUrl))
    || (OptionalLonger(file.filename, longer.filename, n) && longer == file.(filename := longer.filename))
    || (OptionalLonger(file.detail, longer.detail, n) && longer == file.(detail := longer.detail))
  }

  predicate PartLonger(part: ContentPart, longer: ContentPart, n: nat) {
    match (part, longer)
    case (InputText(a), InputText(b)) => TextLonger(a, b, n)
    case (OutputText(a), OutputText(b)) => TextLonger(a, b, n)
    case (ReasoningText(a), ReasoningText(b)) => TextLonger(a, b, n)
    case (InputFile(a), InputFile(b)) => FileLonger(a, b, n)
    case _ => false
  }

  ghost predicate PartsLonger(parts: seq<ContentPart>, longer: seq<ContentPart>, n: nat) {
    OneDiffers(parts, longer, (a, b) => PartLonger(a, b, n))
  }

  ghost predicate ContentLonger(content: MessageContent, longer: MessageContent, n: nat) {
    match (content, longer)
    case (PlainText(a), PlainText(b)) => TextLonger(a, b, n)
    case (Parts(a), Parts(b)) => PartsLonger(a, b, n)
    case _ => false
  }

  ghost predicate OutputLonger(output: ToolCallOutput, longer: ToolCallOutput, n: nat) {
    match (output, longer)
    case (TextOutput(a), TextOutput(b)) => TextLonger(a, b, n)
    case (ContentOutput(a), ContentOutput(b)) => PartsLonger(a, b, n)
    case _ => false
  }

  ghost predicate WireLonger(wire: Option<Json>, longer: Option<Json>, n: nat) {
    wire.Some? && longer.Some? && JsonLonger(wire.value, longer.value, n)
  }

  ghost predicate ReasoningLonger(r: Reasoning, longer: Reasoning, n: nat) {
    || (TextLonger(r.id, longer.id, n) && longer == r.(id := longer.id))
    || (OptionalLonger(r.status, longer.status, n) && longer == r.(status := longer.status))
    || (OneDiffers(r.texts, longer.texts, (a, b) => TextLonger(a, b, n)) && longer == r.(texts := longer.texts))
    || (OneDiffers(r.summary, longer.summary, (a, b) => JsonLonger(a, b, n)) && longer == r.(summary := longer.summary))
    || (WireLonger(r.encryptedContent, longer.encryptedContent, n)
        && longer == r.(encryptedContent := longer.encryptedContent))
  }

  /** `longer` is `item` but for one text that the model reads, which takes `n` bytes more. */
  ghost predicate OneTextLonger(item: InputItem, longer: InputItem, n: nat) {
    match (item, longer)
    case (Message(m), Message(l)) =>
      || (OptionalLonger(m.id, l.id, n) && l == m.(id := l.id))
      || (TextLonger(m.role, l.role, n) && l == m.(role := l.role))
      || (ContentLonger(m.content, l.content, n) && l == m.(content := l.content))
    case (FunctionCall(c), FunctionCall(l)) =>
      || (OptionalLonger(c.id, l.id, n) && l == c.(id := l.id))
      || (TextLonger(c.callId, l.callId, n) && l == c.(callId := l.callId))
      || (TextLonger(c.name, l.name, n) && l == c.(name := l.name))
      || (OptionalLonger(c.nameSpace, l.nameSpace, n) && l == c.(nameSpace := l.nameSpace))
      || (TextLonger(c.arguments, l.arguments, n) && l == c.(arguments := l.arguments))
    case (FunctionCallOutput(a, output), FunctionCallOutput(b, more)) =>
      (TextLonger(a, b, n) && output == more) || (a == b && OutputLonger(output, more, n))
    case (SearchCall(c), SearchCall(l)) =>
      || (TextLonger(c.id, l.id, n) && l == c.(id := l.id))
      || (TextLonger(c.callId, l.callId, n) && l == c.(callId := l.callId))
      || (JsonLonger(c.arguments, l.arguments, n) && l == c.(arguments := l.arguments))
    case (SearchOutput(a, tools), SearchOutput(b, more)) =>
      || (TextLonger(a, b, n) && tools == more)
      || (a == b && OneDiffers(tools, more, (x, y) => WireLonger(x, y, n)))
    case (CustomCall(c), CustomCall(l)) =>
      || (TextLonger(c.id, l.id, n) && l == c.(id := l.id))
      || (TextLonger(c.callId, l.callId, n) && l == c.(callId := l.callId))
      || (TextLonger(c.name, l.name, n) && l == c.(name := l.name))
      || (TextLonger(c.input, l.input, n) && l == c.(input := l.input))
    case (CustomOutput(a, name, output), CustomOutput(b, name', more)) =>
      || (TextLonger(a, b, n) && name == name' && output == more)
      || (a == b && OptionalLonger(name, name', n) && output == more)
      || (a == b && name == name' && OutputLonger(output, more, n))
    case (Shell(c), Shell(l)) => WireLonger(c.wire, l.wire, n)
    case (ShellOutput(o), ShellOutput(l)) => WireLonger(o.wire, l.wire, n)
    case (ReasoningItem(r), ReasoningItem(l)) => ReasoningLonger(r, l, n)
    case (CompactionItem(c), CompactionItem(l)) => TextLonger(c.encryptedContent, l.encryptedContent, n)
    case _ => false
  }

  /** Every text that the model reads counts, byte for byte. */
  lemma EveryReadTextCounts(item: InputItem, longer: InputItem, n: nat)
    requires OneTextLonger(item, longer, n)
    ensures ItemCost(longer) == Plus(ItemCost(item), Cost(n, 0))
  {
    hide BodyCost, OneTextLonger, IsModelVisible;
    if item.FunctionCall? || item.CustomCall? || item.CompactionItem? {
      FlatGrows(item, longer, n);
    } else if item.Message? || item.SearchCall? || item.ReasoningItem? {
      CallGrows(item, longer, n);
    } else {
      ResultGrows(item, longer, n);
    }
    SameKind(item, longer, n);
  }

  lemma SameKind(item: InputItem, longer: InputItem, n: nat)
    requires OneTextLonger(item, longer, n)
    ensures IsModelVisible(item) && IsModelVisible(longer)
  {
  }

  lemma FlatGrows(item: InputItem, longer: InputItem, n: nat)
    requires (item.FunctionCall? || item.CustomCall? || item.CompactionItem?) && OneTextLonger(item, longer, n)
    ensures BodyCost(longer) == Plus(BodyCost(item), Cost(n, 0))
  {
    hide TextBytes;
    NoBytesInEmptyText();
  }

  lemma CallGrows(item: InputItem, longer: InputItem, n: nat)
    requires (item.Message? || item.SearchCall? || item.ReasoningItem?) && OneTextLonger(item, longer, n)
    ensures BodyCost(longer) == Plus(BodyCost(item), Cost(n, 0))
  {
    hide TextBytes, JsonCost, JsonLonger, ContentLonger, ContentCost, ReasoningCost, ReasoningLonger;
    NoBytesInEmptyText();
    match (item, longer) {
      case (Message(m), Message(l)) =>
        if ContentLonger(m.content, l.content, n) {
          ContentGrows(m.content, l.content, n);
        }
      case (SearchCall(c), SearchCall(l)) =>
        if JsonLonger(c.arguments, l.arguments, n) {
          JsonGrows(c.arguments, l.arguments, n);
        }
      case (ReasoningItem(r), ReasoningItem(l)) => ReasoningGrows(r, l, n);
    }
  }

  lemma ResultGrows(item: InputItem, longer: InputItem, n: nat)
    requires !item.FunctionCall? && !item.CustomCall? && !item.CompactionItem?
    requires !item.Message? && !item.SearchCall? && !item.ReasoningItem?
    requires OneTextLonger(item, longer, n)
    ensures BodyCost(longer) == Plus(BodyCost(item), Cost(n, 0))
  {
    hide TextBytes, TotalCost, JsonCost, OneDiffers, OutputLonger, OutputCost, WireCost, WireLonger, ToolsCost;
    NoBytesInEmptyText();
    match (item, longer) {
      case (FunctionCallOutput(_, output), FunctionCallOutput(_, more)) =>
        if OutputLonger(output, more, n) {
          OutputGrows(output, more, n);
        }
      case (CustomOutput(_, _, output), CustomOutput(_, _, more)) =>
        if OutputLonger(output, more, n) {
          OutputGrows(output, more, n);
        }
      case (SearchOutput(_, tools), SearchOutput(_, more)) => ToolsGrow(tools, more, n);
      case (Shell(c), Shell(l)) => WireGrows(c.wire, l.wire, n);
      case (ShellOutput(o), ShellOutput(l)) => WireGrows(o.wire, l.wire, n);
      case _ =>
    }
  }

  /** What else an item holds is not counted. */
  lemma NothingElseCounts(item: InputItem, status: Option<MessageStatus>, flag: bool, id: Option<string>)
    ensures match item
      case Message(m) => ItemCost(Message(m.(status := status))) == ItemCost(item)
      case FunctionCall(c) => ItemCost(FunctionCall(c.(status := status))) == ItemCost(item)
      case SearchCall(c) => ItemCost(SearchCall(c.(completed := flag))) == ItemCost(item)
      case CustomCall(c) => ItemCost(CustomCall(c.(status := status))) == ItemCost(item)
      case CompactionItem(c) => ItemCost(CompactionItem(c.(id := id))) == ItemCost(item)
      case McpListing(_) => ItemCost(item) == Cost(0, 0)
      case CompactionTrigger => ItemCost(item) == Cost(0, 0)
      case _ => true
  {
    hide TextBytes, TotalCost, JsonCost;
  }

  lemma NoBytesInEmptyText()
    ensures TextBytes("") == 0
  {
  }

  lemma ContentGrows(content: MessageContent, longer: MessageContent, n: nat)
    requires ContentLonger(content, longer, n)
    ensures ContentCost(longer) == Plus(ContentCost(content), Cost(n, 0))
  {
    hide TextBytes, TotalCost, PartsLonger;
    if content.Parts? {
      PartsGrow(content.parts, longer.parts, n);
    }
  }

  lemma OutputGrows(output: ToolCallOutput, longer: ToolCallOutput, n: nat)
    requires OutputLonger(output, longer, n)
    ensures OutputCost(longer) == Plus(OutputCost(output), Cost(n, 0))
  {
    hide TextBytes, TotalCost, PartsLonger;
    if output.ContentOutput? {
      PartsGrow(output.parts, longer.parts, n);
    }
  }

  lemma PartsGrow(parts: seq<ContentPart>, longer: seq<ContentPart>, n: nat)
    requires PartsLonger(parts, longer, n)
    ensures PartsCost(longer) == Plus(PartsCost(parts), Cost(n, 0))
  {
    hide TextBytes, TotalCost;
    NoBytesInEmptyText();
    var k :| 0 <= k < |parts| && PartLonger(parts[k], longer[k], n) && longer == parts[k := longer[k]];
    TotalGrows(parts, k, longer[k], PartCost, n);
  }

  lemma {:induction false} TotalGrows<T>(xs: seq<T>, k: nat, longer: T, cost: T -> Cost, n: nat)
    requires k < |xs| && cost(longer) == Plus(cost(xs[k]), Cost(n, 0))
    ensures TotalCost(xs[k := longer], cost) == Plus(TotalCost(xs, cost), Cost(n, 0))
  {
    if k == 0 {
      assert xs[0 := longer][1..] == xs[1..];
    } else {
      assert xs[k := longer][1..] == xs[1..][k - 1 := longer];
      TotalGrows(xs[1..], k - 1, longer, cost, n);
    }
  }

  lemma WireGrows(wire: Option<Json>, longer: Option<Json>, n: nat)
    requires WireLonger(wire, longer, n)
    ensures WireCost(longer) == Plus(WireCost(wire), Cost(n, 0))
  {
    JsonGrows(wire.value, longer.value, n);
  }

  lemma ToolsGrow(tools: seq<Option<Json>>, longer: seq<Option<Json>>, n: nat)
    ensures OneDiffers(tools, longer, (x, y) => WireLonger(x, y, n)) ==>
      ToolsCost(longer) == Plus(ToolsCost(tools), Cost(n, 0))
  {
    hide WireCost, TotalCost, WireLonger;
    if OneDiffers(tools, longer, (x, y) => WireLonger(x, y, n)) {
      var k :| 0 <= k < |tools| && WireLonger(tools[k], longer[k], n) && longer == tools[k := longer[k]];
      WireGrows(tools[k], longer[k], n);
      TotalGrows(tools, k, longer[k], WireCost, n);
    }
  }

  lemma ReasoningGrows(r: Reasoning, longer: Reasoning, n: nat)
    requires ReasoningLonger(r, longer, n)
    ensures ReasoningCost(longer) == Plus(ReasoningCost(r), Cost(n, 0))
  {
    hide TextBytes, TotalCost, JsonCost, JsonListCost, JsonLonger, OneDiffers;
    NoBytesInEmptyText();
    if OneDiffers(r.texts, longer.texts, (a, b) => TextLonger(a, b, n)) {
      TextsGrow(r.texts, longer.texts, n);
    }
    if OneDiffers(r.summary, longer.summary, (a, b) => JsonLonger(a, b, n)) {
      SummaryGrows(r.summary, longer.summary, n);
    }
    if WireLonger(r.encryptedContent, longer.encryptedContent, n) {
      JsonGrows(r.encryptedContent.value, longer.encryptedContent.value, n);
    }
  }

  lemma TextsGrow(texts: seq<string>, longer: seq<string>, n: nat)
    requires OneDiffers(texts, longer, (a, b) => TextLonger(a, b, n))
    ensures TextsCost(longer) == Plus(TextsCost(texts), Cost(n, 0))
  {
    hide TextBytes, TotalCost;
    var k :| 0 <= k < |texts| && TextLonger(texts[k], longer[k], n) && longer == texts[k := longer[k]];
    TotalGrows(texts, k, longer[k], TextPartCost, n);
  }

  lemma SummaryGrows(items: seq<Json>, longer: seq<Json>, n: nat)
    requires OneDiffers(items, longer, (a, b) => JsonLonger(a, b, n))
    ensures JsonListCost(longer) == Plus(JsonListCost(items), Cost(n, 0))
  {
    hide JsonCost, JsonLonger;
    var k :| 0 <= k < |items| && JsonLonger(items[k], longer[k], n) && longer == items[k := longer[k]];
    JsonGrows(items[k], longer[k], n);
    ListGrows(items, k, longer[k], n);
  }

  lemma {:induction false} ListGrows(items: seq<Json>, k: nat, longer: Json, n: nat)
    requires k < |items| && JsonCost(longer) == Plus(JsonCost(items[k]), Cost(n, 0))
    ensures JsonListCost(items[k := longer]) == Plus(JsonListCost(items), Cost(n, 0))
  {
    hide JsonCost;
    if k == 0 {
      assert items[0 := longer][1..] == items[1..];
    } else {
      assert items[k := longer][1..] == items[1..][k - 1 := longer];
      ListGrows(items[1..], k - 1, longer, n);
    }
  }

  lemma {:induction false} FieldsGrow(fields: Fields, k: nat, longer: Field, n: nat)
    requires k < |fields| && FieldCost(longer) == Plus(FieldCost(fields[k]), Cost(n, 0))
    ensures FieldsCost(fields[k := longer]) == Plus(FieldsCost(fields), Cost(n, 0))
  {
    hide FieldCost;
    if k == 0 {
      assert fields[0 := longer][1..] == fields[1..];
    } else {
      assert fields[k := longer][1..] == fields[1..][k - 1 := longer];
      FieldsGrow(fields[1..], k - 1, longer, n);
    }
  }

  lemma {:induction false} JsonGrows(value: Json, longer: Json, n: nat)
    requires JsonLonger(value, longer, n)
    ensures JsonCost(longer) == Plus(JsonCost(value), Cost(n, 0))
    decreases value
  {
    hide TextBytes, JsonListCost, FieldsCost, FieldCost;
    match (value, longer) {
      case (List(xs), List(ys)) =>
        var k :| 0 <= k < |xs| && JsonLonger(xs[k], ys[k], n) && ys == xs[k := ys[k]];
        JsonGrows(xs[k], ys[k], n);
        ListGrows(xs, k, ys[k], n);
      case (Object(xs), Object(ys)) =>
        var k :| 0 <= k < |xs| && FieldLonger(xs[k], ys[k], n) && ys == xs[k := ys[k]];
        FieldGrows(xs[k], ys[k], n);
        FieldsGrow(xs, k, ys[k], n);
      case _ =>
    }
  }

  lemma {:induction false} FieldGrows(field: Field, longer: Field, n: nat)
    requires FieldLonger(field, longer, n)
    ensures FieldCost(longer) == Plus(FieldCost(field), Cost(n, 0))
    decreases field
  {
    hide TextBytes;
    if field.key == longer.key && JsonLonger(field.value, longer.value, n) {
      JsonGrows(field.value, longer.value, n);
    }
  }

  // ----- what a byte and a token are -----

  newtype Byte = n: int | 0 <= n < 0x100

  /** The UTF-8 form of a character. */
  function Utf8(c: char): seq<Byte> {
    var n := c as int;
    if n < 0x80 then [n as Byte]
    else if n < 0x800 then [(0xC0 + n / 0x40) as Byte, (0x80 + n % 0x40) as Byte]
    else if n < 0x10000 then
      [(0xE0 + n / 0x1000) as Byte, (0x80 + n / 0x40 % 0x40) as Byte, (0x80 + n % 0x40) as Byte]
    else
      [(0xF0 + n / 0x40000) as Byte, (0x80 + n / 0x1000 % 0x40) as Byte, (0x80 + n / 0x40 % 0x40) as Byte,
       (0x80 + n % 0x40) as Byte]
  }

  /** The number that a UTF-8 form stands for. */
  function FromUtf8(bytes: seq<Byte>): int {
    if |bytes| == 1 then bytes[0] as int
    else if |bytes| == 2 then (bytes[0] as int - 0xC0) * 0x40 + (bytes[1] as int - 0x80)
    else if |bytes| == 3 then
      (bytes[0] as int - 0xE0) * 0x1000 + (bytes[1] as int - 0x80) * 0x40 + (bytes[2] as int - 0x80)
    else if |bytes| == 4 then
      (bytes[0] as int - 0xF0) * 0x40000 + (bytes[1] as int - 0x80) * 0x1000 + (bytes[2] as int - 0x80) * 0x40
      + (bytes[3] as int - 0x80)
    else -1
  }

  function AllUtf8(text: string): seq<Byte> {
    if text == "" then [] else Utf8(text[0]) + AllUtf8(text[1..])
  }

  lemma Utf8RoundTrip(c: char)
    ensures FromUtf8(Utf8(c)) == c as int && |Utf8(c)| == CharBytes(c)
  {
    var n := c as int;
    if n >= 0x10000 {
      SixBits(n / 0x1000);
      assert n / 0x40000 == n / 0x1000 / 0x40;
    }
    if n >= 0x800 {
      SixBits(n / 0x40);
      assert n / 0x1000 == n / 0x40 / 0x40;
    }
    SixBits(n);
  }

  lemma SixBits(n: int)
    requires n >= 0
    ensures n == n / 0x40 * 0x40 + n % 0x40
  {
  }

  /** A text counts with the length of its UTF-8 form. */
  lemma {:induction false} TextBytesAreUtf8(text: string)
    ensures TextBytes(text) == |AllUtf8(text)|
  {
    hide Utf8;
    if text != "" {
      Utf8RoundTrip(text[0]);
      TextBytesAreUtf8(text[1..]);
    }
  }

  function Power10(n: nat): nat {
    if n == 0 then 1 else 10 * Power10(n - 1)
  }

  /** A number counts with its decimal digits, and its sign. */
  lemma {:induction false} DigitsAreDecimal(n: int)
    requires n >= 0
    ensures Digits(n) >= 1 && n < Power10(Digits(n)) && (n > 0 ==> Power10(Digits(n) - 1) <= n)
    ensures IntegerBytes(n) == Digits(n) && (n > 0 ==> IntegerBytes(-n) == 1 + Digits(n))
  {
    if n >= 10 {
      DigitsAreDecimal(n / 10);
    }
  }

  /** How many values a JSON value holds, itself included. */
  function Values(value: Json): nat
    decreases value
  {
    match value
    case List(items) => 1 + ListValues(items)
    case Object(fields) => 1 + FieldsValues(fields)
    case _ => 1
  }

  function ListValues(items: seq<Json>): nat
    decreases items
  {
    if items == [] then 0 else Values(items[0]) + ListValues(items[1..])
  }

  function FieldsValues(fields: Fields): nat
    decreases fields
  {
    if fields == [] then 0 else FieldValues(fields[0]) + FieldsValues(fields[1..])
  }

  function FieldValues(field: Field): nat
    decreases field
  {
    Values(field.value)
  }

  lemma {:induction false} EveryValueIsAToken(value: Json)
    ensures JsonCost(value).tokens == Values(value)
    decreases value
  {
    hide TextBytes;
    match value {
      case List(items) => ListTokens(items);
      case Object(fields) => FieldsTokens(fields);
      case _ =>
    }
  }

  lemma {:induction false} ListTokens(items: seq<Json>)
    ensures JsonListCost(items).tokens == ListValues(items)
    decreases items
  {
    hide JsonCost, Values;
    if items != [] {
      EveryValueIsAToken(items[0]);
      ListTokens(items[1..]);
    }
  }

  lemma {:induction false} FieldsTokens(fields: Fields)
    ensures FieldsCost(fields).tokens == FieldsValues(fields)
    decreases fields
  {
    hide FieldCost, FieldValues;
    if fields != [] {
      FieldTokens(fields[0]);
      FieldsTokens(fields[1..]);
    }
  }

  lemma {:induction false} FieldTokens(field: Field)
    ensures FieldCost(field).tokens == FieldValues(field)
    decreases field
  {
    hide TextBytes;
    EveryValueIsAToken(field.value);
  }

  function Images(parts: seq<ContentPart>): nat {
    if parts == [] then 0 else (if parts[0].InputImage? then 1 else 0) + Images(parts[1..])
  }

  /** Beyond its text every part counts 7 tokens, an image 1024. */
  lemma {:induction false} PartsAreFramed(parts: seq<ContentPart>)
    ensures PartsCost(parts).tokens + 7 * Images(parts) == 7 * |parts| + 1024 * Images(parts)
  {
    hide TextBytes, FileBytes;
    if parts != [] {
      PartsAreFramed(parts[1..]);
    }
  }

  lemma {:induction false} TextsAreFramed(texts: seq<string>)
    ensures TextsCost(texts).tokens == 7 * |texts|
  {
    hide TextBytes;
    if texts != [] {
      TextsAreFramed(texts[1..]);
    }
  }

  /** Beyond its texts every item that the model sees counts 12 tokens, and those of its parts and JSON values. */
  lemma ItemsAreFramed(item: InputItem)
    ensures IsModelVisible(item) ==>
      ItemCost(item).tokens == 12 +
        match item
        case Message(m) => if m.content.Parts? then PartsCost(m.content.parts).tokens else 0
        case FunctionCallOutput(_, output) => if output.ContentOutput? then PartsCost(output.parts).tokens else 0
        case CustomOutput(_, _, output) => if output.ContentOutput? then PartsCost(output.parts).tokens else 0
        case SearchCall(call) => Values(call.arguments)
        case SearchOutput(_, tools) => TotalCost(tools, WireCost).tokens
        case Shell(call) => if call.wire.Some? then Values(call.wire.value) else U64_MAX
        case ShellOutput(output) => if output.wire.Some? then Values(output.wire.value) else U64_MAX
        case ReasoningItem(r) =>
          7 * |r.texts| + ListValues(r.summary)
            + (if r.encryptedContent.Some? then Values(r.encryptedContent.value) else 0)
        case CompactionItem(_) => 7
        case _ => 0
  {
    hide TextBytes, TotalCost, JsonCost, JsonListCost;
    match item {
      case SearchCall(call) => EveryValueIsAToken(call.arguments);
      case Shell(call) =>
        if call.wire.Some? {
          EveryValueIsAToken(call.wire.value);
        }
      case ShellOutput(output) =>
        if output.wire.Some? {
          EveryValueIsAToken(output.wire.value);
        }
      case ReasoningItem(r) =>
        TextsAreFramed(r.texts);
        ListTokens(r.summary);
        if r.encryptedContent.Some? {
          EveryValueIsAToken(r.encryptedContent.value);
        }
      case _ =>
    }
  }
}
