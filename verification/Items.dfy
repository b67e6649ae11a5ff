/** The items of a conversation: what the model is given, what it returns, and how the one becomes the other. */
module ConversationItems {
  import opened Basics
  import opened JsonValues

  datatype MessageStatus = InProgress | Completed

  /** An image carries no text that the model reads. */
  datatype Image = Image(fileId: Option<string>, imageUrl: Option<string>, detail: Option<string>)

  datatype File = File(fileData: Option<string>, fileId: Option<string>, fileUrl: Option<string>,
                       filename: Option<string>, detail: Option<string>)

  datatype ContentPart =
    | InputText(text: string)
    | OutputText(text: string)
    | ReasoningText(text: string)
    | InputImage(image: Image)
    | InputFile(file: File)
    | UnknownPart

  datatype MessageContent = PlainText(text: string) | Parts(parts: seq<ContentPart>)

  /** The result of a tool; its parts are text, images and files. */
  datatype ToolCallOutput = TextOutput(text: string) | ContentOutput(parts: seq<ContentPart>)

  datatype InputMessage = InputMessage(
    id: Option<string>, role: string, status: Option<MessageStatus>, content: MessageContent)

  datatype OutputMessage = OutputMessage(id: string, role: string, status: MessageStatus, texts: seq<string>)

  datatype InputFunctionCall = InputFunctionCall(
    id: Option<string>, callId: string, name: string, nameSpace: Option<string>, arguments: string,
    status: Option<MessageStatus>)

  datatype FunctionToolCall = FunctionToolCall(
    id: string, callId: string, name: string, nameSpace: Option<string>, arguments: string, status: MessageStatus)

  datatype ToolSearchCall = ToolSearchCall(id: string, callId: string, arguments: Json, completed: bool)

  datatype CustomToolCall = CustomToolCall(
    id: string, status: Option<MessageStatus>, callId: string, name: string, input: string)

  /** `action` is the encoded action; `wire` the serialized item, which may fail to serialize. */
  datatype ShellCall = ShellCall(id: Option<string>, callId: string, commands: seq<string>, action: string,
                                 status: Option<MessageStatus>, wire: Option<Json>)

  datatype ShellCallOutput = ShellCallOutput(callId: string, output: string, results: nat, wire: Option<Json>)

  datatype Reasoning = Reasoning(
    id: string, texts: seq<string>, summary: seq<Json>, encryptedContent: Option<Json>, status: Option<string>)

  datatype McpListTools = McpListTools(id: string, serverLabel: string, failed: bool)

  datatype Compaction = Compaction(id: Option<string>, encryptedContent: string)

  datatype InputItem =
    | Message(message: InputMessage)
    | FunctionCall(call: InputFunctionCall)
    | FunctionCallOutput(callId: string, output: ToolCallOutput)
    | SearchCall(search: ToolSearchCall)
    | SearchOutput(searchCallId: string, tools: seq<Option<Json>>)   // `None` for a tool that cannot be serialized
    | CustomCall(custom: CustomToolCall)
    | CustomOutput(customCallId: string, outputName: Option<string>, customOutput: ToolCallOutput)
    | Shell(shell: ShellCall)
    | ShellOutput(shellOutput: ShellCallOutput)
    | ReasoningItem(reasoning: Reasoning)
    | McpListing(listing: McpListTools)
    | CompactionItem(compaction: Compaction)
    | CompactionTrigger
    | UnknownInput

  datatype ResponsesInput = Text(text: string) | Items(items: seq<InputItem>)

  datatype WebSearchCall = WebSearchCall(id: string, body: Json)

  datatype McpCall = McpCall(id: string, failed: bool, body: Json)

  datatype OutputItem =
    | OutMessage(outMessage: OutputMessage)
    | OutFunctionCall(outCall: FunctionToolCall)
    | OutSearchCall(outSearch: ToolSearchCall)
    | OutCustomCall(outCustom: CustomToolCall)
    | OutShell(outShell: ShellCall)
    | OutWebSearch(web: WebSearchCall)
    | OutMcpCall(mcp: McpCall)
    | OutMcpListing(outListing: McpListTools)
    | OutReasoning(outReasoning: Reasoning)
    | OutCompaction(outCompaction: Compaction)
    | OutUnknown

  // ----- from output to input -----

  /** A JSON string literal. */
  function Quoted(text: string): string {
    "\"" + Escaped(text) + "\""
  }

  function Escaped(text: string): string {
    if text == "" then "" else EscapedChar(text[0]) + Escaped(text[1..])
  }

  function EscapedChar(c: char): string {
    if c == '"' then "\\\""
    else if c == '\\' then "\\\\"
    else if c == '\n' then "\\n"
    else if c == '\r' then "\\r"
    else if c == '\t' then "\\t"
    else if c == '\U{8}' then "\\b"
    else if c == '\U{C}' then "\\f"
    else if c < ' ' then "\\u00" + [HexDigit(c as int / 16), HexDigit(c as int % 16)]
    else [c]
  }

  function HexDigit(n: int): char
    requires 0 <= n < 16
  {
    "0123456789abcdef"[n]
  }

  /** Model-facing function calls do not keep the id prefix of the tool they stand for. */
  function FunctionCallItemId(id: string): Option<string> {
    if id == "" then None
    else if "ctc_" < id then Some("fc_" + id[4..])
    else if "sh_" < id then Some("fc_" + id[3..])
    else Some(id)
  }

  function CallOfFunction(call: FunctionToolCall): InputFunctionCall {
    InputFunctionCall(Some(call.id), call.callId, call.name, call.nameSpace, call.arguments, Some(call.status))
  }

  function CallOfCustom(call: CustomToolCall): InputFunctionCall {
    InputFunctionCall(FunctionCallItemId(call.id), call.callId, call.name, None,
      "{\"input\":" + Quoted(call.input) + "}", call.status)
  }

  function CallOfShell(call: ShellCall): InputFunctionCall {
    InputFunctionCall(if call.id.Some? then FunctionCallItemId(call.id.value) else None,
                      call.callId, "shell", None, call.action, call.status)
  }

  function PartsOfTexts(texts: seq<string>): seq<ContentPart> {
    seq(|texts|, i requires 0 <= i < |texts| => OutputText(texts[i]))
  }

  /** A stored output item as continuation input; what gateway tools showed the client is left out. */
  function ToInputItem(item: OutputItem): Option<InputItem> {
    match item
    case OutMessage(m) => Some(Message(InputMessage(Some(m.id), m.role, Some(m.status), Parts(PartsOfTexts(m.texts)))))
    case OutReasoning(r) => Some(ReasoningItem(r))
    case OutFunctionCall(call) => Some(FunctionCall(CallOfFunction(call)))
    case OutSearchCall(call) => if call.completed then Some(SearchCall(call)) else None
    case OutCustomCall(call) => Some(FunctionCall(CallOfCustom(call)))
    case OutShell(call) => Some(FunctionCall(CallOfShell(call)))
    case OutMcpListing(listing) => Some(McpListing(listing))
    case OutCompaction(compaction) => Some(CompactionItem(compaction))
    case OutWebSearch(_) => None
    case OutMcpCall(_) => None
    case OutUnknown => None
  }

  function ToInputItems(items: seq<OutputItem>): seq<InputItem> {
    if items == [] then []
    else
      var rest := ToInputItems(items[1..]);
      match ToInputItem(items[0])
      case Some(item) => [item] + rest
      case None => rest
  }

  /** The canonical form of one input item. */
  function Canonical(item: InputItem): Option<InputItem> {
    match item
    case UnknownInput => None
    case Shell(call) => Some(FunctionCall(CallOfShell(call)))
    case ShellOutput(output) => Some(FunctionCallOutput(output.callId, TextOutput(output.output)))
    case CustomCall(call) => Some(FunctionCall(CallOfCustom(call)))
    case CustomOutput(callId, _, output) => Some(FunctionCallOutput(callId, output))
    case _ => Some(item)
  }

  function CanonicalItems(items: seq<InputItem>): seq<InputItem> {
    if items == [] then []
    else
      var rest := CanonicalItems(items[1..]);
      match Canonical(items[0])
      case Some(item) => [item] + rest
      case None => rest
  }

  function UserText(text: string): InputItem {
    Message(InputMessage(None, "user", None, PlainText(text)))
  }

  /** Input as a list of canonical items; plain text is one user message. */
  function AsItems(input: ResponsesInput): seq<InputItem> {
    match input
    case Text(text) => [UserText(text)]
    case Items(items) => CanonicalItems(items)
  }

  // ----- token usage -----

  const I64_MIN: int := -0x8000_0000_0000_0000
  const I64_MAX: int := 0x7FFF_FFFF_FFFF_FFFF

  function SaturatingAdd(a: int, b: int): int {
    if a + b > I64_MAX then I64_MAX else if a + b < I64_MIN then I64_MIN else a + b
  }

  datatype ResponseUsage = ResponseUsage(
    inputTokens: int, outputTokens: int, totalTokens: int, cachedTokens: int, reasoningTokens: int)

  const NO_USAGE: ResponseUsage := ResponseUsage(0, 0, 0, 0, 0)

  function AddUsage(total: ResponseUsage, usage: ResponseUsage): ResponseUsage {
    ResponseUsage(
      SaturatingAdd(total.inputTokens, usage.inputTokens),
      SaturatingAdd(total.outputTokens, usage.outputTokens),
      SaturatingAdd(total.totalTokens, usage.totalTokens),
      SaturatingAdd(total.cachedTokens, usage.cachedTokens),
      SaturatingAdd(total.reasoningTokens, usage.reasoningTokens))
  }
}
