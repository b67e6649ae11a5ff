/** Streaming events: a lenient extractor and a strict validator that read the same JSON value. */
module StreamEvents {
  import opened Basics
  import opened JsonValues

  // ----- types of items and events -----

  datatype SSEItemType =
    | Reasoning | FunctionCall | ToolSearchCall | CustomToolCall | WebSearchCall
    | McpCall | McpListTools | ShellCall | Compaction | Message

  function ItemTypeName(t: SSEItemType): string {
    match t
    case Reasoning => "reasoning"
    case FunctionCall => "function_call"
    case ToolSearchCall => "tool_search_call"
    case CustomToolCall => "custom_tool_call"
    case WebSearchCall => "web_search_call"
    case McpCall => "mcp_call"
    case McpListTools => "mcp_list_tools"
    case ShellCall => "shell_call"
    case Compaction => "compaction"
    case Message => "message"
  }

  function ParseItemType(name: string): Option<SSEItemType> {
    if name == "reasoning" then Some(Reasoning)
    else if name == "function_call" then Some(FunctionCall)
    else if name == "tool_search_call" then Some(ToolSearchCall)
    else if name == "custom_tool_call" then Some(CustomToolCall)
    else if name == "web_search_call" then Some(WebSearchCall)
    else if name == "mcp_call" then Some(McpCall)
    else if name == "mcp_list_tools" then Some(McpListTools)
    else if name == "shell_call" then Some(ShellCall)
    else if name == "compaction" then Some(Compaction)
    else if name == "message" then Some(Message)
    else None
  }

  /** The lenient reading: an unknown name is a message. */
  function ItemTypeFrom(name: string): SSEItemType {
    match ParseItemType(name)
    case Some(t) => t
    case None => Message
  }

  datatype SSEEventType =
    | ResponseCreated | ResponseInProgress | ResponseCompleted | ResponseFailed | ResponseIncomplete
    | OutputItemAdded | OutputItemDone
    | OutputTextDelta | OutputTextDone | ContentPartAdded | ContentPartDone
    | FunctionCallArgumentsDelta | FunctionCallArgumentsDone | CustomToolCallInputDelta | CustomToolCallInputDone
    | ShellCallCommandAdded | ShellCallCommandDelta | ShellCallCommandDone
    | ReasoningTextDelta | ReasoningTextDone | ReasoningPartAdded | ReasoningPartDone
    | ReasoningSummaryTextDelta | ReasoningSummaryTextDone
    | FileSearchCallSearching | FileSearchCallCompleted
    | WebSearchCallInProgress | WebSearchCallSearching | WebSearchCallCompleted
    | McpCallInProgress | McpCallArgumentsDelta | McpCallArgumentsDone | McpCallCompleted | McpCallFailed
    | McpListToolsInProgress | McpListToolsCompleted | McpListToolsFailed
    | Other

  function Classify(name: string): SSEEventType {
    if name == "response.created" then ResponseCreated
    else if name == "response.in_progress" then ResponseInProgress
    else if name == "response.completed" || name == "response.done" then ResponseCompleted
    else if name == "response.failed" then ResponseFailed
    else if name == "response.incomplete" then ResponseIncomplete
    else if name == "response.output_item.added" then OutputItemAdded
    else if name == "response.output_item.done" then OutputItemDone
    else ClassifyContent(name)
  }

  function ClassifyContent(name: string): SSEEventType {
    if name == "response.output_text.delta" then OutputTextDelta
    else if name == "response.output_text.done" then OutputTextDone
    else if name == "response.content_part.added" then ContentPartAdded
    else if name == "response.content_part.done" then ContentPartDone
    else if name == "response.function_call_arguments.delta" then FunctionCallArgumentsDelta
    else if name == "response.function_call_arguments.done" then FunctionCallArgumentsDone
    else if name == "response.custom_tool_call_input.delta" then CustomToolCallInputDelta
    else if name == "response.custom_tool_call_input.done" then CustomToolCallInputDone
    else ClassifyCommand(name)
  }

  function ClassifyCommand(name: string): SSEEventType {
    if name == "response.shell_call_command.added" then ShellCallCommandAdded
    else if name == "response.shell_call_command.delta" then ShellCallCommandDelta
    else if name == "response.shell_call_command.done" then ShellCallCommandDone
    else if name == "response.reasoning_text.delta" then ReasoningTextDelta
    else if name == "response.reasoning_text.done" then ReasoningTextDone
    else if name == "response.reasoning_part.added" then ReasoningPartAdded
    else if name == "response.reasoning_part.done" then ReasoningPartDone
    else if name == "response.reasoning_summary_text.delta" then ReasoningSummaryTextDelta
    else if name == "response.reasoning_summary_text.done" then ReasoningSummaryTextDone
    else ClassifyToolCall(name)
  }

  function ClassifyToolCall(name: string): SSEEventType {
    if name == "response.file_search_call.searching" then FileSearchCallSearching
    else if name == "response.file_search_call.completed" then FileSearchCallCompleted
    else if name == "response.web_search_call.in_progress" then WebSearchCallInProgress
    else if name == "response.web_search_call.searching" then WebSearchCallSearching
    else if name == "response.web_search_call.completed" then WebSearchCallCompleted
    else if name == "response.mcp_call.in_progress" then McpCallInProgress
    else if name == "response.mcp_call_arguments.delta" then McpCallArgumentsDelta
    else if name == "response.mcp_call_arguments.done" then McpCallArgumentsDone
    else if name == "response.mcp_call.completed" then McpCallCompleted
    else if name == "response.mcp_call.failed" then McpCallFailed
    else if name == "response.mcp_list_tools.in_progress" then McpListToolsInProgress
    else if name == "response.mcp_list_tools.completed" then McpListToolsCompleted
    else if name == "response.mcp_list_tools.failed" then McpListToolsFailed
    else Other
  }

  lemma ItemTypeNamesRoundTrip(t: SSEItemType, name: string)
    ensures ParseItemType(name) == Some(t) <==> name == ItemTypeName(t)
  {
  }

  lemma IncompleteIsClassified()
    ensures Classify(RESPONSE_INCOMPLETE) == ResponseIncomplete
  {
  }

  // ----- frames -----

  const RESPONSE_INCOMPLETE: string := "response.incomplete"

  /** The envelope of an event; `rest` holds every field but the three named ones. */
  datatype WireEvent = WireEvent(
    eventType: Option<string>,
    sequenceNumber: Option<nat>,
    outputIndex: Option<nat>,
    rest: Fields)

  /** A typed output item decoded from JSON; an item of unknown type decodes to one without a type. */
  datatype TypedItem = TypedItem(itemType: Option<SSEItemType>, contents: Json)

  /** The typed decoder of output items, which is not part of this model. */
  type Decoder = Json -> Option<TypedItem>

  datatype ShellCommandUpdate = Added(text: string) | Delta(text: string) | Finished(text: string)

  datatype EventPayload =
    | Response(id: string, status: string, usage: Option<Json>)
    | ItemAdded(itemId: string, itemType: SSEItemType, outputIndex: Option<nat>, name: Option<string>,
                nameSpace: Option<string>, callId: Option<string>, shellCall: Option<TypedItem>)
    | ItemDone(itemId: string, itemType: SSEItemType, outputIndex: Option<nat>, item: Json)
    | TextDelta(delta: string, itemId: string, outputIndex: Option<nat>, contentIndex: nat)
    | TextDone(text: string, itemId: string, outputIndex: Option<nat>)
    | FunctionCallArgsDelta(delta: string, callId: Option<string>, itemId: string, outputIndex: Option<nat>)
    | FunctionCallArgsDone(arguments: string, callId: Option<string>, itemId: string, fnName: string,
      outputIndex: Option<nat>)
    | ShellCallCommand(itemId: string, commandOutputIndex: nat, commandIndex: nat, update: ShellCommandUpdate)
    | CustomInputDelta(delta: string, itemId: string, outputIndex: Option<nat>)
    | CustomInputDone(input: string, itemId: string, outputIndex: Option<nat>)
    | ReasoningDelta(delta: string, itemId: string, outputIndex: Option<nat>, contentIndex: nat)
    | ReasoningDone(text: string, itemId: string, outputIndex: Option<nat>, contentIndex: nat)
    | SummaryDelta(delta: string, itemId: string, outputIndex: Option<nat>, summaryIndex: nat)
    | SummaryDone(text: string, itemId: string, outputIndex: Option<nat>, summaryIndex: nat)
    | Raw(raw: Json)

  datatype EventFrame = EventFrame(eventType: SSEEventType, payload: EventPayload, wire: WireEvent)

  // ----- lenient extraction -----

  function JsonStr(json: Json, key: string): string {
    match AsStr(Member(json, key))
    case Some(text) => text
    case None => ""
  }

  function JsonStrOpt(json: Json, key: string): Option<string> {
    AsStr(Member(json, key))
  }

  function JsonU32(json: Json, key: string): nat {
    match AsU64(Member(json, key))
    case Some(n) => if n <= U32_MAX then n else U32_MAX
    case None => 0
  }

  function JsonOutputIndex(json: Json): Option<nat> {
    AsU32(Member(json, "output_index"))
  }

  function NonEmpty(text: Option<string>): Option<string> {
    if text == Some("") then None else text
  }

  function OutputItemId(item: Json): string {
    match NonEmpty(JsonStrOpt(item, "id"))
    case Some(id) => id
    case None => JsonStr(item, "item_id")
  }

  function ExtractResponse(json: Json): EventPayload {
    var response := Member(json, "response");
    Response(JsonStr(response, "id"), JsonStr(response, "status"),
             var usage := Get(response, "usage"); if usage == Some(Null) then None else usage)
  }

  function ExtractItemAdded(json: Json, decode: Decoder): EventPayload {
    var item := Member(json, "item");
    ItemAdded(OutputItemId(item), ItemTypeFrom(JsonStr(item, "type")), JsonOutputIndex(json),
              JsonStrOpt(item, "name"), JsonStrOpt(item, "namespace"), JsonStrOpt(item, "call_id"),
              if Member(item, "type") == Text("shell_call") && decode(item).Some?
                && decode(item).value.itemType == Some(ShellCall)
              then decode(item) else None)
  }

  /** The item with its id under `id`, where a later reader looks for it. */
  function WithId(item: Json, id: string): Json {
    if id != "" && NonEmpty(JsonStrOpt(item, "id")).None? && item.Object?
      then Object(Insert(item.fields, "id", Text(id)))
    else item
  }

  function ExtractItemDone(json: Json): EventPayload {
    var item := Member(json, "item");
    var id := OutputItemId(item);
    var done := WithId(item, id);
    ItemDone(id, ItemTypeFrom(JsonStr(done, "type")), JsonOutputIndex(json), done)
  }

  function ExtractShellCommand(json: Json, update: ShellCommandUpdate): EventPayload {
    ShellCallCommand(JsonStr(json, "item_id"), JsonU32(json, "output_index"), JsonU32(json, "command_index"), update)
  }

  function ExtractPayload(eventType: SSEEventType, json: Json, decode: Decoder): EventPayload {
    match eventType
    case ResponseCreated | ResponseInProgress | ResponseCompleted | ResponseFailed | ResponseIncomplete =>
      ExtractResponse(json)
    case OutputItemAdded => ExtractItemAdded(json, decode)
    case OutputItemDone => ExtractItemDone(json)
    case OutputTextDelta =>
      TextDelta(JsonStr(json, "delta"), JsonStr(json, "item_id"), JsonOutputIndex(json), JsonU32(json, "content_index"))
    case OutputTextDone => TextDone(JsonStr(json, "text"), JsonStr(json, "item_id"), JsonOutputIndex(json))
    case FunctionCallArgumentsDelta =>
      FunctionCallArgsDelta(JsonStr(json, "delta"), JsonStrOpt(json, "call_id"), JsonStr(json, "item_id"),
        JsonOutputIndex(json))
    case FunctionCallArgumentsDone =>
      FunctionCallArgsDone(JsonStr(json, "arguments"), JsonStrOpt(json, "call_id"), JsonStr(json, "item_id"),
                           JsonStr(json, "name"), JsonOutputIndex(json))
    case CustomToolCallInputDelta =>
      CustomInputDelta(JsonStr(json, "delta"), JsonStr(json, "item_id"), JsonOutputIndex(json))
    case CustomToolCallInputDone =>
      CustomInputDone(JsonStr(json, "input"), JsonStr(json, "item_id"), JsonOutputIndex(json))
    case ShellCallCommandAdded => ExtractShellCommand(json, Added(JsonStr(json, "command")))
    case ShellCallCommandDelta => ExtractShellCommand(json, Delta(JsonStr(json, "delta")))
    case ShellCallCommandDone => ExtractShellCommand(json, Finished(JsonStr(json, "command")))
    case ReasoningTextDelta =>
      ReasoningDelta(JsonStr(json, "delta"), JsonStr(json, "item_id"), JsonOutputIndex(json),
        JsonU32(json, "content_index"))
    case ReasoningTextDone =>
      ReasoningDone(JsonStr(json, "text"), JsonStr(json, "item_id"), JsonOutputIndex(json),
        JsonU32(json, "content_index"))
    case ReasoningSummaryTextDelta =>
      SummaryDelta(JsonStr(json, "delta"), JsonStr(json, "item_id"), JsonOutputIndex(json),
        JsonU32(json, "summary_index"))
    case ReasoningSummaryTextDone =>
      SummaryDone(JsonStr(json, "text"), JsonStr(json, "item_id"), JsonOutputIndex(json),
        JsonU32(json, "summary_index"))
    case _ => Raw(json)
  }

  // ----- normalization -----

  datatype InvalidOutputIndex = InvalidOutputIndex

  /** An event without a textual type is of the catch-all type. */
  function TypeOf(name: Option<string>): SSEEventType {
    match name
    case Some(n) => Classify(n)
    case None => Other
  }

  predicate IsIncompleteCompletion(json: Json) {
    TypeOf(JsonStrOpt(json, "type")) == ResponseCompleted
      && Member(Member(json, "response"), "status") == Text("incomplete")
  }

  /** A completion that ran out of tokens is turned into the event that says so. */
  function Rewritten(json: Json): Json {
    if IsIncompleteCompletion(json) then Object(Insert(json.fields, "type", Text(RESPONSE_INCOMPLETE))) else json
  }

  const ENVELOPE: set<string> := {"type", "sequence_number", "output_index"}

  /** Reads the envelope: `None` where the typed decoding of it fails. */
  function WireOf(json: Json): Option<WireEvent> {
    if !json.Object? then None
    else
      var name, number, index := Member(json, "type"), Member(json, "sequence_number"), Member(json, "output_index");
      if (name.Text? || name.Null?) && (number.Integer? || number.Null?) && (AsU64(index).Some? || index.Null?)
      then Some(WireEvent(AsStr(name), AsU64(number), AsU64(index),
                          Without(json.fields, ENVELOPE)))
      else None
  }

  function Normalized(json: Json, decode: Decoder): Result<Option<EventFrame>, InvalidOutputIndex> {
    if Get(json, "output_index").Some? && JsonOutputIndex(json).None? then Failure(InvalidOutputIndex)
    else
      var eventType := if IsIncompleteCompletion(json) then ResponseIncomplete else TypeOf(JsonStrOpt(json, "type"));
      match WireOf(Rewritten(json))
      case None => Success(None)
      case Some(wire) => Success(Some(EventFrame(eventType, ExtractPayload(eventType, Rewritten(json), decode), wire)))
  }

  method NormalizeSseValue(value: Json, decode: Decoder) returns (r: Result<Option<EventFrame>, InvalidOutputIndex>)
    ensures r == Normalized(value, decode)
  {
    var json := value;
    if Get(json, "output_index").Some? && JsonOutputIndex(json).None? {
      return Failure(InvalidOutputIndex);
    }
    var eventType := TypeOf(JsonStrOpt(json, "type"));
    if eventType == ResponseCompleted && Member(Member(json, "response"), "status") == Text("incomplete") {
      eventType := ResponseIncomplete;
      json := Object(Insert(json.fields, "type", Text(RESPONSE_INCOMPLETE)));
    }
    var payload := ExtractPayload(eventType, json, decode);
    match WireOf(json) {
      case None => return Success(None);
      case Some(wire) => return Success(Some(EventFrame(eventType, payload, wire)));
    }
  }

  // ----- strict validation -----

  datatype EventError =
    | NoEventType
    | MissingField(field: string)
    | UnsupportedItemType
    | UnexpectedStatus(status: string)
    | InvalidItem

  datatype ValidatedItem = ValidatedItem(
    itemId: string, outputIndex: nat, itemType: SSEItemType, doneItem: Option<TypedItem>)

  /** The item an event is about, if it is about one. */
  type Validated = Result<Option<ValidatedItem>, EventError>

  function RequiredString(fields: Fields, field: string): Result<string, EventError> {
    match Lookup(fields, field)
    case Some(Text(text)) => Success(text)
    case _ => Failure(MissingField(field))
  }

  function RequiredStr(fields: Fields, field: string): Result<string, EventError> {
    match Lookup(fields, field)
    case Some(Text(text)) => if text == "" then Failure(MissingField(field)) else Success(text)
    case _ => Failure(MissingField(field))
  }

  function RequiredObject(fields: Fields, field: string): Result<Fields, EventError> {
    match Lookup(fields, field)
    case Some(Object(members)) => Success(members)
    case _ => Failure(MissingField(field))
  }

  function RequiredU32(fields: Fields, field: string): Result<nat, EventError> {
    match Lookup(fields, field)
    case Some(Integer(n)) => if 0 <= n <= U32_MAX then Success(n) else Failure(MissingField(field))
    case _ => Failure(MissingField(field))
  }

  function RequiredOutputIndex(frame: EventFrame): Result<nat, EventError> {
    match frame.wire.outputIndex
    case Some(index) => if index <= U32_MAX then Success(index) else Failure(MissingField("output_index"))
    case None => Failure(MissingField("output_index"))
  }

  function ExpectedItemType(eventType: SSEEventType): Option<SSEItemType> {
    match eventType
    case OutputTextDelta | OutputTextDone | ContentPartAdded | ContentPartDone => Some(Message)
    case FunctionCallArgumentsDelta | FunctionCallArgumentsDone => Some(FunctionCall)
    case CustomToolCallInputDelta | CustomToolCallInputDone => Some(CustomToolCall)
    case ShellCallCommandAdded | ShellCallCommandDelta | ShellCallCommandDone => Some(ShellCall)
    case ReasoningTextDelta | ReasoningTextDone | ReasoningPartAdded | ReasoningPartDone
      | ReasoningSummaryTextDelta | ReasoningSummaryTextDone => Some(Reasoning)
    case WebSearchCallInProgress | WebSearchCallSearching | WebSearchCallCompleted => Some(WebSearchCall)
    case McpCallInProgress | McpCallArgumentsDelta | McpCallArgumentsDone | McpCallCompleted | McpCallFailed =>
      Some(McpCall)
    case McpListToolsInProgress | McpListToolsCompleted | McpListToolsFailed => Some(McpListTools)
    case _ => None
  }

  /** The id and type an item carries; the id may stand under either of two names. */
  function OutputItemIdentity(item: Fields): Result<(string, SSEItemType), EventError> {
    var id := RequiredStr(item, "id");
    var itemId := RequiredStr(item, "item_id");
    if id.Failure? && itemId.Failure? then Failure(MissingField("id"))
    else
      match RequiredStr(item, "type")
      case Failure(e) => Failure(e)
      case Success(name) =>
        match ParseItemType(name)
        case None => Failure(UnsupportedItemType)
        case Some(t) => Success((if id.Success? then id.value else itemId.value, t))
  }

  function ValidateResponseEvent(frame: EventFrame): Validated {
    match RequiredObject(frame.wire.rest, "response")
    case Failure(e) => Failure(e)
    case Success(response) =>
      match RequiredStr(response, "id")
      case Failure(e) => Failure(e)
      case Success(_) =>
        match RequiredStr(response, "status")
        case Failure(e) => Failure(e)
        case Success(status) =>
          if status == ExpectedStatus(frame.eventType) then Success(None) else Failure(UnexpectedStatus(status))
  }

  function ExpectedStatus(eventType: SSEEventType): string {
    match eventType
    case ResponseCompleted => "completed"
    case ResponseFailed => "failed"
    case ResponseIncomplete => "incomplete"
    case _ => "in_progress"
  }

  function ValidateOutputItem(frame: EventFrame, complete: bool, decode: Decoder): Validated {
    match RequiredOutputIndex(frame)
    case Failure(e) => Failure(e)
    case Success(outputIndex) =>
      match RequiredObject(frame.wire.rest, "item")
      case Failure(e) => Failure(e)
      case Success(item) =>
        match OutputItemIdentity(item)
        case Failure(e) => Failure(e)
        case Success((itemId, itemType)) =>
          if !complete then Success(Some(ValidatedItem(itemId, outputIndex, itemType, None)))
          else
            match Canonical(item)
            case Failure(e) => Failure(e)
            case Success(canonical) =>
              match decode(canonical)
              case None => Failure(InvalidItem)
              case Some(output) =>
                if output.itemType != Some(itemType) then Failure(UnsupportedItemType)
                else Success(Some(ValidatedItem(itemId, outputIndex, itemType, Some(output))))
  }

  function Canonical(item: Fields): Result<Json, EventError> {
    if NonEmpty(JsonStrOpt(Object(item), "id")).Some? then Success(Object(item))
    else
      match RequiredStr(item, "item_id")
      case Failure(e) => Failure(e)
      case Success(id) => Success(Object(Insert(item, "id", Text(id))))
  }

  predicate IsShellCommand(eventType: SSEEventType) {
    eventType in {ShellCallCommandAdded, ShellCallCommandDelta, ShellCallCommandDone}
  }

  /** Only shell command events may leave the item's id out. */
  function ValidateEventItemId(frame: EventFrame): Result<string, EventError> {
    if IsShellCommand(frame.eventType) && Lookup(frame.wire.rest, "item_id").None? then Success("")
    else RequiredStr(frame.wire.rest, "item_id")
  }

  function RequiredIndexField(eventType: SSEEventType): Option<string> {
    match eventType
    case ShellCallCommandAdded | ShellCallCommandDelta | ShellCallCommandDone => Some("command_index")
    case OutputTextDelta | OutputTextDone | ContentPartAdded | ContentPartDone
      | ReasoningTextDelta | ReasoningTextDone | ReasoningPartAdded | ReasoningPartDone => Some("content_index")
    case ReasoningSummaryTextDelta | ReasoningSummaryTextDone => Some("summary_index")
    case _ => None
  }

  function RequiredTextField(eventType: SSEEventType): Option<string> {
    match eventType
    case OutputTextDelta | FunctionCallArgumentsDelta | CustomToolCallInputDelta | ShellCallCommandDelta
      | ReasoningTextDelta | ReasoningSummaryTextDelta | McpCallArgumentsDelta => Some("delta")
    case OutputTextDone | ReasoningTextDone | ReasoningSummaryTextDone => Some("text")
    case FunctionCallArgumentsDone | McpCallArgumentsDone => Some("arguments")
    case CustomToolCallInputDone => Some("input")
    case ShellCallCommandAdded | ShellCallCommandDone => Some("command")
    case _ => None
  }

  predicate RequiresPart(eventType: SSEEventType) {
    eventType in {ContentPartAdded, ContentPartDone, ReasoningPartAdded, ReasoningPartDone}
  }

  /** The first required field that is missing. */
  function ValidateEventFields(event: Fields, eventType: SSEEventType): Option<EventError> {
    var index, text := RequiredIndexField(eventType), RequiredTextField(eventType);
    if index.Some? && RequiredU32(event, index.value).Failure? then Some(MissingField(index.value))
    else if RequiresPart(eventType) && RequiredObject(event, "part").Failure? then Some(MissingField("part"))
    else if text.Some? && RequiredString(event, text.value).Failure? then Some(MissingField(text.value))
    else None
  }

  function ValidateItemEvent(frame: EventFrame): Validated {
    match RequiredOutputIndex(frame)
    case Failure(e) => Failure(e)
    case Success(outputIndex) =>
      match ValidateEventItemId(frame)
      case Failure(e) => Failure(e)
      case Success(itemId) =>
        match ValidateEventFields(frame.wire.rest, frame.eventType)
        case Some(e) => Failure(e)
        case None =>
          match ExpectedItemType(frame.eventType)
          case None => Failure(UnsupportedItemType)
          case Some(itemType) => Success(Some(ValidatedItem(itemId, outputIndex, itemType, None)))
  }

  function ValidateFrame(frame: EventFrame, decode: Decoder): Validated {
    if NonEmpty(frame.wire.eventType).None? then Failure(NoEventType)
    else
      match frame.eventType
      case ResponseCreated | ResponseInProgress | ResponseCompleted | ResponseFailed | ResponseIncomplete =>
        ValidateResponseEvent(frame)
      case OutputItemAdded => ValidateOutputItem(frame, false, decode)
      case OutputItemDone => ValidateOutputItem(frame, true, decode)
      case Other => Success(None)
      case _ => ValidateItemEvent(frame)
  }

  // ----- both readings agree -----

  ghost predicate IsFrameOf(frame: EventFrame, json: Json, decode: Decoder) {
    Normalized(json, decode) == Success(Some(frame))
  }

  lemma RewrittenFields(json: Json, key: string)
    ensures Get(Rewritten(json), key) ==
            if IsIncompleteCompletion(json) && key == "type" then Some(Text(RESPONSE_INCOMPLETE)) else Get(json, key)
  {
    hide Classify;
    if IsIncompleteCompletion(json) {
      LookupAfterInsert(json.fields, "type", Text(RESPONSE_INCOMPLETE), key);
    }
  }

  /** The type on the wire always classifies to the frame's type, also after the rewrite of a completion
      that ran out of tokens; the envelope keeps every field of the value but the three it names. */
  lemma WireTypeIsFrameType(json: Json, decode: Decoder, frame: EventFrame)
    ensures IsFrameOf(frame, json, decode) ==>
      && frame.eventType == TypeOf(frame.wire.eventType)
      && frame.wire.outputIndex == JsonOutputIndex(json)
      && forall key: string | key !in ENVELOPE :: Lookup(frame.wire.rest, key) == Get(json, key)
  {
    hide Classify, IsIncompleteCompletion;
    if !IsFrameOf(frame, json, decode) {
      return;
    }
    IncompleteIsClassified();
    RewrittenFields(json, "type");
    RewrittenFields(json, "output_index");
    forall key: string | key !in ENVELOPE
      ensures Lookup(Without(Rewritten(json).fields, ENVELOPE), key) == Get(json, key)
    {
      RewrittenFields(json, key);
      LookupWithout(Rewritten(json).fields, ENVELOPE, key);
    }
  }

  /** Events whose payload is a change to one item. */
  predicate IsItemChange(eventType: SSEEventType) {
    RequiredTextField(eventType).Some? && eventType != McpCallArgumentsDelta && eventType != McpCallArgumentsDone
  }

  predicate CarriesItem(payload: EventPayload) {
    !payload.Response? && !payload.Raw?
  }

  function ChangedText(payload: EventPayload): string
    requires CarriesItem(payload) && !payload.ItemAdded? && !payload.ItemDone?
  {
    match payload
    case TextDelta(delta, _, _, _) => delta
    case TextDone(text, _, _) => text
    case FunctionCallArgsDelta(delta, _, _, _) => delta
    case FunctionCallArgsDone(arguments, _, _, _, _) => arguments
    case ShellCallCommand(_, _, _, update) => update.text
    case CustomInputDelta(delta, _, _) => delta
    case CustomInputDone(input, _, _) => input
    case ReasoningDelta(delta, _, _, _) => delta
    case ReasoningDone(text, _, _, _) => text
    case SummaryDelta(delta, _, _, _) => delta
    case SummaryDone(text, _, _, _) => text
  }

  /** The content, summary or command index a payload carries. */
  function PartIndex(payload: EventPayload): Option<nat> {
    match payload
    case TextDelta(_, _, _, index) => Some(index)
    case ShellCallCommand(_, _, index, _) => Some(index)
    case ReasoningDelta(_, _, _, index) => Some(index)
    case ReasoningDone(_, _, _, index) => Some(index)
    case SummaryDelta(_, _, _, index) => Some(index)
    case SummaryDone(_, _, _, index) => Some(index)
    case _ => None
  }

  function PayloadOutputIndex(payload: EventPayload): Option<nat>
    requires CarriesItem(payload)
  {
    if payload.ShellCallCommand? then Some(payload.commandOutputIndex) else payload.outputIndex
  }

  /** The index of the item a frame is about, if it was supplied. */
  function OutputIndex(frame: EventFrame): Option<nat> {
    if CarriesItem(frame.payload) && !frame.payload.ShellCallCommand? then frame.payload.outputIndex
    else if frame.wire.outputIndex.Some? && frame.wire.outputIndex.value <= U32_MAX then frame.wire.outputIndex
    else None
  }

  /** Nothing in the payload was made up: its id, text and indices stand in the JSON value as they are, with
      the one exception that a shell command may leave the id out. */
  ghost predicate WrittenInFull(payload: EventPayload, eventType: SSEEventType, json: Json)
    requires CarriesItem(payload) && !payload.ItemAdded? && !payload.ItemDone?
  {
    && PayloadOutputIndex(payload).Some?
    && Get(json, "output_index") == Some(Integer(PayloadOutputIndex(payload).value))
    && (if payload.ShellCallCommand? && Get(json, "item_id").None? then payload.itemId == ""
        else payload.itemId != "" && Get(json, "item_id") == Some(Text(payload.itemId)))
    && (RequiredTextField(eventType).Some? ==>
          Get(json, RequiredTextField(eventType).value) == Some(Text(ChangedText(payload))))
    && (RequiredIndexField(eventType).Some? ==>
          && AsU32(Member(json, RequiredIndexField(eventType).value)).Some?
          && (PartIndex(payload).Some? ==>
                Get(json, RequiredIndexField(eventType).value) == Some(Integer(PartIndex(payload).value))))
  }

  lemma FieldsOfTheEnvelope(fields: Fields, json: Json, field: string)
    requires Lookup(fields, field) == Get(json, field)
    ensures RequiredStr(fields, field) == match NonEmpty(JsonStrOpt(json, field))
                                          case Some(text) => Success(text)
                                          case None => Failure(MissingField(field))
    ensures RequiredString(fields, field).Success? <==> Get(json, field) == Some(Text(JsonStr(json, field)))
    ensures RequiredU32(fields, field) == match AsU32(Member(json, field))
                                          case Some(n) => Success(n)
                                          case None => Failure(MissingField(field))
    ensures RequiredU32(fields, field).Success? <==> Get(json, field) == Some(Integer(JsonU32(json, field)))
  {
  }

  /** The payload of an item change, field by field. */
  lemma ItemChangePayload(eventType: SSEEventType, json: Json, decode: Decoder)
    requires IsItemChange(eventType)
    ensures var p := ExtractPayload(eventType, json, decode);
      && CarriesItem(p) && !p.ItemAdded? && !p.ItemDone? && (p.ShellCallCommand? <==> IsShellCommand(eventType))
      && p.itemId == JsonStr(json, "item_id")
      && PayloadOutputIndex(p)
           == (if p.ShellCallCommand? then Some(JsonU32(json, "output_index")) else JsonOutputIndex(json))
  {
    hide JsonStr, JsonU32, JsonOutputIndex, JsonStrOpt, ExtractResponse, ExtractItemAdded, ExtractItemDone;
  }

  lemma ItemChangeText(eventType: SSEEventType, json: Json, decode: Decoder)
    requires IsItemChange(eventType)
    ensures var p := ExtractPayload(eventType, json, decode);
      CarriesItem(p) && !p.ItemAdded? && !p.ItemDone?
        && ChangedText(p) == JsonStr(json, RequiredTextField(eventType).value)
  {
    hide JsonStr, JsonU32, JsonOutputIndex, JsonStrOpt, ExtractResponse, ExtractItemAdded, ExtractItemDone;
  }

  lemma ItemChangeIndex(eventType: SSEEventType, json: Json, decode: Decoder)
    requires IsItemChange(eventType)
    ensures var p := ExtractPayload(eventType, json, decode);
      PartIndex(p).Some? ==> RequiredIndexField(eventType).Some?
                             && PartIndex(p).value == JsonU32(json, RequiredIndexField(eventType).value)
  {
    hide JsonStr, JsonU32, JsonOutputIndex, JsonStrOpt, ExtractResponse, ExtractItemAdded, ExtractItemDone;
    if IsShellCommand(eventType) {
      ShellCommandIndex(eventType, json, decode);
    }
  }

  lemma ShellCommandIndex(eventType: SSEEventType, json: Json, decode: Decoder)
    requires IsShellCommand(eventType)
    ensures var p := ExtractPayload(eventType, json, decode);
      RequiredIndexField(eventType).Some? && PartIndex(p) == Some(JsonU32(json, RequiredIndexField(eventType).value))
  {
    hide JsonStr, JsonU32, JsonOutputIndex, JsonStrOpt, ExtractResponse, ExtractItemAdded, ExtractItemDone;
  }

  /** The text under a key, if there is one. */
  function TextUnder(json: Json, key: string): Option<string> {
    match Get(json, key)
    case Some(Text(text)) => Some(text)
    case _ => None
  }

  function ValueUnder(json: Json, key: string): Json {
    match Get(json, key)
    case Some(value) => value
    case None => Null
  }

  predicate IsTextOrEmpty(text: string, json: Json, key: string) {
    text == (if TextUnder(json, key).Some? then TextUnder(json, key).value else "")
  }

  /** What extraction keeps beside ids, indices and changed text, and which kind of payload each event has. */
  lemma OtherFieldsAsWritten(eventType: SSEEventType, json: Json, decode: Decoder)
    ensures var p := ExtractPayload(eventType, json, decode);
      && (p.FunctionCallArgsDelta? <==> eventType == FunctionCallArgumentsDelta)
      && (p.FunctionCallArgsDelta? ==> p.callId == TextUnder(json, "call_id"))
      && (p.FunctionCallArgsDone? <==> eventType == FunctionCallArgumentsDone)
      && (p.FunctionCallArgsDone? ==>
            p.callId == TextUnder(json, "call_id") && IsTextOrEmpty(p.fnName, json, "name"))
      && (p.ItemAdded? <==> eventType == OutputItemAdded)
      && (p.ItemAdded? ==>
            var item := ValueUnder(json, "item");
            && p.name == TextUnder(item, "name") && p.nameSpace == TextUnder(item, "namespace")
            && p.callId == TextUnder(item, "call_id")
            && p.shellCall == if TextUnder(item, "type") == Some("shell_call") && decode(item).Some?
                                 && decode(item).value.itemType == Some(ShellCall) then decode(item) else None)
      && (p.ItemDone? <==> eventType == OutputItemDone)
      && (p.Response? <==>
            eventType in {ResponseCreated, ResponseInProgress, ResponseCompleted, ResponseFailed, ResponseIncomplete})
      && (p.Response? ==>
            var response := ValueUnder(json, "response");
            && IsTextOrEmpty(p.id, response, "id") && IsTextOrEmpty(p.status, response, "status")
            && p.usage == if Get(response, "usage") == Some(Null) then None else Get(response, "usage"))
      && (p.ShellCallCommand? <==> eventType in {ShellCallCommandAdded, ShellCallCommandDelta, ShellCallCommandDone})
      && (p.ShellCallCommand? ==>
            match eventType
            case ShellCallCommandAdded => p.update.Added?
            case ShellCallCommandDelta => p.update.Delta?
            case _ => p.update.Finished?)
  {
    hide JsonU32, JsonOutputIndex, ExtractItemAdded, ExtractItemDone, ExtractResponse;
    AddedAsWritten(json, decode);
    DoneIsDone(json);
    ResponseAsWritten(json);
  }

  lemma AddedAsWritten(json: Json, decode: Decoder)
    ensures var p, item := ExtractItemAdded(json, decode), ValueUnder(json, "item");
      && p.ItemAdded?
      && p.name == TextUnder(item, "name") && p.nameSpace == TextUnder(item, "namespace")
      && p.callId == TextUnder(item, "call_id")
      && p.shellCall == if TextUnder(item, "type") == Some("shell_call") && decode(item).Some?
                           && decode(item).value.itemType == Some(ShellCall) then decode(item) else None
  {
    hide JsonOutputIndex, ParseItemType, OutputItemId, ItemTypeFrom;
  }

  lemma DoneIsDone(json: Json)
    ensures ExtractItemDone(json).ItemDone?
  {
    hide JsonOutputIndex, ParseItemType, WithId, OutputItemId, ItemTypeFrom;
  }

  lemma ResponseAsWritten(json: Json)
    ensures var p, response := ExtractResponse(json), ValueUnder(json, "response");
      && p.Response? && IsTextOrEmpty(p.id, response, "id") && IsTextOrEmpty(p.status, response, "status")
      && p.usage == if Get(response, "usage") == Some(Null) then None else Get(response, "usage")
  {
  }

  lemma UnnamedIsOther(name: Option<string>)
    requires TypeOf(name) != Other
    ensures NonEmpty(name).Some?
  {
    hide Classify;
    EmptyIsOther();
  }

  lemma EmptyIsOther()
    ensures Classify("") == Other
  {
    hide ClassifyContent;
    EmptyIsNoContent();
  }

  lemma EmptyIsNoContent()
    ensures ClassifyContent("") == Other
  {
    hide ClassifyToolCall;
    EmptyIsNoToolCall();
  }

  lemma EmptyIsNoToolCall()
    ensures ClassifyToolCall("") == Other
  {
  }

  /** What validation asks of an event that changes an item. */
  lemma ItemChangeValidation(frame: EventFrame, decode: Decoder)
    requires IsItemChange(frame.eventType) && NonEmpty(frame.wire.eventType).Some?
    ensures var fields, index := frame.wire.rest, RequiredIndexField(frame.eventType);
      ValidateFrame(frame, decode).Success? <==>
      && RequiredOutputIndex(frame).Success? && ValidateEventItemId(frame).Success?
      && (index.Some? ==> RequiredU32(fields, index.value).Success?)
      && RequiredString(fields, RequiredTextField(frame.eventType).value).Success?
    ensures ValidateFrame(frame, decode).Success? ==>
      ValidateFrame(frame, decode).value == Some(ValidatedItem(
        ValidateEventItemId(frame).value, RequiredOutputIndex(frame).value, ExpectedItemType(frame.eventType).value,
          None))
    ensures ExpectedItemType(frame.eventType).Some?
  {
    hide RequiredU32, RequiredString, RequiredOutputIndex, ValidateEventItemId;
  }

  lemma ItemIdAsWritten(frame: EventFrame, json: Json)
    requires Lookup(frame.wire.rest, "item_id") == Get(json, "item_id")
    ensures var id, absent := JsonStr(json, "item_id"), IsShellCommand(frame.eventType) && Get(json, "item_id").None?;
      && (ValidateEventItemId(frame).Success? <==> absent || (id != "" && Get(json, "item_id") == Some(Text(id))))
      && (ValidateEventItemId(frame).Success? ==> ValidateEventItemId(frame).value == id)
      && (Get(json, "item_id").None? ==> id == "")
  {
  }

  lemma OutputIndexAsWritten(json: Json, frame: EventFrame)
    requires frame.wire.outputIndex == JsonOutputIndex(json)
    ensures RequiredOutputIndex(frame).Success? <==> JsonOutputIndex(json).Some?
    ensures RequiredOutputIndex(frame).Success? ==> RequiredOutputIndex(frame).value == JsonOutputIndex(json).value
    ensures JsonOutputIndex(json).Some? <==> Get(json, "output_index") == Some(Integer(JsonU32(json, "output_index")))
    ensures JsonOutputIndex(json).Some? ==> JsonOutputIndex(json).value == JsonU32(json, "output_index") <= U32_MAX
  {
  }

  /** An event that changes an item passes validation exactly when the extractor had nothing to make up,
      and then both readings name the same item by the same id, index and type. */
  lemma ValidItemChangesAreWrittenInFull(json: Json, decode: Decoder, frame: EventFrame)
    ensures IsFrameOf(frame, json, decode) && IsItemChange(frame.eventType) ==>
      && CarriesItem(frame.payload) && !frame.payload.ItemAdded? && !frame.payload.ItemDone?
      && (ValidateFrame(frame, decode).Success? <==> WrittenInFull(frame.payload, frame.eventType, json))
      && (ValidateFrame(frame, decode).Success? ==>
            && PayloadOutputIndex(frame.payload).Some? && ExpectedItemType(frame.eventType).Some?
            && ValidateFrame(frame, decode).value == Some(ValidatedItem(
                 frame.payload.itemId, PayloadOutputIndex(frame.payload).value, ExpectedItemType(frame.eventType).value,
                   None))
            && OutputIndex(frame) == PayloadOutputIndex(frame.payload))
  {
    hide Classify, IsIncompleteCompletion, JsonStr, JsonU32, JsonOutputIndex, JsonStrOpt, ExtractPayload, WireOf,
      ValidateFrame, RequiredU32, RequiredString, RequiredStr, RequiredOutputIndex, ValidateEventItemId,
      ExpectedItemType, ChangedText, PartIndex, RequiredIndexField, RequiredTextField, IsItemChange;
    if !IsFrameOf(frame, json, decode) || !IsItemChange(frame.eventType) {
      return;
    }
    FieldNamesAreFree(frame.eventType);
    WireTypeIsFrameType(json, decode, frame);
    UnnamedIsOther(frame.wire.eventType);
    ItemChangePayload(frame.eventType, json, decode);
    ItemChangeText(frame.eventType, json, decode);
    ItemChangeIndex(frame.eventType, json, decode);
    ItemChangeValidation(frame, decode);
    ItemIdAsWritten(frame, json);
    OutputIndexAsWritten(json, frame);
    if RequiredIndexField(frame.eventType).Some? {
      FieldsOfTheEnvelope(frame.wire.rest, json, RequiredIndexField(frame.eventType).value);
    }
    FieldsOfTheEnvelope(frame.wire.rest, json, RequiredTextField(frame.eventType).value);
  }

  lemma FieldNamesAreFree(eventType: SSEEventType)
    requires IsItemChange(eventType)
    ensures eventType != Other && eventType != ResponseIncomplete
    ensures RequiredTextField(eventType).Some? && RequiredTextField(eventType).value !in ENVELOPE
    ensures RequiredIndexField(eventType).Some? ==> RequiredIndexField(eventType).value !in ENVELOPE
    ensures "item_id" !in ENVELOPE
  {
  }

  /** For an added or finished item both readings agree on its id, type and index; a finished item is handed
      on with its id in place, and is the very value the validator decoded. */
  lemma ValidItemsAgree(json: Json, decode: Decoder, frame: EventFrame)
    ensures IsFrameOf(frame, json, decode) && frame.eventType in {OutputItemAdded, OutputItemDone} ==>
      && (frame.payload.ItemAdded? || frame.payload.ItemDone?)
      && var v := ValidateFrame(frame, decode);
      v.Success? ==>
      && v.value.Some? && frame.payload.itemId == v.value.value.itemId != ""
      && frame.payload.itemType == v.value.value.itemType
      && frame.payload.outputIndex == Some(v.value.value.outputIndex) == OutputIndex(frame)
      && Get(json, "output_index") == Some(Integer(v.value.value.outputIndex))
      && (frame.payload.ItemDone? ==>
            && v.value.value.doneItem.Some? && decode(frame.payload.item) == v.value.value.doneItem
            && Get(frame.payload.item, "id") == Some(Text(frame.payload.itemId))
            && v.value.value.doneItem.value.itemType == Some(frame.payload.itemType))
  {
    hide Classify, IsIncompleteCompletion, WireOf, ParseItemType, JsonOutputIndex, JsonU32, RequiredOutputIndex,
      OutputItemIdentity, OutputItemId, ItemTypeFrom, WithId, Canonical, JsonStr, JsonStrOpt;
    if !IsFrameOf(frame, json, decode) || frame.eventType !in {OutputItemAdded, OutputItemDone} {
      return;
    }
    WireTypeIsFrameType(json, decode, frame);
    OutputIndexAsWritten(json, frame);
    assert "item" !in ENVELOPE;
    if RequiredObject(frame.wire.rest, "item").Success? {
      var item := RequiredObject(frame.wire.rest, "item").value;
      assert Member(json, "item") == Object(item);
      if OutputItemIdentity(item).Success? {
        IdentityAsWritten(item);
        CanonicalIsWithId(item);
      }
    }
  }

  lemma IdentityAsWritten(item: Fields)
    requires OutputItemIdentity(item).Success?
    ensures OutputItemIdentity(item).value == (OutputItemId(Object(item)), ItemTypeFrom(JsonStr(Object(item), "type")))
    ensures OutputItemId(Object(item)) != ""
  {
    hide ParseItemType;
  }

  /** The extractor and the validator put the id in the same place. */
  lemma CanonicalIsWithId(item: Fields)
    requires OutputItemIdentity(item).Success?
    ensures var id, done := OutputItemId(Object(item)), WithId(Object(item), OutputItemId(Object(item)));
      && Canonical(item) == Success(done) && Get(done, "id") == Some(Text(id))
      && JsonStr(done, "type") == JsonStr(Object(item), "type")
  {
    hide ParseItemType;
    LookupAfterInsert(item, "id", Text(OutputItemId(Object(item))), "id");
    LookupAfterInsert(item, "id", Text(OutputItemId(Object(item))), "type");
  }

  /** A lifecycle event that validates shows its response's id and the status that its type calls for. */
  lemma ValidResponsesAgree(json: Json, decode: Decoder, frame: EventFrame)
    requires IsFrameOf(frame, json, decode)
    requires frame.eventType in {ResponseCreated, ResponseInProgress, ResponseCompleted, ResponseFailed,
      ResponseIncomplete}
    ensures frame.payload.Response?
    ensures ValidateFrame(frame, decode).Success? <==>
      && frame.payload.id != "" && Member(Member(json, "response"), "id") == Text(frame.payload.id)
      && frame.payload.status == ExpectedStatus(frame.eventType)
      && Member(Member(json, "response"), "status") == Text(frame.payload.status)
  {
    hide Classify, WireOf, IsIncompleteCompletion;
    WireTypeIsFrameType(json, decode, frame);
    UnnamedIsOther(frame.wire.eventType);
    RewrittenFields(json, "response");
    assert "response" !in ENVELOPE;
  }

  /** Events without a typed payload hand the whole value on; if they validate, their item's id and index are
      those of that value. */
  lemma ValidRawEventsAgree(json: Json, decode: Decoder, frame: EventFrame)
    ensures IsFrameOf(frame, json, decode) && frame.payload.Raw? && frame.eventType != Other ==>
      && frame.payload.raw == json
      && (ValidateFrame(frame, decode).Success? ==>
            && ValidateFrame(frame, decode).value.Some?
            && var v := ValidateFrame(frame, decode).value.value;
               && v.itemId != "" && Get(frame.payload.raw, "item_id") == Some(Text(v.itemId))
               && Get(frame.payload.raw, "output_index") == Some(Integer(v.outputIndex))
               && OutputIndex(frame) == Some(v.outputIndex))
  {
    hide Classify, IsIncompleteCompletion, JsonStr, JsonU32, JsonOutputIndex, JsonStrOpt, WireOf, RequiredU32,
      RequiredString, RequiredStr, RequiredOutputIndex, ValidateEventItemId, ValidateEventFields, ExpectedItemType,
      ValidateOutputItem, ValidateResponseEvent, ExtractResponse, ExtractItemAdded, ExtractItemDone,
      ExtractShellCommand, OutputItemIdentity;
    if !IsFrameOf(frame, json, decode) || !frame.payload.Raw? || frame.eventType == Other {
      return;
    }
    assert "item_id" !in ENVELOPE;
    WireTypeIsFrameType(json, decode, frame);
    UnnamedIsOther(frame.wire.eventType);
    ItemIdAsWritten(frame, json);
    OutputIndexAsWritten(json, frame);
    RawIsWholeValue(json, decode, frame);
    if RequiredOutputIndex(frame).Success? {
      RequiredIndexIsShown(frame);
    }
  }

  lemma RawIsWholeValue(json: Json, decode: Decoder, frame: EventFrame)
    requires IsFrameOf(frame, json, decode) && frame.payload.Raw? && frame.eventType != Other
    ensures frame.payload.raw == json && !IsShellCommand(frame.eventType)
    ensures ValidateFrame(frame, decode).Success? ==> ValidateFrame(frame, decode) == ValidateItemEvent(frame)
  {
    hide Classify, IsIncompleteCompletion, JsonStr, JsonU32, JsonOutputIndex, JsonStrOpt, WireOf, ValidateItemEvent,
      ValidateOutputItem, ValidateResponseEvent, OutputItemId, WithId, ItemTypeFrom;
  }

  lemma RequiredIndexIsShown(frame: EventFrame)
    requires frame.payload.Raw? && RequiredOutputIndex(frame).Success?
    ensures OutputIndex(frame) == Some(RequiredOutputIndex(frame).value)
  {
  }

  // ----- resolved output indices -----

  /** Ingestion has resolved which item the frame is about. */
  function WithOutputIndex(frame: EventFrame, index: nat): EventFrame {
    var wire := frame.wire.(outputIndex := Some(index));
    var payload :=
      match frame.payload
      case Response(_, _, _) => frame.payload
      case ShellCallCommand(_, _, _, _) => frame.payload
      case Raw(json) =>
        if json.Object? then Raw(Object(Insert(json.fields, "output_index", Integer(index)))) else Raw(json)
      case ItemAdded(id, t, _, name, space, call, shell) => ItemAdded(id, t, Some(index), name, space, call, shell)
      case ItemDone(id, t, _, item) => ItemDone(id, t, Some(index), item)
      case TextDelta(delta, id, _, part) => TextDelta(delta, id, Some(index), part)
      case TextDone(text, id, _) => TextDone(text, id, Some(index))
      case FunctionCallArgsDelta(delta, call, id, _) => FunctionCallArgsDelta(delta, call, id, Some(index))
      case FunctionCallArgsDone(arguments, call, id, name, _) =>
        FunctionCallArgsDone(arguments, call, id, name, Some(index))
      case CustomInputDelta(delta, id, _) => CustomInputDelta(delta, id, Some(index))
      case CustomInputDone(input, id, _) => CustomInputDone(input, id, Some(index))
      case ReasoningDelta(delta, id, _, part) => ReasoningDelta(delta, id, Some(index), part)
      case ReasoningDone(text, id, _, part) => ReasoningDone(text, id, Some(index), part)
      case SummaryDelta(delta, id, _, part) => SummaryDelta(delta, id, Some(index), part)
      case SummaryDone(text, id, _, part) => SummaryDone(text, id, Some(index), part);
    EventFrame(frame.eventType, payload, wire)
  }

  /** A resolved index is what the frame, its envelope and its payload show from then on, and nothing else of
      the frame changes. A shell command is the exception: its payload keeps the index that was extracted,
      so payload and envelope agree exactly when that was the resolved one. */
  lemma ResolvedIndexIsShown(frame: EventFrame, index: nat)
    requires index <= U32_MAX
    ensures var resolved := WithOutputIndex(frame, index);
      && OutputIndex(resolved) == Some(index) && resolved.wire.outputIndex == Some(index)
      && resolved.eventType == frame.eventType && resolved.wire.rest == frame.wire.rest
      && (CarriesItem(frame.payload) ==>
            && CarriesItem(resolved.payload) && PartIndex(resolved.payload) == PartIndex(frame.payload)
            && resolved.payload.itemId == frame.payload.itemId
            && (PayloadOutputIndex(resolved.payload) == Some(index) <==>
                  !frame.payload.ShellCallCommand? || frame.payload.commandOutputIndex == index))
      && (frame.payload.Raw? && frame.payload.raw.Object? ==>
            resolved.payload.Raw? && JsonOutputIndex(resolved.payload.raw) == Some(index)
            && forall key: string | key != "output_index" ::
                 Get(resolved.payload.raw, key) == Get(frame.payload.raw, key))
      && WithOutputIndex(resolved, index).payload == resolved.payload
  {
    if frame.payload.Raw? && frame.payload.raw.Object? {
      var fields := frame.payload.raw.fields;
      forall key: string
        ensures Lookup(Insert(fields, "output_index", Integer(index)), key)
          == if key == "output_index" then Some(Integer(index)) else Lookup(fields, key)
      {
        LookupAfterInsert(fields, "output_index", Integer(index), key);
      }
      InsertTwice(fields, "output_index", Integer(index));
    }
  }

  lemma {:induction false} InsertTwice(fields: Fields, key: string, member: Json)
    ensures Insert(Insert(fields, key, member), key, member) == Insert(fields, key, member)
    decreases |fields|
  {
    if fields != [] && fields[0].key != key {
      InsertTwice(fields[1..], key, member);
      assert Insert(fields, key, member)[1..] == Insert(fields[1..], key, member);
    }
  }

  /** A shell command that leaves its index out is item 1 of the response, but its payload says item 0. */
  lemma ShellCommandKeepsZero(decode: Decoder)
    ensures var json :=
      Object([Field("type", Text("response.shell_call_command.added")), Field("command", Text("ls"))]);
      && Normalized(json, decode).Success? && Normalized(json, decode).value.Some?
      && var resolved := WithOutputIndex(Normalized(json, decode).value.value, 1);
         && OutputIndex(resolved) == Some(1) && CarriesItem(resolved.payload)
         && PayloadOutputIndex(resolved.payload) == Some(0)
  {
    hide Classify;
    var fields := [Field("type", Text("response.shell_call_command.added")), Field("command", Text("ls"))];
    ClassifiesShellCommand();
    assert fields[1..] == [Field("command", Text("ls"))];
    assert Lookup(fields, "type") == Some(Text("response.shell_call_command.added"));
    assert Lookup(fields, "output_index").None? && Lookup(fields, "sequence_number").None?;
  }

  lemma ClassifiesShellCommand()
    ensures Classify("response.shell_call_command.added") == ShellCallCommandAdded
  {
    hide ClassifyContent;
    ContentClassifiesShellCommand();
  }

  lemma ContentClassifiesShellCommand()
    ensures ClassifyContent("response.shell_call_command.added") == ShellCallCommandAdded
  {
    hide ClassifyCommand;
    CommandClassifiesShellCommand();
  }

  lemma CommandClassifiesShellCommand()
    ensures ClassifyCommand("response.shell_call_command.added") == ShellCallCommandAdded
  {
    hide ClassifyToolCall;
  }

  /** A frame on its way through ingestion. */
  class FrameInFlight {
    const eventType: SSEEventType
    var payload: EventPayload
    var wire: WireEvent

    constructor (received: EventFrame)
      ensures Frame() == received
    {
      eventType := received.eventType;
      payload := received.payload;
      wire := received.wire;
    }

    function Frame(): EventFrame
      reads this
    {
      EventFrame(eventType, payload, wire)
    }

    /** First the envelope is written, then the payload, where it has a place for the index. */
    method SetOutputIndex(index: nat)
      requires index <= U32_MAX
      modifies this
      ensures Frame() == WithOutputIndex(old(Frame()), index)
      ensures OutputIndex(Frame()) == wire.outputIndex == Some(index)
      ensures CarriesItem(payload) && !payload.ShellCallCommand? ==> PayloadOutputIndex(payload) == Some(index)
      ensures payload.ShellCallCommand? ==> payload == old(payload)
      ensures payload.Raw? && payload.raw.Object? ==> JsonOutputIndex(payload.raw) == Some(index)
    {
      ResolvedIndexIsShown(Frame(), index);
      wire := wire.(outputIndex := Some(index));
      if payload.Raw? {
        if payload.raw.Object? {
          payload := Raw(Object(Insert(payload.raw.fields, "output_index", Integer(index))));
        }
      } else if CarriesItem(payload) && !payload.ShellCallCommand? {
        payload := payload.(outputIndex := Some(index));
      }
    }
  }
}
