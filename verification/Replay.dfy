/** What the model is given back of its own items in the next round: nothing of them is lost on the way. */
module Replay {
  import opened Basics
  import opened JsonValues
  import opened ConversationItems
  import opened ContextCompaction
  import opened GatewayRound
  import opened RoundEvents
  import opened AgentLoop

  // ----- JSON string literals -----

  function HexValue(c: char): Option<int> {
    if '0' <= c <= '9' then Some(c as int - '0' as int)
    else if 'a' <= c <= 'f' then Some(c as int - 'a' as int + 10)
    else None
  }

  /** Reads one character of a literal, and tells how much of it that takes. */
  function ReadChar(literal: string): Option<(char, nat)> {
    if literal == "" || literal[0] == '"' || literal[0] < ' ' then None
    else if literal[0] != '\\' then Some((literal[0], 1))
    else if |literal| < 2 then None
    else
      match literal[1]
      case '"' => Some(('"', 2))
      case '\\' => Some(('\\', 2))
      case 'n' => Some(('\n', 2))
      case 'r' => Some(('\r', 2))
      case 't' => Some(('\t', 2))
      case 'b' => Some(('\U{8}', 2))
      case 'f' => Some(('\U{C}', 2))
      case 'u' =>
        if |literal| < 6 || literal[2] != '0' || literal[3] != '0' then None
        else
          var high, low := HexValue(literal[4]), HexValue(literal[5]);
          if high.None? || low.None? then None else Some(((high.value * 16 + low.value) as char, 6))
      case _ => None
  }

  /** The text between the quotes of a literal; `None` if it does not end where it should. */
  function ReadText(literal: string): Option<string>
    decreases |literal|
  {
    if literal == "" then Some("")
    else
      match ReadChar(literal)
      case None => None
      case Some((c, n)) =>
        if n == 0 || n > |literal| then None
        else
          match ReadText(literal[n..])
          case None => None
          case Some(rest) => Some([c] + rest)
  }

  function ReadLiteral(literal: string): Option<string> {
    if |literal| >= 2 && literal[0] == '"' && literal[|literal| - 1] == '"' then ReadText(literal[1..|literal| - 1])
    else None
  }

  lemma HexRoundTrip(n: int)
    requires 0 <= n < 16
    ensures HexValue(HexDigit(n)) == Some(n)
  {
  }

  lemma ReadEscapedChar(c: char, rest: string)
    ensures ReadChar(EscapedChar(c) + rest) == Some((c, |EscapedChar(c)|))
    ensures |EscapedChar(c)| > 0 && (EscapedChar(c) + rest)[|EscapedChar(c)|..] == rest
  {
    hide HexDigit, HexValue;
    if c < ' ' {
      HexRoundTrip(c as int / 16);
      HexRoundTrip(c as int % 16);
    }
  }

  lemma {:induction false} ReadEscaped(text: string)
    ensures ReadText(Escaped(text)) == Some(text)
  {
    hide EscapedChar, ReadChar;
    if text != "" {
      ReadEscapedChar(text[0], Escaped(text[1..]));
      ReadEscaped(text[1..]);
      assert text == [text[0]] + text[1..];
    }
  }

  /** A quoted text reads back as what it was, whatever characters it holds. */
  lemma QuotedReadsBack(text: string)
    ensures ReadLiteral(Quoted(text)) == Some(text)
  {
    hide Escaped, ReadText;
    ReadEscaped(text);
    var literal := Quoted(text);
    assert literal[1..|literal| - 1] == Escaped(text);
  }

  // ----- items given back -----

  function TextsOf(parts: seq<ContentPart>): seq<string> {
    seq(|parts|, i requires 0 <= i < |parts| => if parts[i].OutputText? then parts[i].text else "")
  }

  /** The output item that an input item was made of. */
  function Original(item: InputItem): Option<OutputItem> {
    match item
    case Message(InputMessage(Some(id), role, Some(status), Parts(parts))) =>
      Some(OutMessage(OutputMessage(id, role, status, TextsOf(parts))))
    case FunctionCall(InputFunctionCall(Some(id), callId, name, nameSpace, arguments, Some(status))) =>
      Some(OutFunctionCall(FunctionToolCall(id, callId, name, nameSpace, arguments, status)))
    case SearchCall(call) => Some(OutSearchCall(call))
    case ReasoningItem(reasoning) => Some(OutReasoning(reasoning))
    case McpListing(listing) => Some(OutMcpListing(listing))
    case CompactionItem(compaction) => Some(OutCompaction(compaction))
    case _ => None
  }

  /** The id of a client's call, in the form of a function call's. */
  predicate IsFunctionId(id: string, given: Option<string>) {
    if id == "" then given.None?
    else if |id| > 4 && id[..4] == "ctc_" then given == Some("fc_" + id[4..])
    else if |id| > 3 && id[..3] == "sh_" then given == Some("fc_" + id[3..])
    else given == Some(id)
  }

  /** Messages, function calls, complete searches, reasoning, listings and checkpoints are given back such that they
      can be recovered as they were; a client's custom and shell calls as function calls of the same name, call id,
      status and input; what gateway tools showed, and what is not known, is not given back. */
  lemma ReplayLosesNothing(item: OutputItem)
    ensures var given := ToInputItem(item);
      match item
      case OutCustomCall(custom) =>
        && given.Some? && given.value.FunctionCall?
        && var call := given.value.call;
           && call.callId == custom.callId && call.name == custom.name && call.status == custom.status
           && call.nameSpace.None? && IsFunctionId(custom.id, call.id)
           && exists literal: string ::
                call.arguments == "{\"input\":" + literal + "}" && ReadLiteral(literal) == Some(custom.input)
      case OutShell(shell) =>
        && given.Some? && given.value.FunctionCall?
        && var call := given.value.call;
           && call.callId == shell.callId && call.name == "shell" && call.status == shell.status
           && call.nameSpace.None? && call.arguments == shell.action
           && if shell.id.Some? then IsFunctionId(shell.id.value, call.id) else call.id.None?
      case OutSearchCall(call) =>
        if call.completed then given.Some? && Original(given.value) == Some(item) else given.None?
      case OutWebSearch(_) => given.None?
      case OutMcpCall(_) => given.None?
      case OutUnknown => given.None?
      case _ => given.Some? && Original(given.value) == Some(item)
  {
    hide Quoted, ReadLiteral, FunctionCallItemId, IsFunctionId;
    match item {
      case OutMessage(m) => assert TextsOf(PartsOfTexts(m.texts)) == m.texts;
      case OutCustomCall(custom) =>
        QuotedReadsBack(custom.input);
        FunctionIdOf(custom.id);
        var call := ToInputItem(item).value.call;
        assert call.arguments == "{\"input\":" + Quoted(custom.input) + "}";
      case OutShell(shell) =>
        if shell.id.Some? {
          FunctionIdOf(shell.id.value);
        }
      case _ =>
    }
  }

  lemma FunctionIdOf(id: string)
    ensures IsFunctionId(id, FunctionCallItemId(id))
  {
    PrefixIs("ctc_", id);
    PrefixIs("sh_", id);
  }

  lemma PrefixIs(prefix: string, id: string)
    ensures prefix < id <==> |id| > |prefix| && id[..|prefix|] == prefix
  {
  }

  // ----- reasoning given back before the first fetch -----

  predicate IsBlankReasoning(r: Reasoning) {
    forall k | 0 <= k < |r.texts| :: r.texts[k] == ""
  }

  /** Reasoning keeps its id, status and plain text, line by line in one piece, and nothing else; reasoning without
      plain text is left out, and all other items stay as they are, in order. */
  ghost predicate IsPrepared(prepared: seq<InputItem>, items: seq<InputItem>)
    decreases |items|
  {
    if items == [] then prepared == []
    else if !items[0].ReasoningItem? then
      prepared != [] && prepared[0] == items[0] && IsPrepared(prepared[1..], items[1..])
    else if IsBlankReasoning(items[0].reasoning) then IsPrepared(prepared, items[1..])
    else
      && prepared != [] && prepared[0].ReasoningItem? && IsPrepared(prepared[1..], items[1..])
      && var r, given := items[0].reasoning, prepared[0].reasoning;
         && given.id == r.id && given.status == r.status && given.summary == [] && given.encryptedContent.None?
         && r.texts != [] && given.texts == [Lines(r.texts, |r.texts|)]
  }

  /** Preparing the input fails exactly when some reasoning holds encrypted state and no plain text. */
  lemma ReasoningIsPrepared(input: ResponsesInput)
    ensures match input
      case Text(_) => PrepareReasoning(input) == Some(input)
      case Items(items) =>
        && (PrepareReasoning(input).None? <==>
              exists k :: 0 <= k < |items| && items[k].ReasoningItem? && IsBlankReasoning(items[k].reasoning)
                          && items[k].reasoning.encryptedContent.Some?
                          && items[k].reasoning.encryptedContent.value != Json.Null)
        && (PrepareReasoning(input).Some? ==>
              PrepareReasoning(input).value.Items? && IsPrepared(PrepareReasoning(input).value.items, items))
  {
    hide PreparedItems, IsPrepared;
    if input.Items? {
      forall k | 0 <= k < |input.items| && input.items[k].ReasoningItem?
        ensures HasPlaintext(input.items[k].reasoning) <==> !IsBlankReasoning(input.items[k].reasoning)
      {
      }
      ItemsArePrepared(input.items);
    }
  }

  lemma {:induction false} ItemsArePrepared(items: seq<InputItem>)
    ensures IsPrepared(PreparedItems(items), items)
  {
    hide JoinLines, Lines;
    if items != [] {
      ItemsArePrepared(items[1..]);
      if items[0].ReasoningItem? && HasPlaintext(items[0].reasoning) {
        JoinedInLines(items[0].reasoning.texts);
      }
    }
  }
}
