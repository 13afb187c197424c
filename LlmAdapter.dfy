/** The model client of the cdss service. A base URL selects one of three provider
    dialects; a JSON request is turned into an instruction inside the message list;
    the primary service is tried first and the fallback once. Message dictionaries
    are objects: the list handed to the dialect is a shallow copy, so a change to its
    first dictionary is seen by every list that holds that dictionary. The clients
    are functions from the call they receive to its outcome, the failure being the
    text of the raised exception. */
module LlmAdapter {
  import opened Wrappers
  import opened Text
  import opened Exceptions
  import opened Prompts

  /** A message dictionary; its role never changes, its content can. */
  class MessageDict {
    const speaker: Speaker
    var content: string

    constructor(speaker: Speaker, content: string)
      ensures this.speaker == speaker && this.content == content
    {
      this.speaker := speaker;
      this.content := content;
    }
  }

  /** No dictionary occurs twice in the list. */
  predicate Distinct(ms: seq<MessageDict>) {
    forall i, j :: 0 <= i < j < |ms| ==> ms[i] != ms[j]
  }

  /** The messages a list of dictionaries currently holds. */
  function Snapshot(ms: seq<MessageDict>): (r: seq<ChatMessage>)
    reads set m | m in ms
    ensures |r| == |ms|
    ensures forall k :: 0 <= k < |ms| ==> r[k] == ChatMessage(ms[k].speaker, ms[k].content)
  {
    if ms == [] then [] else [ChatMessage(ms[0].speaker, ms[0].content)] + Snapshot(ms[1..])
  }

  const JsonInstruction: string := "Please respond in JSON format."

  predicate StartsWithSystem(msgs: seq<ChatMessage>) {
    msgs != [] && msgs[0].speaker == System
  }

  /** The list as the caller sees it after the instruction was added: a leading system
      message has gained the instruction, through the shared dictionary. */
  function LeftBehind(msgs: seq<ChatMessage>): (r: seq<ChatMessage>)
    ensures |r| == |msgs|
    ensures !StartsWithSystem(msgs) ==> r == msgs
    ensures StartsWithSystem(msgs) ==> r[1..] == msgs[1..] && r[0].speaker == System
  {
    if StartsWithSystem(msgs) then [ChatMessage(System, msgs[0].content + " " + JsonInstruction)] + msgs[1..]
    else msgs
  }

  /** The list with the JSON instruction: appended to a leading system message, or
      placed first as a system message of its own. */
  function WithInstruction(msgs: seq<ChatMessage>): (r: seq<ChatMessage>)
    ensures |r| > 0 && r[0].speaker == System
    ensures StartsWithSystem(msgs) ==>
      && |r| == |msgs| && r[1..] == msgs[1..]
      && r[0].content == msgs[0].content + " " + JsonInstruction
    ensures !StartsWithSystem(msgs) ==>
      && |r| == |msgs| + 1 && r[1..] == msgs
      && r[0].content == JsonInstruction
  {
    if StartsWithSystem(msgs) then LeftBehind(msgs) else [ChatMessage(System, JsonInstruction)] + msgs
  }

  /** `_add_json_instruction`: the copy holds the same dictionaries, so a leading system
      dictionary is changed for the caller too; otherwise a new system dictionary is put
      in front of the copy and the caller's list is untouched. */
  method AddJsonInstruction(messages: seq<MessageDict>) returns (copy: seq<MessageDict>)
    requires Distinct(messages)
    modifies if |messages| > 0 then {messages[0]} else {}
    ensures Snapshot(copy) == WithInstruction(old(Snapshot(messages)))
    ensures Snapshot(messages) == LeftBehind(old(Snapshot(messages)))
    ensures StartsWithSystem(old(Snapshot(messages))) ==> copy == messages
    ensures !StartsWithSystem(old(Snapshot(messages))) ==>
      |copy| == |messages| + 1 && fresh(copy[0]) && copy[1..] == messages
  {
    copy := messages;
    if |copy| > 0 && copy[0].speaker == System {
      var first := copy[0];
      first.content := first.content + " " + JsonInstruction;
    } else {
      var instruction := new MessageDict(System, JsonInstruction);
      copy := [instruction] + copy;
    }
  }

  /** The three provider dialects, chosen from the base URL. */
  datatype Provider = DeepSeek | Ollama | OpenAI

  /** DeepSeek when the lower-cased URL names it; otherwise Ollama when the URL names the
      local host; otherwise OpenAI. */
  function ProviderOf(baseUrl: string): (p: Provider)
    ensures p == DeepSeek <==> Contains(AsciiLower(baseUrl), "deepseek")
    ensures p == Ollama <==>
      !Contains(AsciiLower(baseUrl), "deepseek") && (Contains(baseUrl, "localhost") || Contains(baseUrl, "127.0.0.1"))
  {
    if Contains(AsciiLower(baseUrl), "deepseek") then DeepSeek
    else if Contains(baseUrl, "localhost") || Contains(baseUrl, "127.0.0.1") then Ollama
    else OpenAI
  }

  /** What one client receives: the model, the messages, the response format (only its
      type), and the streaming flag when one is passed. */
  datatype ClientCall = ClientCall(model: string, messages: seq<ChatMessage>,
                                   responseFormat: Option<string>, stream: Option<bool>)

  /** Whether a dialect adds the JSON instruction: DeepSeek and Ollama for a JSON-object
      format only, OpenAI for any format. */
  predicate Instructed(p: Provider, responseFormat: Option<string>) {
    if p == OpenAI then responseFormat.Some? else responseFormat == Some("json_object")
  }

  /** The call a dialect makes. Only OpenAI forwards the response format, only Ollama
      passes a streaming flag, and that flag is always off. */
  function CallOf(baseUrl: string, model: string, msgs: seq<ChatMessage>, responseFormat: Option<string>): (c: ClientCall)
    ensures c.model == model
    ensures c.messages == if Instructed(ProviderOf(baseUrl), responseFormat) then WithInstruction(msgs) else msgs
    ensures c.responseFormat.Some? ==> ProviderOf(baseUrl) == OpenAI && c.responseFormat == responseFormat
    ensures c.stream.Some? <==> ProviderOf(baseUrl) == Ollama
    ensures c.stream.Some? ==> !c.stream.value
  {
    var p := ProviderOf(baseUrl);
    var sent := if Instructed(p, responseFormat) then WithInstruction(msgs) else msgs;
    match p
    case DeepSeek => ClientCall(model, sent, None, None)
    case Ollama => ClientCall(model, sent, None, Some(false))
    case OpenAI => ClientCall(model, sent, responseFormat, None)
  }

  /** The caller's list after a dialect ran: changed only when the instruction was added
      to a leading system dictionary. */
  function AfterCall(baseUrl: string, msgs: seq<ChatMessage>, responseFormat: Option<string>): seq<ChatMessage> {
    if Instructed(ProviderOf(baseUrl), responseFormat) then LeftBehind(msgs) else msgs
  }

  /** `_create_chat_completion`: one call in the dialect of the URL; any failure becomes
      a model-service error naming the URL and carrying the exception text. */
  method CreateChatCompletion(baseUrl: string, model: string, messages: seq<MessageDict>,
                              responseFormat: Option<string>, client: ClientCall -> Result<Completion, string>)
    returns (r: Result<Completion, ApiError>)
    requires Distinct(messages)
    modifies if |messages| > 0 then {messages[0]} else {}
    ensures var call := CallOf(baseUrl, model, old(Snapshot(messages)), responseFormat);
      r == match client(call) case Ok(c) => Ok(c) case Err(e) => Err(LLMServiceError(baseUrl, e))
    ensures Snapshot(messages) == AfterCall(baseUrl, old(Snapshot(messages)), responseFormat)
  {
    var p := ProviderOf(baseUrl);
    var sent := messages;
    if Instructed(p, responseFormat) {
      sent := AddJsonInstruction(messages);
    }
    var call: ClientCall;
    match p {
      case DeepSeek => call := ClientCall(model, Snapshot(sent), None, None);
      case Ollama => call := ClientCall(model, Snapshot(sent), None, Some(false));
      case OpenAI => call := ClientCall(model, Snapshot(sent), responseFormat, None);
    }
    match client(call) {
      case Ok(c) => r := Ok(c);
      case Err(e) => r := Err(LLMServiceError(baseUrl, e));
    }
  }

  /** The two services and their models. */
  datatype Services = Services(primaryUrl: string, primaryModel: string, fallbackUrl: string, fallbackModel: string)

  /** The list handed to the dialects: the system context first when there is one. */
  function Formatted(msgs: seq<ChatMessage>, systemContext: Option<string>): seq<ChatMessage> {
    (if systemContext.Some? && systemContext.value != [] then [ChatMessage(System, systemContext.value)] else []) + msgs
  }

  function FormatOf(isJson: bool): Option<string> {
    if isJson then Some("json_object") else None
  }

  /** The detail of the final failure: both failures as they print. */
  function AllServicesDetail(primary: ApiError, fallback: ApiError): string {
    "Primary: " + Describe(primary) + ". Fallback: " + Describe(fallback)
  }

  /** The call the fallback receives: built from the list as the primary attempt left it. */
  function FallbackCall(s: Services, msgs: seq<ChatMessage>, isJson: bool, systemContext: Option<string>): ClientCall {
    var formatted := Formatted(msgs, systemContext);
    CallOf(s.fallbackUrl, s.fallbackModel, AfterCall(s.primaryUrl, formatted, FormatOf(isJson)), FormatOf(isJson))
  }

  /** The retry of `generate_completion` on an already formatted list: the primary call;
      on its failure exactly one fallback call on the list as the primary dialect left
      it; when both fail, a model-service error for all services. */
  function Attempt(s: Services, formatted: seq<ChatMessage>, rf: Option<string>,
                   primary: ClientCall -> Result<Completion, string>,
                   fallback: ClientCall -> Result<Completion, string>): Result<Completion, ApiError>
  {
    match primary(CallOf(s.primaryUrl, s.primaryModel, formatted, rf))
    case Ok(c) => Ok(c)
    case Err(e1) =>
      match fallback(CallOf(s.fallbackUrl, s.fallbackModel, AfterCall(s.primaryUrl, formatted, rf), rf))
      case Ok(c) => Ok(c)
      case Err(e2) =>
        Err(LLMServiceError("All Services",
          AllServicesDetail(LLMServiceError(s.primaryUrl, e1), LLMServiceError(s.fallbackUrl, e2))))
  }

  /** The formatted list after the retry: changed by the primary dialect, and after a
      primary failure by the fallback dialect as well. */
  function ListAfterAttempt(s: Services, formatted: seq<ChatMessage>, rf: Option<string>,
                            primary: ClientCall -> Result<Completion, string>): seq<ChatMessage>
  {
    var first := AfterCall(s.primaryUrl, formatted, rf);
    if primary(CallOf(s.primaryUrl, s.primaryModel, formatted, rf)).Ok? then first
    else AfterCall(s.fallbackUrl, first, rf)
  }

  /** `generate_completion` on values: the primary call; on its failure exactly one
      fallback call; when both fail, a model-service error for all services. */
  function Generate(s: Services, msgs: seq<ChatMessage>, isJson: bool, systemContext: Option<string>,
                    primary: ClientCall -> Result<Completion, string>,
                    fallback: ClientCall -> Result<Completion, string>): (r: Result<Completion, ApiError>)
    ensures primary(CallOf(s.primaryUrl, s.primaryModel, Formatted(msgs, systemContext), FormatOf(isJson))).Ok? ==>
      r == Ok(primary(CallOf(s.primaryUrl, s.primaryModel, Formatted(msgs, systemContext), FormatOf(isJson))).value)
    ensures primary(CallOf(s.primaryUrl, s.primaryModel, Formatted(msgs, systemContext), FormatOf(isJson))).Err?
            && fallback(FallbackCall(s, msgs, isJson, systemContext)).Ok? ==>
      r == Ok(fallback(FallbackCall(s, msgs, isJson, systemContext)).value)
    ensures r.Err? <==>
      primary(CallOf(s.primaryUrl, s.primaryModel, Formatted(msgs, systemContext), FormatOf(isJson))).Err?
      && fallback(FallbackCall(s, msgs, isJson, systemContext)).Err?
    ensures r.Err? ==> r.error.status == 503 && r.error.errorKey == Some("llm_service_error")
  {
    Attempt(s, Formatted(msgs, systemContext), FormatOf(isJson), primary, fallback)
  }

  /** Both pieces of `a + x + b + y` are found in it. */
  lemma ContainsBoth(a: string, x: string, b: string, y: string)
    ensures Contains(a + x + b + y, x) && Contains(a + x + b + y, y)
  {
    assert a + x + b + y == a + x + (b + y);
    ContainsMiddle(a, x, b + y);
    ContainsTail(a + x + b, y);
  }

  /** The error for all services carries the detail of each failure it combines. */
  lemma AllServicesNamesBoth(p: ApiError, f: ApiError)
    ensures var detail := LLMServiceError("All Services", AllServicesDetail(p, f)).detail;
      Contains(detail, p.detail) && Contains(detail, f.detail)
  {
    var d1 := Describe(p);
    var d2 := Describe(f);
    var detail := AllServicesDetail(p, f);
    ContainsBoth("Primary: ", d1, ". Fallback: ", d2);
    assert d1 == d1[..|d1| - |p.detail|] + p.detail;
    assert d2 == d2[..|d2| - |f.detail|] + f.detail;
    ContainsTail(d1[..|d1| - |p.detail|], p.detail);
    ContainsTail(d2[..|d2| - |f.detail|], f.detail);
    ContainsWithin(detail, d1, p.detail);
    ContainsWithin(detail, d2, f.detail);
    var head := "LLM Service (" + "All Services" + ") Error";
    var full := LLMServiceError("All Services", detail).detail;
    assert full == WithDetail(head, detail);
    assert detail != [];
    assert full == head + ": " + detail;
    ContainsTail(head + ": ", detail);
    ContainsWithin(full, detail, p.detail);
    ContainsWithin(full, detail, f.detail);
  }

  /** When both services fail, the final detail carries each failure's own detail. */
  lemma BothFailuresNamed(s: Services, msgs: seq<ChatMessage>, isJson: bool, systemContext: Option<string>,
                          primary: ClientCall -> Result<Completion, string>,
                          fallback: ClientCall -> Result<Completion, string>)
    requires primary(CallOf(s.primaryUrl, s.primaryModel, Formatted(msgs, systemContext), FormatOf(isJson))).Err?
    requires fallback(FallbackCall(s, msgs, isJson, systemContext)).Err?
    ensures var r := Generate(s, msgs, isJson, systemContext, primary, fallback);
      var e1 := primary(CallOf(s.primaryUrl, s.primaryModel, Formatted(msgs, systemContext), FormatOf(isJson))).error;
      var e2 := fallback(FallbackCall(s, msgs, isJson, systemContext)).error;
      && r.Err?
      && Contains(r.error.detail, LLMServiceError(s.primaryUrl, e1).detail)
      && Contains(r.error.detail, LLMServiceError(s.fallbackUrl, e2).detail)
  {
    var e1 := primary(CallOf(s.primaryUrl, s.primaryModel, Formatted(msgs, systemContext), FormatOf(isJson))).error;
    var e2 := fallback(FallbackCall(s, msgs, isJson, systemContext)).error;
    var p := LLMServiceError(s.primaryUrl, e1);
    var f := LLMServiceError(s.fallbackUrl, e2);
    assert Generate(s, msgs, isJson, systemContext, primary, fallback)
        == Err(LLMServiceError("All Services", AllServicesDetail(p, f)));
    AllServicesNamesBoth(p, f);
  }

  /** The instruction is added twice when the primary dialect added it to the system
      context and failed, and the fallback dialect adds it again: both attempts work on
      the same first dictionary. */
  lemma FallbackRepeatsInstruction(s: Services, msgs: seq<ChatMessage>, context: string)
    requires context != []
    requires Instructed(ProviderOf(s.primaryUrl), FormatOf(true))
    requires Instructed(ProviderOf(s.fallbackUrl), FormatOf(true))
    ensures FallbackCall(s, msgs, true, Some(context)).messages[0]
         == ChatMessage(System, context + " " + JsonInstruction + " " + JsonInstruction)
  {
  }

  /** The caller's list after `generate_completion`. A non-empty system context is a
      fresh dictionary put first, so only it can change; otherwise the primary dialect
      may change the caller's leading system dictionary, and after a primary failure the
      fallback dialect may change it again. */
  function CallerListAfter(s: Services, msgs: seq<ChatMessage>, isJson: bool, systemContext: Option<string>,
                           primary: ClientCall -> Result<Completion, string>): (r: seq<ChatMessage>)
    ensures |r| == |msgs|
    ensures systemContext.Some? && systemContext.value != [] ==> r == msgs
  {
    if systemContext.Some? && systemContext.value != [] then msgs
    else ListAfterAttempt(s, msgs, FormatOf(isJson), primary)
  }

  /** Only the caller's leading system message can change, and only by gaining the
      instruction, once per dialect that adds it. */
  lemma CallerListShape(s: Services, msgs: seq<ChatMessage>, isJson: bool, systemContext: Option<string>,
                        primary: ClientCall -> Result<Completion, string>)
    ensures var r := CallerListAfter(s, msgs, isJson, systemContext, primary);
      && (!StartsWithSystem(msgs) ==> r == msgs)
      && (StartsWithSystem(msgs) ==>
            r[1..] == msgs[1..] && r[0].speaker == System && StartsWith(r[0].content, msgs[0].content))
  {
    var r := CallerListAfter(s, msgs, isJson, systemContext, primary);
    if StartsWithSystem(msgs) && !(systemContext.Some? && systemContext.value != []) {
      var rf := FormatOf(isJson);
      var first := AfterCall(s.primaryUrl, msgs, rf);
      assert StartsWith(first[0].content, msgs[0].content);
      if !primary(CallOf(s.primaryUrl, s.primaryModel, msgs, rf)).Ok? {
        var second := AfterCall(s.fallbackUrl, first, rf);
        assert StartsWith(second[0].content, first[0].content);
        assert r == second;
        assert second[0].content[..|msgs[0].content|] == first[0].content[..|msgs[0].content|];
      }
    }
  }

  /** The retry of `generate_completion` on dictionaries: both dialects work on the
      same list, so the fallback sees what the primary dialect changed. */
  method TryServices(s: Services, formatted: seq<MessageDict>, rf: Option<string>,
                     primary: ClientCall -> Result<Completion, string>,
                     fallback: ClientCall -> Result<Completion, string>)
    returns (r: Result<Completion, ApiError>)
    requires Distinct(formatted)
    modifies if |formatted| > 0 then {formatted[0]} else {}
    ensures r == Attempt(s, old(Snapshot(formatted)), rf, primary, fallback)
    ensures Snapshot(formatted) == ListAfterAttempt(s, old(Snapshot(formatted)), rf, primary)
  {
    r := CreateChatCompletion(s.primaryUrl, s.primaryModel, formatted, rf, primary);
    if r.Err? {
      var e1 := r.error;
      var second := CreateChatCompletion(s.fallbackUrl, s.fallbackModel, formatted, rf, fallback);
      match second {
        case Ok(c) => r := Ok(c);
        case Err(e2) => r := Err(LLMServiceError("All Services", AllServicesDetail(e1, e2)));
      }
    }
  }

  /** A fresh dictionary in front of distinct ones keeps them distinct. */
  lemma DistinctPrepend(d: MessageDict, ms: seq<MessageDict>)
    requires Distinct(ms) && d !in ms
    ensures Distinct([d] + ms)
  {
    forall i, j | 0 <= i < j < |[d] + ms|
      ensures ([d] + ms)[i] != ([d] + ms)[j]
    {
      if i > 0 {
        assert ([d] + ms)[i] == ms[i - 1];
      }
    }
  }

  /** The retry on a fresh context dictionary followed by the caller's: the caller's
      dictionaries are read but never changed. */
  method TryWithContext(s: Services, messages: seq<MessageDict>, rf: Option<string>, context: string,
                        primary: ClientCall -> Result<Completion, string>,
                        fallback: ClientCall -> Result<Completion, string>)
    returns (r: Result<Completion, ApiError>)
    requires Distinct(messages)
    ensures r == Attempt(s, [ChatMessage(System, context)] + Snapshot(messages), rf, primary, fallback)
  {
    var dict := new MessageDict(System, context);
    var formatted := [dict] + messages;
    assert formatted[1..] == messages;
    DistinctPrepend(dict, messages);
    r := TryServices(s, formatted, rf, primary, fallback);
  }

  /** `generate_completion` on dictionaries: a non-empty system context becomes a fresh
      dictionary in front of the caller's, and the retry runs on that list. The result
      is the one of `Generate`. */
  method GenerateCompletion(s: Services, messages: seq<MessageDict>, isJson: bool, systemContext: Option<string>,
                            primary: ClientCall -> Result<Completion, string>,
                            fallback: ClientCall -> Result<Completion, string>)
    returns (r: Result<Completion, ApiError>)
    requires Distinct(messages)
    modifies set m | m in messages
    ensures r == Generate(s, old(Snapshot(messages)), isJson, systemContext, primary, fallback)
    ensures Snapshot(messages) == CallerListAfter(s, old(Snapshot(messages)), isJson, systemContext, primary)
  {
    if systemContext.Some? && systemContext.value != [] {
      r := TryWithContext(s, messages, FormatOf(isJson), systemContext.value, primary, fallback);
    } else {
      assert Formatted(Snapshot(messages), systemContext) == Snapshot(messages);
      r := TryServices(s, messages, FormatOf(isJson), primary, fallback);
    }
  }
}
