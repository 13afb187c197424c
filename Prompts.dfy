/** Prompt assembly of the monolith and of the modular backend: the chat messages sent
    to the model, the record-generation context with its optional JSON sentence and
    checkup data, the record-rephrasing request, and the consultation context chosen
    by role. The two backends share these texts; where they differ a `Backend` value
    says which one is meant. */
module Prompts {
  import opened Wrappers
  import opened Text
  import opened Exceptions

  /** Who a chat message is from, as the model sees it. */
  datatype Speaker = System | User | Assistant

  datatype ChatMessage = ChatMessage(speaker: Speaker, content: string)

  /** What is sent to the model: the messages, and whether a JSON object is requested. */
  datatype LlmRequest = LlmRequest(messages: seq<ChatMessage>, jsonObject: bool)

  /** Token counts reported with a reply. */
  datatype Usage = Usage(promptTokens: int, completionTokens: int, totalTokens: int)

  /** One reply of the model. */
  datatype Completion = Completion(content: string, usage: Usage)

  /** The two Python backends: the single-file service and the package split into
      routes and services. */
  datatype Backend = Monolith | Modular

  /** How Python prints an optional text inside an f-string: a missing one as `None`. */
  function PyText(o: Option<string>): string {
    match o
    case Some(s) => s
    case None => "None"
  }

  const AssistantIntro: string := "You are an intelligent assistant of a medical doctor in a Chinese hospital."

  // ---------------------------------------------------------------------------------
  // Record generation

  const ChineseOnly: string := AssistantIntro + " You speak Chinese only. "
  const JsonSentence: string :=
    "Your task is to generate a JSON-formatted medical record based on the patient's description. "
  const RecordItems: string :=
    " Please include the following items, in Chinese: 主诉,现病史,既往史,过敏史,家族史,体格检查,辅助检查,诊断,处置意见,注意事项,中医辩证,中药处方. If no information for the item, just say: 无 Please do not miss including any checkup data. Please do not mention any personal identity information."
  const ExampleLead: string := " Here is an example of a well-formatted medical record:\n"
  const CheckupLead: string := "\n Here are medical data from the patient's checkup: "
  const ConvertLead: string := "Please convert the conversation transcript into a formal medical record: "

  /** Everything of the record-generation context after the opening and the optional
      JSON sentence: the items to cover, the monolith's example record, and checkup
      data when there are any. */
  function RecordTail(backend: Backend, records: string, example: string): string {
    RecordItems + (if backend == Monolith then ExampleLead + example else "")
    + (if records != "" then CheckupLead + records else "")
  }

  /** The system context of record generation. */
  function RecordContext(backend: Backend, json: bool, records: string, example: string): string {
    if json then ChineseOnly + JsonSentence + RecordTail(backend, records, example)
    else ChineseOnly + RecordTail(backend, records, example)
  }

  /** The JSON flag inserts exactly the JSON sentence after the opening and changes
      nothing else. */
  lemma RecordContextJson(backend: Backend, records: string, example: string)
    ensures var plain := RecordContext(backend, false, records, example);
      StartsWith(plain, ChineseOnly)
      && RecordContext(backend, true, records, example) == ChineseOnly + JsonSentence + plain[|ChineseOnly|..]
    ensures Contains(RecordContext(backend, true, records, example), JsonSentence)
  {
    var t := RecordTail(backend, records, example);
    SpliceAfter(ChineseOnly, JsonSentence, t);
    ContainsMiddle(ChineseOnly, JsonSentence, t);
  }

  /** Text inserted after a prefix. */
  lemma SpliceAfter(a: string, x: string, rest: string)
    ensures StartsWith(a + rest, a) && a + x + rest == a + x + (a + rest)[|a|..]
  {
    assert (a + rest)[|a|..] == rest;
  }

  /** Checkup data are appended last, and only when there are any: the context then
      ends with the checkup lead and the data. */
  lemma RecordContextRecords(backend: Backend, json: bool, records: string, example: string)
    ensures records != [] ==>
      RecordTail(backend, records, example) == RecordTail(backend, [], example) + (CheckupLead + records)
    ensures records != [] ==>
      var c := RecordContext(backend, json, records, example);
      |CheckupLead + records| <= |c| && c[|c| - |CheckupLead + records|..] == CheckupLead + records
    ensures records == [] ==>
      RecordTail(backend, records, example) == RecordItems + (if backend == Monolith then ExampleLead + example else "")
  {
    TailRecords(backend, records, example);
    if records != [] {
      var m, k := RecordTail(backend, [], example), CheckupLead + records;
      var o := if json then ChineseOnly + JsonSentence else ChineseOnly;
      assert RecordContext(backend, json, records, example) == o + (m + k);
      EndsIn(o, m, k);
    }
  }

  /** The tail with checkup data is the tail without them followed by the data. */
  lemma TailRecords(backend: Backend, records: string, example: string)
    ensures records != [] ==>
      RecordTail(backend, records, example) == RecordTail(backend, [], example) + (CheckupLead + records)
    ensures records == [] ==>
      RecordTail(backend, records, example) == RecordItems + (if backend == Monolith then ExampleLead + example else "")
  {
    var m := RecordItems + (if backend == Monolith then ExampleLead + example else "");
    EmptyRight(m);
  }

  /** An empty right operand changes nothing; stated over an abstract string so that
      the literal prompt texts stay out of the proof. */
  lemma EmptyRight(m: string)
    ensures m + [] == m
  {
  }

  /** The last part of a concatenation, over abstract strings for the same reason. */
  lemma EndsIn(o: string, m: string, k: string)
    ensures var c := o + (m + k); c[|c| - |k|..] == k
  {
  }

  /** The record-generation request: the context as system message and the transcript
      after a fixed lead as user message. The monolith asks for a JSON object only
      when JSON is wanted; the modular backend always does. */
  function RecordRequest(backend: Backend, transcript: string, records: string, json: bool, example: string): (r: LlmRequest)
    ensures |r.messages| == 2 && r.messages[0].speaker == System && r.messages[1].speaker == User
    ensures r.messages[0].content == RecordContext(backend, json, records, example)
    ensures StartsWith(r.messages[1].content, ConvertLead) && r.messages[1].content[|ConvertLead|..] == transcript
    ensures r.jsonObject <==> backend == Modular || json
  {
    LlmRequest(
      [ChatMessage(System, RecordContext(backend, json, records, example)),
       ChatMessage(User, ConvertLead + transcript)],
      backend == Modular || json)
  }

  /** The monolith's `/t2mr`: missing checkup data become empty, and the JSON flag of
      the request is ignored, so the JSON sentence is always in the context. */
  function MonolithT2mr(transcript: string, records: Option<string>, isJson: bool, example: string): (r: LlmRequest)
    ensures r == RecordRequest(Monolith, transcript, records.GetOr([]), true, example)
    ensures r.jsonObject && Contains(r.messages[0].content, JsonSentence)
  {
    var json := isJson || true;
    RecordContextJson(Monolith, records.GetOr([]), example);
    RecordRequest(Monolith, transcript, records.GetOr([]), json, example)
  }

  /** The modular `/t2mr`: missing checkup data become empty and the JSON flag is passed
      on unchanged; it decides the JSON sentence, while a JSON object is always
      requested. */
  function ModularT2mr(transcript: string, records: Option<string>, isJson: bool): (r: LlmRequest)
    ensures r == RecordRequest(Modular, transcript, records.GetOr([]), isJson, [])
    ensures r.jsonObject
  {
    RecordRequest(Modular, transcript, records.GetOr([]), isJson, [])
  }

  /** The text of the monolith's failure when both model services fail. */
  function BothFailedDetail(primary: string, fallback: string): string {
    "All LLM Services Unavailable. Primary: " + primary + ". Fallback: " + fallback + ". Please check LLM services."
  }

  /** The monolith's record generation: the primary service, then once the fallback;
      when both fail, a 503 error naming both failures. */
  function MonolithRecordOutcome(primary: Result<Completion, string>, fallback: Result<Completion, string>): (r: Result<Completion, ApiError>)
    ensures primary.Ok? ==> r == Ok(primary.value)
    ensures primary.Err? && fallback.Ok? ==> r == Ok(fallback.value)
    ensures primary.Err? && fallback.Err? ==>
      r.Err? && r.error.status == 503 && r.error.errorKey == None
      && Contains(r.error.detail, primary.error) && Contains(r.error.detail, fallback.error)
  {
    match primary
    case Ok(c) => Ok(c)
    case Err(p) =>
      match fallback
      case Ok(c) => Ok(c)
      case Err(f) =>
        var head := "All LLM Services Unavailable. Primary: ";
        ContainsMiddle(head, p, ". Fallback: " + f + ". Please check LLM services.");
        assert BothFailedDetail(p, f) == head + p + (". Fallback: " + f + ". Please check LLM services.");
        ContainsMiddle(head + p + ". Fallback: ", f, ". Please check LLM services.");
        Err(HttpError(503, BothFailedDetail(p, f)))
  }

  /** The primary model service URL of the monolith when the environment sets none. */
  const DefaultLlmUrl: string := "http://localhost:11434/v1"

  /** The monolith takes a service for a local Ollama server when its primary URL names
      `localhost` or `127.0.0.1`. */
  predicate LocalService(primaryUrl: string) {
    Contains(primaryUrl, "localhost") || Contains(primaryUrl, "127.0.0.1")
  }

  /** What the monolith's completion helper hands to the client: the model, the
      messages, `stream=False` for a local service, and the JSON format only otherwise. */
  datatype SentRequest = SentRequest(model: string, messages: seq<ChatMessage>, streamOff: bool, jsonObject: bool)

  /** One call of the monolith's completion helper. The dialect is chosen from the
      primary URL, whichever service the client is bound to. */
  function MonolithSend(primaryUrl: string, model: string, req: LlmRequest): (s: SentRequest)
    ensures s.model == model && s.messages == req.messages
    ensures s.streamOff <==> LocalService(primaryUrl)
    ensures s.jsonObject <==> req.jsonObject && !LocalService(primaryUrl)
  {
    if LocalService(primaryUrl) then SentRequest(model, req.messages, true, false)
    else SentRequest(model, req.messages, false, req.jsonObject)
  }

  /** A client bound to a base URL, and what it is sent. */
  datatype Call = Call(baseUrl: string, sent: SentRequest)

  /** The two calls of the monolith's record generation: the primary service with the
      primary model, then the fallback service with the fallback model; both in the
      dialect of the primary URL. */
  function MonolithRecordCalls(primaryUrl: string, primaryModel: string, fallbackUrl: string, fallbackModel: string,
                               req: LlmRequest): (calls: (Call, Call))
  {
    (Call(primaryUrl, MonolithSend(primaryUrl, primaryModel, req)),
     Call(fallbackUrl, MonolithSend(primaryUrl, fallbackModel, req)))
  }

  /** Both calls send the request's messages to their own service, and the fallback's
      dialect does not depend on the fallback URL: it asks for a JSON object exactly
      when the primary call does. */
  lemma FallbackDialect(primaryUrl: string, primaryModel: string, fallbackUrl: string, fallbackModel: string,
                        req: LlmRequest)
    ensures var (p, f) := MonolithRecordCalls(primaryUrl, primaryModel, fallbackUrl, fallbackModel, req);
      && p.baseUrl == primaryUrl && f.baseUrl == fallbackUrl
      && p.sent.messages == req.messages && f.sent.messages == req.messages
      && p.sent.model == primaryModel && f.sent.model == fallbackModel
      && (f.sent.jsonObject <==> p.sent.jsonObject)
      && (f.sent.streamOff <==> p.sent.streamOff)
      && (p.sent.jsonObject <==> req.jsonObject && !LocalService(primaryUrl))
  {
  }

  /** With the default primary URL no JSON object is ever requested: the `/t2mr`
      request asks for one, yet neither call sends it, even to a remote fallback. */
  lemma DefaultUrlDropsFormat(transcript: string, records: Option<string>, isJson: bool, example: string,
                              primaryModel: string, fallbackUrl: string, fallbackModel: string)
    ensures MonolithT2mr(transcript, records, isJson, example).jsonObject
    ensures var (p, f) := MonolithRecordCalls(DefaultLlmUrl, primaryModel, fallbackUrl, fallbackModel,
                                              MonolithT2mr(transcript, records, isJson, example));
      !p.sent.jsonObject && !f.sent.jsonObject && p.sent.streamOff && f.sent.streamOff
  {
    DefaultUrlIsLocal();
  }

  /** The default primary URL names `localhost`. */
  lemma DefaultUrlIsLocal()
    ensures LocalService(DefaultLlmUrl)
  {
    NamesLocalhost("http://", ":11434/v1");
    assert "http://" + "localhost" + ":11434/v1" == DefaultLlmUrl;
  }

  /** Any URL with `localhost` in it is local. */
  lemma NamesLocalhost(a: string, b: string)
    ensures LocalService(a + "localhost" + b)
  {
    ContainsMiddle(a, "localhost", b);
  }

  // ---------------------------------------------------------------------------------
  // Record rephrasing

  const RephraseContext: string := AssistantIntro + "You speak Chinese and is an expert in oncology. "
  const RephraseLead: string := "Please rephrase the following "
  const RephraseTail: string :=
    " into natural language to be used as a section for a medical record readable by doctors and patients. If there are multiple checkups in the medical records, please list them by time, in reverse order. Please only refer to the data provided. Do not explain."

  /** Record rephrasing: only the doctor role binds the context, so every other role
      fails on the unbound variable before anything is sent. The monolith asks for no
      JSON object, the modular backend does. */
  function RephraseRequest(backend: Backend, role: string, records: Option<string>): (r: Result<LlmRequest, string>)
    ensures r.Ok? <==> role == "doctor"
    ensures r.Err? ==> r.error == "context_str"
    ensures r.Ok? ==>
      |r.value.messages| == 2 && r.value.messages[0] == ChatMessage(System, RephraseContext)
      && r.value.messages[1].speaker == User && Contains(r.value.messages[1].content, PyText(records))
      && (r.value.jsonObject <==> backend == Modular)
  {
    if role != "doctor" then Err("context_str")
    else
      ContainsMiddle(RephraseLead, PyText(records), RephraseTail);
      Ok(LlmRequest(
        [ChatMessage(System, RephraseContext),
         ChatMessage(User, RephraseLead + PyText(records) + RephraseTail)],
        backend == Modular))
  }

  // ---------------------------------------------------------------------------------
  // Consultation

  /** The opening of every consultation context; the modular backend reads the domain
      from its settings, the monolith fixes it. */
  function ExpertPreamble(domain: string): string {
    AssistantIntro + "You speak Chinese and is an expert in " + domain + ". \n"
  }

  const MonolithDomain: string := "oncology"
  const RecordsLead: string := " This question is for a patient with the following medical records: "
  const RetrievedLead: string := "\n Here are some retrieved documents that may be relevant to the question: "
  const DoctorGuidance: string :=
    ". Please try to answer the question with reference to name of the specific document and highlight it. If the documents are irrelevant, do not mention them. You may seek answers out of the scope of given documents, if they cannot answer the patient's questions. Since the answer is for an expert doctor, therefore please keep it precise, professional, and evident-based. The treatment plans or advices should be personalized. The procedures or medicines recommended in the plans should refer back to the patient's conditions. Do not talk in a general way that a doctor should have known. Do not answer in a tone toward a general population and a group, but only specific to this individual patient. Even the titles of the plan should be specific. Do not use general terms such as systematic, comprehensive etc."
  const PatientGuidance: string :=
    "\n The answer is for a patient, so please use words that can be understandable by someone who may not have extensive medical knowledge. Please use a kind and encouraging tone. Please try to answer in concisely less than 20 sentences and one or two key points highlighted. If necessary, please ask the patient questions for his or her conditions first.\n"

  /** The guidance after the records: the doctor's (with the retrieved documents, which
      are always empty) or, for any other role, the patient's. */
  function Guidance(role: string): string {
    if role == "doctor" then RetrievedLead + "" + DoctorGuidance else PatientGuidance
  }

  /** The consultation context: preamble, records (a missing record printed as `None`),
      guidance by role. */
  function QueryContext(role: string, domain: string, records: Option<string>): string {
    ExpertPreamble(domain) + RecordsLead + PyText(records) + Guidance(role)
  }

  /** The records appear verbatim in the context, and they are the only part that
      depends on them: two contexts for the same role and domain are equal exactly when
      the printed records are. */
  lemma QueryContextRecords(role: string, domain: string, r1: Option<string>, r2: Option<string>)
    ensures Contains(QueryContext(role, domain, r1), PyText(r1))
    ensures QueryContext(role, domain, r1) == QueryContext(role, domain, r2) <==> PyText(r1) == PyText(r2)
  {
    var p := ExpertPreamble(domain) + RecordsLead;
    var g := Guidance(role);
    ContainsMiddle(p, PyText(r1), g);
    if QueryContext(role, domain, r1) == QueryContext(role, domain, r2) {
      var s1 := p + PyText(r1) + g;
      var s2 := p + PyText(r2) + g;
      assert |PyText(r1)| == |PyText(r2)|;
      assert s1[|p|..|p| + |PyText(r1)|] == PyText(r1);
      assert s2[|p|..|p| + |PyText(r2)|] == PyText(r2);
    }
  }

  /** Every role other than `doctor` gets the patient context. */
  lemma NonDoctorIsPatient(role: string, domain: string, records: Option<string>)
    requires role != "doctor"
    ensures QueryContext(role, domain, records) == QueryContext("patient", domain, records)
  {
  }

  /** The consultation messages, in this order: the earlier replies joined by line
      breaks as the assistant, the context as system, the question as user. */
  function QueryMessages(history: seq<string>, context: string, prompt: string): (r: seq<ChatMessage>)
    ensures |r| == 3
    ensures r[0].speaker == Assistant && r[1].speaker == System && r[2].speaker == User
    ensures r[1].content == context && r[2].content == prompt
  {
    [ChatMessage(Assistant, Join(history, "\n")), ChatMessage(System, context), ChatMessage(User, prompt)]
  }

  /** The assistant message carries the whole history: when no entry holds a line
      break, splitting it at line breaks gives the history back. */
  lemma QueryMessagesHistory(history: seq<string>, context: string, prompt: string)
    requires |history| >= 1
    requires forall k :: 0 <= k < |history| ==> '\n' !in history[k]
    ensures Split(QueryMessages(history, context, prompt)[0].content, '\n') == history
  {
    SplitJoin(history, '\n');
  }
}
