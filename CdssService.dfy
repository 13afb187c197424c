/** The medical-record service of the cdss backend: recognition of voice and image
    uploads, the request that turns a transcript into a record, and the chat request.
    Recognition engines and the two model services are passed in as functions; the
    clock reading is a parameter. */
module CdssService {
  import opened Wrappers
  import opened Text
  import opened Exceptions
  import opened Prompts
  import opened I18n
  import opened LlmAdapter

  type Blob = seq<bv8>

  /** What the service can raise: an HTTP error, a runtime error of an engine, or a
      key missing from the prompt tables. */
  datatype ServiceError = Http(error: ApiError) | Runtime(message: string) | Lookup(key: string)

  /** The content types the voice path accepts. */
  const SupportedAudioTypes: seq<string> :=
    ["audio/mpeg", "audio/wav", "audio/mp3", "audio/m4a", "video/quicktime", "video/mp4"]

  /** Python truthiness of an optional text. */
  predicate Truthy(o: Option<string>) {
    o.Some? && o.value != []
  }

  /** `zip`: pairs up to the shorter list. */
  function Zip<A, B>(xs: seq<A>, ys: seq<B>): (r: seq<(A, B)>)
    ensures |r| == if |xs| < |ys| then |xs| else |ys|
    ensures forall k :: 0 <= k < |r| ==> r[k] == (xs[k], ys[k])
    decreases |xs|
  {
    if xs == [] || ys == [] then [] else [(xs[0], ys[0])] + Zip(xs[1..], ys[1..])
  }

  /** Transcripts collected in order; the first failing item ends the collection. */
  function Collect<T>(items: seq<T>, step: T -> Result<string, ServiceError>): Result<seq<string>, ServiceError>
    decreases |items|
  {
    if items == [] then Ok([])
    else match step(items[0])
      case Err(e) => Err(e)
      case Ok(t) =>
        match Collect(items[1..], step)
        case Ok(rest) => Ok([t] + rest)
        case Err(e) => Err(e)
  }

  /** Transcripts already collected, in front of the outcome of the rest. */
  function Prepend(done: seq<string>, rest: Result<seq<string>, ServiceError>): Result<seq<string>, ServiceError> {
    match rest
    case Ok(ts) => Ok(done + ts)
    case Err(e) => Err(e)
  }

  lemma PrependLaws(done: seq<string>, t: string, rest: Result<seq<string>, ServiceError>)
    ensures Prepend([], rest) == rest
    ensures Prepend(done, Prepend([t], rest)) == Prepend(done + [t], rest)
    ensures Prepend(done, Ok([])) == Ok(done)
  {
    if rest.Ok? {
      assert [] + rest.value == rest.value;
      assert done + ([t] + rest.value) == done + [t] + rest.value;
    }
    assert done + [] == done;
  }

  /** The collection succeeds exactly when every item does, and then holds their
      transcripts in item order. */
  lemma {:induction false} CollectOk<T>(items: seq<T>, step: T -> Result<string, ServiceError>)
    ensures Collect(items, step).Ok? <==> forall k :: 0 <= k < |items| ==> step(items[k]).Ok?
    ensures Collect(items, step).Ok? ==>
      && |Collect(items, step).value| == |items|
      && forall k :: 0 <= k < |items| ==> Collect(items, step).value[k] == step(items[k]).value
    decreases |items|
  {
    if items != [] {
      CollectOk(items[1..], step);
      assert forall k :: 1 <= k < |items| ==> items[1..][k - 1] == items[k];
    }
  }

  /** A failed collection fails with the error of its first failing item. */
  lemma {:induction false} CollectErr<T>(items: seq<T>, step: T -> Result<string, ServiceError>)
    requires Collect(items, step).Err?
    ensures exists k :: && 0 <= k < |items|
                        && step(items[k]) == Err(Collect(items, step).error)
                        && forall j :: 0 <= j < k ==> step(items[j]).Ok?
    decreases |items|
  {
    if step(items[0]).Ok? {
      CollectErr(items[1..], step);
      var k :| 0 <= k < |items[1..]| && step(items[1..][k]) == Err(Collect(items[1..], step).error)
        && forall j :: 0 <= j < k ==> step(items[1..][j]).Ok?;
      assert forall j :: 1 <= j < k + 1 ==> items[j] == items[1..][j - 1];
      assert step(items[k + 1]) == Err(Collect(items, step).error);
    } else {
      assert step(items[0]) == Err(Collect(items, step).error);
    }
  }

  /** One step of a collection loop: the outcome from item `i` on is the step's outcome
      in front of the outcome from `i + 1` on. */
  lemma CollectStep<T>(items: seq<T>, step: T -> Result<string, ServiceError>, i: nat)
    requires i < |items|
    ensures step(items[i]).Err? ==> Collect(items[i..], step) == Err(step(items[i]).error)
    ensures step(items[i]).Ok? ==>
      Collect(items[i..], step) == Prepend([step(items[i]).value], Collect(items[i + 1..], step))
  {
    assert items[i..][1..] == items[i + 1..];
  }

  /** The outcome of a joined collection. */
  function Joined(r: Result<seq<string>, ServiceError>): Result<string, ServiceError> {
    match r
    case Ok(ts) => Ok(Join(ts, "\n"))
    case Err(e) => Err(e)
  }

  /** One voice upload: the type is checked before recognition, and an empty
      transcript is an error. */
  function VoiceStep(asr: Blob -> Result<string, ServiceError>): ((Blob, string)) -> Result<string, ServiceError> {
    (item: (Blob, string)) =>
      if item.1 !in SupportedAudioTypes then Err(Http(UnsupportedMediaType(item.1)))
      else match asr(item.0)
        case Err(e) => Err(e)
        case Ok(t) => if t == [] then Err(Http(TranscriptionError("ASR", "Empty transcript"))) else Ok(t)
  }

  /** One image upload: an empty recognition result is an error. */
  function ImageStep(ocr: Blob -> Result<string, ServiceError>): Blob -> Result<string, ServiceError> {
    (file: Blob) =>
      match ocr(file)
      case Err(e) => Err(e)
      case Ok(t) => if t == [] then Err(Http(TranscriptionError("OCR", "Empty transcript"))) else Ok(t)
  }

  /** `process_voice_files`: the uploads paired with their types, recognised in order;
      the transcripts are joined by line breaks. */
  method ProcessVoiceFiles(files: seq<Blob>, contentTypes: seq<string>, asr: Blob -> Result<string, ServiceError>)
    returns (r: Result<string, ServiceError>)
    ensures r == Joined(Collect(Zip(files, contentTypes), VoiceStep(asr)))
  {
    var pairs := Zip(files, contentTypes);
    ghost var step := VoiceStep(asr);
    var transcripts: seq<string> := [];
    PrependLaws([], [], Collect(pairs, step));
    assert pairs[0..] == pairs;
    var i := 0;
    while i < |pairs|
      invariant 0 <= i <= |pairs|
      invariant Collect(pairs, step) == Prepend(transcripts, Collect(pairs[i..], step))
    {
      CollectStep(pairs, step, i);
      var (file, contentType) := pairs[i];
      if contentType !in SupportedAudioTypes {
        return Err(Http(UnsupportedMediaType(contentType)));
      }
      var transcript := asr(file);
      if transcript.Err? {
        return Err(transcript.error);
      }
      if transcript.value == [] {
        return Err(Http(TranscriptionError("ASR", "Empty transcript")));
      }
      PrependLaws(transcripts, transcript.value, Collect(pairs[i + 1..], step));
      transcripts := transcripts + [transcript.value];
      i := i + 1;
    }
    assert pairs[i..] == [];
    PrependLaws(transcripts, [], Ok([]));
    return Ok(Join(transcripts, "\n"));
  }

  /** `process_image_files`: each image recognised in order; the transcripts are joined
      by line breaks. */
  method ProcessImageFiles(files: seq<Blob>, ocr: Blob -> Result<string, ServiceError>)
    returns (r: Result<string, ServiceError>)
    ensures r == Joined(Collect(files, ImageStep(ocr)))
  {
    ghost var step := ImageStep(ocr);
    var transcripts: seq<string> := [];
    PrependLaws([], [], Collect(files, step));
    assert files[0..] == files;
    var i := 0;
    while i < |files|
      invariant 0 <= i <= |files|
      invariant Collect(files, step) == Prepend(transcripts, Collect(files[i..], step))
    {
      CollectStep(files, step, i);
      var transcript := ocr(files[i]);
      if transcript.Err? {
        return Err(transcript.error);
      }
      if transcript.value == [] {
        return Err(Http(TranscriptionError("OCR", "Empty transcript")));
      }
      PrependLaws(transcripts, transcript.value, Collect(files[i + 1..], step));
      transcripts := transcripts + [transcript.value];
      i := i + 1;
    }
    assert files[i..] == [];
    PrependLaws(transcripts, [], Ok([]));
    return Ok(Join(transcripts, "\n"));
  }

  /** Voice recognition succeeds exactly when every paired upload has an accepted type
      and a non-empty transcript; the transcripts are then those of the uploads. */
  lemma VoiceSuccess(files: seq<Blob>, contentTypes: seq<string>, asr: Blob -> Result<string, ServiceError>)
    ensures var pairs := Zip(files, contentTypes);
      Collect(pairs, VoiceStep(asr)).Ok? <==>
        forall k :: 0 <= k < |pairs| ==>
          contentTypes[k] in SupportedAudioTypes && asr(files[k]).Ok? && asr(files[k]).value != []
    ensures var pairs := Zip(files, contentTypes);
      Collect(pairs, VoiceStep(asr)).Ok? ==>
        && |Collect(pairs, VoiceStep(asr)).value| == |pairs|
        && forall k :: 0 <= k < |pairs| ==> Collect(pairs, VoiceStep(asr)).value[k] == asr(files[k]).value
  {
    var pairs := Zip(files, contentTypes);
    CollectOk(pairs, VoiceStep(asr));
  }

  /** An upload of an unsupported type fails voice recognition with that type, unless
      an earlier upload failed first. */
  lemma VoiceRejectsType(files: seq<Blob>, contentTypes: seq<string>, asr: Blob -> Result<string, ServiceError>, k: nat)
    requires k < |files| && k < |contentTypes| && contentTypes[k] !in SupportedAudioTypes
    requires forall j :: 0 <= j < k ==> VoiceStep(asr)((files[j], contentTypes[j])).Ok?
    ensures Collect(Zip(files, contentTypes), VoiceStep(asr)) == Err(Http(UnsupportedMediaType(contentTypes[k])))
  {
    var pairs, step := Zip(files, contentTypes), VoiceStep(asr);
    assert pairs[k] == (files[k], contentTypes[k]);
    assert forall j :: 0 <= j < k ==> pairs[j] == (files[j], contentTypes[j]);
    CollectFirstErr(pairs, step, k);
  }

  /** A collection whose first failing item is `k` fails with that item's error. */
  lemma {:induction false} CollectFirstErr<T>(items: seq<T>, step: T -> Result<string, ServiceError>, k: nat)
    requires k < |items| && step(items[k]).Err?
    requires forall j :: 0 <= j < k ==> step(items[j]).Ok?
    ensures Collect(items, step) == Err(step(items[k]).error)
    decreases k
  {
    if k > 0 {
      assert items[1..][k - 1] == items[k];
      assert forall j :: 0 <= j < k - 1 ==> items[1..][j] == items[j + 1];
      CollectFirstErr(items[1..], step, k - 1);
    }
  }

  /** Image recognition succeeds exactly when every image yields a non-empty text. */
  lemma ImageSuccess(files: seq<Blob>, ocr: Blob -> Result<string, ServiceError>)
    ensures Collect(files, ImageStep(ocr)).Ok? <==>
      forall k :: 0 <= k < |files| ==> ocr(files[k]).Ok? && ocr(files[k]).value != []
    ensures Collect(files, ImageStep(ocr)).Ok? ==>
      && |Collect(files, ImageStep(ocr)).value| == |files|
      && forall k :: 0 <= k < |files| ==> Collect(files, ImageStep(ocr)).value[k] == ocr(files[k]).value
  {
    CollectOk(files, ImageStep(ocr));
  }

  const AdditionalRecordsLead: string := "\n\nAdditional medical records:\n"

  /** The user prompt of a record request: the format instruction, its detail and the
      transcript, then the additional records when there are any. */
  function RecordPrompt(language: string, transcript: string, records: Option<string>): string {
    var format := GetLanguagePrompt(language, "mr_format").value;
    var detail := GetLanguagePrompt(language, "mr_format_detail").value;
    Assemble(format + "\n" + detail + "\n\n", transcript, records)
  }

  /** The prompt after its fixed head: the transcript, then the additional records when
      there are any. */
  function Assemble(head: string, transcript: string, records: Option<string>): string {
    var base := head + transcript;
    if Truthy(records) then base + AdditionalRecordsLead + records.value else base
  }

  /** The prompt carries the transcript; additional records come last, and without them
      the transcript does. */
  lemma RecordPromptParts(language: string, transcript: string, records: Option<string>)
    ensures Contains(RecordPrompt(language, transcript, records), transcript)
    ensures Truthy(records) ==>
      && Contains(RecordPrompt(language, transcript, records), records.value)
      && EndsWith(RecordPrompt(language, transcript, records), AdditionalRecordsLead + records.value)
    ensures !Truthy(records) ==> EndsWith(RecordPrompt(language, transcript, records), transcript)
  {
    var format := GetLanguagePrompt(language, "mr_format").value;
    var detail := GetLanguagePrompt(language, "mr_format_detail").value;
    AssembleParts(format + "\n" + detail + "\n\n", transcript, records);
  }

  lemma AssembleParts(head: string, transcript: string, records: Option<string>)
    ensures Contains(Assemble(head, transcript, records), transcript)
    ensures Truthy(records) ==>
      && Contains(Assemble(head, transcript, records), records.value)
      && EndsWith(Assemble(head, transcript, records), AdditionalRecordsLead + records.value)
    ensures !Truthy(records) ==> EndsWith(Assemble(head, transcript, records), transcript)
  {
    var base := head + transcript;
    ContainsTail(head, transcript);
    if Truthy(records) {
      var tail := AdditionalRecordsLead + records.value;
      assert Assemble(head, transcript, records) == base + tail;
      ContainsExtend(base, tail, transcript);
      ContainsTail(base + AdditionalRecordsLead, records.value);
      assert base + AdditionalRecordsLead + records.value == base + tail;
    }
  }

  predicate EndsWith(s: string, suffix: string) {
    |suffix| <= |s| && s[|s| - |suffix|..] == suffix
  }

  /** The reply of the record endpoints. */
  datatype RecordReply = RecordReply(content: string, timestamp: int, usage: Usage)

  /** `generate_medical_record`: the doctor context as system context, the record prompt
      as the only message, and the JSON flag as given. */
  function GenerateMedicalRecord(s: Services, transcript: string, records: Option<string>, language: string,
                                 isJson: bool, now: int,
                                 primary: ClientCall -> Result<Completion, string>,
                                 fallback: ClientCall -> Result<Completion, string>): (r: Result<RecordReply, ServiceError>)
    ensures r.Err? ==> r.error.Http? && r.error.error.status == 503
    ensures r.Ok? ==> r.value.timestamp == now
  {
    var context := GetLanguagePrompt(language, "doctor_context").value;
    match Generate(s, [ChatMessage(User, RecordPrompt(language, transcript, records))], isJson, Some(context), primary, fallback)
    case Ok(c) => Ok(RecordReply(c.content, now, c.usage))
    case Err(e) => Err(Http(e))
  }

  /** The call the primary service receives for a record: the doctor context of the
      language as system message (with the JSON instruction added when the dialect adds
      it), then the record prompt. */
  lemma RecordCall(s: Services, transcript: string, records: Option<string>, language: string, isJson: bool)
    ensures var context := GetLanguagePrompt(language, "doctor_context").value;
      var prompt := RecordPrompt(language, transcript, records);
      var call := CallOf(s.primaryUrl, s.primaryModel, Formatted([ChatMessage(User, prompt)], Some(context)), FormatOf(isJson));
      && |call.messages| == 2
      && call.messages[0].speaker == System
      && StartsWith(call.messages[0].content, context)
      && call.messages[1] == ChatMessage(User, prompt)
      && (isJson <==> call.messages[0].content != context)
  {
    var context := GetLanguagePrompt(language, "doctor_context").value;
    PromptNonEmpty(language, "doctor_context");
    var prompt := RecordPrompt(language, transcript, records);
    assert Formatted([ChatMessage(User, prompt)], Some(context)) == [ChatMessage(System, context), ChatMessage(User, prompt)];
  }

  /** The reply of the chat endpoint; the session id is echoed as received. */
  datatype ChatReply = ChatReply(sessionId: Option<string>, content: string, timestamp: int, usage: Usage)

  /** The messages of a chat request before the system context: the joined history as
      an assistant message when there is one, the records in the query template of the
      role when there are any, then the question. */
  function ChatMessages(language: string, role: string, records: Option<string>, history: seq<string>,
                        prompt: string): (r: Result<seq<ChatMessage>, ServiceError>)
    ensures r.Ok? ==> |r.value| >= 1 && r.value[|r.value| - 1] == ChatMessage(User, prompt)
    ensures r.Ok? ==> |r.value| == 1 + (if |history| > 0 then 1 else 0) + (if Truthy(records) then 1 else 0)
    ensures r.Ok? && |history| > 0 ==> r.value[0] == ChatMessage(Assistant, Join(history, "\n"))
    ensures r.Err? ==> Truthy(records)
  {
    var past := if |history| > 0 then [ChatMessage(Assistant, Join(history, "\n"))] else [];
    if !Truthy(records) then Ok(past + [ChatMessage(User, prompt)])
    else
      match RecordsContext(language, role, records.value)
      case Err(e) => Err(e)
      case Ok(context) => Ok(past + [ChatMessage(System, context), ChatMessage(User, prompt)])
  }

  /** The system message that carries the records: the role's query template with the
      records filled in. */
  function RecordsContext(language: string, role: string, records: string): Result<string, ServiceError> {
    match GetLanguageTemplate(language, role + "_query_context")
    case Err(KeyError(k)) => Err(Lookup(k))
    case Ok(t) =>
      match Format(t, map["medical_records" := records])
      case Err(KeyError(k)) => Err(Lookup(k))
      case Ok(context) => Ok(context)
  }

  /** `process_chat`: the role's context is looked up first, then the messages are
      built, then the model is asked without a JSON format. */
  function ProcessChat(s: Services, prompt: string, role: string, records: Option<string>,
                       sessionId: Option<string>, history: seq<string>, language: string, now: int,
                       primary: ClientCall -> Result<Completion, string>,
                       fallback: ClientCall -> Result<Completion, string>): (r: Result<ChatReply, ServiceError>)
    ensures r.Ok? ==> r.value.sessionId == sessionId && r.value.timestamp == now
    ensures GetLanguagePrompt(language, role + "_context").Err? ==> r == Err(Lookup(role + "_context"))
  {
    match GetLanguagePrompt(language, role + "_context")
    case Err(KeyError(k)) => Err(Lookup(k))
    case Ok(context) =>
      match ChatMessages(language, role, records, history, prompt)
      case Err(e) => Err(e)
      case Ok(msgs) =>
        match Generate(s, msgs, false, Some(context), primary, fallback)
        case Ok(c) => Ok(ChatReply(sessionId, c.content, now, c.usage))
        case Err(e) => Err(Http(e))
  }

  /** A key made from a role and a suffix names the role it was made from. */
  lemma RoleOfKey(role: string, suffix: string, key: string)
    requires role + suffix == key
    ensures |key| >= |suffix| && role == key[..|key| - |suffix|] && key[|key| - |suffix|..] == suffix
  {
  }

  /** The context lookup accepts four roles, not two: the query-context keys end in
      `_context` as well. */
  lemma ChatRoles(language: string, role: string)
    ensures GetLanguagePrompt(language, role + "_context").Ok? <==>
      role in {"doctor", "patient", "doctor_query", "patient_query"}
  {
    ContextKeys(role);
  }

  /** The roles whose context key is one of the six. */
  lemma ContextKeys(role: string)
    ensures role + "_context" in PromptKeys <==> role in {"doctor", "patient", "doctor_query", "patient_query"}
  {
    if role in {"doctor", "patient", "doctor_query", "patient_query"} {
      ContextKeysOfRoles(role);
    } else {
      ContextKeysOfOthers(role);
    }
  }

  /** The four roles make context keys of the table. */
  lemma ContextKeysOfRoles(role: string)
    requires role in {"doctor", "patient", "doctor_query", "patient_query"}
    ensures role + "_context" in PromptKeys
  {
    if role == "doctor" {
      assert role + "_context" == "doctor_context";
    } else if role == "patient" {
      assert role + "_context" == "patient_context";
    } else if role == "doctor_query" {
      assert role + "_context" == "doctor_query_context";
    } else {
      assert role + "_context" == "patient_query_context";
    }
  }

  /** Any other role makes a key outside the table. */
  lemma ContextKeysOfOthers(role: string)
    requires role !in {"doctor", "patient", "doctor_query", "patient_query"}
    ensures role + "_context" !in PromptKeys
  {
    var key := role + "_context";
    RoleOfKey(role, "_context", key);
    assert key != "doctor_context" by { assert "doctor_context"[..6] == "doctor"; }
    assert key != "patient_context" by { assert "patient_context"[..7] == "patient"; }
    assert key != "doctor_query_context" by { assert "doctor_query_context"[..12] == "doctor_query"; }
    assert key != "patient_query_context" by { assert "patient_query_context"[..13] == "patient_query"; }
    assert key != "mr_format" by { assert "mr_format"[1..] != "_context"; }
    assert key != "mr_format_detail" by { assert "mr_format_detail"[8..][0] != "_context"[0]; }
  }

  lemma QueryKeys()
    ensures "doctor" + "_query_context" == "doctor_query_context"
    ensures "patient" + "_query_context" == "patient_query_context"
  {
  }

  /** Records sent with the doctor role always fail: its query template also asks for
      the retrieved documents, which are never supplied. */
  lemma DoctorRecordsContext(language: string, records: string)
    ensures RecordsContext(language, "doctor", records) == Err(Lookup("retrieved_info"))
  {
    QueryKeys();
    DoctorQueryLookup(language, records);
  }

  /** So the messages of a doctor's chat with records cannot be built. */
  lemma DoctorRecordsFail(language: string, records: Option<string>, history: seq<string>, prompt: string)
    requires Truthy(records)
    ensures ChatMessages(language, "doctor", records, history, prompt) == Err(Lookup("retrieved_info"))
  {
    DoctorRecordsContext(language, records.value);
  }

  /** So a doctor's chat with records never reaches the model. */
  lemma DoctorChatWithRecords(s: Services, prompt: string, records: Option<string>, sessionId: Option<string>,
                              history: seq<string>, language: string, now: int,
                              primary: ClientCall -> Result<Completion, string>,
                              fallback: ClientCall -> Result<Completion, string>)
    requires Truthy(records)
    ensures ProcessChat(s, prompt, "doctor", records, sessionId, history, language, now, primary, fallback)
         == Err(Lookup("retrieved_info"))
  {
    ChatRoles(language, "doctor");
    DoctorRecordsFail(language, records, history, prompt);
  }

  /** The patient's query template holds the records once filled in. */
  lemma PatientRecordsContext(language: string, records: string)
    ensures var r := RecordsContext(language, "patient", records); r.Ok? && Contains(r.value, records)
  {
    QueryKeys();
    PatientQueryLookup(language, records);
  }

  /** Records sent with the patient role reach the model: a system message holding
      them sits between the history and the question. */
  lemma PatientRecordsSent(language: string, records: Option<string>, history: seq<string>, prompt: string)
    requires Truthy(records)
    ensures var r := ChatMessages(language, "patient", records, history, prompt);
      && r.Ok?
      && r.value[|r.value| - 2].speaker == System
      && Contains(r.value[|r.value| - 2].content, records.value)
  {
    PatientRecordsContext(language, records.value);
  }

  /** The model receives the role's context first and the built messages unchanged
      after it: a chat never asks for JSON, so no instruction is added. */
  lemma ChatCall(s: Services, language: string, role: string, msgs: seq<ChatMessage>)
    requires GetLanguagePrompt(language, role + "_context").Ok?
    ensures var context := GetLanguagePrompt(language, role + "_context").value;
      CallOf(s.primaryUrl, s.primaryModel, Formatted(msgs, Some(context)), FormatOf(false)).messages
        == [ChatMessage(System, context)] + msgs
  {
    PromptNonEmpty(language, role + "_context");
  }
}
