# voice2mr in Dafny

voice2mr turns a doctor's consultation into a medical record. Voice recordings, scanned
documents and typed transcripts are sent to a backend. The backend recognises them and
asks a language model to write the record. The same backend answers follow-up questions
about the record in a chat. Three generations of the backend exist:

- a Python monolith, `app/jcdss.py`;
- a modular `app/` package;
- the `cdss/` service, with language tables and a two-service model client.

Two Next.js front ends sit in front of the backends. `medai/` has a chat that renders
replies shaped like a record as a titled card, a home page that keeps the record the
chat attaches to every question, locale redirects and file logs. `frontend/` has an
upload panel and a chat box.

This project models that core in Dafny, one module per concern:

| module | what it models |
|---|---|
| `Text` | the string functions the code relies on: JavaScript white space and `trim`, `split` and `join`, substring search, prefix tests |
| `RecordView` | the test that decides whether an assistant reply is a record, and the line-by-line rendering of a record, with each regular expression re-expressed as a scanner |
| `ChatSession` | the chat panel of `medai` (both generations) as a class: the message list, pending flag, session id and input field, changed one user turn at a time |
| `HomePanel` | the home page (both copies) as a class: the dropped files, the processing flag and the attached record |
| `Prompts`, `SessionStore` | prompt assembly of the monolith and the modular backend, and their process-wide session table as a class |
| `Ingest` | the upload endpoints of the monolith and the modular backend (`a2mr`, `v2mr`, `i2mr`, `iqa`) and the flattening of OCR output |
| `Exceptions`, `I18n` | the error values of the `cdss` service and its language tables |
| `LlmAdapter` | the `cdss` model client: the provider dialect chosen from the base URL, the JSON instruction, and the primary/fallback retry. Message dictionaries are objects, so that the shared-dictionary update of the original shows |
| `CdssService`, `CdssRoutes` | the `cdss` record service and its `t2mr` and `a2mr` endpoints |
| `Locale` | the locale redirects of both Next.js middlewares |
| `FileUploader`, `Chatbox` | the two components of the oldest front end, as classes |
| `LogRotation` | the rotating usage and error logs of `medai`, as a class over a map from suffix slot to file content |

Speech recognition, text recognition and the model services are parameters of the
operations that use them: functions from the upload or request to the result. Clock
readings and fresh session ids are parameters too.

Where the code behaves in a way its surroundings do not expect, the model keeps the
code's behaviour and a lemma states the consequence:

- The monolith's `iqa` answers from the last image only.
- In the monolith's `a2mr`, the 400 branch cannot be reached.
- The monolith's completion helper picks its dialect from the primary URL. With the default, a local URL, it never sends the JSON format that `t2mr` asks for, not even to a remote fallback.
- In the `cdss` `a2mr`, the empty-transcript fallback never changes anything.
- A `cdss` doctor chat with records fails on the missing `retrieved_info` placeholder.
- A `cdss` fallback call repeats the JSON instruction that the primary call added through the shared system message.
- The current middleware keeps redirecting a path for an unsupported language (`/de` to `/de/de`).
- Both middlewares resolve the redirect target with `new URL`. A language that starts with `/` or `\` therefore sends the request to another host, or makes the middleware throw.
- The older middleware does not replace an empty Accept-Language header by its default. With such a header, `/` throws and any other unlocalised page goes to the host its path begins with (`/en-US/page` to the host `en-US`).

## Model

| member | source | states |
|---|---|---|
| Text.TrimSlice | medai/src/app/components/Chat.tsx:60 | `trim` returns a slice of the line with white space only on either side of it, and the slice neither starts nor ends with white space |
| Text.TrimTrimmed | medai/src/app/components/Chat.tsx:60 | trimming is idempotent |
| Text.IsBlankIff | medai/src/app/components/Chat.tsx:227 | a text is blank exactly when its trim is empty |
| Text.ContainsIff | medai/src/app/components/Chat.tsx:19-43 | the substring search finds a text exactly when it occurs at some position |
| Text.SplitHead | medai/src/middleware.ts:36 | the first piece of a split is a prefix without the separator, ending at the end of the text or at a separator |
| Text.JoinSplit | app/jcdss.py:619 | joining the pieces of a split with the separator gives the text back |
| Text.SplitJoin | app/jcdss.py:619 | splitting a join of separator-free pieces gives the pieces back |
| Text.AsciiLower | cdss/src/app/services/llm.py:30 | lower-casing changes only the letters A to Z, each to its lower-case form, and keeps the length |
| RecordView.IsRecord | medai/src/app/components/Chat.tsx:18 | a user message is never a record, whatever its content |
| RecordView.IsRecordIff | medai/src/app/components/Chat.tsx:18-48 | an assistant reply is a record exactly when it contains one of the 25 keywords, or a `**label**` fragment, or a chain of at least three non-overlapping star pairs (a star, white space, a star) in increasing order |
| RecordView.StarPairsMaximal | medai/src/app/components/Chat.tsx:47 | the global match count of `\*\s*\*` is the largest number of non-overlapping star pairs: the leftmost matches form such a chain, and no chain is longer |
| RecordView.LeftmostPairs | medai/src/app/components/Chat.tsx:47 | the matches taken leftmost first form a chain of non-overlapping star pairs as long as the count |
| RecordView.ChainBound | medai/src/app/components/Chat.tsx:47 | no chain of non-overlapping star pairs from a position is longer than the count from there |
| RecordView.StarPairsMonotone | medai/src/app/components/Chat.tsx:47 | starting the count later never finds more pairs |
| RecordView.HasBoldFromIff | medai/src/app/components/Chat.tsx:45 | the scanner for the bold-label pattern succeeds from a position exactly when a `**label**` fragment starts at or after it |
| RecordView.StarPairsBound | medai/src/app/components/Chat.tsx:47 | the number of star pairs is at most half the number of stars |
| RecordView.FewStarsNeedKeyword | medai/src/app/components/Chat.tsx:18-48 | a record with fewer than four stars is a record through a keyword |
| RecordView.GapEndMaximal | medai/src/app/components/Chat.tsx:73 | the gap scanner for white space, an optional full-width colon and white space consumes the longest such gap |
| RecordView.NewFormatSound | medai/src/app/components/Chat.tsx:73-76 | every new-format heading match is `**`, a star-free label, `**`, a gap and the rest, with label and rest taken from the line |
| RecordView.NewFormatComplete | medai/src/app/components/Chat.tsx:73-76 | every line of the new-format shape is matched, with that label and a rest no longer than any possible one |
| RecordView.OldFormatSound | medai/src/app/components/Chat.tsx:91-94 | every old-format heading match is a star, white space, a star, a star-free label, one or two stars, a gap and the rest |
| RecordView.OldFormatComplete | medai/src/app/components/Chat.tsx:91-94 | every line of the old-format shape is matched, with that label and the longest gap |
| RecordView.NumberedText | medai/src/app/components/Chat.tsx:109-113 | a numbered item shows the line after its digits, full stop and white space |
| RecordView.DashBulletText | medai/src/app/components/Chat.tsx:109-113 | a `- ` item shows the line after the dash and its white space |
| RecordView.DashText | medai/src/app/components/Chat.tsx:119-123 | a `-` sub-item shows the trimmed rest, which is the line after the dash and its white space |
| RecordView.PresentFromSpec | medai/src/app/components/Chat.tsx:59-61 | dropping the nulls of a map keeps one value per present entry: the k-th value is the k-th present entry's, the kept indices strictly increase, and no present entry is skipped |
| RecordView.RenderSpec | medai/src/app/components/Chat.tsx:56-134 | a record renders one block per line whose trim is not empty, in line order, each classified from its own trimmed line alone; no such line is skipped |
| RecordView.Render | medai/src/app/components/Chat.tsx:16-140 | a message becomes a record card exactly when it is a record; the card has the fixed title and the line blocks, anything else is the unchanged Markdown source |
| RecordView.GreetingIsNotRecord | medai/tests/chat-medical-record.spec.ts:86 | the greeting of the test scenario is shown as plain Markdown |
| RecordView.SampleReplyRendering | medai/tests/chat-medical-record.spec.ts:12-13 | a shortened form of the test scenario's record (its intro, its first heading line cut after the first section, a closing line) renders as an intro, an old-format heading and a plain line |
| ChatSession.HistoryAppend | medai/src/app/components/Chat.tsx:246 | the outbound history of two message lists is the history of the first followed by that of the second |
| ChatSession.HistoryNoSentinel | medai/src/app/components/Chat.tsx:246 | without sentinel ids, the outbound history is every content, in order |
| ChatSession.ClockIdNotSentinel | medai/src/app/components/Chat.tsx:230 | an id made from a clock reading is never one of the two sentinel ids |
| ChatSession.TurnHistory | medai/src/app/components/Chat.tsx:236-290 | a completed turn adds the question and the reply to the outbound history |
| ChatSession.DisplayByGeneration | medai/src/components/Chat.tsx:182 | the older panel shows every message as typed; the current panel renders every message as Markdown, a user message included, and shows a record card exactly for an assistant reply shaped like a record |
| ChatSession.Session.constructor | medai/src/app/components/Chat.tsx:144-147 | a panel starts with no messages, empty input, nothing pending and no session id |
| ChatSession.Session.AddWelcome | medai/src/app/components/Chat.tsx:154-164 | the welcome message is added only to an empty list, and nothing else changes |
| ChatSession.Session.SetInput | medai/src/app/components/Chat.tsx:367 | typing replaces the input and nothing else |
| ChatSession.Session.Submit | medai/src/app/components/Chat.tsx:226-247 | a blank question or a pending request changes nothing; otherwise one user message is appended, the input is cleared, the panel waits, and the request carries the patient role, the session id, the attached record and the history without sentinels |
| ChatSession.Session.SubmitInput | medai/src/app/components/Chat.tsx:303-306 | the form submits the current input, with the same outcome |
| ChatSession.Session.ApplySuccess | medai/src/app/components/Chat.tsx:281-299 | a reply sets the session id, appends one assistant message with the reply's timestamp, and ends the wait |
| ChatSession.Session.ApplyFailure | medai/src/app/components/Chat.tsx:291-299 | a failure keeps the messages, including the user's question, and ends the wait |
| ChatSession.Session.SentHistory | medai/src/app/components/Chat.tsx:246 | with the welcome message first, the outbound history is every later content; otherwise every content |
| HomePanel.RemoveAt | medai/src/app/components/HomeClient.tsx:128 | removal by index drops one entry when the index is in range and none otherwise |
| HomePanel.RemoveAtSlices | medai/src/app/components/HomeClient.tsx:128 | the remaining entries are those before and after the index, in order |
| HomePanel.Panel.constructor | medai/src/app/components/HomeClient.tsx:21-23 | the page starts with no files, not processing, and an empty record |
| HomePanel.Panel.Drop | medai/src/app/components/HomeClient.tsx:30-32 | dropped files are appended after the existing ones, in drop order |
| HomePanel.Panel.Remove | medai/src/app/components/HomeClient.tsx:128 | removal deletes exactly the entry at the index |
| HomePanel.Panel.BeginProcessing | medai/src/app/components/HomeClient.tsx:40-46 | with no files the submission fails and nothing changes; otherwise all files are sent and processing starts |
| HomePanel.Panel.FinishProcessing | medai/src/app/components/HomeClient.tsx:59-76 | a result replaces the record wholesale, a failure keeps it, and processing ends either way |
| HomePanel.Panel.Ask | medai/src/app/components/HomeClient.tsx:95 | a question from the chat carries the current attached record |
| Prompts.RecordContextJson | app/jcdss.py:272-284 | the JSON sentence is inserted after the opening sentence exactly when JSON is asked for |
| Prompts.RecordContextRecords | app/services/llm.py:132-134 | checkup data are appended to the context exactly when the records are non-empty; otherwise the context ends with the items, and in the monolith the example record |
| Prompts.RecordRequest | app/jcdss.py:271-300 | the request is the context as system message and the transcript after a fixed lead as user message; the modular backend always asks for a JSON object, the monolith when JSON is asked for (what the monolith then sends is `MonolithSend`) |
| Prompts.MonolithT2mr | app/jcdss.py:385-386 | the monolith's `t2mr` always runs with JSON on, whatever the request says |
| Prompts.ModularT2mr | app/api/routes/medical_records.py:34-38 | the modular `t2mr` passes the JSON flag through and maps missing records to the empty text |
| Prompts.MonolithRecordOutcome | app/jcdss.py:332-367 | the primary reply, else the fallback reply, else a 503 naming both failures |
| Prompts.MonolithSend | app/jcdss.py:242-269 | the monolith's completion helper sends the model and the messages; it turns streaming off exactly for a primary URL naming `localhost` or `127.0.0.1`, and sends the JSON format exactly when it is asked for and the primary URL is not local |
| Prompts.FallbackDialect | app/jcdss.py:300-341 | the primary and the fallback call go to their own URLs with their own models and the same messages, and the fallback's dialect follows the primary URL, not its own |
| Prompts.DefaultUrlDropsFormat | app/jcdss.py:31 | with the default primary URL the `t2mr` request asks for a JSON object, yet neither call sends the format |
| Prompts.RephraseRequest | app/jcdss.py:543-558 | rephrasing works only for the doctor role; for any other role it fails on the unbound context |
| Prompts.QueryContextRecords | app/jcdss.py:593-615 | the consultation context contains the printed records and depends on them only through that text |
| Prompts.NonDoctorIsPatient | app/jcdss.py:596-615 | every role other than doctor gets the patient context |
| Prompts.QueryMessages | app/jcdss.py:618-622 | the messages are assistant (the history), system (the context) and user (the question), in that order |
| Prompts.QueryMessagesHistory | app/jcdss.py:619 | the joined history splits back into its entries when none holds a line break |
| SessionStore.ResolveId | app/jcdss.py:583-584 | a missing or empty session id is replaced by a fresh one; any other is kept |
| SessionStore.QueryRequest | app/services/llm.py:294-305 | the question is sent as history, context, question; the modular backend asks for a JSON object |
| SessionStore.StoreAfterReply | app/jcdss.py:636-637 | a reply grows its session's history by exactly that reply and leaves other sessions unchanged |
| SessionStore.ConsecutiveQuestions | app/jcdss.py:586-637 | without a client history, the next question on a session sees the previous history plus the previous reply |
| SessionStore.ClientHistoryWins | app/jcdss.py:587-588 | a non-empty client history replaces the stored one, even when the model then fails |
| SessionStore.StoredHistoryReachesModel | app/jcdss.py:618-622 | a stored history reaches the model as one message that splits back into that history |
| SessionStore.Store.constructor | app/jcdss.py:114 | the session table starts empty |
| SessionStore.Store.Query | app/jcdss.py:575-647 | one question resolves the id, picks the prior history, stores it back with the reply, and answers with the resolved id and the reply's token counts; a model failure stores only a client history |
| Ingest.TranscribeImage | app/jcdss.py:169-177 | the OCR text is every recognised line of every page, in order, joined by line breaks |
| Ingest.TranscribedLinesSplitBack | app/jcdss.py:177 | the recognised lines can be read back from the joined text when none holds a line break |
| Ingest.MonolithUpload | app/jcdss.py:408-426 | one upload is spoken text for the six audio types, scanned text for `image/` types, 500 for an empty text, and 415 exactly for the other types |
| Ingest.GatherSticky | app/jcdss.py:407-426 | the first failing upload decides the outcome |
| Ingest.GatherFails | app/jcdss.py:407-426 | an upload refused after accepted ones makes the whole endpoint fail with that upload's error |
| Ingest.GatherOk | app/jcdss.py:407-426 | the uploads are gathered exactly when each is accepted |
| Ingest.GatherShape | app/jcdss.py:405-426 | the image records start with the form's records, every upload lands in exactly one list, and there are no voice texts exactly when no upload has an audio type |
| Ingest.MonolithA2mr | app/jcdss.py:390-435 | the endpoint builds the request of the gathered texts; without voice texts the image records become the transcript |
| Ingest.MonolithA2mrRecords | app/jcdss.py:428-434 | when every upload is accepted a request is made (the 400 branch is unreachable), and the form's records lead the transcript or the extra records |
| Ingest.V2mr | app/api/routes/medical_records.py:62-89 | the endpoint builds the request of the recognised voice texts |
| Ingest.V2mrOk | app/api/routes/medical_records.py:66-84 | the request is made exactly when every upload has one of the six audio types and a non-empty transcript, and its transcript is those texts joined in upload order |
| Ingest.V2mrFirstError | app/api/routes/medical_records.py:66-78 | a failure is the 415 or 500 of the first upload that is refused |
| Ingest.RecogniseAll | app/api/routes/medical_records.py:112-119 | every image is recognised, in order |
| Ingest.I2mr | app/api/routes/medical_records.py:92-130 | the request's transcript is the recognised texts joined by line breaks, with no emptiness check |
| Ingest.I2mrKeepsEveryImage | app/api/routes/medical_records.py:123 | each image's text can be read back from the transcript |
| Ingest.SpentConcat | app/api/routes/medical_records.py:177-179 | token counts of a sequence of calls add up over concatenation |
| Ingest.IqaTranscript | app/jcdss.py:500-505 | the modular backend questions the joined texts, the monolith only the last one, and the monolith has none without images |
| Ingest.Iqa | app/api/routes/medical_records.py:132-208 | one answer per prompt, in prompt order, each from the transcript; `"{}"` as key values when no extraction is made; an error without a transcript |
| Ingest.AskAll | app/api/routes/medical_records.py:170-179 | the answers and the summed token counts of the prompt calls |
| Ingest.IqaEndpoint | app/api/routes/medical_records.py:132-208 | the endpoint answers as the reference definition of the question answering |
| Ingest.IqaTokens | app/api/routes/medical_records.py:166-192 | the token totals are the sums over every call made |
| Ingest.MonolithIqaLastImage | app/jcdss.py:498-506 | in the monolith, the images before the last one do not change the answer |
| Exceptions.WithDetail | cdss/src/app/core/exceptions.py:19 | the detail is the head alone when the detail is empty, otherwise the head, a colon and the detail |
| Exceptions.TranscriptionError | cdss/src/app/core/exceptions.py:15-21 | status 500, key `transcription_error`, a detail naming the source and the optional detail |
| Exceptions.UnsupportedMediaType | cdss/src/app/core/exceptions.py:23-29 | status 415, key `unsupported_media_type`, a detail ending in the type |
| Exceptions.LLMServiceError | cdss/src/app/core/exceptions.py:31-37 | status 503, key `llm_service_error`, a detail naming the service and the optional detail |
| Exceptions.UnsupportedLanguage | cdss/src/app/core/exceptions.py:39-45 | status 400, key `unsupported_language`, a detail ending in the language |
| Exceptions.Describe | cdss/src/app/services/llm.py:121 | an error prints as its status followed by its detail |
| I18n.PromptTableShape | cdss/src/app/core/i18n.py:58-178 | all five supported languages define the same six prompt keys |
| I18n.Format | cdss/src/app/core/i18n.py:202 | formatting succeeds exactly when every placeholder is bound, and otherwise fails on the first unbound name |
| I18n.FormatPlaceholders | cdss/src/app/core/i18n.py:202 | binding each placeholder to its own braces gives the raw template back |
| I18n.FormatContains | cdss/src/app/core/i18n.py:202 | the formatted text contains every bound value |
| I18n.FormatFirstMissing | cdss/src/app/core/i18n.py:202 | when every placeholder before an unbound one is bound, formatting fails with a `KeyError` naming that placeholder |
| I18n.GetLanguageTemplate | cdss/src/app/core/i18n.py:181-185 | the lookup succeeds exactly for the six prompt keys |
| I18n.GetLanguagePrompt | cdss/src/app/core/i18n.py:181-185 | the lookup succeeds exactly for the six prompt keys and fails with the key otherwise |
| I18n.LanguageFallback | cdss/src/app/core/i18n.py:183-184 | an unsupported language gets the default language's prompt |
| I18n.TemplateLookup | cdss/src/app/core/i18n.py:181-185 | the lookup returns the table entry of the language, or of the default language |
| I18n.PromptNonEmpty | cdss/src/app/core/i18n.py:58-178 | every prompt is non-empty text |
| I18n.GetErrorMessage | cdss/src/app/core/i18n.py:187-190 | the message is `Error: ` and the key, whatever the language |
| I18n.GetMedicalRecordTemplate | cdss/src/app/core/i18n.py:192-197 | every language gets the Chinese template |
| I18n.QueryTemplateShape | cdss/src/app/core/i18n.py:68-81 | the doctor query context has the `medical_records` and `retrieved_info` placeholders, the patient one only `medical_records` |
| I18n.DoctorQueryNeedsRetrieved | cdss/src/app/services/medical_record.py:93-94 | formatting the doctor query context with the records alone fails on `retrieved_info` |
| I18n.PatientQueryFormats | cdss/src/app/services/medical_record.py:93-94 | formatting the patient query context with the records succeeds and contains them |
| I18n.DoctorQueryLookup | cdss/src/app/services/medical_record.py:93-94 | in every language, the doctor query context fails on `retrieved_info` |
| I18n.PatientQueryLookup | cdss/src/app/services/medical_record.py:93-94 | in every language, the patient query context contains the records |
| I18n.FormatDoctorQueryContext | cdss/src/app/core/i18n.py:199-202 | the context contains the records and the retrieved information; an unsupported language fails with no fallback |
| I18n.FormatPatientQueryContext | cdss/src/app/core/i18n.py:204-207 | the context contains the records; an unsupported language fails with no fallback |
| LlmAdapter.WithInstruction | cdss/src/app/services/llm.py:15-22 | the instruction is appended to a leading system message, or else a new system message holding it is put first |
| LlmAdapter.LeftBehind | cdss/src/app/services/llm.py:17-19 | the caller's list keeps its length and order; only a leading system message changes |
| LlmAdapter.AddJsonInstruction | cdss/src/app/services/llm.py:15-22 | the copy holds the instruction; a leading system dictionary is shared, so the caller's list changes too |
| LlmAdapter.ProviderOf | cdss/src/app/services/llm.py:27-41 | DeepSeek exactly when the lower-cased URL names it, else Ollama exactly when the URL names localhost or 127.0.0.1, else OpenAI |
| LlmAdapter.CallOf | cdss/src/app/services/llm.py:29-59 | only OpenAI forwards the response format, only Ollama passes a stream flag and it is off, and the instruction is added as each dialect does |
| LlmAdapter.CreateChatCompletion | cdss/src/app/services/llm.py:24-61 | one call in the URL's dialect; any failure becomes a model-service error naming the URL |
| LlmAdapter.Generate | cdss/src/app/services/llm.py:63-122 | the primary reply when the primary call succeeds; after a primary failure the fallback reply when the fallback succeeds; an error exactly when both fail, and then a 503 with the model-service key |
| LlmAdapter.AllServicesNamesBoth | cdss/src/app/services/llm.py:118-122 | the error for all services carries the detail of each failure it combines |
| LlmAdapter.BothFailuresNamed | cdss/src/app/services/llm.py:118-122 | when both services fail, the final detail contains each failure's detail |
| LlmAdapter.FallbackRepeatsInstruction | cdss/src/app/services/llm.py:104-111 | the fallback receives the system message with the instruction added twice |
| LlmAdapter.GenerateCompletion | cdss/src/app/services/llm.py:63-122 | on dictionaries, the outcome is that of `Generate` on the messages the list held, and the caller's list afterwards is `CallerListAfter` of what it held |
| LlmAdapter.TryServices | cdss/src/app/services/llm.py:93-122 | the retry on a list of dictionaries gives the outcome of `Attempt` and leaves the list as the primary dialect, then after a primary failure the fallback dialect, changed it |
| LlmAdapter.TryWithContext | cdss/src/app/services/llm.py:81-85 | with a system context the retry runs on a fresh context dictionary followed by the caller's, and changes none of the caller's dictionaries |
| LlmAdapter.CallerListAfter | cdss/src/app/services/llm.py:81-97 | the caller's list keeps its length, and is untouched when a non-empty system context is put in front of it |
| LlmAdapter.CallerListShape | cdss/src/app/services/llm.py:15-22 | after the call only a leading system message of the caller's can differ, and it still starts with its old content |
| CdssService.Zip | cdss/src/app/services/medical_record.py:15 | pairs up to the shorter list, each pair from the same position |
| CdssService.CollectOk | cdss/src/app/services/medical_record.py:15-24 | the loop succeeds exactly when each step does, with one text per item in order |
| CdssService.CollectErr | cdss/src/app/services/medical_record.py:15-24 | a failure is the error of the first failing step |
| CdssService.CollectFirstErr | cdss/src/app/services/medical_record.py:15-24 | when every item before a failing one succeeds, the loop fails with that item's error |
| CdssService.ProcessVoiceFiles | cdss/src/app/services/medical_record.py:11-24 | the voice loop ends as the reference definition: texts joined by line breaks, or the first error |
| CdssService.ProcessImageFiles | cdss/src/app/services/medical_record.py:26-36 | the image loop ends as the reference definition |
| CdssService.VoiceSuccess | cdss/src/app/services/medical_record.py:15-24 | the voice files pass exactly when each paired type is supported and each transcript is non-empty, and extra files or types are dropped |
| CdssService.VoiceRejectsType | cdss/src/app/services/medical_record.py:16-17 | the first unsupported type raises 415 with that type |
| CdssService.ImageSuccess | cdss/src/app/services/medical_record.py:30-36 | the images pass exactly when each text is non-empty, and the texts are kept in order |
| CdssService.RecordPromptParts | cdss/src/app/services/medical_record.py:52-54 | the prompt contains the transcript, and it ends with the records only when they are truthy |
| CdssService.GenerateMedicalRecord | cdss/src/app/services/medical_record.py:38-71 | a reply is stamped with the clock; a failure is the 503 of the model client |
| CdssService.RecordCall | cdss/src/app/services/medical_record.py:47-63 | the model receives the doctor context as system message (with the instruction exactly when JSON is asked for) and the prompt as the only user message |
| CdssService.ChatMessages | cdss/src/app/services/medical_record.py:86-97 | optional joined history, optional records context, then the question, always last |
| CdssService.ProcessChat | cdss/src/app/services/medical_record.py:73-111 | the session id is echoed unchanged; a missing context key fails with that key |
| CdssService.ChatRoles | cdss/src/app/services/medical_record.py:84 | the context lookup succeeds exactly for the roles whose key is a prompt key |
| CdssService.ContextKeys | cdss/src/app/core/i18n.py:60-81 | `role_context` is a prompt key exactly for the four roles doctor, patient, doctor_query and patient_query |
| CdssService.DoctorRecordsContext | cdss/src/app/services/medical_record.py:93-94 | the doctor records context fails on `retrieved_info` |
| CdssService.DoctorRecordsFail | cdss/src/app/services/medical_record.py:92-95 | a doctor chat with records fails while building its messages |
| CdssService.DoctorChatWithRecords | cdss/src/app/services/medical_record.py:73-111 | a doctor chat with records fails before any model call |
| CdssService.PatientRecordsSent | cdss/src/app/services/medical_record.py:92-95 | a patient chat with records sends them in the system message before the question |
| CdssService.ChatCall | cdss/src/app/services/medical_record.py:99-102 | the chat call puts the role context first and asks for no JSON format |
| CdssRoutes.T2mr | cdss/src/app/api/routes/medical_records.py:9-29 | forwarding a transcript yields a stamped reply or the 503 of the model client |
| CdssRoutes.OfKind | cdss/src/app/api/routes/medical_records.py:55-61 | the uploads of one kind, at most all of them |
| CdssRoutes.SortUploads | cdss/src/app/api/routes/medical_records.py:51-61 | the loop fills the voice files, their types and the image files with the audio/video and image uploads, in upload order |
| CdssRoutes.RecogniseVoice | cdss/src/app/api/routes/medical_records.py:63-72 | the voice part is the joined voice text, or nothing without voice files |
| CdssRoutes.RecogniseImages | cdss/src/app/api/routes/medical_records.py:74-84 | the image part is the joined image text |
| CdssRoutes.RecogniseUploads | cdss/src/app/api/routes/medical_records.py:63-86 | the texts are gathered as the reference definition says |
| CdssRoutes.A2mr | cdss/src/app/api/routes/medical_records.py:31-97 | the endpoint ends as the reference definition |
| CdssRoutes.A2mrOrder | cdss/src/app/api/routes/medical_records.py:63-86 | the order is voice text, then non-empty records, then image text |
| CdssRoutes.EmptyFallbackIsIdle | cdss/src/app/api/routes/medical_records.py:88-89 | the empty-transcript fallback never changes the texts |
| CdssRoutes.IgnoredUpload | cdss/src/app/api/routes/medical_records.py:55-61 | an upload that is neither audio, video nor image is silently ignored |
| CdssRoutes.VoiceRuntimeError | cdss/src/app/api/routes/medical_records.py:68-72 | a runtime error of the voice service becomes 501 with its message |
| CdssRoutes.RecordsOnly | cdss/src/app/api/routes/medical_records.py:85-89 | without voice or image files, the transcript is the records |
| Locale.PublicFileIff | medai/src/middleware.ts:5 | a path counts as a public file exactly when it has a `.` followed by no line terminator |
| Locale.PrimarySubtagShape | medai/src/middleware.ts:36 | the language is a prefix of the header with no `,` and no `-` |
| Locale.LanguageShape | medai/src/middleware.ts:36 | the language is never empty: the default, or a prefix of the header |
| Locale.Resolve | medai/src/middleware.ts:52 | a target whose second character is `/` or `\` names its own host: the text after the slashes up to the next `/`, `\`, `?` or `#`, and an empty one is refused; any other target stays a path on the request's site |
| Locale.ResolveNamedHost | medai/src/middleware.ts:52 | a target naming a host is a run of slashes, the authority and the rest, with nothing lost |
| Locale.ResolveFails | medai/src/middleware.ts:52 | the URL is refused exactly when the leading slashes are followed by the end, `?` or `#` |
| Locale.MiddlewareRedirects | medai/src/middleware.ts:11-55 | a redirect (or a throw while resolving it) happens exactly when the path is not excluded and misses every locale; a direct locale route passes silently; with a language that starts with neither `/` nor `\` the target is `/` and the language, followed by the path unless it is `/`, on the same site, and otherwise it never stays on the site |
| Locale.HeaderNamesHost | medai/src/middleware.ts:36-52 | the header `/evil` sends `/` to the host `evil` |
| Locale.HeaderThrows | medai/src/middleware.ts:36-52 | the header `\` makes the middleware throw on `/` |
| Locale.RedirectSettles | medai/src/middleware.ts:24-52 | when the language is a supported locale, the request goes to a path on its own site, and that path is not redirected again |
| Locale.UnknownLocalePath | medai/src/middleware.ts:24-34 | `/de` is neither excluded nor a locale route, and misses every locale |
| Locale.UnsupportedLanguageRedirectsAgain | medai/src/middleware.ts:36-52 | with the header `de`, `/` goes to `/de` and `/de` goes on to `/de/de`, on the same site |
| Locale.RootRedirects | middleware.ts:13-29 | the older middleware redirects (or throws) exactly for the paths that miss `en` and `zh`; with a language that starts with neither `/` nor `\` the target is `/`, the language and the whole path on the same site, so `/` becomes `/en/` without a header; an empty or slash-led language never keeps the request on the site |
| Locale.RootRedirectSettles | middleware.ts:16-28 | when the language is `en` or `zh`, the target is a path on the same site and is not redirected again |
| Locale.RootEmptyHeader | middleware.ts:8-27 | an empty header yields the empty language: `/` throws, and `/en-US/page` goes to the host `en-US` with the path `/page` |
| FileUploader.ToEntry | frontend/src/components/FileUploader.tsx:28-39 | an entry keeps name and size, starts pending, and has a non-empty type, `application/octet-stream` by default |
| FileUploader.KeptOrReported | frontend/src/components/FileUploader.tsx:42-48 | every picked file is kept or reported once; kept files are at most 100 MB and pending; when none is too large, all are kept in order |
| FileUploader.KeptConcat | frontend/src/components/FileUploader.tsx:42-48 | the filter and its reports distribute over concatenation |
| FileUploader.Marked | frontend/src/components/FileUploader.tsx:54-56 | entries whose name is among the kept names get the new status; all others are unchanged |
| FileUploader.MarkedTwice | frontend/src/components/FileUploader.tsx:54-82 | marking twice is marking with the last status |
| FileUploader.WithoutShape | frontend/src/components/FileUploader.tsx:87-89 | removal deletes every entry with the name and keeps all others |
| FileUploader.Uploader.constructor | frontend/src/components/FileUploader.tsx:22 | the panel starts with no files and no events |
| FileUploader.Uploader.Choose | frontend/src/components/FileUploader.tsx:25-56 | no selection changes nothing; otherwise kept files are appended and marked uploading, each rejection is reported, and the start is signalled even when nothing was kept |
| FileUploader.Uploader.Complete | frontend/src/components/FileUploader.tsx:73-84 | the kept names are marked done or error, and one success or error event follows |
| FileUploader.Uploader.RemoveFile | frontend/src/components/FileUploader.tsx:87-89 | removal by name, with no event |
| FileUploader.UploadRound | frontend/src/components/FileUploader.tsx:50-82 | after a round, the kept files follow the earlier entries, carry the final status, and earlier entries with other names are unchanged |
| Chatbox.Box.constructor | frontend/src/components/Chatbox.tsx:13-14 | the box starts empty |
| Chatbox.Box.SetInput | frontend/src/components/Chatbox.tsx:14 | typing replaces the input and nothing else |
| Chatbox.Box.Send | frontend/src/components/Chatbox.tsx:16-22 | blank input changes nothing; otherwise one patient line with the untrimmed input is appended, the callback receives it once, and the input is cleared |
| Chatbox.Box.KeyPress | frontend/src/components/Chatbox.tsx:24-28 | Enter acts as the send button, and other keys do nothing |
| LogRotation.RotationOutcome | medai/src/utils/logger.ts:26-39 | a full log moves to slot 1, copies 1 to 3 move up one, copy 4 is dropped, and no other slot changes |
| LogRotation.SmallLogStays | medai/src/utils/logger.ts:20-23 | a missing or small log leaves every slot unchanged |
| LogRotation.Put | medai/src/utils/logger.ts:48-51 | setting a key gives that key the new value, leaves every other key as it was, and keeps the first key first |
| LogRotation.LookupReplace | medai/src/utils/logger.ts:48-51 | replacing a key's value in place changes only that key's lookup |
| LogRotation.LookupAppend | medai/src/utils/logger.ts:48-51 | a field appended at the end wins the lookup of its key |
| LogRotation.SpreadOverrides | medai/src/utils/logger.ts:48-51 | in a spread, a key of the spread object overrides the base, and the base's first key stays first |
| LogRotation.Appended | medai/src/utils/logger.ts:53 | appending adds the text to the end of the live file and leaves every other slot alone |
| LogRotation.RotatingLog.Rotate | medai/src/utils/logger.ts:19-40 | the descending loop leaves the slots as the reference rotation |
| LogRotation.RotatingLog.Write | medai/src/utils/logger.ts:43-59 | the log is rotated first and then receives exactly one line, or nothing when the append fails |
| LogRotation.LogUsage | medai/src/utils/logger.ts:62-71 | a usage entry is written with type `usage` unless the caller gives one |
| LogRotation.LogError | medai/src/utils/logger.ts:74-83 | an error entry is written with type `error` unless the caller gives one |
| LogRotation.UsageEntryFields | medai/src/utils/logger.ts:48-51 | a usage entry starts with the timestamp, and caller keys override both the timestamp and the type |

## Left out

- Speech recognition, text recognition and the model services are parameters. The model does not say what they return, and it treats them as total functions. The `iqa` question and extraction calls cannot fail in the model.
- Clock readings, fresh UUIDs and base URLs are parameters.
- Configuration, environment variables and model names are parameters or constants.
- The JSON encoding of a log entry is a parameter.
- A log's size is measured in characters, not in UTF-8 bytes.
- A filesystem fault is modelled only at the final append. A fault in `ensureLogDir` or in a rename is not modelled.
- `getLogStats` and `cleanOldLogs` of the log manager are not part of this model.
- Console output is left out.
- The React runtime is left out: hooks, re-render timing, toasts, JSX and `ReactMarkdown`. The chat's pending flag is one field with atomic transitions.
- Microphone capture in the chat is left out.
- Every `fetch` and the Next.js proxy routes are left out. File previews (`URL.createObjectURL`) are left out.
- The middleware `matcher` configurations are left out.
- Resolve: the URL parser's other steps are left out: removing tabs and newlines and trailing spaces, normalising the path (dot segments, backslashes, percent-encoding), splitting off a query or fragment, and validating the host (forbidden characters, credentials, ports, IDNA). The model says only whether the target stays on the site, names a host, or is refused.
- The service worker is left out.
- Framework validation (Pydantic, FastAPI form parsing) is left out.
- `ProviderOf` lower-cases ASCII letters only. Python's `lower()` also folds other scripts, which cannot change whether `deepseek` occurs.
- The pattern `(.*)$` of the heading scanners stops at line terminators. Only the JavaScript line terminators are modelled, not Unicode case or normalisation.
- `AddJsonInstruction`, `CreateChatCompletion`, `GenerateCompletion`: these require the caller's list to hold each message dictionary once. Every caller in the code builds a fresh list of fresh dictionaries.
- The monolith's example record template for `t2mr` is a parameter (`example`), not the literal text.
- The i18n prompts are stored as literal text and named placeholders, so Python's `str.format` is modelled as substitution over those tokens; escaped braces do not occur in the tables.
