/** The error values raised by the backends. An error carries an HTTP status, a
    detail text and, for the cdss service, a machine-readable key stored on the
    instance. The monolith and the modular backend raise plain HTTP errors, which
    have no key. */
module Exceptions {
  import opened Wrappers
  import opened Text

  datatype ApiError = ApiError(status: nat, detail: string, errorKey: Option<string>)

  /** A plain HTTP error, as the monolith and the modular backend raise it. */
  function HttpError(status: nat, detail: string): ApiError {
    ApiError(status, detail, None)
  }

  /** The cdss base error: status, detail and key are kept as given. */
  function MedAIException(status: nat, detail: string, errorKey: string): ApiError {
    ApiError(status, detail, Some(errorKey))
  }

  /** `head: detail` when the detail is non-empty, `head` alone otherwise (a missing
      detail is written as the empty text). */
  function WithDetail(head: string, detail: string): (r: string)
    ensures StartsWith(r, head)
    ensures detail == [] ==> r == head
    ensures detail != [] ==> r[|head|..] == ": " + detail
  {
    if detail != [] then head + ": " + detail else head
  }

  const TranscriptionHead: string := "Transcription failed from "

  /** A transcription failure: status 500, key `transcription_error`, and a detail that
      names the source and, when given, the reason. */
  function TranscriptionError(source: string, detail: string): (e: ApiError)
    ensures e.status == 500 && e.errorKey == Some("transcription_error")
    ensures StartsWith(e.detail, TranscriptionHead + source)
    ensures detail == [] ==> e.detail == TranscriptionHead + source
    ensures detail != [] ==> e.detail[|TranscriptionHead| + |source|..] == ": " + detail
  {
    MedAIException(500, WithDetail(TranscriptionHead + source, detail), "transcription_error")
  }

  const MediaTypeHead: string := "Unsupported media type: "

  /** An upload type outside what the endpoint accepts: status 415, and the detail
      ends with the offending type. */
  function UnsupportedMediaType(mediaType: string): (e: ApiError)
    ensures e.status == 415 && e.errorKey == Some("unsupported_media_type")
    ensures StartsWith(e.detail, MediaTypeHead) && e.detail[|MediaTypeHead|..] == mediaType
  {
    MedAIException(415, MediaTypeHead + mediaType, "unsupported_media_type")
  }

  /** A failed model service: status 503, and the detail names the service and, when
      given, the reason. */
  function LLMServiceError(service: string, detail: string): (e: ApiError)
    ensures e.status == 503 && e.errorKey == Some("llm_service_error")
    ensures StartsWith(e.detail, "LLM Service (" + service + ") Error")
    ensures detail == [] ==> e.detail == "LLM Service (" + service + ") Error"
    ensures detail != [] ==> e.detail[|service| + 20..] == ": " + detail
  {
    MedAIException(503, WithDetail("LLM Service (" + service + ") Error", detail), "llm_service_error")
  }

  const LanguageHead: string := "Unsupported language: "

  /** A language the service does not offer: status 400. */
  function UnsupportedLanguage(language: string): (e: ApiError)
    ensures e.status == 400 && e.errorKey == Some("unsupported_language")
    ensures StartsWith(e.detail, LanguageHead) && e.detail[|LanguageHead|..] == language
  {
    MedAIException(400, LanguageHead + language, "unsupported_language")
  }

  /** The text of an HTTP error when it is turned into a string: the status, a colon
      and the detail. */
  function Describe(e: ApiError): (r: string)
    ensures |r| > |e.detail| + 2
    ensures r[|r| - |e.detail|..] == e.detail
    ensures '0' <= r[0] <= '9'
  {
    NatToString(e.status) + ": " + e.detail
  }
}
