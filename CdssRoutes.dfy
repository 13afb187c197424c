/** The record endpoints of the cdss backend. `t2mr` forwards a transcript to the
    record service; `a2mr` sorts uploads by content type into voice and image files,
    recognises each group, and sends the texts, joined by line breaks, as one
    transcript. */
module CdssRoutes {
  import opened Wrappers
  import opened Text
  import opened Exceptions
  import opened Prompts
  import opened LlmAdapter
  import opened CdssService

  /** The body of a `t2mr` request; the JSON flag defaults to on, the language to
      Chinese. */
  datatype RecordRequest = RecordRequest(transcript: string, records: Option<string>, isJson: bool, language: string)

  /** `t2mr`: the request's fields go to the record service unchanged, so the only
      failure is that of the model services. */
  function T2mr(s: Services, request: RecordRequest, now: int,
                primary: ClientCall -> Result<Completion, string>,
                fallback: ClientCall -> Result<Completion, string>): (r: Result<RecordReply, ServiceError>)
    ensures r.Err? ==> r.error.Http? && r.error.error.status == 503
    ensures r.Ok? ==> r.value.timestamp == now
  {
    GenerateMedicalRecord(s, request.transcript, request.records, request.language, request.isJson, now, primary, fallback)
  }

  /** One uploaded file with the content type the client declared. */
  datatype Upload = Upload(content: Blob, contentType: string)

  datatype Kind = Voice | Image | Ignored

  /** Audio and video types go to recognition of speech, image types to recognition of
      text; any other upload is skipped without an error. */
  function KindOf(contentType: string): Kind {
    if StartsWith(contentType, "audio/") || StartsWith(contentType, "video/") then Voice
    else if StartsWith(contentType, "image/") then Image
    else Ignored
  }

  /** The uploads of one kind, in upload order. */
  function OfKind(files: seq<Upload>, kind: Kind): (r: seq<Upload>)
    ensures |r| <= |files|
    ensures forall k :: 0 <= k < |r| ==> KindOf(r[k].contentType) == kind
  {
    if files == [] then []
    else
      var last := files[|files| - 1];
      OfKind(files[..|files| - 1], kind) + (if KindOf(last.contentType) == kind then [last] else [])
  }

  function Contents(files: seq<Upload>): (r: seq<Blob>)
    ensures |r| == |files| && forall k :: 0 <= k < |files| ==> r[k] == files[k].content
  {
    if files == [] then [] else Contents(files[..|files| - 1]) + [files[|files| - 1].content]
  }

  function Types(files: seq<Upload>): (r: seq<string>)
    ensures |r| == |files| && forall k :: 0 <= k < |files| ==> r[k] == files[k].contentType
  {
    if files == [] then [] else Types(files[..|files| - 1]) + [files[|files| - 1].contentType]
  }

  /** A runtime error of recognition is answered with status 501 and its message; any
      other failure passes through. */
  function Guarded(r: Result<string, ServiceError>): Result<string, ServiceError> {
    match r
    case Err(Runtime(m)) => Err(Http(HttpError(501, m)))
    case _ => r
  }

  /** The recognised voice text, when there are voice uploads. */
  function VoiceText(files: seq<Upload>, asr: Blob -> Result<string, ServiceError>): Result<string, ServiceError> {
    var voice := OfKind(files, Voice);
    Guarded(Joined(Collect(Zip(Contents(voice), Types(voice)), VoiceStep(asr))))
  }

  /** The recognised image text, when there are image uploads. */
  function ImageText(files: seq<Upload>, ocr: Blob -> Result<string, ServiceError>): Result<string, ServiceError> {
    Guarded(Joined(Collect(Contents(OfKind(files, Image)), ImageStep(ocr))))
  }

  /** The voice part of the texts: nothing without voice uploads, else their text. */
  function VoicePart(files: seq<Upload>, asr: Blob -> Result<string, ServiceError>): Result<seq<string>, ServiceError> {
    if OfKind(files, Voice) == [] then Ok([])
    else match VoiceText(files, asr) case Ok(t) => Ok([t]) case Err(e) => Err(e)
  }

  /** The texts of an `a2mr` request: the voice text, then the records when the image
      branch or its alternative adds them, then the image text. */
  function A2mrTexts(files: seq<Upload>, records: string,
                     asr: Blob -> Result<string, ServiceError>,
                     ocr: Blob -> Result<string, ServiceError>): Result<seq<string>, ServiceError> {
    match VoicePart(files, asr)
    case Err(e) => Err(e)
    case Ok(vs) =>
      if OfKind(files, Image) != [] then
        match ImageText(files, ocr)
        case Err(e) => Err(e)
        case Ok(t) => Ok(vs + (if records != [] then [records] else []) + [t])
      else Ok(vs + (if records != [] then [records] else []))
  }

  /** The fallback the endpoint applies to an empty list of texts. */
  function EmptyFallback(texts: seq<string>, records: string): seq<string> {
    if texts == [] then (if records != [] then [records] else []) else texts
  }

  /** The outcome of `a2mr`: the texts joined by line breaks are the transcript; the
      records are not passed on separately. */
  function A2mrOutcome(s: Services, files: seq<Upload>, records: string, isJson: bool, language: string, now: int,
                       asr: Blob -> Result<string, ServiceError>,
                       ocr: Blob -> Result<string, ServiceError>,
                       primary: ClientCall -> Result<Completion, string>,
                       fallback: ClientCall -> Result<Completion, string>): Result<RecordReply, ServiceError> {
    match A2mrTexts(files, records, asr, ocr)
    case Err(e) => Err(e)
    case Ok(texts) => GenerateMedicalRecord(s, Join(texts, "\n"), None, language, isJson, now, primary, fallback)
  }

  lemma GroupStep(g: seq<Upload>, u: Upload)
    ensures Contents(g + [u]) == Contents(g) + [u.content]
    ensures Types(g + [u]) == Types(g) + [u.contentType]
  {
    assert (g + [u])[..|g|] == g;
  }

  /** The groups of the uploads before `i`, extended by upload `i`, are the groups of
      the uploads up to and including it. */
  lemma SortInvariantStep(files: seq<Upload>, i: nat)
    requires i < |files|
    ensures var u := files[i];
      && Contents(OfKind(files[..i + 1], Voice))
         == Contents(OfKind(files[..i], Voice)) + (if KindOf(u.contentType) == Voice then [u.content] else [])
      && Types(OfKind(files[..i + 1], Voice))
         == Types(OfKind(files[..i], Voice)) + (if KindOf(u.contentType) == Voice then [u.contentType] else [])
      && Contents(OfKind(files[..i + 1], Image))
         == Contents(OfKind(files[..i], Image)) + (if KindOf(u.contentType) == Image then [u.content] else [])
  {
    var u := files[i];
    KindStep(files, i, Voice);
    KindStep(files, i, Image);
    match KindOf(u.contentType)
    case Voice =>
      GroupStep(OfKind(files[..i], Voice), u);
      assert [u.content] + [] == [u.content];
    case Image =>
      GroupStep(OfKind(files[..i], Image), u);
    case Ignored =>
  }

  /** Upload `i` joins the group of its own kind and no other. */
  lemma KindStep(files: seq<Upload>, i: nat, kind: Kind)
    requires i < |files|
    ensures KindOf(files[i].contentType) == kind ==> OfKind(files[..i + 1], kind) == OfKind(files[..i], kind) + [files[i]]
    ensures KindOf(files[i].contentType) != kind ==> OfKind(files[..i + 1], kind) == OfKind(files[..i], kind)
  {
    assert files[..i + 1][..i] == files[..i];
  }

  /** The sorting pass of `a2mr`: voice contents with their types, and image contents,
      each in upload order. */
  method SortUploads(files: seq<Upload>) returns (voiceFiles: seq<Blob>, voiceTypes: seq<string>, imageFiles: seq<Blob>)
    ensures voiceFiles == Contents(OfKind(files, Voice))
    ensures voiceTypes == Types(OfKind(files, Voice))
    ensures imageFiles == Contents(OfKind(files, Image))
  {
    voiceFiles, voiceTypes, imageFiles := [], [], [];
    var i := 0;
    while i < |files|
      invariant 0 <= i <= |files|
      invariant voiceFiles == Contents(OfKind(files[..i], Voice))
      invariant voiceTypes == Types(OfKind(files[..i], Voice))
      invariant imageFiles == Contents(OfKind(files[..i], Image))
    {
      SortInvariantStep(files, i);
      var file := files[i];
      var kind := KindOf(file.contentType);
      if kind == Voice {
        voiceFiles := voiceFiles + [file.content];
        voiceTypes := voiceTypes + [file.contentType];
      } else if kind == Image {
        imageFiles := imageFiles + [file.content];
      }
      i := i + 1;
    }
    assert files[..i] == files;
  }

  /** Speech recognition of the voice group, a runtime error answered with 501. */
  method RecogniseVoice(files: seq<Upload>, voiceFiles: seq<Blob>, voiceTypes: seq<string>,
                        asr: Blob -> Result<string, ServiceError>)
    returns (part: Result<seq<string>, ServiceError>)
    requires voiceFiles == Contents(OfKind(files, Voice)) && voiceTypes == Types(OfKind(files, Voice))
    ensures part == VoicePart(files, asr)
  {
    if voiceFiles == [] {
      return Ok([]);
    }
    var voice := ProcessVoiceFiles(voiceFiles, voiceTypes, asr);
    if voice.Err? {
      if voice.error.Runtime? {
        return Err(Http(HttpError(501, voice.error.message)));
      }
      return Err(voice.error);
    }
    return Ok([voice.value]);
  }

  /** Text recognition of the image group, a runtime error answered with 501. */
  method RecogniseImages(files: seq<Upload>, imageFiles: seq<Blob>, ocr: Blob -> Result<string, ServiceError>)
    returns (text: Result<string, ServiceError>)
    requires imageFiles == Contents(OfKind(files, Image))
    ensures text == ImageText(files, ocr)
  {
    var image := ProcessImageFiles(imageFiles, ocr);
    if image.Err? && image.error.Runtime? {
      return Err(Http(HttpError(501, image.error.message)));
    }
    return image;
  }

  /** The recognition part of `a2mr`: voice first, then images with the records in
      front of their text, or the records alone. */
  method RecogniseUploads(files: seq<Upload>, records: string,
                          asr: Blob -> Result<string, ServiceError>,
                          ocr: Blob -> Result<string, ServiceError>)
    returns (texts: Result<seq<string>, ServiceError>)
    ensures texts == A2mrTexts(files, records, asr, ocr)
  {
    var voiceFiles, voiceTypes, imageFiles := SortUploads(files);
    var voice := RecogniseVoice(files, voiceFiles, voiceTypes, asr);
    if voice.Err? {
      return Err(voice.error);
    }
    var collected := voice.value;
    var withRecords: seq<string> := if records != [] then [records] else [];
    if imageFiles != [] {
      assert OfKind(files, Image) != [];
      var image := RecogniseImages(files, imageFiles, ocr);
      if image.Err? {
        return Err(image.error);
      }
      if records != [] {
        collected := collected + [records];
      }
      collected := collected + [image.value];
      assert collected == voice.value + withRecords + [image.value];
    } else {
      assert OfKind(files, Image) == [];
      if records != [] {
        collected := collected + [records];
      }
      assert collected == voice.value + withRecords;
    }
    return Ok(collected);
  }

  /** `a2mr`: sort, recognise, apply the fallback for an empty list, and send the
      joined texts as the transcript. */
  method A2mr(s: Services, files: seq<Upload>, records: string, isJson: bool, language: string, now: int,
              asr: Blob -> Result<string, ServiceError>,
              ocr: Blob -> Result<string, ServiceError>,
              primary: ClientCall -> Result<Completion, string>,
              fallback: ClientCall -> Result<Completion, string>)
    returns (r: Result<RecordReply, ServiceError>)
    ensures r == A2mrOutcome(s, files, records, isJson, language, now, asr, ocr, primary, fallback)
  {
    var recognised := RecogniseUploads(files, records, asr, ocr);
    if recognised.Err? {
      return Err(recognised.error);
    }
    var texts := recognised.value;
    if texts == [] {
      texts := if records != [] then [records] else [];
    }
    EmptyFallbackIsIdle(files, records, asr, ocr);
    r := GenerateMedicalRecord(s, Join(texts, "\n"), None, language, isJson, now, primary, fallback);
  }

  /** The texts always come in the same order: voice text, records, image text, each
      present exactly when its source is. */
  lemma A2mrOrder(files: seq<Upload>, records: string,
                  asr: Blob -> Result<string, ServiceError>,
                  ocr: Blob -> Result<string, ServiceError>)
    requires A2mrTexts(files, records, asr, ocr).Ok?
    ensures A2mrTexts(files, records, asr, ocr).value
         == (if OfKind(files, Voice) != [] then [VoiceText(files, asr).value] else [])
          + (if records != [] then [records] else [])
          + (if OfKind(files, Image) != [] then [ImageText(files, ocr).value] else [])
  {
    var vs := if OfKind(files, Voice) != [] then [VoiceText(files, asr).value] else [];
    var rs: seq<string> := if records != [] then [records] else [];
    assert vs + rs + [] == vs + rs;
  }

  /** The fallback for an empty list never changes it: the list is empty only when
      there are no records either. */
  lemma EmptyFallbackIsIdle(files: seq<Upload>, records: string,
                            asr: Blob -> Result<string, ServiceError>,
                            ocr: Blob -> Result<string, ServiceError>)
    requires A2mrTexts(files, records, asr, ocr).Ok?
    ensures EmptyFallback(A2mrTexts(files, records, asr, ocr).value, records) == A2mrTexts(files, records, asr, ocr).value
  {
    A2mrOrder(files, records, asr, ocr);
  }

  /** An upload of a type that is neither audio, video nor image changes nothing. */
  lemma IgnoredUpload(files: seq<Upload>, u: Upload, records: string,
                      asr: Blob -> Result<string, ServiceError>,
                      ocr: Blob -> Result<string, ServiceError>)
    requires KindOf(u.contentType) == Ignored
    ensures A2mrTexts(files + [u], records, asr, ocr) == A2mrTexts(files, records, asr, ocr)
  {
    assert (files + [u])[..|files|] == files;
    assert OfKind(files + [u], Voice) == OfKind(files, Voice);
    assert OfKind(files + [u], Image) == OfKind(files, Image);
  }

  /** A runtime error of speech recognition ends the request with status 501 and its
      message, before any image is read. */
  lemma VoiceRuntimeError(files: seq<Upload>, records: string, message: string,
                          asr: Blob -> Result<string, ServiceError>,
                          ocr: Blob -> Result<string, ServiceError>)
    requires OfKind(files, Voice) != []
    requires Collect(Zip(Contents(OfKind(files, Voice)), Types(OfKind(files, Voice))), VoiceStep(asr)) == Err(Runtime(message))
    ensures A2mrTexts(files, records, asr, ocr) == Err(Http(HttpError(501, message)))
  {
  }

  /** Without voice or image uploads the transcript is the records alone. */
  lemma RecordsOnly(files: seq<Upload>, records: string,
                    asr: Blob -> Result<string, ServiceError>,
                    ocr: Blob -> Result<string, ServiceError>)
    requires OfKind(files, Voice) == [] && OfKind(files, Image) == []
    ensures A2mrTexts(files, records, asr, ocr).Ok?
    ensures Join(A2mrTexts(files, records, asr, ocr).value, "\n") == records
  {
  }
}
