/** Upload routing of the monolith and of the modular backend: voice, image and mixed
    uploads turned into the request that generates a record, and the question answering
    over recognised images. Speech and text recognition and the model calls are passed
    in as functions. */
module Ingest {
  import opened Wrappers
  import opened Text
  import opened Exceptions
  import opened Prompts
  import opened CdssService
  import CdssRoutes

  type Upload = CdssRoutes.Upload

  /** The lines of a text recognition result, page by page. */
  function Flatten(pages: seq<seq<string>>): seq<string>
    decreases |pages|
  {
    if pages == [] then [] else Flatten(pages[..|pages| - 1]) + pages[|pages| - 1]
  }

  /** Flattening distributes over the concatenation of results. */
  lemma {:induction false} FlattenConcat(a: seq<seq<string>>, b: seq<seq<string>>)
    ensures Flatten(a + b) == Flatten(a) + Flatten(b)
    decreases |b|
  {
    if b == [] {
      assert a + b == a;
    } else {
      var n := |b|;
      assert (a + b)[..|a + b| - 1] == a + b[..n - 1];
      assert (a + b)[|a + b| - 1] == b[n - 1];
      FlattenConcat(a, b[..n - 1]);
    }
  }

  /** The lines of page `p` come after those of every earlier page and before those of
      every later one. */
  lemma FlattenPage(pages: seq<seq<string>>, p: nat)
    requires p < |pages|
    ensures Flatten(pages) == Flatten(pages[..p]) + pages[p] + Flatten(pages[p + 1..])
  {
    var before, page, after := pages[..p], [pages[p]], pages[p + 1..];
    SplitAround(pages, p);
    calc {
      Flatten(pages);
      Flatten((before + page) + after);
      { FlattenConcat(before + page, after); }
      Flatten(before + page) + Flatten(after);
      { FlattenConcat(before, page); }
      Flatten(before) + Flatten(page) + Flatten(after);
      { FlattenOne(pages[p]); }
      Flatten(before) + pages[p] + Flatten(after);
    }
  }

  lemma SplitAround<T>(s: seq<T>, p: nat)
    requires p < |s|
    ensures s == (s[..p] + [s[p]]) + s[p + 1..]
  {
  }

  lemma FlattenOne(lines: seq<string>)
    ensures Flatten([lines]) == lines
  {
    assert [lines][..0] == [];
  }

  /** The monolith's `transcribe_image_to_text`: every recognised line of every page, in
      order, joined by line breaks. */
  method TranscribeImage(pages: seq<seq<string>>) returns (text: string)
    ensures text == Join(Flatten(pages), "\n")
  {
    var transcripts: seq<string> := [];
    var p := 0;
    while p < |pages|
      invariant 0 <= p <= |pages|
      invariant transcripts == Flatten(pages[..p])
    {
      var l := 0;
      while l < |pages[p]|
        invariant 0 <= l <= |pages[p]|
        invariant transcripts == Flatten(pages[..p]) + pages[p][..l]
      {
        assert pages[p][..l + 1] == pages[p][..l] + [pages[p][l]];
        transcripts := transcripts + [pages[p][l]];
        l := l + 1;
      }
      assert pages[p][..l] == pages[p];
      assert pages[..p + 1][..p] == pages[..p];
      p := p + 1;
    }
    assert pages[..p] == pages;
    text := Join(transcripts, "\n");
  }

  /** When no recognised line holds a line break, the joined text splits back into the
      lines of the result. */
  lemma TranscribedLinesSplitBack(pages: seq<seq<string>>)
    requires |Flatten(pages)| >= 1
    requires forall k :: 0 <= k < |Flatten(pages)| ==> '\n' !in Flatten(pages)[k]
    ensures Split(Join(Flatten(pages), "\n"), '\n') == Flatten(pages)
  {
    SplitJoin(Flatten(pages), '\n');
  }

  // ---------------------------------------------------------------------------------
  // The monolith's `/a2mr`.

  /** What one accepted upload of the monolith yields. */
  datatype Piece = Spoken(text: string) | Scanned(text: string)

  /** One upload of the monolith's `/a2mr`: the six audio and video types go to speech
      recognition, `image/` types to text recognition; an empty result is a 500 and any
      other type a 415 naming it. */
  function MonolithUpload(u: Upload, asr: Blob -> string, ocr: Blob -> string): (r: Result<Piece, ApiError>)
    ensures r.Ok? ==> r.value.text != []
    ensures r.Ok? ==> (r.value.Spoken? <==> u.contentType in SupportedAudioTypes)
    ensures r.Err? ==> r.error.errorKey == None && (r.error.status == 415 || r.error.status == 500)
    ensures r.Err? && r.error.status == 415
        <==> u.contentType !in SupportedAudioTypes && !StartsWith(u.contentType, "image/")
  {
    if u.contentType in SupportedAudioTypes then
      var t := asr(u.content);
      if t == [] then Err(HttpError(500, "Internal Server Error: Empty Transcript from Voice File"))
      else Ok(Spoken(t))
    else if StartsWith(u.contentType, "image/") then
      var t := ocr(u.content);
      if t == [] then Err(HttpError(500, "Internal Server Error: Empty Transcript from Image File"))
      else Ok(Scanned(t))
    else Err(HttpError(415, "Unsupported media type: " + u.contentType))
  }

  /** The two lists the monolith's `/a2mr` fills: voice transcripts, and the image texts
      behind the records of the form. */
  datatype Gathered = Gathered(transcripts: seq<string>, imageRecords: seq<string>)

  /** The lists after the given uploads, or the error of the first upload refused. */
  function Gather(files: seq<Upload>, records: string, asr: Blob -> string, ocr: Blob -> string): Result<Gathered, ApiError>
    decreases |files|
  {
    if files == [] then Ok(Gathered([], [records]))
    else
      match Gather(files[..|files| - 1], records, asr, ocr)
      case Err(e) => Err(e)
      case Ok(g) =>
        match MonolithUpload(files[|files| - 1], asr, ocr)
        case Err(e) => Err(e)
        case Ok(Spoken(t)) => Ok(Gathered(g.transcripts + [t], g.imageRecords))
        case Ok(Scanned(t)) => Ok(Gathered(g.transcripts, g.imageRecords + [t]))
  }

  /** Once an upload is refused, the later uploads are never looked at. */
  lemma {:induction false} GatherSticky(files: seq<Upload>, j: nat, records: string, asr: Blob -> string, ocr: Blob -> string)
    requires j <= |files|
    requires Gather(files[..j], records, asr, ocr).Err?
    ensures Gather(files, records, asr, ocr) == Gather(files[..j], records, asr, ocr)
    decreases |files|
  {
    if j < |files| {
      var front := files[..|files| - 1];
      assert front[..j] == files[..j];
      GatherSticky(front, j, records, asr, ocr);
    } else {
      assert files[..j] == files;
    }
  }

  /** One more upload extends the lists of the uploads before it by that upload's text. */
  lemma GatherStep(files: seq<Upload>, i: nat, records: string, asr: Blob -> string, ocr: Blob -> string)
    requires i < |files|
    ensures var g, p := Gather(files[..i], records, asr, ocr), MonolithUpload(files[i], asr, ocr);
      Gather(files[..i + 1], records, asr, ocr) ==
        if g.Err? then g
        else if p.Err? then Err(p.error)
        else if p.value.Spoken? then Ok(Gathered(g.value.transcripts + [p.value.text], g.value.imageRecords))
        else Ok(Gathered(g.value.transcripts, g.value.imageRecords + [p.value.text]))
  {
    assert files[..i + 1][..i] == files[..i];
  }

  /** The first refused upload decides the outcome of the whole gathering. */
  lemma GatherFails(files: seq<Upload>, i: nat, records: string, asr: Blob -> string, ocr: Blob -> string)
    requires i < |files|
    requires Gather(files[..i], records, asr, ocr).Ok?
    requires MonolithUpload(files[i], asr, ocr).Err?
    ensures Gather(files, records, asr, ocr) == Err(MonolithUpload(files[i], asr, ocr).error)
    ensures forall isJson, example ::
      MonolithA2mrRequest(files, records, isJson, example, asr, ocr) == Err(MonolithUpload(files[i], asr, ocr).error)
  {
    GatherStep(files, i, records, asr, ocr);
    GatherSticky(files, i + 1, records, asr, ocr);
  }

  /** Gathering succeeds exactly when every upload is accepted. */
  lemma {:induction false} GatherOk(files: seq<Upload>, records: string, asr: Blob -> string, ocr: Blob -> string)
    ensures Gather(files, records, asr, ocr).Ok? <==> forall k :: 0 <= k < |files| ==> MonolithUpload(files[k], asr, ocr).Ok?
    decreases |files|
  {
    if files != [] {
      var n := |files| - 1;
      var front := files[..n];
      GatherOk(front, records, asr, ocr);
      GatherStep(files, n, records, asr, ocr);
      assert files[..n + 1] == files;
      assert forall k :: 0 <= k < n ==> front[k] == files[k];
    }
  }

  /** After a successful gathering the image list starts with the records of the form
      and holds one text per image upload, and the voice list is empty exactly when no
      upload has one of the six audio and video types. */
  lemma {:induction false} GatherShape(files: seq<Upload>, records: string, asr: Blob -> string, ocr: Blob -> string)
    requires Gather(files, records, asr, ocr).Ok?
    ensures var g := Gather(files, records, asr, ocr).value;
      && |g.imageRecords| >= 1
      && g.imageRecords[0] == records
      && |g.transcripts| + |g.imageRecords| == |files| + 1
      && (g.transcripts == [] <==> forall k :: 0 <= k < |files| ==> files[k].contentType !in SupportedAudioTypes)
    decreases |files|
  {
    if files != [] {
      var n := |files| - 1;
      var front := files[..n];
      GatherShape(front, records, asr, ocr);
      GatherStep(files, n, records, asr, ocr);
      assert files[..n + 1] == files;
      assert forall k :: 0 <= k < n ==> front[k] == files[k];
    }
  }

  /** The monolith's `/a2mr` outcome: the request its record generation is given, or the
      error of the first refused upload. Without voice transcripts the image list, which
      starts with the records of the form, becomes the transcript and the extra records
      are empty; the list is never empty, so the 400 branch of the source cannot fire. */
  function MonolithA2mrRequest(files: seq<Upload>, records: string, isJson: bool, example: string,
                               asr: Blob -> string, ocr: Blob -> string): Result<LlmRequest, ApiError>
  {
    match Gather(files, records, asr, ocr)
    case Err(e) => Err(e)
    case Ok(g) =>
      if g.transcripts == [] then Ok(RecordRequest(Monolith, Join(g.imageRecords, "\n"), "", isJson, example))
      else Ok(RecordRequest(Monolith, Join(g.transcripts, "\n"), Join(g.imageRecords, "\n"), isJson, example))
  }

  /** The monolith's `/a2mr`: uploads are routed one by one, a refused upload ends the
      request, and the joined lists go to record generation. */
  method MonolithA2mr(files: seq<Upload>, records: string, isJson: bool, example: string,
                      asr: Blob -> string, ocr: Blob -> string)
    returns (r: Result<LlmRequest, ApiError>)
    ensures r == MonolithA2mrRequest(files, records, isJson, example, asr, ocr)
  {
    var transcripts: seq<string> := [];
    var imageRecords := [records];
    var i := 0;
    while i < |files|
      invariant 0 <= i <= |files|
      invariant Gather(files[..i], records, asr, ocr) == Ok(Gathered(transcripts, imageRecords))
    {
      GatherStep(files, i, records, asr, ocr);
      var file := files[i];
      if file.contentType in SupportedAudioTypes {
        var transcript := asr(file.content);
        if transcript == [] {
          GatherFails(files, i, records, asr, ocr);
          return Err(HttpError(500, "Internal Server Error: Empty Transcript from Voice File"));
        }
        transcripts := transcripts + [transcript];
      } else if StartsWith(file.contentType, "image/") {
        var text := ocr(file.content);
        if text == [] {
          GatherFails(files, i, records, asr, ocr);
          return Err(HttpError(500, "Internal Server Error: Empty Transcript from Image File"));
        }
        imageRecords := imageRecords + [text];
      } else {
        GatherFails(files, i, records, asr, ocr);
        return Err(HttpError(415, "Unsupported media type: " + file.contentType));
      }
      i := i + 1;
    }
    assert files[..i] == files;
    if transcripts == [] {
      transcripts := imageRecords;
      imageRecords := [];
    }
    r := Ok(RecordRequest(Monolith, Join(transcripts, "\n"), Join(imageRecords, "\n"), isJson, example));
  }

  /** A joined list starts with its first entry. */
  lemma JoinStartsWithHead(parts: seq<string>, sep: string)
    requires |parts| >= 1
    ensures StartsWith(Join(parts, sep), parts[0])
  {
  }

  /** Every accepted upload set reaches record generation, even an empty one. Without
      any voice upload the records of the form lead the transcript and no extra records
      are sent; with one, the records lead the extra records. */
  lemma MonolithA2mrRecords(files: seq<Upload>, records: string, isJson: bool, example: string,
                            asr: Blob -> string, ocr: Blob -> string)
    requires forall k :: 0 <= k < |files| ==> MonolithUpload(files[k], asr, ocr).Ok?
    ensures var r := MonolithA2mrRequest(files, records, isJson, example, asr, ocr);
      && r.Ok?
      && ((forall k :: 0 <= k < |files| ==> files[k].contentType !in SupportedAudioTypes) ==>
            exists t :: StartsWith(t, records) && r.value == RecordRequest(Monolith, t, "", isJson, example))
      && ((exists k :: 0 <= k < |files| && files[k].contentType in SupportedAudioTypes) ==>
            exists t, x :: StartsWith(x, records) && r.value == RecordRequest(Monolith, t, x, isJson, example))
  {
    GatherOk(files, records, asr, ocr);
    GatherShape(files, records, asr, ocr);
    var g := Gather(files, records, asr, ocr).value;
    JoinStartsWithHead(g.imageRecords, "\n");
  }

  // ---------------------------------------------------------------------------------
  // `/v2mr` of the monolith and of the modular backend (the two agree line for line).

  /** One voice upload of `/v2mr`: a type outside the six is a 415, an empty transcript
      a 500. */
  function V2mrStep(asr: Blob -> string): Upload -> Result<string, ServiceError> {
    (u: Upload) =>
      if u.contentType !in SupportedAudioTypes then Err(Http(HttpError(415, "Unsupported media type")))
      else if asr(u.content) == [] then Err(Http(HttpError(500, "Internal Server Error: Empty Transcript")))
      else Ok(asr(u.content))
  }

  /** The `/v2mr` outcome: the transcripts joined by line breaks, in upload order, with
      the records of the form passed on as they are. */
  function V2mrRequest(backend: Backend, files: seq<Upload>, records: string, isJson: bool, example: string,
                       asr: Blob -> string): Result<LlmRequest, ServiceError>
  {
    match Collect(files, V2mrStep(asr))
    case Err(e) => Err(e)
    case Ok(ts) => Ok(RecordRequest(backend, Join(ts, "\n"), records, isJson, example))
  }

  /** `/v2mr`: uploads checked and recognised one by one. */
  method V2mr(backend: Backend, files: seq<Upload>, records: string, isJson: bool, example: string,
              asr: Blob -> string)
    returns (r: Result<LlmRequest, ServiceError>)
    ensures r == V2mrRequest(backend, files, records, isJson, example, asr)
  {
    ghost var step := V2mrStep(asr);
    var transcripts: seq<string> := [];
    PrependLaws([], [], Collect(files, step));
    assert files[0..] == files;
    var i := 0;
    while i < |files|
      invariant 0 <= i <= |files|
      invariant Collect(files, step) == Prepend(transcripts, Collect(files[i..], step))
    {
      CollectStep(files, step, i);
      var file := files[i];
      if file.contentType !in SupportedAudioTypes {
        return Err(Http(HttpError(415, "Unsupported media type")));
      }
      var transcript := asr(file.content);
      if transcript == [] {
        return Err(Http(HttpError(500, "Internal Server Error: Empty Transcript")));
      }
      PrependLaws(transcripts, transcript, Collect(files[i + 1..], step));
      transcripts := transcripts + [transcript];
      i := i + 1;
    }
    assert files[i..] == [];
    PrependLaws(transcripts, [], Ok([]));
    r := Ok(RecordRequest(backend, Join(transcripts, "\n"), records, isJson, example));
  }

  /** `/v2mr` succeeds exactly when every upload has one of the six types and a
      non-empty transcript; the transcript sent is then theirs, in upload order. */
  lemma V2mrOk(backend: Backend, files: seq<Upload>, records: string, isJson: bool, example: string,
               asr: Blob -> string)
    ensures V2mrRequest(backend, files, records, isJson, example, asr).Ok?
        <==> forall k :: 0 <= k < |files| ==> files[k].contentType in SupportedAudioTypes && asr(files[k].content) != []
    ensures V2mrRequest(backend, files, records, isJson, example, asr).Ok? ==>
      V2mrRequest(backend, files, records, isJson, example, asr).value
        == RecordRequest(backend, Join(seq(|files|, k requires 0 <= k < |files| => asr(files[k].content)), "\n"),
                         records, isJson, example)
  {
    CollectOk(files, V2mrStep(asr));
    if Collect(files, V2mrStep(asr)).Ok? {
      assert Collect(files, V2mrStep(asr)).value == seq(|files|, k requires 0 <= k < |files| => asr(files[k].content));
    }
  }

  /** A failed `/v2mr` fails on its first bad upload: with a 415 when that upload has a
      type outside the six, otherwise with a 500 for its empty transcript. */
  lemma V2mrFirstError(backend: Backend, files: seq<Upload>, records: string, isJson: bool, example: string,
                       asr: Blob -> string)
    requires V2mrRequest(backend, files, records, isJson, example, asr).Err?
    ensures exists k ::
      && 0 <= k < |files|
      && (forall j :: 0 <= j < k ==> files[j].contentType in SupportedAudioTypes && asr(files[j].content) != [])
      && V2mrRequest(backend, files, records, isJson, example, asr).error
           == if files[k].contentType !in SupportedAudioTypes then Http(HttpError(415, "Unsupported media type"))
              else Http(HttpError(500, "Internal Server Error: Empty Transcript"))
  {
    CollectErr(files, V2mrStep(asr));
    var k :| && 0 <= k < |files|
             && V2mrStep(asr)(files[k]) == Err(Collect(files, V2mrStep(asr)).error)
             && forall j :: 0 <= j < k ==> V2mrStep(asr)(files[j]).Ok?;
    assert forall j :: 0 <= j < k ==> files[j].contentType in SupportedAudioTypes && asr(files[j].content) != [] by {
      forall j | 0 <= j < k
        ensures files[j].contentType in SupportedAudioTypes && asr(files[j].content) != []
      {
        assert V2mrStep(asr)(files[j]).Ok?;
      }
    }
  }

  // ---------------------------------------------------------------------------------
  // `/i2mr` of the monolith and of the modular backend.

  /** The text recognised in each image, in upload order. */
  function Recognised(files: seq<Blob>, ocr: Blob -> string): (texts: seq<string>)
    ensures |texts| == |files|
  {
    seq(|files|, k requires 0 <= k < |files| => ocr(files[k]))
  }

  /** Every image recognised in upload order. */
  method RecogniseAll(files: seq<Blob>, ocr: Blob -> string) returns (texts: seq<string>)
    ensures texts == Recognised(files, ocr)
  {
    texts := [];
    var i := 0;
    while i < |files|
      invariant 0 <= i <= |files|
      invariant texts == Recognised(files[..i], ocr)
    {
      texts := texts + [ocr(files[i])];
      i := i + 1;
    }
    assert files[..i] == files;
  }

  /** `/i2mr`: every image is recognised, with no check for an empty text, and the texts
      are joined by line breaks in upload order. */
  method I2mr(backend: Backend, files: seq<Blob>, records: string, isJson: bool, example: string,
              ocr: Blob -> string)
    returns (r: LlmRequest)
    ensures r == RecordRequest(backend, Join(Recognised(files, ocr), "\n"), records, isJson, example)
  {
    var transcripts := RecogniseAll(files, ocr);
    r := RecordRequest(backend, Join(transcripts, "\n"), records, isJson, example);
  }

  /** An image whose recognition is empty still leaves its place in the transcript: with
      texts free of line breaks, the transcript sent splits back into one entry per
      image, empty ones included. */
  lemma I2mrKeepsEveryImage(backend: Backend, files: seq<Blob>, records: string, isJson: bool, example: string,
                            ocr: Blob -> string)
    requires |files| >= 1
    requires forall k :: 0 <= k < |files| ==> '\n' !in ocr(files[k])
    ensures var r := RecordRequest(backend, Join(Recognised(files, ocr), "\n"), records, isJson, example);
      Split(r.messages[1].content[|ConvertLead|..], '\n') == Recognised(files, ocr)
  {
    SplitJoin(Recognised(files, ocr), '\n');
  }

  // ---------------------------------------------------------------------------------
  // `/iqa` of the monolith and of the modular backend.

  /** The reply of `/iqa`. */
  datatype ScaleReply = ScaleReply(answers: seq<string>, keyValues: string,
                                   promptTokens: int, completionTokens: int, totalTokens: int)

  /** Token counts added field by field. */
  function Plus(a: Usage, b: Usage): Usage {
    Usage(a.promptTokens + b.promptTokens, a.completionTokens + b.completionTokens, a.totalTokens + b.totalTokens)
  }

  /** The tokens spent by a list of model calls. */
  function Spent(calls: seq<Completion>): Usage
    decreases |calls|
  {
    if calls == [] then Usage(0, 0, 0) else Plus(Spent(calls[..|calls| - 1]), calls[|calls| - 1].usage)
  }

  /** The tokens of two lists of calls add up. */
  lemma {:induction false} SpentConcat(a: seq<Completion>, b: seq<Completion>)
    ensures Spent(a + b) == Plus(Spent(a), Spent(b))
    decreases |b|
  {
    if b == [] {
      assert a + b == a;
    } else {
      var n := |b|;
      assert (a + b)[..|a + b| - 1] == a + b[..n - 1];
      assert (a + b)[|a + b| - 1] == b[n - 1];
      SpentConcat(a, b[..n - 1]);
    }
  }

  /** The text the questions are asked about: the modular backend joins the texts of
      all images, the monolith uses the text of the last image only and has none when
      there is no image. */
  function IqaTranscript(backend: Backend, texts: seq<string>): (t: Option<string>)
    ensures backend == Modular ==> t == Some(Join(texts, "\n"))
    ensures backend == Monolith ==> (t.Some? <==> texts != []) && (t.Some? ==> t.value == texts[|texts| - 1])
  {
    if backend == Modular then Some(Join(texts, "\n"))
    else if texts == [] then None
    else Some(texts[|texts| - 1])
  }

  /** Whether the key-value extraction is called: the modular backend calls it only for
      a non-empty keyword list, the monolith always. */
  predicate Extracts(backend: Backend, keywords: seq<string>) {
    backend == Monolith || keywords != []
  }

  /** The question-answering calls, one per question, in question order. */
  function Answered(transcript: string, prompts: seq<string>, qa: (string, string) -> Completion): (calls: seq<Completion>)
    ensures |calls| == |prompts|
  {
    seq(|prompts|, k requires 0 <= k < |prompts| => qa(transcript, prompts[k]))
  }

  /** The `/iqa` outcome. The monolith without any image fails on the unbound transcript
      variable. */
  function Iqa(backend: Backend, texts: seq<string>, prompts: seq<string>, keywords: seq<string>,
               qa: (string, string) -> Completion, extract: (string, seq<string>) -> Completion)
    : (r: Result<ScaleReply, ServiceError>)
    ensures r.Ok? <==> IqaTranscript(backend, texts).Some?
    ensures r.Ok? ==>
      && |r.value.answers| == |prompts|
      && (forall k :: 0 <= k < |prompts| ==>
            r.value.answers[k] == qa(IqaTranscript(backend, texts).value, prompts[k]).content)
      && (!Extracts(backend, keywords) ==> r.value.keyValues == "{}")
  {
    match IqaTranscript(backend, texts)
    case None => Err(Runtime("cannot access local variable 'transcript' where it is not associated with a value"))
    case Some(t) =>
      var answered := Answered(t, prompts, qa);
      var calls := answered + if Extracts(backend, keywords) then [extract(t, keywords)] else [];
      var spent := Spent(calls);
      Ok(ScaleReply(seq(|answered|, k requires 0 <= k < |answered| => answered[k].content),
                    if Extracts(backend, keywords) then extract(t, keywords).content else "{}",
                    spent.promptTokens, spent.completionTokens, spent.totalTokens))
  }

  /** Every question asked about the transcript in order, with the answers collected
      and the tokens of each call added up. */
  method AskAll(transcript: string, prompts: seq<string>, qa: (string, string) -> Completion)
    returns (answers: seq<string>, spent: Usage)
    ensures |answers| == |prompts|
    ensures forall k :: 0 <= k < |prompts| ==> answers[k] == qa(transcript, prompts[k]).content
    ensures spent == Spent(Answered(transcript, prompts, qa))
  {
    ghost var answered := Answered(transcript, prompts, qa);
    var promptTokens, completionTokens, totalTokens := 0, 0, 0;
    answers := [];
    var j := 0;
    while j < |prompts|
      invariant 0 <= j <= |prompts|
      invariant |answers| == j
      invariant forall k :: 0 <= k < j ==> answers[k] == answered[k].content
      invariant Usage(promptTokens, completionTokens, totalTokens) == Spent(answered[..j])
    {
      var res := qa(transcript, prompts[j]);
      assert answered[..j + 1][..j] == answered[..j];
      answers := answers + [res.content];
      promptTokens := promptTokens + res.usage.promptTokens;
      completionTokens := completionTokens + res.usage.completionTokens;
      totalTokens := totalTokens + res.usage.totalTokens;
      j := j + 1;
    }
    assert answered[..j] == answered;
    spent := Usage(promptTokens, completionTokens, totalTokens);
  }

  /** `/iqa`: recognise every image, ask every question with the resulting text, adding
      up the tokens of each call, then extract the key values if asked to. */
  method IqaEndpoint(backend: Backend, files: seq<Blob>, prompts: seq<string>, keywords: seq<string>,
                     ocr: Blob -> string, qa: (string, string) -> Completion,
                     extract: (string, seq<string>) -> Completion)
    returns (r: Result<ScaleReply, ServiceError>)
    ensures r == Iqa(backend, Recognised(files, ocr), prompts, keywords, qa, extract)
  {
    var transcripts := RecogniseAll(files, ocr);
    var transcript: string;
    if backend == Modular {
      transcript := Join(transcripts, "\n");
    } else if transcripts == [] {
      return Err(Runtime("cannot access local variable 'transcript' where it is not associated with a value"));
    } else {
      transcript := transcripts[|transcripts| - 1];
    }
    assert IqaTranscript(backend, transcripts) == Some(transcript);
    var answers, spent := AskAll(transcript, prompts, qa);
    ghost var answered := Answered(transcript, prompts, qa);
    assert answers == seq(|answered|, k requires 0 <= k < |answered| => answered[k].content);
    var content := "{}";
    if Extracts(backend, keywords) {
      var res := extract(transcript, keywords);
      assert (answered + [res])[..|answered|] == answered;
      content := res.content;
      spent := Plus(spent, res.usage);
    } else {
      assert answered + [] == answered;
    }
    r := Ok(ScaleReply(answers, content, spent.promptTokens, spent.completionTokens, spent.totalTokens));
  }

  /** The token totals of `/iqa` are those of the question calls plus, when the
      extraction runs, those of the extraction call. */
  lemma IqaTokens(backend: Backend, texts: seq<string>, prompts: seq<string>, keywords: seq<string>,
                  qa: (string, string) -> Completion, extract: (string, seq<string>) -> Completion)
    requires IqaTranscript(backend, texts).Some?
    ensures var t := IqaTranscript(backend, texts).value;
      var reply := Iqa(backend, texts, prompts, keywords, qa, extract).value;
      var spent := Plus(Spent(Answered(t, prompts, qa)),
                        if Extracts(backend, keywords) then extract(t, keywords).usage else Usage(0, 0, 0));
      Usage(reply.promptTokens, reply.completionTokens, reply.totalTokens) == spent
  {
    var t := IqaTranscript(backend, texts).value;
    var answered := Answered(t, prompts, qa);
    var tail := if Extracts(backend, keywords) then [extract(t, keywords)] else [];
    SpentConcat(answered, tail);
    if Extracts(backend, keywords) {
      assert [extract(t, keywords)][..0] == [];
    }
  }

  /** The monolith answers about the last image only: the images before it change
      nothing in the reply. */
  lemma MonolithIqaLastImage(earlier: seq<string>, last: string, prompts: seq<string>, keywords: seq<string>,
                             qa: (string, string) -> Completion, extract: (string, seq<string>) -> Completion)
    ensures Iqa(Monolith, earlier + [last], prompts, keywords, qa, extract)
         == Iqa(Monolith, [last], prompts, keywords, qa, extract)
  {
    assert IqaTranscript(Monolith, earlier + [last]) == Some(last);
  }
}
