/** The home page of the medai front end: a list of dropped files, a processing flag,
    and the medical record produced from the files, which the chat panel attaches to
    every question. The current page and its older copy keep the same state in the
    same way. */
module HomePanel {
  import opened Wrappers
  import opened Text
  import opened RecordView
  import opened ChatSession

  datatype UploadFile = UploadFile(name: string, mimeType: string, size: nat)

  const NoFilesError: string := "Please upload at least one file"

  /** `filter((_, i) => i !== index)`: every entry except the one at the index; an index
      outside the list keeps them all. */
  function RemoveAt<T>(s: seq<T>, index: int): (r: seq<T>)
    ensures |r| == if 0 <= index < |s| then |s| - 1 else |s|
    decreases |s|
  {
    if s == [] then []
    else (if index == 0 then [] else [s[0]]) + RemoveAt(s[1..], index - 1)
  }

  /** Removal drops exactly the entry at the index and keeps the others in order; an
      index outside the list changes nothing. */
  lemma {:induction false} RemoveAtSlices<T>(s: seq<T>, index: int)
    ensures 0 <= index < |s| ==> RemoveAt(s, index) == s[..index] + s[index + 1..]
    ensures !(0 <= index < |s|) ==> RemoveAt(s, index) == s
    decreases |s|
  {
    if s != [] {
      RemoveAtSlices(s[1..], index - 1);
      if 0 < index < |s| {
        assert s[..index] == [s[0]] + s[1..][..index - 1];
        assert s[index + 1..] == s[1..][index..];
      }
    }
  }

  class Panel {
    var files: seq<UploadFile>
    var isProcessing: bool
    var medicalRecord: string

    constructor()
      ensures files == [] && !isProcessing && medicalRecord == []
    {
      files := [];
      isProcessing := false;
      medicalRecord := [];
    }

    /** Dropped files go after the ones already listed, in drop order. */
    method Drop(accepted: seq<UploadFile>)
      modifies this
      ensures files == old(files) + accepted
      ensures isProcessing == old(isProcessing) && medicalRecord == old(medicalRecord)
    {
      files := files + accepted;
    }

    /** The remove button of one entry. */
    method Remove(index: int)
      modifies this
      ensures files == RemoveAt(old(files), index)
      ensures isProcessing == old(isProcessing) && medicalRecord == old(medicalRecord)
    {
      files := RemoveAt(files, index);
    }

    /** The first half of processing: with no files an error is reported and nothing
        changes; otherwise the panel starts processing and the files go out in order. */
    method BeginProcessing() returns (upload: Result<seq<UploadFile>, string>)
      modifies this
      ensures old(files) == [] ==> upload == Err(NoFilesError) && isProcessing == old(isProcessing)
      ensures old(files) != [] ==> upload == Ok(old(files)) && isProcessing
      ensures files == old(files) && medicalRecord == old(medicalRecord)
    {
      if files == [] {
        return Err(NoFilesError);
      }
      isProcessing := true;
      upload := Ok(files);
    }

    /** The second half: a produced record replaces the attached one wholesale, a
        failure keeps it, and processing ends either way. */
    method FinishProcessing(outcome: Result<string, string>)
      modifies this
      ensures !isProcessing && files == old(files)
      ensures outcome.Ok? ==> medicalRecord == outcome.value
      ensures outcome.Err? ==> medicalRecord == old(medicalRecord)
    {
      if outcome.Ok? {
        medicalRecord := outcome.value;
      }
      isProcessing := false;
    }

    /** A question asked in the chat panel carries the record attached here. */
    method Ask(chat: Session, content: string, now: nat) returns (req: Option<QueryRequest>)
      requires chat.Valid()
      modifies chat
      ensures chat.Valid()
      ensures req.None? <==> IsBlank(content) || old(chat.isLoading)
      ensures req.Some? ==>
        req.value.medicalRecords == medicalRecord && req.value.prompt == content
        && chat.messages == old(chat.messages) + [Message(NatToString(now), User, content, now)]
    {
      req := chat.Submit(content, medicalRecord, now);
    }
  }
}
