/** The upload panel of the oldest front end: picked files are filtered by size,
    appended, marked while one upload request is under way, and removable by name.
    The callbacks the panel is given are recorded as a list of events; the outcome of
    the upload request is a parameter. */
module FileUploader {
  import opened Wrappers

  /** The size limit, 100 MB. */
  const MaxFileSizeMb: nat := 100
  const MaxFileSize: nat := MaxFileSizeMb * 1024 * 1024

  datatype Status = Pending | Uploading | Done | Failed

  /** A file as the browser hands it over. */
  datatype Picked = Picked(name: string, size: nat, mimeType: string)

  /** An entry of the panel's list. */
  datatype Entry = Entry(name: string, size: nat, kind: string, status: Status)

  /** A call of one of the panel's callbacks. */
  datatype Event = UploadError(message: string) | UploadStart | UploadSuccess(files: seq<Entry>)

  /** A picked file as a new entry: pending, with a missing type read as a byte stream. */
  function ToEntry(p: Picked): (e: Entry)
    ensures e.name == p.name && e.size == p.size && e.status == Pending
    ensures e.kind != []
    ensures p.mimeType != [] ==> e.kind == p.mimeType
  {
    Entry(p.name, p.size, if p.mimeType == [] then "application/octet-stream" else p.mimeType, Pending)
  }

  /** The message reported for a file over the limit. */
  function TooLarge(name: string): string {
    "File " + name + " exceeds 100MB limit"
  }

  /** The entries of the files within the limit, in picking order. */
  function Kept(picked: seq<Picked>): seq<Entry>
    decreases |picked|
  {
    if picked == [] then []
    else
      var last := picked[|picked| - 1];
      Kept(picked[..|picked| - 1]) + if last.size > MaxFileSize then [] else [ToEntry(last)]
  }

  /** The error reports for the files over the limit, in picking order. */
  function Rejections(picked: seq<Picked>): seq<Event>
    decreases |picked|
  {
    if picked == [] then []
    else
      var last := picked[|picked| - 1];
      Rejections(picked[..|picked| - 1]) + if last.size > MaxFileSize then [UploadError(TooLarge(last.name))] else []
  }

  /** Every picked file is either kept as a pending entry within the limit or reported
      exactly once; with every file within the limit, all are kept in order. */
  lemma KeptOrReported(picked: seq<Picked>)
    ensures |Kept(picked)| + |Rejections(picked)| == |picked|
    ensures forall e :: e in Kept(picked) ==> e.size <= MaxFileSize && e.status == Pending
    ensures forall ev :: ev in Rejections(picked) ==> ev.UploadError?
    ensures (forall k :: 0 <= k < |picked| ==> picked[k].size <= MaxFileSize) ==>
      |Kept(picked)| == |picked| && forall k :: 0 <= k < |picked| ==> Kept(picked)[k] == ToEntry(picked[k])
  {
    KeptCount(picked);
    KeptWithin(picked);
    RejectionsAreErrors(picked);
    if forall k :: 0 <= k < |picked| ==> picked[k].size <= MaxFileSize {
      KeptAll(picked);
    }
  }

  lemma {:induction false} KeptCount(picked: seq<Picked>)
    ensures |Kept(picked)| + |Rejections(picked)| == |picked|
    decreases |picked|
  {
    if picked != [] {
      KeptCount(picked[..|picked| - 1]);
    }
  }

  lemma {:induction false} KeptWithin(picked: seq<Picked>)
    ensures forall e :: e in Kept(picked) ==> e.size <= MaxFileSize && e.status == Pending
    decreases |picked|
  {
    if picked != [] {
      KeptWithin(picked[..|picked| - 1]);
    }
  }

  lemma {:induction false} RejectionsAreErrors(picked: seq<Picked>)
    ensures forall ev :: ev in Rejections(picked) ==> ev.UploadError?
    decreases |picked|
  {
    if picked != [] {
      RejectionsAreErrors(picked[..|picked| - 1]);
    }
  }

  lemma {:induction false} KeptAll(picked: seq<Picked>)
    requires forall k :: 0 <= k < |picked| ==> picked[k].size <= MaxFileSize
    ensures |Kept(picked)| == |picked|
    ensures forall k :: 0 <= k < |picked| ==> Kept(picked)[k] == ToEntry(picked[k])
    decreases |picked|
  {
    if picked != [] {
      var n := |picked| - 1;
      var front := picked[..n];
      KeptAll(front);
      assert Kept(picked) == Kept(front) + [ToEntry(picked[n])];
    }
  }

  /** Filtering works file by file: two batches give the results of each, in order. */
  lemma {:induction false} KeptConcat(a: seq<Picked>, b: seq<Picked>)
    ensures Kept(a + b) == Kept(a) + Kept(b)
    ensures Rejections(a + b) == Rejections(a) + Rejections(b)
    decreases |b|
  {
    if b == [] {
      assert a + b == a;
    } else {
      var n := |b|;
      assert (a + b)[..|a + b| - 1] == a + b[..n - 1];
      assert (a + b)[|a + b| - 1] == b[n - 1];
      KeptConcat(a, b[..n - 1]);
    }
  }

  /** The names of a list of entries. */
  function Names(entries: seq<Entry>): set<string> {
    set e | e in entries :: e.name
  }

  /** Every entry whose name is among the given ones takes the new status; nothing
      else changes. */
  function Marked(entries: seq<Entry>, names: set<string>, status: Status): (r: seq<Entry>)
    ensures |r| == |entries|
    ensures forall k :: 0 <= k < |entries| ==>
      && r[k].name == entries[k].name && r[k].size == entries[k].size && r[k].kind == entries[k].kind
      && (entries[k].name in names ==> r[k].status == status)
      && (entries[k].name !in names ==> r[k] == entries[k])
  {
    seq(|entries|, k requires 0 <= k < |entries| =>
      if entries[k].name in names then entries[k].(status := status) else entries[k])
  }

  /** A second marking of the same names overrides the first. */
  lemma MarkedTwice(entries: seq<Entry>, names: set<string>, first: Status, second: Status)
    ensures Marked(Marked(entries, names, first), names, second) == Marked(entries, names, second)
  {
  }

  /** The entries whose name differs from the given one, in order. */
  function Without(entries: seq<Entry>, name: string): seq<Entry>
    decreases |entries|
  {
    if entries == [] then []
    else
      var last := entries[|entries| - 1];
      Without(entries[..|entries| - 1], name) + if last.name == name then [] else [last]
  }

  /** Removal drops every entry of that name and keeps every other one. */
  lemma {:induction false} WithoutShape(entries: seq<Entry>, name: string)
    ensures name !in Names(Without(entries, name))
    ensures forall e :: e in Without(entries, name) <==> e in entries && e.name != name
    ensures name !in Names(entries) ==> Without(entries, name) == entries
    decreases |entries|
  {
    if entries != [] {
      var front := entries[..|entries| - 1];
      WithoutShape(front, name);
      assert entries == front + [entries[|entries| - 1]];
      assert name !in Names(entries) ==> name !in Names(front);
    }
  }

  /** The outcome of the upload request: a response that is or is not `ok`, or a
      failure carrying its message. */
  function FinalStatus(response: Result<bool, string>): Status {
    if response == Ok(true) then Done else Failed
  }

  function FinalEvent(valid: seq<Entry>, response: Result<bool, string>): Event {
    match response
    case Ok(ok) => if ok then UploadSuccess(valid) else UploadError("Upload failed")
    case Err(message) => UploadError(message)
  }

  class Uploader {
    var files: seq<Entry>
    var events: seq<Event>

    constructor()
      ensures files == [] && events == []
    {
      files := [];
      events := [];
    }

    /** A selection of files: none when the browser gives no list. Otherwise each file
        over the limit is reported, the others are appended, the upload start is
        reported even when nothing was kept, and every entry named like a kept file is
        marked as uploading. Returns the kept entries. */
    method Choose(picked: Option<seq<Picked>>) returns (valid: seq<Entry>)
      modifies this
      ensures picked.None? ==> valid == [] && files == old(files) && events == old(events)
      ensures picked.Some? ==>
        && valid == Kept(picked.value)
        && files == Marked(old(files) + valid, Names(valid), Uploading)
        && events == old(events) + Rejections(picked.value) + [UploadStart]
    {
      valid := [];
      if picked.None? {
        return;
      }
      var p := picked.value;
      var i := 0;
      while i < |p|
        invariant 0 <= i <= |p|
        invariant valid == Kept(p[..i])
        invariant events == old(events) + Rejections(p[..i])
        invariant files == old(files)
      {
        assert p[..i + 1][..i] == p[..i];
        if p[i].size > MaxFileSize {
          events := events + [UploadError(TooLarge(p[i].name))];
        } else {
          valid := valid + [ToEntry(p[i])];
        }
        i := i + 1;
      }
      assert p[..i] == p;
      files := files + valid;
      events := events + [UploadStart];
      files := Marked(files, Names(valid), Uploading);
    }

    /** The end of the upload request: every entry named like a kept file becomes done
        or failed, and success or the error is reported. */
    method Complete(valid: seq<Entry>, response: Result<bool, string>)
      modifies this
      ensures files == Marked(old(files), Names(valid), FinalStatus(response))
      ensures events == old(events) + [FinalEvent(valid, response)]
    {
      if response == Ok(true) {
        files := Marked(files, Names(valid), Done);
        events := events + [UploadSuccess(valid)];
      } else {
        files := Marked(files, Names(valid), Failed);
        var message := if response.Ok? then "Upload failed" else response.error;
        events := events + [UploadError(message)];
      }
    }

    /** Removal of every entry with the given name. */
    method RemoveFile(name: string)
      modifies this
      ensures files == Without(old(files), name)
      ensures events == old(events)
    {
      files := Without(files, name);
    }
  }

  /** One full round: kept files are appended after the existing entries, and every
      entry named like a kept file, older ones included, ends done or failed, while the
      other entries are untouched. */
  lemma UploadRound(before: seq<Entry>, picked: seq<Picked>, response: Result<bool, string>)
    ensures var valid := Kept(picked);
      var after := Marked(Marked(before + valid, Names(valid), Uploading), Names(valid), FinalStatus(response));
      && |after| == |before| + |valid|
      && (forall k :: 0 <= k < |before| && before[k].name !in Names(valid) ==> after[k] == before[k])
      && (forall k :: 0 <= k < |after| ==> (after[k].status == FinalStatus(response) <== after[k].name in Names(valid)))
      && (forall k :: 0 <= k < |valid| ==> after[|before| + k].name == valid[k].name)
  {
    var valid := Kept(picked);
    MarkedTwice(before + valid, Names(valid), Uploading, FinalStatus(response));
  }
}
