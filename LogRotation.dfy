/** The usage and error logs of the current front end: a log file is rotated once it
    reaches 10 MB, keeping at most four older copies, and then receives one JSON line.
    A log is a map from slot to content: slot 0 is the live file, slot i the file with
    suffix `.i`. Field values are taken as already encoded; the JSON encoding of a whole
    entry is a parameter. */
module LogRotation {
  import opened Wrappers

  const MaxLogSize: nat := 10 * 1024 * 1024
  const MaxLogFiles: nat := 5

  /** One pass of the rotation loop at suffix i: the oldest kept copy is deleted, any
      other existing copy is renamed to the next suffix, replacing what was there. */
  function Step(slots: map<int, string>, i: int): map<int, string> {
    if i !in slots then slots
    else if i == MaxLogFiles - 1 then slots - {i}
    else slots[i + 1 := slots[i]] - {i}
  }

  /** The slots just before the loop handles suffix i, walking down from 4. */
  function Steps(slots: map<int, string>, i: int): map<int, string>
    requires 0 <= i <= MaxLogFiles - 1
    decreases MaxLogFiles - 1 - i
  {
    if i == MaxLogFiles - 1 then slots else Step(Steps(slots, i + 1), i + 1)
  }

  /** The slots after `rotateLogFile`: unchanged for a missing or small live file;
      otherwise the loop runs from 4 down to 1 and the live file becomes copy 1. */
  function Rotated(slots: map<int, string>): map<int, string> {
    if 0 !in slots || |slots[0]| < MaxLogSize then slots
    else
      var shifted := Steps(slots, 0);
      shifted[1 := shifted[0]] - {0}
  }

  /** What a rotation leaves: no live file, the old live file as copy 1, copies 1 to 3
      moved one suffix up with nothing lost, the old copy 4 gone, and every other slot,
      suffix 5 included, untouched, so no copy beyond 4 is ever created. */
  lemma RotationOutcome(slots: map<int, string>)
    requires 0 in slots && |slots[0]| >= MaxLogSize
    ensures var r := Rotated(slots);
      && 0 !in r
      && 1 in r && r[1] == slots[0]
      && (2 in r <==> 1 in slots) && (1 in slots ==> r[2] == slots[1])
      && (3 in r <==> 2 in slots) && (2 in slots ==> r[3] == slots[2])
      && (4 in r <==> 3 in slots) && (3 in slots ==> r[4] == slots[3])
      && (forall k :: k < 0 || k > 4 ==> (k in r <==> k in slots))
      && (forall k :: (k < 0 || k > 4) && k in slots ==> r[k] == slots[k])
  {
    var s3 := Steps(slots, 3);
    var s2 := Steps(slots, 2);
    var s1 := Steps(slots, 1);
    var s0 := Steps(slots, 0);
    assert s3 == Step(slots, 4);
    assert s2 == Step(s3, 3);
    assert s1 == Step(s2, 2);
    assert s0 == Step(s1, 1);
  }

  /** A file smaller than the limit, or no file, is left as it is. */
  lemma SmallLogStays(slots: map<int, string>)
    requires 0 !in slots || |slots[0]| < MaxLogSize
    ensures Rotated(slots) == slots
  {
  }

  /** A field of a log entry: a key and its encoded value. */
  type Field = (string, string)

  /** The value of the last field with that key. */
  function Lookup(fields: seq<Field>, key: string): Option<string>
    decreases |fields|
  {
    if fields == [] then None
    else if fields[|fields| - 1].0 == key then Some(fields[|fields| - 1].1)
    else Lookup(fields[..|fields| - 1], key)
  }

  /** Every field with the key of `f` replaced by `f`, in place. */
  function Replace(fields: seq<Field>, f: Field): (r: seq<Field>)
    ensures |r| == |fields|
  {
    seq(|fields|, k requires 0 <= k < |fields| => if fields[k].0 == f.0 then f else fields[k])
  }

  lemma {:induction false} LookupReplace(fields: seq<Field>, f: Field, key: string)
    ensures Lookup(Replace(fields, f), key)
         == if key != f.0 then Lookup(fields, key) else if Lookup(fields, key).Some? then Some(f.1) else None
    decreases |fields|
  {
    if fields != [] {
      var n := |fields|;
      assert Replace(fields, f)[..n - 1] == Replace(fields[..n - 1], f);
      LookupReplace(fields[..n - 1], f, key);
    }
  }

  lemma LookupAppend(fields: seq<Field>, f: Field, key: string)
    ensures Lookup(fields + [f], key) == if key == f.0 then Some(f.1) else Lookup(fields, key)
  {
    assert (fields + [f])[..|fields|] == fields;
  }

  /** Setting a key in an object: an existing key keeps its place and takes the new
      value; a new key goes last. */
  function Put(fields: seq<Field>, f: Field): (r: seq<Field>)
    ensures Lookup(r, f.0) == Some(f.1)
    ensures forall key :: key != f.0 ==> Lookup(r, key) == Lookup(fields, key)
    ensures fields != [] ==> r != [] && r[0].0 == fields[0].0
  {
    LookupAppendAll(fields, f);
    LookupReplaceAll(fields, f);
    if Lookup(fields, f.0).None? then fields + [f] else Replace(fields, f)
  }

  lemma LookupAppendAll(fields: seq<Field>, f: Field)
    ensures forall key :: Lookup(fields + [f], key) == if key == f.0 then Some(f.1) else Lookup(fields, key)
  {
    forall key {
      LookupAppend(fields, f, key);
    }
  }

  lemma LookupReplaceAll(fields: seq<Field>, f: Field)
    ensures forall key :: (Lookup(Replace(fields, f), key)
      == if key != f.0 then Lookup(fields, key) else if Lookup(fields, key).Some? then Some(f.1) else None)
  {
    forall key {
      LookupReplace(fields, f, key);
    }
  }

  /** Object spread: the fields of `extra`, in order, set over those of `base`. */
  function Spread(base: seq<Field>, extra: seq<Field>): seq<Field>
    decreases |extra|
  {
    if extra == [] then base else Put(Spread(base, extra[..|extra| - 1]), extra[|extra| - 1])
  }

  /** Caller fields override: a key the extra fields set has their value, any other
      key keeps the base value; the first base field keeps its place. */
  lemma {:induction false} SpreadOverrides(base: seq<Field>, extra: seq<Field>, key: string)
    ensures Lookup(Spread(base, extra), key)
         == if Lookup(extra, key).Some? then Lookup(extra, key) else Lookup(base, key)
    ensures base != [] ==> Spread(base, extra) != [] && Spread(base, extra)[0].0 == base[0].0
    decreases |extra|
  {
    if extra != [] {
      SpreadOverrides(base, extra[..|extra| - 1], key);
    }
  }

  /** Appending text to the live file, which is created when missing. */
  function Appended(slots: map<int, string>, text: string): (r: map<int, string>)
    ensures 0 in r && r[0] == (if 0 in slots then slots[0] else []) + text
    ensures forall k :: k != 0 ==> (k in r <==> k in slots)
    ensures forall k :: k != 0 && k in slots ==> r[k] == slots[k]
  {
    slots[0 := (if 0 in slots then slots[0] else []) + text]
  }

  /** The line written for an entry: the timestamp first, overridden by a caller field
      of the same key, then the caller's fields; one line break ends it. */
  function EntryLine(data: seq<Field>, now: string, encode: seq<Field> -> string): string {
    encode(Spread([("timestamp", now)], data)) + "\n"
  }

  class RotatingLog {
    var slots: map<int, string>

    constructor(slots: map<int, string>)
      ensures this.slots == slots
    {
      this.slots := slots;
    }

    /** `rotateLogFile`. */
    method Rotate()
      modifies this
      ensures slots == Rotated(old(slots))
    {
      if 0 !in slots || |slots[0]| < MaxLogSize {
        return;
      }
      var i := MaxLogFiles - 1;
      while i >= 1
        invariant 0 <= i <= MaxLogFiles - 1
        invariant slots == Steps(old(slots), i)
        decreases i
      {
        if i in slots {
          if i == MaxLogFiles - 1 {
            slots := slots - {i};
          } else {
            slots := slots[i + 1 := slots[i]] - {i};
          }
        }
        i := i - 1;
      }
      slots := slots[1 := slots[0]] - {0};
    }

    /** `writeLogToFile`: rotate, then append exactly one line. When the append fails
        the failure is swallowed and no line is written. */
    method Write(data: seq<Field>, now: string, encode: seq<Field> -> string, appendFails: bool)
      modifies this
      ensures appendFails ==> slots == Rotated(old(slots))
      ensures !appendFails ==> slots == Appended(Rotated(old(slots)), EntryLine(data, now, encode))
    {
      Rotate();
      if !appendFails {
        slots := slots[0 := (if 0 in slots then slots[0] else []) + EntryLine(data, now, encode)];
      }
    }
  }

  /** `logUsageToFile`: the entry is typed `usage` unless the caller gives a type. */
  method LogUsage(usage: RotatingLog, data: seq<Field>, now: string, encode: seq<Field> -> string, appendFails: bool)
    modifies usage
    ensures appendFails ==> usage.slots == Rotated(old(usage.slots))
    ensures !appendFails ==>
      usage.slots == Appended(Rotated(old(usage.slots)), EntryLine(Spread([("type", "usage")], data), now, encode))
  {
    usage.Write(Spread([("type", "usage")], data), now, encode, appendFails);
  }

  /** `logErrorToFile`: the entry is typed `error` unless the caller gives a type. */
  method LogError(errors: RotatingLog, data: seq<Field>, now: string, encode: seq<Field> -> string, appendFails: bool)
    modifies errors
    ensures appendFails ==> errors.slots == Rotated(old(errors.slots))
    ensures !appendFails ==>
      errors.slots == Appended(Rotated(old(errors.slots)), EntryLine(Spread([("type", "error")], data), now, encode))
  {
    errors.Write(Spread([("type", "error")], data), now, encode, appendFails);
  }

  /** In a written entry the timestamp comes first and is the caller's when given; the
      type of a usage entry is the caller's when given and `usage` otherwise. */
  lemma UsageEntryFields(data: seq<Field>, now: string)
    ensures var fields := Spread([("timestamp", now)], Spread([("type", "usage")], data));
      && fields[0].0 == "timestamp"
      && Lookup(fields, "timestamp") == (if Lookup(data, "timestamp").Some? then Lookup(data, "timestamp") else Some(now))
      && Lookup(fields, "type") == (if Lookup(data, "type").Some? then Lookup(data, "type") else Some("usage"))
  {
    var typed := Spread([("type", "usage")], data);
    SpreadOverrides([("type", "usage")], data, "timestamp");
    SpreadOverrides([("type", "usage")], data, "type");
    SpreadOverrides([("timestamp", now)], typed, "timestamp");
    SpreadOverrides([("timestamp", now)], typed, "type");
    assert Lookup([("type", "usage")], "timestamp") == None;
    assert Lookup([("timestamp", now)], "type") == None;
  }
}
