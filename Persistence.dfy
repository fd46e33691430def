/**
 * The key-value store the task store writes to (`UserDefaults`) and the
 * JSON coding of the task array, kept abstract: stored data is represented
 * by its decoded content, a sequence of records whose category is stored as
 * its raw string, and bytes that do not parse as such an array are `Garbage`.
 */
module Persistence {
  import opened Wrappers
  import opened Models

  /** One encoded task, as `Encodable` synthesizes it: the category by raw value. */
  datatype TaskRecord = TaskRecord(
    id: Uuid,
    title: string,
    isCompleted: bool,
    category: string,
    createdAt: Date,
    dueDate: Date,
    notes: string)

  /**
   * What the decoder makes of the bytes stored under a key: the content of
   * a task array (its records, in order), or `Garbage` when the bytes do not
   * parse as one. Byte-level differences that the decoder ignores
   * (whitespace, key order, unknown keys) are not represented.
   */
  datatype Blob = Archive(records: seq<TaskRecord>) | Garbage

  /** A value stored in the key-value store. */
  datatype StoredValue = DataValue(blob: Blob) | BoolValue(flag: bool) | OtherValue

  function EncodeTask(t: TaskItem): (r: TaskRecord)
    ensures CategoryFromRawValue(r.category) == Some(t.category)
  {
    TaskRecord(t.id, t.title, t.isCompleted, t.category.RawValue(), t.createdAt, t.dueDate, t.notes)
  }

  /** Decoding one record fails exactly when its category is not a raw value. */
  function DecodeTask(r: TaskRecord): (t: Option<TaskItem>)
    ensures t.Some? <==> CategoryFromRawValue(r.category).Some?
    ensures t.Some? ==> EncodeTask(t.value) == r
  {
    match CategoryFromRawValue(r.category)
    case None => None
    case Some(c) => Some(TaskItem(r.id, r.title, r.isCompleted, c, r.createdAt, r.dueDate, r.notes))
  }

  /** `JSONEncoder().encode(tasks)`: one record per task, in order. */
  function Encode(tasks: seq<TaskItem>): (b: Blob)
    ensures b.Archive? && |b.records| == |tasks|
    ensures forall i :: 0 <= i < |tasks| ==> b.records[i] == EncodeTask(tasks[i])
  {
    Archive(seq(|tasks|, i requires 0 <= i < |tasks| => EncodeTask(tasks[i])))
  }

  function DecodeRecords(rs: seq<TaskRecord>): (r: Option<seq<TaskItem>>)
    ensures r.Some? <==> forall i :: 0 <= i < |rs| ==> DecodeTask(rs[i]).Some?
    ensures r.Some? ==> |r.value| == |rs|
    ensures r.Some? ==> forall i :: 0 <= i < |rs| ==> DecodeTask(rs[i]) == Some(r.value[i])
  {
    if rs == [] then Some([])
    else match (DecodeTask(rs[0]), DecodeRecords(rs[1..]))
      case (Some(t), Some(ts)) =>
        assert forall i :: 0 < i < |rs| ==> rs[i] == rs[1..][i - 1];
        Some([t] + ts)
      case (None, _) => None
      case (_, None) =>
        assert forall i :: 0 <= i < |rs| - 1 ==> rs[1..][i] == rs[i + 1];
        None
  }

  /**
   * `JSONDecoder().decode([TaskItem].self, from:)`; `None` is a thrown error.
   * Decoding fails exactly on unparseable bytes or an unknown category string.
   */
  function Decode(b: Blob): (r: Option<seq<TaskItem>>)
    ensures r.Some? <==>
      b.Archive? && forall i :: 0 <= i < |b.records| ==> CategoryFromRawValue(b.records[i].category).Some?
  {
    match b
    case Garbage => None
    case Archive(rs) => DecodeRecords(rs)
  }

  /** Every task array survives encoding and decoding with all seven fields intact. */
  lemma DecodeEncode(tasks: seq<TaskItem>)
    ensures Decode(Encode(tasks)) == Some(tasks)
  {
    var rs := Encode(tasks).records;
    forall i | 0 <= i < |rs| ensures DecodeTask(rs[i]) == Some(tasks[i]) {
      CategoryRawValueRoundTrip(tasks[i].category);
    }
    var r := DecodeRecords(rs);
    assert r.Some?;
    assert forall i | 0 <= i < |tasks| :: r.value[i] == tasks[i];
    assert r.value == tasks;
    assert Decode(Encode(tasks)) == r;
  }

  /**
   * Whatever decodes successfully has, as decoded content, the encoding of
   * what it decodes to; distinct byte strings with that content are not told apart.
   */
  lemma EncodeDecode(b: Blob, tasks: seq<TaskItem>)
    requires Decode(b) == Some(tasks)
    ensures b == Encode(tasks)
  {
  }

  /** `UserDefaults`: a mutable dictionary from keys to stored values. */
  class UserDefaults {
    var values: map<string, StoredValue>

    constructor (initial: map<string, StoredValue>)
      ensures values == initial
    {
      values := initial;
    }

    /** `data(forKey:)`: the stored bytes, if the key holds data. */
    function DataFor(key: string): (r: Option<Blob>)
      reads this
      ensures r.Some? <==> key in values && values[key].DataValue?
      ensures r.Some? ==> values[key] == DataValue(r.value)
    {
      if key in values && values[key].DataValue? then Some(values[key].blob) else None
    }

    /** `object(forKey:) as? Bool`: the stored flag, if the key holds a boolean. */
    function BoolFor(key: string): (r: Option<bool>)
      reads this
      ensures r.Some? <==> key in values && values[key].BoolValue?
      ensures r.Some? ==> values[key] == BoolValue(r.value)
    {
      if key in values && values[key].BoolValue? then Some(values[key].flag) else None
    }

    /** `set(_:forKey:)`. */
    method Set(key: string, v: StoredValue)
      modifies this
      ensures values == old(values)[key := v]
    {
      values := values[key := v];
    }
  }
}
