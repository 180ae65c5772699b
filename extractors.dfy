/**
 * The record extractor impls: reading a record as itself, and writing a
 * value into a record that the caller owns, either whole or as a key/value
 * pair.
 */
module Extractors {
  import opened Wrappers

  /** The bytes of a record's key or value. */
  datatype RecordData = RecordData(bytes: seq<bv8>)

  /**
   * A record in place. `rest` stands for its remaining fields (preamble and
   * headers), which these impls never look at.
   */
  class Record<Rest> {
    var key: Option<RecordData>
    var value: RecordData
    var rest: Rest

    constructor (key: Option<RecordData>, value: RecordData, rest: Rest)
      ensures this.key == key && this.value == value && this.rest == rest
    {
      this.key := key;
      this.value := value;
      this.rest := rest;
    }
  }

  /** `FromRecord` for `&Record`: the borrowed record itself; it cannot fail. */
  function FromRecord<Rest>(record: Record<Rest>): (r: Record<Rest>)
    ensures r == record
  {
    record
  }

  /** `IntoRecord` for `Record`: the target takes every field of `source`, the record moved in; it cannot fail. */
  method IntoRecord<Rest>(source: Record<Rest>, record: Record<Rest>)
    modifies record
    ensures record.key == old(source.key)
    ensures record.value == old(source.value)
    ensures record.rest == old(source.rest)
  {
    record.key, record.value, record.rest := source.key, source.value, source.rest;
  }

  /**
   * `IntoRecord` for a `(key, value)` pair: the target's key (even when
   * `None`) and value are replaced and nothing else changes; it cannot fail.
   */
  method IntoRecordFromPair<Rest>(pair: (Option<RecordData>, RecordData), record: Record<Rest>)
    modifies record`key, record`value
    ensures record.key == pair.0
    ensures record.value == pair.1
    ensures record.rest == old(record.rest)
  {
    var (key, value) := pair;
    record.key := key;
    record.value := value;
  }

  /**
   * Extracting a record and writing its own key and value back through the
   * pair impl leaves every field as it was.
   */
  method WriteBackKeyValue<Rest>(record: Record<Rest>)
    modifies record`key, record`value
    ensures record.key == old(record.key)
    ensures record.value == old(record.value)
    ensures record.rest == old(record.rest)
  {
    var borrowed := FromRecord(record);
    IntoRecordFromPair((borrowed.key, borrowed.value), record);
  }
}
