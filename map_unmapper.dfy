/**
 * `MapUnMapper`: a `Map` becomes a record by exact key. A column is set when the
 * map has a key equal to the column's name, case and separators included; there
 * is no fallback.
 */
module MapUnMapper {
  import opened Java
  import opened Jooq
  import opened BaseUnMapper

  datatype MapUnMapper = MapUnMapper(base: Base)

  /**
   * `record` is the fresh record over `recordType` with each column whose name
   * is a key set to that key's value (null included), and nothing else set.
   */
  predicate CopiedByKey(recordType: RecordType, entries: map<string, Value>, record: Record) {
    |record| == |recordType| &&
    forall i :: 0 <= i < |record| ==>
      record[i] == if recordType[i].name in entries then Some(entries[recordType[i].name]) else None
  }

  /**
   * What `unmap` does with `source`: null gives null, a `Map` is copied by key,
   * and anything else throws `MappingException`.
   */
  predicate Unmapped(recordType: RecordType, source: Value, r: Outcome<Option<Record>>) {
    match source
    case Null => r == Ok(None)
    case MapObject(entries) => r.Ok? && r.value.Some? && CopiedByKey(recordType, entries, r.value.value)
    case _ => r == Thrown(MappingException(None))
  }

  /** `unmap`: the loop over the fields, setting a fresh record. */
  method Unmap(u: MapUnMapper, source: Value) returns (r: Outcome<Option<Record>>)
    ensures Unmapped(u.base.recordType, source, r)
  {
    if source.Null? {
      return Ok(None);
    }
    if !source.MapObject? {
      return Thrown(MappingException(None));
    }
    var entries := source.entries;
    var fields := u.base.recordType;
    var record := new Option<Value>[|fields|](_ => None);
    for i := 0 to |fields|
      invariant forall j :: 0 <= j < i ==>
                  record[j] == if fields[j].name in entries then Some(entries[fields[j].name]) else None
      invariant forall j :: i <= j < |fields| ==> record[j] == None
    {
      var name := fields[i].name;
      if name in entries {
        record[i] := Some(entries[name]);
      }
    }
    r := Ok(Some(record[..]));
  }

  /**
   * Keys that name no column are ignored: the record is the same whatever those
   * keys map to, so it depends only on the entries whose keys are column names.
   */
  lemma OtherKeysIgnored(recordType: RecordType, entries: map<string, Value>, record: Record)
    requires CopiedByKey(recordType, entries, record)
    ensures CopiedByKey(recordType,
                        map k | k in entries && exists i :: 0 <= i < |recordType| && recordType[i].name == k :: entries[k],
                        record)
  {
    var kept := map k | k in entries && exists i :: 0 <= i < |recordType| && recordType[i].name == k :: entries[k];
    forall i | 0 <= i < |record|
      ensures recordType[i].name in entries <==> recordType[i].name in kept
    {
    }
  }

  /**
   * A key mapped to null sets its column to null, which a record tells apart from
   * a column that was never set.
   */
  lemma NullEntrySetsColumn(recordType: RecordType, entries: map<string, Value>, record: Record, i: nat)
    requires CopiedByKey(recordType, entries, record)
    requires i < |recordType| && recordType[i].name in entries && entries[recordType[i].name] == Null
    ensures record[i] == Some(Null) && record[i] != NewRecord(recordType)[i]
  {
  }

  /**
   * Keys are matched exactly: a map with only the key `User_Name` sets nothing in
   * a record whose one column is `user_name`.
   */
  lemma KeysAreCaseSensitive(fieldType: TypeTag, v: Value, record: Record)
    requires CopiedByKey([Field("user_name", fieldType)], map["User_Name" := v], record)
    ensures record == [None]
  {
    assert "user_name" != "User_Name" by {
      assert "user_name"[0] != "User_Name"[0];
    }
  }
}
