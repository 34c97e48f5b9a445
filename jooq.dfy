/**
 * The jOOQ side the mappers see: the fields of a record type, records as the
 * values of those fields, and the configuration setting that turns caching on.
 */
module Jooq {
  import opened Java

  /** A `Field`: its name and its declared class. */
  datatype Field = Field(name: string, fieldType: TypeTag)

  /** A `RecordType`: its fields in order, the index of a field being its position. */
  type RecordType = seq<Field>

  /**
   * A record over a record type: one entry per field. `None` is a value that was
   * never set since the record was created; `Some(Null)` is a value set to null.
   */
  type Record = seq<Option<Value>>

  /** `DSL.using(configuration).newRecord(recordType.fields())`: a record with nothing set. */
  function NewRecord(recordType: RecordType): (r: Record)
    ensures |r| == |recordType|
    ensures forall i :: 0 <= i < |r| ==> r[i] == None
  {
    seq(|recordType|, _ => None)
  }

  /** `field.getValue(record)`: what the record holds at a field, null if it was never set. */
  function GetValue(record: Record, index: nat): Value
    requires index < |record|
  {
    match record[index]
    case Some(v) => v
    case None => Null
  }

  /** `Settings.isCacheRecordMappers()`, a `Boolean` that may be null. */
  datatype Settings = Settings(cacheRecordMappers: Option<bool>)

  /** A jOOQ `Configuration`, by the one setting the mappers read. */
  datatype Configuration = Configuration(settings: Settings)

  /** `Boolean.TRUE.equals(configuration.settings().isCacheRecordMappers())`. */
  predicate CachingEnabled(configuration: Configuration) {
    configuration.settings.cacheRecordMappers == Some(true)
  }
}
