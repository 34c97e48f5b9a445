/**
 * `ArrayUnMapper`: an `Object[]` becomes a record by position. Element `i` goes
 * to column `i` while both exist; there is no fallback.
 */
module ArrayUnMapper {
  import opened Java
  import opened Jooq
  import opened BaseUnMapper

  datatype ArrayUnMapper = ArrayUnMapper(base: Base)

  /**
   * `record` is the fresh record over `recordType` with column `i` set to
   * `elements[i]` for every `i` below both lengths, and nothing else set.
   */
  predicate CopiedByPosition(recordType: RecordType, elements: seq<Value>, record: Record) {
    |record| == |recordType| &&
    forall i :: 0 <= i < |record| ==> record[i] == if i < |elements| then Some(elements[i]) else None
  }

  /**
   * What `unmap` does with `source`: null gives null, an `Object[]` is copied
   * by position, and anything else throws `MappingException`, a primitive
   * array included.
   */
  predicate Unmapped(recordType: RecordType, source: Value, r: Outcome<Option<Record>>) {
    match source
    case Null => r == Ok(None)
    case ObjectArray(elements) => r.Ok? && r.value.Some? && CopiedByPosition(recordType, elements, r.value.value)
    case _ => r == Thrown(MappingException(None))
  }

  /** `unmap`: the copy loop over a fresh record. */
  method Unmap(u: ArrayUnMapper, source: Value) returns (r: Outcome<Option<Record>>)
    ensures Unmapped(u.base.recordType, source, r)
  {
    if source.Null? {
      return Ok(None);
    }
    if !source.ObjectArray? {
      return Thrown(MappingException(None));
    }
    var elements := source.elements;
    var size := |u.base.recordType|;
    var record := new Option<Value>[size](_ => None);
    var i := 0;
    while i < size && i < |elements|
      invariant 0 <= i <= size && i <= |elements|
      invariant forall j :: 0 <= j < i ==> record[j] == Some(elements[j])
      invariant forall j :: i <= j < size ==> record[j] == None
    {
      record[i] := Some(elements[i]);
      i := i + 1;
    }
    r := Ok(Some(record[..]));
  }

  /** There is exactly one record that copies `elements` by position. */
  lemma CopiedByPositionIsUnique(recordType: RecordType, elements: seq<Value>, r1: Record, r2: Record)
    requires CopiedByPosition(recordType, elements, r1) && CopiedByPosition(recordType, elements, r2)
    ensures r1 == r2
  {
  }

  /**
   * Only the first `min(size, length)` elements count: the elements beyond the
   * record's size are ignored, and the columns beyond the array's length keep
   * the fresh record's unset value.
   */
  lemma ExtraElementsIgnored(recordType: RecordType, elements: seq<Value>, record: Record)
    requires CopiedByPosition(recordType, elements, record)
    ensures |elements| >= |recordType| ==> CopiedByPosition(recordType, elements[..|recordType|], record)
    ensures forall i :: |elements| <= i < |record| ==> record[i] == NewRecord(recordType)[i]
  {
  }

  /** The values of a record, null where a column is unset. */
  function Values(record: Record): (r: seq<Value>)
    ensures |r| == |record|
    ensures forall i :: 0 <= i < |record| ==> r[i] == GetValue(record, i)
  {
    seq(|record|, i requires 0 <= i < |record| => GetValue(record, i))
  }

  /**
   * An array as long as the record type round-trips: reading the record's
   * values back gives the array, and every column is set.
   */
  lemma ArrayRoundTrip(recordType: RecordType, elements: seq<Value>, record: Record)
    requires |elements| == |recordType|
    requires CopiedByPosition(recordType, elements, record)
    ensures Values(record) == elements
    ensures forall i :: 0 <= i < |record| ==> record[i].Some?
  {
    assert forall i :: 0 <= i < |record| ==> Values(record)[i] == elements[i];
  }
}
