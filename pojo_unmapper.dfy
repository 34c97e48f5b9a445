/**
 * `PojoUnMapper`: a bean becomes a record through its readable properties. The
 * constructor matches each column to a property by lower-cased name, once; `unmap`
 * reads the bound properties into a fresh record, and on failure asks the
 * fallback provider or wraps the original exception.
 */
module PojoUnMapper {
  import opened Java
  import opened JavaStrings
  import opened Jooq
  import opened Micronaut
  import opened BaseUnMapper
  import Utils

  /** An unmapper: what `BaseUnMapper` keeps, and `fieldIndexToProperty` by property index. */
  datatype PojoUnMapper = PojoUnMapper(base: Base, fieldIndexToProperty: map<nat, nat>)

  // ---------------------------------------------------------------------------
  // The constructor
  // ---------------------------------------------------------------------------

  /**
   * A map filled by putting `k` under `keys[k]` for each of the first `n` keys
   * that is present, in order, so that a later put replaces an earlier one.
   */
  function LastIndexTable<K>(keys: seq<Option<K>>, n: nat): (r: map<K, nat>)
    requires n <= |keys|
    ensures forall key :: key in r ==> r[key] < n
  {
    if n == 0 then map[]
    else
      var table := LastIndexTable(keys, n - 1);
      match keys[n - 1]
      case None => table
      case Some(key) => table[key := n - 1]
  }

  /** A key is in the table iff it is among the first `n` keys, and it then holds the index of its LAST occurrence. */
  lemma {:induction false} LastIndexTableMeaning<K>(keys: seq<Option<K>>, n: nat, key: K)
    requires n <= |keys|
    ensures key in LastIndexTable(keys, n) <==> exists k :: 0 <= k < n && keys[k] == Some(key)
    ensures key in LastIndexTable(keys, n) ==>
            var k := LastIndexTable(keys, n)[key];
            keys[k] == Some(key) && forall j :: k < j < n ==> keys[j] != Some(key)
  {
    if n > 0 {
      LastIndexTableMeaning(keys, n - 1, key);
      if keys[n - 1] != Some(key) {
        assert key in LastIndexTable(keys, n) <==> key in LastIndexTable(keys, n - 1);
        if exists k :: 0 <= k < n && keys[k] == Some(key) {
          var k :| 0 <= k < n && keys[k] == Some(key);
          assert k < n - 1;
        }
      }
    }
  }

  /** The key each property is put under: its `Utils.getName`, or none when it is write-only. */
  function PropertyKeys(properties: seq<BeanProperty>): (r: seq<Option<string>>)
    ensures |r| == |properties|
    ensures forall k :: 0 <= k < |properties| ==>
              r[k] == if properties[k].writeOnly then None else Some(Utils.GetName(properties[k]))
  {
    seq(|properties|, k requires 0 <= k < |properties| =>
      if properties[k].writeOnly then None else Some(Utils.GetName(properties[k])))
  }

  /**
   * `nameToProperty` after the first `n` properties: each property that is not
   * write-only is put under its `Utils.getName`, a later one replacing an earlier.
   */
  function NameTable(properties: seq<BeanProperty>, n: nat): (r: map<string, nat>)
    requires n <= |properties|
    ensures forall name :: name in r ==> r[name] < n
  {
    LastIndexTable(PropertyKeys(properties), n)
  }

  /** Property `k` is readable and goes by `name`. */
  predicate Named(properties: seq<BeanProperty>, k: nat, name: string)
    requires k < |properties|
  {
    !properties[k].writeOnly && Utils.GetName(properties[k]) == name
  }

  /**
   * A name is in the table iff some readable property among the first `n` goes
   * by it, and it then names the LAST such property.
   */
  lemma NameTableMeaning(properties: seq<BeanProperty>, n: nat, name: string)
    requires n <= |properties|
    ensures name in NameTable(properties, n) <==> exists k :: 0 <= k < n && Named(properties, k, name)
    ensures name in NameTable(properties, n) ==>
            var k := NameTable(properties, n)[name];
            Named(properties, k, name) && forall j :: k < j < n ==> !Named(properties, j, name)
  {
    var keys := PropertyKeys(properties);
    LastIndexTableMeaning(keys, n, name);
    assert forall k :: 0 <= k < n ==> (keys[k] == Some(name) <==> Named(properties, k, name));
  }

  /**
   * `fieldIndexToProperty` after the first `n` columns: a column is bound when
   * its name, lower-cased and nothing more, is in the table and its class is
   * assignable from that property's class.
   */
  function BindingUpTo(fields: RecordType, properties: seq<BeanProperty>, table: map<string, nat>,
                       assignable: Assignability, n: nat): map<nat, nat>
    requires n <= |fields|
    requires forall name :: name in table ==> table[name] < |properties|
  {
    map c: nat | c < n && LowerCase(fields[c].name) in table &&
                 assignable(fields[c].fieldType, properties[table[LowerCase(fields[c].name)]].propertyType)
      :: table[LowerCase(fields[c].name)]
  }

  /** `fieldIndexToProperty` as the constructor leaves it. */
  function Binding(fields: RecordType, properties: seq<BeanProperty>, assignable: Assignability): map<nat, nat> {
    BindingUpTo(fields, properties, NameTable(properties, |properties|), assignable, |fields|)
  }

  /**
   * Column `c` is bound iff the last readable property that goes by its
   * lower-cased name exists and is assignable to it; it is then bound to that
   * property. An earlier property of the same name is never used, even where the
   * last one is not assignable.
   */
  lemma BindingMeaning(fields: RecordType, properties: seq<BeanProperty>, assignable: Assignability, c: nat)
    requires c < |fields|
    ensures var b := Binding(fields, properties, assignable);
            var name := LowerCase(fields[c].name);
            c in b ==>
              b[c] < |properties| && Named(properties, b[c], name) &&
              assignable(fields[c].fieldType, properties[b[c]].propertyType) &&
              forall j :: b[c] < j < |properties| ==> !Named(properties, j, name)
    ensures var b := Binding(fields, properties, assignable);
            var name := LowerCase(fields[c].name);
            c !in b ==>
              forall k :: 0 <= k < |properties| && Named(properties, k, name) &&
                          (forall j :: k < j < |properties| ==> !Named(properties, j, name)) ==>
                !assignable(fields[c].fieldType, properties[k].propertyType)
  {
    var name := LowerCase(fields[c].name);
    var table := NameTable(properties, |properties|);
    NameTableMeaning(properties, |properties|, name);
    if name in table {
      var last := table[name];
      forall k | 0 <= k < |properties| && Named(properties, k, name) &&
                 (forall j :: k < j < |properties| ==> !Named(properties, j, name))
        ensures k == last
      {
      }
    }
  }

  /** How `fieldIndexToProperty` grows by one column. */
  lemma BindingStep(fields: RecordType, properties: seq<BeanProperty>, table: map<string, nat>,
                    assignable: Assignability, n: nat)
    requires n < |fields|
    requires forall name :: name in table ==> table[name] < |properties|
    ensures var name := LowerCase(fields[n].name);
            BindingUpTo(fields, properties, table, assignable, n + 1) ==
            if name in table && assignable(fields[n].fieldType, properties[table[name]].propertyType)
            then BindingUpTo(fields, properties, table, assignable, n)[n := table[name]]
            else BindingUpTo(fields, properties, table, assignable, n)
  {
  }

  /** The constructor's loop over the properties: `nameToProperty`. */
  method BuildNameTable(properties: seq<BeanProperty>) returns (nameToProperty: map<string, nat>)
    ensures nameToProperty == NameTable(properties, |properties|)
  {
    ghost var keys := PropertyKeys(properties);
    nameToProperty := map[];
    for k := 0 to |properties|
      invariant nameToProperty == LastIndexTable(keys, k)
    {
      var property := properties[k];
      assert keys[k] == if property.writeOnly then None else Some(Utils.GetName(property));
      if !property.writeOnly {
        var name := Utils.GetName(property);
        nameToProperty := nameToProperty[name := k];
      }
    }
  }

  /** The constructor's loop over the fields: `fieldIndexToProperty`. */
  method BindFields(fields: RecordType, properties: seq<BeanProperty>, nameToProperty: map<string, nat>,
                    assignable: Assignability) returns (fieldIndexToProperty: map<nat, nat>)
    requires forall name :: name in nameToProperty ==> nameToProperty[name] < |properties|
    ensures fieldIndexToProperty == BindingUpTo(fields, properties, nameToProperty, assignable, |fields|)
  {
    fieldIndexToProperty := map[];
    for i := 0 to |fields|
      invariant fieldIndexToProperty == BindingUpTo(fields, properties, nameToProperty, assignable, i)
    {
      BindingStep(fields, properties, nameToProperty, assignable, i);
      var field := fields[i];
      var name := LowerCase(field.name);
      if name in nameToProperty && assignable(field.fieldType, properties[nameToProperty[name]].propertyType) {
        fieldIndexToProperty := fieldIndexToProperty[i := nameToProperty[name]];
      }
    }
  }

  /** The constructor: the name table, then the binding. */
  method New(base: Base, assignable: Assignability) returns (u: PojoUnMapper)
    ensures u == PojoUnMapper(base, Binding(base.recordType, base.bean.beanProperties, assignable))
  {
    var properties := base.bean.beanProperties;
    var nameToProperty := BuildNameTable(properties);
    var fieldIndexToProperty := BindFields(base.recordType, properties, nameToProperty, assignable);
    u := PojoUnMapper(base, fieldIndexToProperty);
  }

  /** The name table of a single property. */
  lemma SinglePropertyTable(property: BeanProperty)
    ensures NameTable([property], 1) == if property.writeOnly then map[] else map[Utils.GetName(property) := 0]
  {
  }

  /** The binding of a single column against a single property, for any table. */
  lemma SingleColumnBindingUpTo(field: Field, property: BeanProperty, table: map<string, nat>, assignable: Assignability)
    requires forall name :: name in table ==> table[name] < 1
    ensures BindingUpTo([field], [property], table, assignable, 1) ==
            if LowerCase(field.name) in table && assignable(field.fieldType, property.propertyType)
            then map[0 := table[LowerCase(field.name)]] else map[]
  {
    var b := BindingUpTo([field], [property], table, assignable, 1);
    assert forall c :: c in b ==> c == 0;
  }

  /**
   * One column and one property: the column is bound to the property iff the
   * property is readable, goes by the column's lower-cased name and is
   * assignable to it.
   */
  lemma SingleColumnBinding(field: Field, property: BeanProperty, assignable: Assignability)
    ensures Binding([field], [property], assignable) ==
            if !property.writeOnly && Utils.GetName(property) == LowerCase(field.name) &&
               assignable(field.fieldType, property.propertyType)
            then map[0 := 0] else map[]
  {
    SinglePropertyTable(property);
    SingleColumnBindingUpTo(field, property, NameTable([property], 1), assignable);
  }

  /**
   * Only lower-casing, no separator stripping: a column `user_name` does not
   * bind a property `userName`, which the record-to-bean mapper would match.
   */
  lemma ColumnNamesAreOnlyLowerCased(fieldType: TypeTag, propertyType: TypeTag, assignable: Assignability)
    ensures Binding([Field("user_name", fieldType)],
                    [BeanProperty("userName", propertyType, false, false, None)], assignable) == map[]
  {
    var property := BeanProperty("userName", propertyType, false, false, None);
    SingleColumnBinding(Field("user_name", fieldType), property, assignable);
    assert |Utils.GetName(property)| != |LowerCase("user_name")|;
  }

  /**
   * A `@Column` name overrides the property's own name, case aside: a property
   * `fullName` annotated with the name `USER_NAME` binds the column `user_name`.
   */
  lemma ColumnAnnotationNameBinds(fieldType: TypeTag, propertyType: TypeTag, assignable: Assignability)
    requires assignable(fieldType, propertyType)
    ensures Binding([Field("user_name", fieldType)],
                    [BeanProperty("fullName", propertyType, false, false, Some(ColumnAnnotation(Some("USER_NAME"))))],
                    assignable) == map[0 := 0]
  {
    var property := BeanProperty("fullName", propertyType, false, false, Some(ColumnAnnotation(Some("USER_NAME"))));
    SingleColumnBinding(Field("user_name", fieldType), property, assignable);
    Utils.AnnotationNameIsLowerCased(property);
    LowerCaseIsLowerCase("user_name");
  }

  // ---------------------------------------------------------------------------
  // `unmap`
  // ---------------------------------------------------------------------------

  /** `property.get(source)` for the property column `c` is bound to. */
  function Getter(u: PojoUnMapper, source: Value, c: nat): Outcome<Value>
    requires c in u.fieldIndexToProperty
  {
    u.base.bean.getProperty(u.fieldIndexToProperty[c], source)
  }

  /**
   * The `try` block over the first `n` columns: a fresh record, and each bound
   * column set to its property's value, until a getter throws.
   */
  function Fill(u: PojoUnMapper, source: Value, n: nat): (r: Outcome<Record>)
    requires n <= |u.base.recordType|
    ensures r.Ok? ==> |r.value| == |u.base.recordType|
  {
    if n == 0 then Ok(NewRecord(u.base.recordType))
    else match Fill(u, source, n - 1)
      case Thrown(e) => Thrown(e)
      case Ok(record) =>
        if n - 1 in u.fieldIndexToProperty then
          match Getter(u, source, n - 1)
          case Thrown(e) => Thrown(e)
          case Ok(v) => Ok(record[n - 1 := Some(v)])
        else Ok(record)
  }

  /**
   * The fill succeeds iff every bound column's getter does; the record then
   * holds each bound column's property value and leaves every other column
   * unset. When it fails, it fails with the exception of the first bound column
   * whose getter throws.
   */
  lemma {:induction false} FillMeaning(u: PojoUnMapper, source: Value, n: nat)
    requires n <= |u.base.recordType|
    ensures Fill(u, source, n).Ok? <==>
            forall c :: 0 <= c < n && c in u.fieldIndexToProperty ==> Getter(u, source, c).Ok?
    ensures Fill(u, source, n).Ok? ==>
            forall c :: 0 <= c < |u.base.recordType| ==>
              Fill(u, source, n).value[c] ==
                if c < n && c in u.fieldIndexToProperty then Some(Getter(u, source, c).value) else None
    ensures Fill(u, source, n).Thrown? ==>
            exists c :: 0 <= c < n && c in u.fieldIndexToProperty &&
              Getter(u, source, c) == Thrown(Fill(u, source, n).exception) &&
              forall d :: 0 <= d < c && d in u.fieldIndexToProperty ==> Getter(u, source, d).Ok?
  {
    if n > 0 {
      FillMeaning(u, source, n - 1);
    }
  }

  /** Once a getter has thrown, the later columns do not change the outcome. */
  lemma {:induction false} FillThrownSticks(u: PojoUnMapper, source: Value, i: nat, n: nat)
    requires i <= n <= |u.base.recordType|
    requires Fill(u, source, i).Thrown?
    ensures Fill(u, source, n) == Fill(u, source, i)
  {
    if i < n {
      FillThrownSticks(u, source, i, n - 1);
    }
  }

  /** The `try` block's loop, setting the bound columns of a fresh record in place. */
  method FillRecord(u: PojoUnMapper, source: Value) returns (r: Outcome<Record>)
    ensures r == Fill(u, source, |u.base.recordType|)
  {
    var fields := u.base.recordType;
    var record := new Option<Value>[|fields|](_ => None);
    assert record[..] == NewRecord(fields);
    for i := 0 to |fields|
      invariant Fill(u, source, i) == Ok(record[..])
    {
      if i in u.fieldIndexToProperty {
        var property := u.fieldIndexToProperty[i];
        var value := u.base.bean.getProperty(property, source);
        if value.Thrown? {
          FillThrownSticks(u, source, i + 1, |fields|);
          return Thrown(value.exception);
        }
        record[i] := Some(value.value);
      }
    }
    r := Ok(record[..]);
  }

  /**
   * The two `catch` blocks of `unmap`: the fallback's record if there is a
   * fallback and it succeeds; otherwise a `MappingException` whose cause is the
   * original exception, never the fallback's.
   */
  function Recover(u: PojoUnMapper, source: Value, attempt: Outcome<Record>): (r: Outcome<Option<Record>>)
    ensures attempt.Ok? ==> r == Ok(Some(attempt.value))
    ensures attempt.Thrown? && u.base.fallbackProvider.Some? &&
            u.base.fallbackProvider.value(u.base.beanType, u.base.recordType, source).Ok? ==>
            r == u.base.fallbackProvider.value(u.base.beanType, u.base.recordType, source)
    ensures attempt.Thrown? &&
            (u.base.fallbackProvider.None? ||
             u.base.fallbackProvider.value(u.base.beanType, u.base.recordType, source).Thrown?) ==>
            r == Thrown(MappingException(Some(attempt.exception)))
    ensures r.Thrown? ==> attempt.Thrown? && r.exception == MappingException(Some(attempt.exception))
  {
    match attempt
    case Ok(record) => Ok(Some(record))
    case Thrown(e) =>
      match u.base.fallbackProvider
      case None => Thrown(MappingException(Some(e)))
      case Some(fallback) =>
        match fallback(u.base.beanType, u.base.recordType, source)
        case Ok(record) => Ok(record)
        case Thrown(_) => Thrown(MappingException(Some(e)))
  }

  /** What `unmap` does with `source`: null gives null and touches nothing; anything else is filled, then recovered. */
  predicate Unmapped(u: PojoUnMapper, source: Value, r: Outcome<Option<Record>>) {
    if source.Null? then r == Ok(None)
    else r == Recover(u, source, Fill(u, source, |u.base.recordType|))
  }

  /** `unmap`. */
  method Unmap(u: PojoUnMapper, source: Value) returns (r: Outcome<Option<Record>>)
    ensures Unmapped(u, source, r)
  {
    if source.Null? {
      return Ok(None);
    }
    var attempt := FillRecord(u, source);
    if attempt.Ok? {
      return Ok(Some(attempt.value));
    }
    if u.base.fallbackProvider.Some? {
      var fallback := u.base.fallbackProvider.value(u.base.beanType, u.base.recordType, source);
      if fallback.Ok? {
        return fallback;
      }
    }
    r := Thrown(MappingException(Some(attempt.exception)));
  }
}
