/**
 * `JooqIntrospectionMapper`: builds, and caches, the mapper that turns a record
 * into a bean. Building matches each field of the record type to at most one
 * destination, a constructor argument (tried first) or a writable property;
 * mapping fills the constructor's arguments, constructs the bean, then sets the
 * bound properties, and on failure defers to a fallback provider.
 */
module JooqIntrospectionMapper {
  import opened Java
  import opened JavaStrings
  import opened Jooq
  import opened Micronaut
  import Pair

  // ---------------------------------------------------------------------------
  // Name matching
  // ---------------------------------------------------------------------------

  /** A character of the class `[-_\s.]`; `\s` is space, tab, newline, vertical tab, form feed, carriage return. */
  predicate IsSeparator(c: char) {
    c == '-' || c == '_' || c == '.' ||
    c == ' ' || c == '\t' || c == '\n' || c == '\U{000B}' || c == '\U{000C}' || c == '\r'
  }

  /** `regex.matcher(name).replaceAll("")`: the name with every separator deleted. */
  function Normalize(s: string): (r: string)
    ensures |r| <= |s|
    ensures forall i :: 0 <= i < |r| ==> !IsSeparator(r[i])
  {
    if s == [] then []
    else if IsSeparator(s[0]) then Normalize(s[1..])
    else [s[0]] + Normalize(s[1..])
  }

  /** Normalising deletes separators one by one and keeps every other character in order. */
  lemma {:induction false} NormalizeConcat(a: string, b: string)
    ensures Normalize(a + b) == Normalize(a) + Normalize(b)
    ensures Normalize([]) == []
    ensures |a| == 1 ==> Normalize(a) == if IsSeparator(a[0]) then [] else a
  {
    if a == [] {
      assert a + b == b;
    } else {
      assert (a + b)[1..] == a[1..] + b;
      NormalizeConcat(a[1..], b);
    }
  }

  /** A name without separators is its own normal form, so normalising twice changes nothing. */
  lemma {:induction false} NormalizeKeepsCleanNames(s: string)
    requires forall i :: 0 <= i < |s| ==> !IsSeparator(s[i])
    ensures Normalize(s) == s
    ensures Normalize(Normalize(s)) == Normalize(s)
  {
    if s != [] {
      NormalizeKeepsCleanNames(s[1..]);
    }
  }

  lemma NormalizeIdempotent(s: string)
    ensures Normalize(Normalize(s)) == Normalize(s)
  {
    NormalizeKeepsCleanNames(Normalize(s));
  }

  /**
   * The name test of both loops of `build`: the argument's or property's own name
   * `equalsIgnoreCase` the field's raw name or its normalised name. Only the
   * field's side is normalised.
   */
  predicate NameMatches(name: string, fieldName: string) {
    EqualsIgnoreCase(name, fieldName) || EqualsIgnoreCase(name, Normalize(fieldName))
  }

  /** A name matches iff it lower-cases to the field name's raw or normalised lower case. */
  lemma NameMatchesMeaning(name: string, fieldName: string)
    ensures NameMatches(name, fieldName) <==>
            LowerCase(name) == LowerCase(fieldName) || LowerCase(name) == LowerCase(Normalize(fieldName))
  {
    EqualsIgnoreCaseIffLowerCaseEqual(name, fieldName);
    EqualsIgnoreCaseIffLowerCaseEqual(name, Normalize(fieldName));
  }

  /** A separator after a clean prefix is deleted; the prefix stays as it is. */
  lemma {:induction false} NormalizeDropsSeparator(a: string, c: char, b: string)
    requires forall i :: 0 <= i < |a| ==> !IsSeparator(a[i])
    requires IsSeparator(c)
    ensures Normalize(a + [c] + b) == a + Normalize(b)
  {
    if a == [] {
      assert a + [c] + b == [c] + b;
      assert ([c] + b)[1..] == b;
    } else {
      assert (a + [c] + b)[1..] == a[1..] + [c] + b;
      NormalizeDropsSeparator(a[1..], c, b);
      assert a == [a[0]] + a[1..];
    }
  }

  /** The normalised form of the field name `user_name` is `username`. */
  lemma NormalizeUserName()
    ensures Normalize("user_name") == "username"
  {
    NormalizeDropsSeparator("user", '_', "name");
    NormalizeKeepsCleanNames("name");
    assert "user" + ['_'] + "name" == "user_name";
    assert "user" + "name" == "username";
  }

  /** Case is ignored: `userName` and `UserName` both equal `username` ignoring case. */
  lemma CamelCaseEqualsIgnoringCase()
    ensures EqualsIgnoreCase("userName", "username")
    ensures EqualsIgnoreCase("UserName", "username")
  {
    CharsEqualIgnoringCase('N', 'n');
    CharsEqualIgnoringCase('U', 'u');
  }

  /**
   * The field `user_name` matches the names `userName`, `UserName` and
   * `user_name`: the separator goes, and case is ignored.
   */
  lemma SnakeCaseFieldMatchesCamelCaseName()
    ensures NameMatches("userName", "user_name")
    ensures NameMatches("UserName", "user_name")
    ensures NameMatches("user_name", "user_name")
  {
    NormalizeUserName();
    CamelCaseEqualsIgnoringCase();
  }

  /**
   * No partial match: the field `id` does not match the name `identity`. And
   * since only the field's name is normalised, the name `user_name` does not
   * match the field `userName`.
   */
  lemma NoPartialOrReversedMatch()
    ensures !NameMatches("identity", "id")
    ensures !NameMatches("user_name", "userName")
  {
  }

  // ---------------------------------------------------------------------------
  // Planning (`build`)
  // ---------------------------------------------------------------------------

  /** A constructor argument takes a field when the names match and the argument's class is assignable from the field's. */
  predicate ArgumentAccepts(argument: Argument, field: Field, assignable: Assignability) {
    NameMatches(argument.name, field.name) && assignable(argument.argumentType, field.fieldType)
  }

  /** A property takes a field when it is not read-only, its class is assignable from the field's and the names match. */
  predicate PropertyAccepts(property: BeanProperty, field: Field, assignable: Assignability) {
    !property.readOnly && assignable(property.propertyType, field.fieldType) && NameMatches(property.name, field.name)
  }

  /** The index of the first element of `s` that `accepts`, if any: what a scan that stops at the first hit finds. */
  function FirstIndex<T>(s: seq<T>, accepts: T -> bool): (r: Option<nat>)
    ensures r.Some? ==> r.value < |s|
  {
    if s == [] then None
    else if accepts(s[0]) then Some(0)
    else match FirstIndex(s[1..], accepts)
      case None => None
      case Some(k) => Some(k + 1)
  }

  /**
   * The scan finds an element that accepts and nothing before it accepts, or
   * finds nothing and nothing accepts.
   */
  lemma {:induction false} FirstIndexMeaning<T>(s: seq<T>, accepts: T -> bool)
    ensures var r := FirstIndex(s, accepts);
            r.Some? ==> accepts(s[r.value]) && forall j :: 0 <= j < r.value ==> !accepts(s[j])
    ensures FirstIndex(s, accepts).None? ==> forall j :: 0 <= j < |s| ==> !accepts(s[j])
  {
    if s != [] && !accepts(s[0]) {
      FirstIndexMeaning(s[1..], accepts);
      assert forall j :: 1 <= j < |s| ==> s[j] == s[1..][j - 1];
    }
  }

  /** The scan stops at `i` when `i` accepts and nothing before it does. */
  lemma FirstIndexIs<T>(s: seq<T>, accepts: T -> bool, i: nat)
    requires i < |s| && accepts(s[i])
    requires forall j :: 0 <= j < i ==> !accepts(s[j])
    ensures FirstIndex(s, accepts) == Some(i)
  {
    FirstIndexMeaning(s, accepts);
  }

  /** The scan finds nothing when nothing accepts. */
  lemma FirstIndexNone<T>(s: seq<T>, accepts: T -> bool)
    requires forall j :: 0 <= j < |s| ==> !accepts(s[j])
    ensures FirstIndex(s, accepts) == None
  {
    FirstIndexMeaning(s, accepts);
  }

  /** The constructor argument a field goes to: the first, in declaration order, that accepts it. */
  function ConstructorSlot(arguments: seq<Argument>, field: Field, assignable: Assignability): Option<nat> {
    FirstIndex(arguments, a => ArgumentAccepts(a, field, assignable))
  }

  /** The property a field goes to when no constructor argument takes it: the first that accepts it. */
  function PropertySlot(properties: seq<BeanProperty>, field: Field, assignable: Assignability): Option<nat> {
    FirstIndex(properties, p => PropertyAccepts(p, field, assignable))
  }

  /** A field's constructor slot accepts it and no earlier argument does; with no slot, no argument accepts it. */
  lemma ConstructorSlotMeaning(arguments: seq<Argument>, field: Field, assignable: Assignability)
    ensures var r := ConstructorSlot(arguments, field, assignable);
            r.Some? ==> r.value < |arguments| && ArgumentAccepts(arguments[r.value], field, assignable) &&
                        forall j :: 0 <= j < r.value ==> !ArgumentAccepts(arguments[j], field, assignable)
    ensures ConstructorSlot(arguments, field, assignable).None? ==>
            forall j :: 0 <= j < |arguments| ==> !ArgumentAccepts(arguments[j], field, assignable)
  {
    FirstIndexMeaning(arguments, a => ArgumentAccepts(a, field, assignable));
  }

  /** A field's property slot accepts it and no earlier property does; with no slot, no property accepts it. */
  lemma PropertySlotMeaning(properties: seq<BeanProperty>, field: Field, assignable: Assignability)
    ensures var r := PropertySlot(properties, field, assignable);
            r.Some? ==> r.value < |properties| && PropertyAccepts(properties[r.value], field, assignable) &&
                        forall j :: 0 <= j < r.value ==> !PropertyAccepts(properties[j], field, assignable)
    ensures PropertySlot(properties, field, assignable).None? ==>
            forall j :: 0 <= j < |properties| ==> !PropertyAccepts(properties[j], field, assignable)
  {
    FirstIndexMeaning(properties, p => PropertyAccepts(p, field, assignable));
  }

  /** Every slot named is below `width`. */
  predicate SlotsBelow(slots: seq<Option<nat>>, width: nat) {
    forall c :: 0 <= c < |slots| && slots[c].Some? ==> slots[c].value < width
  }

  /** The constructor slot of each field, in field order. */
  function ConstructorSlots(fields: RecordType, arguments: seq<Argument>, assignable: Assignability): (r: seq<Option<nat>>)
    ensures |r| == |fields| && SlotsBelow(r, |arguments|)
    decreases |fields|
  {
    if fields == [] then []
    else
      ConstructorSlots(fields[..|fields| - 1], arguments, assignable) +
      [ConstructorSlot(arguments, fields[|fields| - 1], assignable)]
  }

  /** Entry `c` of the constructor slots is field `c`'s constructor slot. */
  lemma {:induction false} ConstructorSlotsAt(fields: RecordType, arguments: seq<Argument>, assignable: Assignability, c: nat)
    requires c < |fields|
    ensures ConstructorSlots(fields, arguments, assignable)[c] == ConstructorSlot(arguments, fields[c], assignable)
    decreases |fields|
  {
    if c < |fields| - 1 {
      ConstructorSlotsAt(fields[..|fields| - 1], arguments, assignable, c);
    }
  }

  /** The property slot of each field, in field order. */
  function PropertySlots(fields: RecordType, properties: seq<BeanProperty>, assignable: Assignability): (r: seq<Option<nat>>)
    ensures |r| == |fields| && SlotsBelow(r, |properties|)
    decreases |fields|
  {
    if fields == [] then []
    else
      PropertySlots(fields[..|fields| - 1], properties, assignable) +
      [PropertySlot(properties, fields[|fields| - 1], assignable)]
  }

  /** Entry `c` of the property slots is field `c`'s property slot. */
  lemma {:induction false} PropertySlotsAt(fields: RecordType, properties: seq<BeanProperty>, assignable: Assignability, c: nat)
    requires c < |fields|
    ensures PropertySlots(fields, properties, assignable)[c] == PropertySlot(properties, fields[c], assignable)
    decreases |fields|
  {
    if c < |fields| - 1 {
      PropertySlotsAt(fields[..|fields| - 1], properties, assignable, c);
    }
  }

  /**
   * `constructorIndexes` after the first `n` fields, given the slot each field
   * goes to: zero-initialised, and each field writes its index into its slot.
   */
  function SlotIndexes(slots: seq<Option<nat>>, width: nat, n: nat): (r: seq<int>)
    requires n <= |slots| && SlotsBelow(slots, width)
    ensures |r| == width
  {
    if n == 0 then seq(width, _ => 0)
    else
      var prev := SlotIndexes(slots, width, n - 1);
      match slots[n - 1]
      case Some(i) => prev[i := n - 1]
      case None => prev
  }

  /** How `constructorIndexes` grows by one field: its slot, if any, is overwritten with its index. */
  lemma SlotIndexesStep(slots: seq<Option<nat>>, width: nat, n: nat)
    requires n < |slots| && SlotsBelow(slots, width)
    ensures SlotIndexes(slots, width, n + 1) ==
            if slots[n].Some? then SlotIndexes(slots, width, n)[slots[n].value := n] else SlotIndexes(slots, width, n)
  {
  }

  /** Slot `i` holds the LAST of the first `n` fields that goes to it, or 0 when none does. */
  lemma {:induction false} SlotIndexesMeaning(slots: seq<Option<nat>>, width: nat, n: nat, i: nat)
    requires n <= |slots| && SlotsBelow(slots, width) && i < width
    ensures (forall c :: 0 <= c < n ==> slots[c] != Some(i)) ==> SlotIndexes(slots, width, n)[i] == 0
    ensures (exists c :: 0 <= c < n && slots[c] == Some(i)) ==>
            var last := SlotIndexes(slots, width, n)[i];
            0 <= last < n && slots[last] == Some(i) && forall c :: last < c < n ==> slots[c] != Some(i)
  {
    if n > 0 {
      SlotIndexesMeaning(slots, width, n - 1, i);
      if slots[n - 1] != Some(i) {
        assert SlotIndexes(slots, width, n)[i] == SlotIndexes(slots, width, n - 1)[i];
        if exists c :: 0 <= c < n && slots[c] == Some(i) {
          var c :| 0 <= c < n && slots[c] == Some(i);
          assert c < n - 1;
        }
      }
    }
  }

  /** `propertyMap` after the first `n` fields: each field that no argument takes, to the property that takes it. */
  function SlotMap(constructorSlots: seq<Option<nat>>, propertySlots: seq<Option<nat>>, n: nat): map<nat, nat>
    requires n <= |constructorSlots| && n <= |propertySlots|
  {
    map c: nat | c < n && constructorSlots[c].None? && propertySlots[c].Some? :: propertySlots[c].value
  }

  /** How `propertyMap` grows by one field: a `put` exactly when no argument and some property takes it. */
  lemma SlotMapStep(constructorSlots: seq<Option<nat>>, propertySlots: seq<Option<nat>>, n: nat)
    requires n < |constructorSlots| && n < |propertySlots|
    ensures SlotMap(constructorSlots, propertySlots, n + 1) ==
            if constructorSlots[n].None? && propertySlots[n].Some?
            then SlotMap(constructorSlots, propertySlots, n)[n := propertySlots[n].value]
            else SlotMap(constructorSlots, propertySlots, n)
  {
  }

  /** `constructorIndexes` as `build` leaves it. */
  function ConstructorIndexes(fields: RecordType, arguments: seq<Argument>, assignable: Assignability): seq<int> {
    SlotIndexes(ConstructorSlots(fields, arguments, assignable), |arguments|, |fields|)
  }

  /** `propertyMap` as `build` leaves it. */
  function PropertyMap(fields: RecordType, arguments: seq<Argument>, properties: seq<BeanProperty>,
                       assignable: Assignability): map<nat, nat>
  {
    SlotMap(ConstructorSlots(fields, arguments, assignable), PropertySlots(fields, properties, assignable), |fields|)
  }

  /** Field `c` goes to constructor slot `i`. */
  predicate BindsSlot(fields: RecordType, arguments: seq<Argument>, assignable: Assignability, c: nat, i: nat)
    requires c < |fields|
  {
    ConstructorSlot(arguments, fields[c], assignable) == Some(i)
  }

  /**
   * Slot `i` of `constructorIndexes` holds the LAST field that goes to it (a
   * later field overwrites an earlier one), or 0 when no field does.
   */
  lemma ConstructorIndexesMeaning(fields: RecordType, arguments: seq<Argument>, assignable: Assignability, i: nat)
    requires i < |arguments|
    ensures |ConstructorIndexes(fields, arguments, assignable)| == |arguments|
    ensures (forall c :: 0 <= c < |fields| ==> !BindsSlot(fields, arguments, assignable, c, i)) ==>
            ConstructorIndexes(fields, arguments, assignable)[i] == 0
    ensures (exists c :: 0 <= c < |fields| && BindsSlot(fields, arguments, assignable, c, i)) ==>
            var last := ConstructorIndexes(fields, arguments, assignable)[i];
            0 <= last < |fields| && BindsSlot(fields, arguments, assignable, last, i) &&
            forall c :: last < c < |fields| ==> !BindsSlot(fields, arguments, assignable, c, i)
  {
    var slots := ConstructorSlots(fields, arguments, assignable);
    SlotIndexesMeaning(slots, |arguments|, |fields|, i);
    forall c | 0 <= c < |fields|
      ensures slots[c] == Some(i) <==> BindsSlot(fields, arguments, assignable, c, i)
    {
      ConstructorSlotsAt(fields, arguments, assignable, c);
    }
  }

  /**
   * Field `c` is in `propertyMap` iff no constructor argument accepts it and some
   * property does; it is then bound to the first property that accepts it.
   */
  lemma PropertyMapMeaning(fields: RecordType, arguments: seq<Argument>, properties: seq<BeanProperty>,
                           assignable: Assignability, c: nat)
    requires c < |fields|
    ensures var m := PropertyMap(fields, arguments, properties, assignable);
            (c in m <==>
              (forall i :: 0 <= i < |arguments| ==> !ArgumentAccepts(arguments[i], fields[c], assignable)) &&
              (exists k :: 0 <= k < |properties| && PropertyAccepts(properties[k], fields[c], assignable))) &&
            (c in m ==>
              m[c] < |properties| && PropertyAccepts(properties[m[c]], fields[c], assignable) &&
              forall k :: 0 <= k < m[c] ==> !PropertyAccepts(properties[k], fields[c], assignable))
  {
    var cs := ConstructorSlot(arguments, fields[c], assignable);
    var ps := PropertySlot(properties, fields[c], assignable);
    ConstructorSlotsAt(fields, arguments, assignable, c);
    PropertySlotsAt(fields, properties, assignable, c);
    ConstructorSlotMeaning(arguments, fields[c], assignable);
    PropertySlotMeaning(properties, fields[c], assignable);
  }

  /**
   * A field goes to at most one destination. A field in `propertyMap` appears in
   * `constructorIndexes` only as the default 0 of a slot that no field goes to.
   */
  lemma ColumnBindsAtMostOnce(fields: RecordType, arguments: seq<Argument>, properties: seq<BeanProperty>,
                              assignable: Assignability, c: nat, i: nat)
    requires c < |fields| && i < |arguments|
    requires c in PropertyMap(fields, arguments, properties, assignable)
    requires ConstructorIndexes(fields, arguments, assignable)[i] == c
    ensures c == 0
    ensures forall d :: 0 <= d < |fields| ==> !BindsSlot(fields, arguments, assignable, d, i)
  {
    ConstructorIndexesMeaning(fields, arguments, assignable, i);
    ConstructorSlotsAt(fields, arguments, assignable, c);
  }

  /** A field goes to the first constructor argument that accepts it. */
  lemma FirstAcceptingArgumentBinds(fields: RecordType, arguments: seq<Argument>, assignable: Assignability, c: nat, i: nat)
    requires c < |fields| && i < |arguments|
    requires ArgumentAccepts(arguments[i], fields[c], assignable)
    requires forall j :: 0 <= j < i ==> !ArgumentAccepts(arguments[j], fields[c], assignable)
    ensures BindsSlot(fields, arguments, assignable, c, i)
  {
    FirstIndexIs(arguments, a => ArgumentAccepts(a, fields[c], assignable), i);
  }

  /** A field that goes to a constructor slot is never in `propertyMap`. */
  lemma BoundFieldNotInPropertyMap(fields: RecordType, arguments: seq<Argument>, properties: seq<BeanProperty>,
                                   assignable: Assignability, c: nat, i: nat)
    requires c < |fields| && i < |arguments|
    requires BindsSlot(fields, arguments, assignable, c, i)
    ensures c !in PropertyMap(fields, arguments, properties, assignable)
  {
    ConstructorSlotsAt(fields, arguments, assignable, c);
  }

  /** A field that goes to slot `i` holds it when no later field goes there. */
  lemma LastBoundFieldHoldsSlot(fields: RecordType, arguments: seq<Argument>, assignable: Assignability, c: nat, i: nat)
    requires c < |fields| && i < |arguments|
    requires BindsSlot(fields, arguments, assignable, c, i)
    requires forall d :: c < d < |fields| ==> !BindsSlot(fields, arguments, assignable, d, i)
    ensures ConstructorIndexes(fields, arguments, assignable)[i] == c
  {
    ConstructorIndexesMeaning(fields, arguments, assignable, i);
  }

  /**
   * The constructor wins: a field that some constructor argument accepts is never
   * in `propertyMap`, whatever properties accept it, and the first argument that
   * accepts it holds it unless a later field also goes there.
   */
  lemma ConstructorBeforeProperties(fields: RecordType, arguments: seq<Argument>, properties: seq<BeanProperty>,
                                    assignable: Assignability, c: nat, i: nat)
    requires c < |fields| && i < |arguments|
    requires ArgumentAccepts(arguments[i], fields[c], assignable)
    requires forall j :: 0 <= j < i ==> !ArgumentAccepts(arguments[j], fields[c], assignable)
    ensures c !in PropertyMap(fields, arguments, properties, assignable)
    ensures BindsSlot(fields, arguments, assignable, c, i)
    ensures (forall d :: c < d < |fields| ==> !BindsSlot(fields, arguments, assignable, d, i)) ==>
            ConstructorIndexes(fields, arguments, assignable)[i] == c
  {
    FirstAcceptingArgumentBinds(fields, arguments, assignable, c, i);
    BoundFieldNotInPropertyMap(fields, arguments, properties, assignable, c, i);
    if forall d :: c < d < |fields| ==> !BindsSlot(fields, arguments, assignable, d, i) {
      LastBoundFieldHoldsSlot(fields, arguments, assignable, c, i);
    }
  }

  /** A mapper as `build` returns it: the lambda and what it captures. */
  datatype RecordMapper = RecordMapper(
    recordType: RecordType,
    beanType: TypeTag,
    bean: BeanIntrospection,
    constructorIndexes: seq<int>,
    propertyMap: map<nat, nat>,
    fallbackProvider: Option<MapperFallbackProvider>)

  /** `fallbackProvider.provide(recordType, type).map(record)`; providing may throw as well as mapping. */
  type MapperFallbackProvider = (RecordType, TypeTag, Record) -> Outcome<Value>

  /** What `build` returns for a record type and a bean class. */
  function Plan(recordType: RecordType, beanType: TypeTag, introspector: Introspector,
                assignable: Assignability, fallbackProvider: Option<MapperFallbackProvider>): Outcome<RecordMapper>
  {
    match GetIntrospection(introspector, beanType)
    case Thrown(e) => Thrown(e)
    case Ok(bean) =>
      var arguments := bean.constructorArguments;
      Ok(RecordMapper(recordType, beanType, bean,
                      ConstructorIndexes(recordType, arguments, assignable),
                      PropertyMap(recordType, arguments, bean.beanProperties, assignable),
                      fallbackProvider))
  }

  /** The shape every planned mapper has: one index per argument, in range or 0, and `propertyMap` keyed by fields. */
  predicate WellFormed(m: RecordMapper) {
    |m.constructorIndexes| == |m.bean.constructorArguments| &&
    (forall i :: 0 <= i < |m.constructorIndexes| ==>
       0 <= m.constructorIndexes[i] && (m.constructorIndexes[i] < |m.recordType| || m.constructorIndexes[i] == 0)) &&
    (forall c :: c in m.propertyMap ==> c < |m.recordType|)
  }

  lemma PlanIsWellFormed(recordType: RecordType, beanType: TypeTag, introspector: Introspector,
                         assignable: Assignability, fallbackProvider: Option<MapperFallbackProvider>)
    ensures var r := Plan(recordType, beanType, introspector, assignable, fallbackProvider);
            r.Thrown? <==> introspector(beanType).None?
    ensures var r := Plan(recordType, beanType, introspector, assignable, fallbackProvider);
            r.Ok? ==> WellFormed(r.value) && r.value.bean == introspector(beanType).value
  {
    var r := Plan(recordType, beanType, introspector, assignable, fallbackProvider);
    if r.Ok? {
      var m := r.value;
      forall i | 0 <= i < |m.constructorIndexes|
        ensures 0 <= m.constructorIndexes[i] && (m.constructorIndexes[i] < |m.recordType| || m.constructorIndexes[i] == 0)
      {
        ConstructorIndexesMeaning(recordType, m.bean.constructorArguments, assignable, i);
      }
    }
  }

  /**
   * The argument loop of `build`: the first constructor argument, in declaration
   * order, whose name matches the field's raw or normalised name and whose class
   * is assignable from the field's.
   */
  method FindArgument(arguments: seq<Argument>, field: Field, normalized: string, assignable: Assignability)
    returns (slot: Option<nat>)
    requires normalized == Normalize(field.name)
    ensures slot == ConstructorSlot(arguments, field, assignable)
  {
    for i := 0 to |arguments|
      invariant forall j :: 0 <= j < i ==> !ArgumentAccepts(arguments[j], field, assignable)
    {
      var argument := arguments[i];
      var name := argument.name;
      if (EqualsIgnoreCase(name, field.name) || EqualsIgnoreCase(name, normalized)) &&
         assignable(argument.argumentType, field.fieldType)
      {
        FirstIndexIs(arguments, a => ArgumentAccepts(a, field, assignable), i);
        return Some(i);
      }
    }
    FirstIndexNone(arguments, a => ArgumentAccepts(a, field, assignable));
    return None;
  }

  /**
   * The property loop of `build`: the first property, in collection order, that is
   * not read-only, whose class is assignable from the field's and whose name
   * matches the field's raw or normalised name.
   */
  method FindProperty(properties: seq<BeanProperty>, field: Field, normalized: string, assignable: Assignability)
    returns (slot: Option<nat>)
    requires normalized == Normalize(field.name)
    ensures slot == PropertySlot(properties, field, assignable)
  {
    for k := 0 to |properties|
      invariant forall j :: 0 <= j < k ==> !PropertyAccepts(properties[j], field, assignable)
    {
      var property := properties[k];
      var name := property.name;
      if !property.readOnly && assignable(property.propertyType, field.fieldType) &&
         (EqualsIgnoreCase(name, field.name) || EqualsIgnoreCase(name, normalized))
      {
        FirstIndexIs(properties, p => PropertyAccepts(p, field, assignable), k);
        return Some(k);
      }
    }
    FirstIndexNone(properties, p => PropertyAccepts(p, field, assignable));
    return None;
  }

  /**
   * The field loop of `build` (`fieldsLoop`): for each field, in order, the first
   * accepting constructor argument gets the field's index in
   * `constructorIndexes`; failing that, the first accepting property gets the
   * field in `propertyMap`. The slots are what those scans find.
   */
  method PlanFields(fields: RecordType, arguments: seq<Argument>, properties: seq<BeanProperty>,
                    assignable: Assignability, ghost constructorSlots: seq<Option<nat>>,
                    ghost propertySlots: seq<Option<nat>>)
    returns (constructorIndexes: seq<int>, propertyMap: map<nat, nat>)
    requires constructorSlots == ConstructorSlots(fields, arguments, assignable)
    requires propertySlots == PropertySlots(fields, properties, assignable)
    ensures constructorIndexes == SlotIndexes(constructorSlots, |arguments|, |fields|)
    ensures propertyMap == SlotMap(constructorSlots, propertySlots, |fields|)
  {
    propertyMap := map[];
    var indexes := new int[|arguments|](_ => 0);
    assert indexes[..] == SlotIndexes(constructorSlots, |arguments|, 0);
    for fieldIndex := 0 to |fields|
      invariant indexes[..] == SlotIndexes(constructorSlots, |arguments|, fieldIndex)
      invariant propertyMap == SlotMap(constructorSlots, propertySlots, fieldIndex)
    {
      var field := fields[fieldIndex];
      var normalized := Normalize(field.name);
      SlotMapStep(constructorSlots, propertySlots, fieldIndex);
      SlotIndexesStep(constructorSlots, |arguments|, fieldIndex);
      ConstructorSlotsAt(fields, arguments, assignable, fieldIndex);
      var argumentSlot := FindArgument(arguments, field, normalized, assignable);
      if argumentSlot.Some? {
        ghost var before := indexes[..];
        indexes[argumentSlot.value] := fieldIndex;
        assert indexes[..] == before[argumentSlot.value := fieldIndex];
        continue;
      }
      PropertySlotsAt(fields, properties, assignable, fieldIndex);
      var propertySlot := FindProperty(properties, field, normalized, assignable);
      if propertySlot.Some? {
        propertyMap := propertyMap[fieldIndex := propertySlot.value];
      }
    }
    constructorIndexes := indexes[..];
  }

  /** `build`: the introspection, then the field loop. */
  method Build(recordType: RecordType, beanType: TypeTag, introspector: Introspector,
               assignable: Assignability, fallbackProvider: Option<MapperFallbackProvider>)
    returns (r: Outcome<RecordMapper>)
    ensures r == Plan(recordType, beanType, introspector, assignable, fallbackProvider)
  {
    var introspection := GetIntrospection(introspector, beanType);
    if introspection.Thrown? {
      return Thrown(introspection.exception);
    }
    var bean := introspection.value;
    var arguments := bean.constructorArguments;
    var properties := bean.beanProperties;
    var constructorIndexes, propertyMap :=
      PlanFields(recordType, arguments, properties, assignable,
                 ConstructorSlots(recordType, arguments, assignable), PropertySlots(recordType, properties, assignable));
    r := Ok(RecordMapper(recordType, beanType, bean, constructorIndexes, propertyMap, fallbackProvider));
  }

  // ---------------------------------------------------------------------------
  // Mapping (the lambda that `build` returns)
  // ---------------------------------------------------------------------------

  /**
   * The first `n` constructor arguments, as the argument loop of the lambda fills
   * `args`: slot `i` takes the value at field `constructorIndexes[i]`, and an
   * index past the last field throws `ArrayIndexOutOfBoundsException`.
   */
  function Arguments(m: RecordMapper, record: Record, n: nat): Outcome<seq<Value>>
    requires n <= |m.constructorIndexes| && |record| == |m.recordType|
  {
    if n == 0 then Ok([])
    else match Arguments(m, record, n - 1)
      case Thrown(e) => Thrown(e)
      case Ok(args) =>
        var fieldIndex := m.constructorIndexes[n - 1];
        if fieldIndex < 0 then Ok(args + [Null])
        else if fieldIndex >= |m.recordType| then Thrown(ArrayIndexOutOfBoundsException(fieldIndex))
        else Ok(args + [GetValue(record, fieldIndex)])
  }

  /**
   * The arguments are all there iff every index names a field; slot `i` then
   * holds the value at field `constructorIndexes[i]`. Otherwise the exception
   * names the first index that does not.
   */
  lemma {:induction false} ArgumentsMeaning(m: RecordMapper, record: Record, n: nat)
    requires n <= |m.constructorIndexes| && |record| == |m.recordType|
    requires forall i :: 0 <= i < n ==> 0 <= m.constructorIndexes[i]
    ensures Arguments(m, record, n).Ok? <==> forall i :: 0 <= i < n ==> m.constructorIndexes[i] < |m.recordType|
    ensures Arguments(m, record, n).Ok? ==>
            var args := Arguments(m, record, n).value;
            |args| == n && forall i :: 0 <= i < n ==> args[i] == GetValue(record, m.constructorIndexes[i])
    ensures Arguments(m, record, n).Thrown? ==>
            exists i :: 0 <= i < n && m.constructorIndexes[i] >= |m.recordType| &&
                        (forall j :: 0 <= j < i ==> m.constructorIndexes[j] < |m.recordType|) &&
                        Arguments(m, record, n).exception == ArrayIndexOutOfBoundsException(m.constructorIndexes[i])
  {
    if n > 0 {
      ArgumentsMeaning(m, record, n - 1);
      if Arguments(m, record, n - 1).Thrown? {
        var i :| 0 <= i < n - 1 && m.constructorIndexes[i] >= |m.recordType| &&
                 (forall j :: 0 <= j < i ==> m.constructorIndexes[j] < |m.recordType|) &&
                 Arguments(m, record, n - 1).exception == ArrayIndexOutOfBoundsException(m.constructorIndexes[i]);
        assert Arguments(m, record, n) == Arguments(m, record, n - 1);
      }
    }
  }

  /** Once the argument loop has thrown, the later slots do not change the outcome. */
  lemma {:induction false} ArgumentsThrownSticks(m: RecordMapper, record: Record, i: nat, n: nat)
    requires i <= n <= |m.constructorIndexes| && |record| == |m.recordType|
    requires Arguments(m, record, i).Thrown?
    ensures Arguments(m, record, n) == Arguments(m, record, i)
  {
    if i < n {
      ArgumentsThrownSticks(m, record, i, n - 1);
    }
  }

  /** The lambda's loop over the `args` array. */
  method ConstructorArguments(m: RecordMapper, record: Record) returns (r: Outcome<seq<Value>>)
    requires |record| == |m.recordType|
    ensures r == Arguments(m, record, |m.constructorIndexes|)
  {
    var args := new Value[|m.constructorIndexes|](_ => Null);
    for i := 0 to args.Length
      invariant Arguments(m, record, i) == Ok(args[..i])
      invariant forall j :: i <= j < args.Length ==> args[j] == Null
    {
      ghost var done := args[..i];
      var fieldIndex := m.constructorIndexes[i];
      if fieldIndex >= 0 {
        if fieldIndex >= |m.recordType| {
          ArgumentsThrownSticks(m, record, i + 1, args.Length);
          return Thrown(ArrayIndexOutOfBoundsException(fieldIndex));
        }
        args[i] := GetValue(record, fieldIndex);
      }
      assert args[..i] == done;
      assert args[..i + 1] == done + [args[i]];
    }
    assert args[..] == args[..args.Length];
    r := Ok(args[..]);
  }

  /**
   * The lambda's setters, over the first `n` fields in ascending order:
   * each field in `propertyMap` writes its value into its property.
   */
  function SetProperties(m: RecordMapper, record: Record, bean: Value, n: nat): Outcome<Value>
    requires n <= |m.recordType| && |record| == |m.recordType|
  {
    if n == 0 then Ok(bean)
    else match SetProperties(m, record, bean, n - 1)
      case Thrown(e) => Thrown(e)
      case Ok(b) =>
        if n - 1 in m.propertyMap then m.bean.setProperty(m.propertyMap[n - 1], b, GetValue(record, n - 1))
        else Ok(b)
  }

  /** Once a setter has thrown, the later fields do not change the outcome. */
  lemma {:induction false} SetPropertiesThrownSticks(m: RecordMapper, record: Record, bean: Value, i: nat, n: nat)
    requires i <= n <= |m.recordType| && |record| == |m.recordType|
    requires SetProperties(m, record, bean, i).Thrown?
    ensures SetProperties(m, record, bean, n) == SetProperties(m, record, bean, i)
  {
    if i < n {
      SetPropertiesThrownSticks(m, record, bean, i, n - 1);
    }
  }

  /** With no field of the first `n` in `propertyMap`, no setter runs and the bean is returned as constructed. */
  lemma {:induction false} NoSetterWithoutBinding(m: RecordMapper, record: Record, bean: Value, n: nat)
    requires n <= |m.recordType| && |record| == |m.recordType|
    requires forall c :: 0 <= c < n ==> c !in m.propertyMap
    ensures SetProperties(m, record, bean, n) == Ok(bean)
  {
    if n > 0 {
      NoSetterWithoutBinding(m, record, bean, n - 1);
    }
  }

  /** The lambda's loop over the `propertyMap` entries. */
  method ApplySetters(m: RecordMapper, record: Record, bean: Value) returns (r: Outcome<Value>)
    requires |record| == |m.recordType|
    ensures r == SetProperties(m, record, bean, |m.recordType|)
  {
    var current := bean;
    for c := 0 to |m.recordType|
      invariant SetProperties(m, record, bean, c) == Ok(current)
    {
      if c in m.propertyMap {
        var written := m.bean.setProperty(m.propertyMap[c], current, GetValue(record, c));
        if written.Thrown? {
          SetPropertiesThrownSticks(m, record, bean, c + 1, |m.recordType|);
          return written;
        }
        current := written.value;
      }
    }
    r := Ok(current);
  }

  /** The bean once constructed: the setters run on it, unless construction threw. */
  function Populate(m: RecordMapper, record: Record, instance: Outcome<Value>): Outcome<Value>
    requires |record| == |m.recordType|
  {
    match instance
    case Thrown(e) => Thrown(e)
    case Ok(b) => SetProperties(m, record, b, |m.recordType|)
  }

  /**
   * The lambda's `try` block: the constructor taking arguments when the
   * bean's constructor has any, the no-argument one otherwise; then the setters.
   */
  function Attempt(m: RecordMapper, record: Record): Outcome<Value>
    requires |record| == |m.recordType|
  {
    var instance :=
      if |m.constructorIndexes| > 0 then
        match Arguments(m, record, |m.constructorIndexes|)
        case Thrown(e) => Thrown(e)
        case Ok(args) => m.bean.instantiateWith(args)
      else m.bean.instantiate;
    Populate(m, record, instance)
  }

  /**
   * Which constructor runs depends only on whether the constructor has arguments,
   * not on whether any field was bound to one: with no field bound, a planned
   * mapper over a non-empty record type still calls the argument constructor,
   * with field 0's value in every slot; over an empty record type it throws
   * `ArrayIndexOutOfBoundsException` for index 0 instead.
   */
  lemma ConstructorChoice(m: RecordMapper, record: Record, assignable: Assignability)
    requires |record| == |m.recordType|
    requires m.constructorIndexes == ConstructorIndexes(m.recordType, m.bean.constructorArguments, assignable)
    ensures |m.constructorIndexes| == 0 ==> Attempt(m, record) == Populate(m, record, m.bean.instantiate)
    ensures |m.constructorIndexes| > 0 && |m.recordType| == 0 ==>
            Attempt(m, record) == Thrown(ArrayIndexOutOfBoundsException(0))
    ensures |m.constructorIndexes| > 0 && |m.recordType| > 0 &&
            (forall c, i :: 0 <= c < |m.recordType| && 0 <= i < |m.constructorIndexes| ==>
               !BindsSlot(m.recordType, m.bean.constructorArguments, assignable, c, i)) ==>
            Attempt(m, record) ==
            Populate(m, record, m.bean.instantiateWith(seq(|m.constructorIndexes|, _ => GetValue(record, 0))))
  {
    var arguments := m.bean.constructorArguments;
    var n := |m.constructorIndexes|;
    forall i | 0 <= i < n
      ensures 0 <= m.constructorIndexes[i] && (m.constructorIndexes[i] < |m.recordType| || m.constructorIndexes[i] == 0)
    {
      ConstructorIndexesMeaning(m.recordType, arguments, assignable, i);
    }
    ArgumentsMeaning(m, record, n);
    if n > 0 && |m.recordType| == 0 {
      var i :| 0 <= i < n && m.constructorIndexes[i] >= |m.recordType| &&
               (forall j :: 0 <= j < i ==> m.constructorIndexes[j] < |m.recordType|) &&
               Arguments(m, record, n).exception == ArrayIndexOutOfBoundsException(m.constructorIndexes[i]);
      assert m.constructorIndexes[i] == 0;
    }
    if n > 0 && |m.recordType| > 0 &&
       (forall c, i :: 0 <= c < |m.recordType| && 0 <= i < n ==> !BindsSlot(m.recordType, arguments, assignable, c, i))
    {
      var args := Arguments(m, record, n).value;
      forall i | 0 <= i < n ensures args[i] == GetValue(record, 0) {
        ConstructorIndexesMeaning(m.recordType, arguments, assignable, i);
      }
      assert args == seq(n, _ => GetValue(record, 0));
    }
  }

  /**
   * A constructor slot of a planned mapper holds the value of the last field
   * bound to it, and the value of field 0 when no field is bound to it.
   */
  lemma ArgumentsOfPlan(m: RecordMapper, record: Record, assignable: Assignability, i: nat)
    requires |record| == |m.recordType| > 0
    requires m.constructorIndexes == ConstructorIndexes(m.recordType, m.bean.constructorArguments, assignable)
    requires i < |m.constructorIndexes|
    ensures Arguments(m, record, |m.constructorIndexes|).Ok?
    ensures |Arguments(m, record, |m.constructorIndexes|).value| == |m.constructorIndexes|
    ensures var value := Arguments(m, record, |m.constructorIndexes|).value[i];
            ((forall c :: 0 <= c < |m.recordType| ==> !BindsSlot(m.recordType, m.bean.constructorArguments, assignable, c, i)) ==>
               value == GetValue(record, 0)) &&
            ((exists c :: 0 <= c < |m.recordType| && BindsSlot(m.recordType, m.bean.constructorArguments, assignable, c, i)) ==>
               exists c :: 0 <= c < |m.recordType| && BindsSlot(m.recordType, m.bean.constructorArguments, assignable, c, i) &&
                 value == GetValue(record, c) &&
                 forall d :: c < d < |m.recordType| ==> !BindsSlot(m.recordType, m.bean.constructorArguments, assignable, d, i))
  {
    var n := |m.constructorIndexes|;
    forall j | 0 <= j < n
      ensures 0 <= m.constructorIndexes[j] < |m.recordType|
    {
      ConstructorIndexesMeaning(m.recordType, m.bean.constructorArguments, assignable, j);
    }
    ArgumentsMeaning(m, record, n);
    ConstructorIndexesMeaning(m.recordType, m.bean.constructorArguments, assignable, i);
  }

  /**
   * The lambda's `catch` block: the fallback's bean if there is a
   * fallback and it succeeds; otherwise the original exception, unchanged,
   * never the fallback's.
   */
  function Recover(m: RecordMapper, record: Record, attempt: Outcome<Value>): (r: Outcome<Value>)
    ensures attempt.Ok? ==> r == attempt
    ensures r.Thrown? ==> r == attempt
    ensures attempt.Thrown? && m.fallbackProvider.Some? &&
            m.fallbackProvider.value(m.recordType, m.beanType, record).Ok? ==>
            r == m.fallbackProvider.value(m.recordType, m.beanType, record)
    ensures attempt.Thrown? && (m.fallbackProvider.None? || m.fallbackProvider.value(m.recordType, m.beanType, record).Thrown?) ==>
            r == attempt
  {
    match attempt
    case Ok(_) => attempt
    case Thrown(e) =>
      match m.fallbackProvider
      case None => attempt
      case Some(fallback) =>
        match fallback(m.recordType, m.beanType, record)
        case Ok(bean) => Ok(bean)
        case Thrown(_) => attempt
  }

  /** The `try` block: constructing the bean and setting its properties. */
  method Instantiate(m: RecordMapper, record: Record) returns (r: Outcome<Value>)
    requires |record| == |m.recordType|
    ensures r == Attempt(m, record)
  {
    var instance: Outcome<Value>;
    if |m.constructorIndexes| > 0 {
      var args := ConstructorArguments(m, record);
      if args.Thrown? {
        return Thrown(args.exception);
      }
      instance := m.bean.instantiateWith(args.value);
    } else {
      instance := m.bean.instantiate;
    }
    if instance.Thrown? {
      return instance;
    }
    r := ApplySetters(m, record, instance.value);
  }

  /** `RecordMapper.map`: the lambda returned by `build`. */
  method Map(m: RecordMapper, record: Record) returns (r: Outcome<Value>)
    requires |record| == |m.recordType|
    ensures r == Recover(m, record, Attempt(m, record))
  {
    var attempt := Instantiate(m, record);
    if attempt.Ok? {
      return attempt;
    }
    if m.fallbackProvider.Some? {
      var fallback := m.fallbackProvider.value(m.recordType, m.beanType, record);
      if fallback.Ok? {
        return fallback;
      }
    }
    r := attempt;
  }

  // ---------------------------------------------------------------------------
  // The provider and its cache (`provide`)
  // ---------------------------------------------------------------------------

  /** The static `cache`: one object, shared by every provider that is given it. */
  class MapperCache {
    var entries: map<Pair.Pair, RecordMapper>

    constructor ()
      ensures entries == map[]
    {
      entries := map[];
    }
  }

  /** A `JooqIntrospectionMapper`: the `RecordMapperProvider`. */
  class Provider {
    const configuration: Configuration
    const fallbackProvider: Option<MapperFallbackProvider>
    const introspector: Introspector
    const assignable: Assignability
    const cache: MapperCache

    constructor (configuration: Configuration, fallbackProvider: Option<MapperFallbackProvider>,
                 introspector: Introspector, assignable: Assignability, cache: MapperCache)
      ensures this.configuration == configuration && this.fallbackProvider == fallbackProvider
      ensures this.introspector == introspector && this.assignable == assignable && this.cache == cache
    {
      this.configuration := configuration;
      this.fallbackProvider := fallbackProvider;
      this.introspector := introspector;
      this.assignable := assignable;
      this.cache := cache;
    }

    /**
     * `provide`: with caching exactly `TRUE`, the cached mapper for the key if
     * there is one, otherwise a newly built one that is then cached (a build
     * that throws caches nothing); with caching null or false, a new build on
     * every call and the cache left alone.
     */
    method Provide(recordType: RecordType, beanType: TypeTag) returns (r: Outcome<RecordMapper>)
      modifies cache
      ensures var key := Pair.Pair(recordType, beanType);
              var built := Plan(recordType, beanType, introspector, assignable, fallbackProvider);
              if !CachingEnabled(configuration) then
                r == built && cache.entries == old(cache.entries)
              else if key in old(cache.entries) then
                r == Ok(old(cache.entries)[key]) && cache.entries == old(cache.entries)
              else
                r == built &&
                cache.entries == if built.Ok? then old(cache.entries)[key := built.value] else old(cache.entries)
    {
      if CachingEnabled(configuration) {
        var key := Pair.Pair(recordType, beanType);
        if key in cache.entries {
          return Ok(cache.entries[key]);
        }
        r := Build(recordType, beanType, introspector, assignable, fallbackProvider);
        if r.Ok? {
          cache.entries := cache.entries[key := r.value];
        }
      } else {
        r := Build(recordType, beanType, introspector, assignable, fallbackProvider);
      }
    }
  }

  /** The constructor's `Objects.requireNonNull(configuration)`. */
  method NewProvider(configuration: Option<Configuration>, fallbackProvider: Option<MapperFallbackProvider>,
                     introspector: Introspector, assignable: Assignability, cache: MapperCache)
    returns (r: Outcome<Provider>)
    ensures configuration.None? ==> r == Thrown(NullPointerException)
    ensures configuration.Some? ==>
            r.Ok? && fresh(r.value) &&
            r.value.configuration == configuration.value && r.value.fallbackProvider == fallbackProvider &&
            r.value.introspector == introspector && r.value.assignable == assignable && r.value.cache == cache
  {
    if configuration.None? {
      return Thrown(NullPointerException);
    }
    var p := new Provider(configuration.value, fallbackProvider, introspector, assignable, cache);
    r := Ok(p);
  }
}
