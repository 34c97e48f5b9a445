# JooqIntrospectionMapper in Dafny

A model of the record/bean conversion core of JooqIntrospectionMapper. This
library converts jOOQ records into Java beans and back. Micronaut bean
introspection supplies what each bean class looks like: its constructor
arguments and its properties.

- **Record to bean** (`JooqIntrospectionMapper`).
  - `build` plans, once per record type and bean class, where each column goes.
    A column goes to the first constructor argument whose name matches it and
    whose class is assignable from the column's. Failing that, it goes to the
    first writable property that matches in the same way.
  - A name matches when it equals the column's name ignoring case, either as the
    name is or with every `-`, `_`, `.` and whitespace character deleted.
  - The plan is an `int[]` of column indexes, one per constructor argument, and a
    map from column index to property.
  - The mapper it returns fills the argument array, constructs the bean, then
    runs the setters. If any of that throws, it uses the fallback provider. When
    there is no fallback, or the fallback fails too, it rethrows the original
    exception.
- **Bean to record** (`JooqIntrospectionUnMapper`).
  - `build` picks one of three unmappers by the bean class: `ArrayUnMapper` for
    an array class, `MapUnMapper` for a `Map`, and `PojoUnMapper` for anything
    else.
  - The array unmapper copies an `Object[]` by position.
  - The map unmapper copies by exact key.
  - The POJO unmapper matches each column, by its lower-cased name, against a
    table of the readable properties keyed by `Utils.getName`. It reads the bound
    properties into a fresh record and, on failure, uses the fallback or wraps
    the original exception in a `MappingException`.
- **Caching.** Both providers keep what they build in a static map keyed by
  `Pair(recordType, type)`. They do so only when the configuration's
  `cacheRecordMappers` setting is exactly `TRUE`.

## How the model is organised

Each Java class becomes its own module.

- `JooqIntrospectionMapper`, `JooqIntrospectionUnMapper`, `ArrayUnMapper`,
  `MapUnMapper` and `PojoUnMapper` model the classes of the same name.
- `Pair` and `Utils` model those two classes.
- `BaseUnMapper` models the constructor that all three unmappers share.
- `Java`, `JavaStrings`, `Jooq` and `Micronaut` hold what the core uses from the
  Java runtime, jOOQ and Micronaut.

Loops become methods, each proved equal to a specification function:

- planning the fields (`FindArgument`, `FindProperty`, `PlanFields`);
- filling the argument array and running the setters (`ConstructorArguments`,
  `ApplySetters`);
- the two constructor loops of `PojoUnMapper` (`BuildNameTable`, `BindFields`);
- filling a record (`FillRecord` and the array and map `Unmap`s).

The `int[]` and the fresh records are Dafny arrays. Lemmas then prove what those
specification functions mean.

Collaborators are parameters:

- `Class.isAssignableFrom` is an `Assignability` relation.
- `BeanIntrospector.getIntrospection` is an `Introspector` that may have nothing
  for a class.
- A bean's constructors, getters and setters are functions that may throw.
- A fallback provider is a function from the request to an outcome.

Java exceptions are the `Thrown` case of `Outcome`.

The static caches are objects (`MapperCache`, `UnmapperCache`) with a map field.
Every provider that is given the same cache object shares it, as all instances
share the static field.

Behaviour of the code that the model keeps as it is:

- `constructorIndexes` starts as zeros, and its `>= 0` guard always holds. So a
  constructor argument that no column goes to receives column 0's value. Over a
  record type with no columns, the argument loop throws
  `ArrayIndexOutOfBoundsException` (`ConstructorChoice`, `ArgumentsOfPlan`).
- When several columns go to the same constructor argument, the last one wins
  (`ConstructorIndexesMeaning`).
- Only the column's name is normalised, never the argument's or the property's.
- The POJO unmapper lower-cases column names but does not normalise them
  (`ColumnNamesAreOnlyLowerCased`).
- Every unmapper's constructor asks for the introspection. So building even an
  array or map unmapper fails for a class that has no introspection
  (`PlanMeaning`).
- `JooqIntrospectionMapper` declares its own nested `Pair`
  (`JooqIntrospectionMapper.java:34-55`). It is the same as `Pair.java`, and both
  caches use the one `Pair` module.

## Model

| member | source | states |
|---|---|---|
| Java.Wrap32 | src/main/java/io/rwhite226/Pair.java:27 | The `int` result agrees with the exact value modulo 2^32 and equals it when it is in range. |
| JavaStrings.ToLowerCase | src/main/java/io/rwhite226/Utils.java:9 | Each letter `A`..`Z` becomes its own lower case, the letter 32 code points above it; every other character is unchanged. |
| JavaStrings.ToUpperCase | src/main/java/io/rwhite226/JooqIntrospectionMapper.java:104 | Each letter `a`..`z` becomes its own upper case, the letter 32 code points below it; every other character is unchanged. |
| JavaStrings.LowerCase | src/main/java/io/rwhite226/Utils.java:9 | `toLowerCase` keeps the length and lower-cases each character in place. |
| JavaStrings.CharsEqualIgnoringCase | src/main/java/io/rwhite226/JooqIntrospectionMapper.java:104 | Two characters are equal ignoring case iff they lower-case to the same character. |
| JavaStrings.LowerCaseIsLowerCase | src/main/java/io/rwhite226/Utils.java:9 | The result of `toLowerCase` has no upper-case letter, and a string is its own lower case iff it has none. |
| JavaStrings.LowerCaseIdempotent | src/main/java/io/rwhite226/Utils.java:9 | Lower-casing twice is lower-casing once. |
| JavaStrings.EqualsIgnoreCaseIffLowerCaseEqual | src/main/java/io/rwhite226/JooqIntrospectionMapper.java:104 | `equalsIgnoreCase` holds iff both strings lower-case to the same string. |
| JavaStrings.EqualsIgnoreCaseIsEquivalence | src/main/java/io/rwhite226/JooqIntrospectionMapper.java:115 | `equalsIgnoreCase` is reflexive, symmetric and transitive. |
| Jooq.NewRecord | src/main/java/io/rwhite226/unmappers/BaseUnMapper.java:31-33 | `newRecord` gives a record with one entry per field, none of them set. |
| Micronaut.GetIntrospection | src/main/java/io/rwhite226/JooqIntrospectionMapper.java:86 | `getIntrospection` throws `IntrospectionException` for the class exactly when it has no introspection, and otherwise gives that introspection. |
| Pair.HashCode | src/main/java/io/rwhite226/Pair.java:26-28 | The hash is `31 * h(recordType) + h(type)` reduced to a 32-bit `int`. |
| Pair.EqualsMeaning | src/main/java/io/rwhite226/Pair.java:18-23 | `equals` is true iff the argument is a `Pair` whose record type and class both equal this pair's; a non-`Pair` argument gives false. |
| Pair.EqualsIsStructural | src/main/java/io/rwhite226/Pair.java:18-23 | With structural component equality, `equals` is equality of the two pairs, which is how the caches compare keys. |
| Pair.EqualsReflexiveSymmetric | src/main/java/io/rwhite226/Pair.java:18-23 | `equals` is reflexive and symmetric whenever the components' `equals` are. |
| Pair.EqualPairsHaveEqualHashCodes | src/main/java/io/rwhite226/Pair.java:26-28 | Equal pairs have equal hash codes whenever each component's `hashCode` agrees with its `equals`. |
| Utils.GetNameMeaning | src/main/java/io/rwhite226/Utils.java:6-10 | The name is the lower-cased `@Column` name when the annotation has one, and otherwise the lower-cased property name; either way it is lower case and a fixed point of lower-casing. |
| Utils.GetNameDependsOnNames | src/main/java/io/rwhite226/Utils.java:6-10 | Two properties that agree on their own name and their annotation's name get the same name, whatever their class and access. |
| Utils.AnnotationNameIsLowerCased | src/main/java/io/rwhite226/Utils.java:7-9 | A property `fullName` annotated with `USER_NAME` goes by `user_name`. |
| BaseUnMapper.NewBase | src/main/java/io/rwhite226/unmappers/BaseUnMapper.java:17-29 | Constructing an unmapper throws `IntrospectionException` exactly when the class has no introspection; otherwise it keeps the record type, the class, its introspection and the fallback. |
| ArrayUnMapper.Unmap | src/main/java/io/rwhite226/unmappers/ArrayUnMapper.java:19-33 | Null gives null. An `Object[]` gives the fresh record with column `i` set to element `i` for every `i` below both lengths and nothing else set. Any other source, a primitive array included, throws `MappingException`. |
| ArrayUnMapper.CopiedByPositionIsUnique | src/main/java/io/rwhite226/unmappers/ArrayUnMapper.java:23-28 | The positional copy of an array determines the record completely. |
| ArrayUnMapper.ExtraElementsIgnored | src/main/java/io/rwhite226/unmappers/ArrayUnMapper.java:25 | Elements beyond the record's size are ignored, and columns beyond the array's length keep the fresh record's unset value. |
| ArrayUnMapper.ArrayRoundTrip | src/main/java/io/rwhite226/unmappers/ArrayUnMapper.java:23-28 | An array as long as the record type round-trips: the record's values read back are the array, and every column is set. |
| MapUnMapper.Unmap | src/main/java/io/rwhite226/unmappers/MapUnMapper.java:21-35 | Null gives null. A `Map` gives the fresh record with exactly the columns whose name is a key set, to that key's value. Any other source throws `MappingException`. |
| MapUnMapper.OtherKeysIgnored | src/main/java/io/rwhite226/unmappers/MapUnMapper.java:26-31 | Keys that name no column do not affect the record. |
| MapUnMapper.NullEntrySetsColumn | src/main/java/io/rwhite226/unmappers/MapUnMapper.java:29 | A key mapped to null sets its column to null, unlike a column with no key. |
| MapUnMapper.KeysAreCaseSensitive | src/main/java/io/rwhite226/unmappers/MapUnMapper.java:29 | Keys match column names exactly: a key `User_Name` does not set the column `user_name`. |
| PojoUnMapper.LastIndexTable | src/main/java/io/rwhite226/unmappers/PojoUnMapper.java:29-34 | A table filled by successive `put`s holds only indexes of keys already seen. |
| PojoUnMapper.LastIndexTableMeaning | src/main/java/io/rwhite226/unmappers/PojoUnMapper.java:29-34 | After successive `put`s, a key is present iff it was put, and it holds the index of its last `put`. |
| PojoUnMapper.PropertyKeys | src/main/java/io/rwhite226/unmappers/PojoUnMapper.java:30-31 | A write-only property is put under no key; every other property is put under its `Utils.getName`. |
| PojoUnMapper.NameTable | src/main/java/io/rwhite226/unmappers/PojoUnMapper.java:29-34 | Every name in `nameToProperty` refers to one of the properties already visited. |
| PojoUnMapper.NameTableMeaning | src/main/java/io/rwhite226/unmappers/PojoUnMapper.java:29-34 | A name is in `nameToProperty` iff some readable property goes by it, and it then names the last such property. |
| PojoUnMapper.BindingMeaning | src/main/java/io/rwhite226/unmappers/PojoUnMapper.java:35-41 | A column is bound iff the last readable property going by its lower-cased name is assignable to it, and it is bound to that property. An earlier property of the same name is never used, even when the last one is not assignable. |
| PojoUnMapper.BindingStep | src/main/java/io/rwhite226/unmappers/PojoUnMapper.java:37-40 | Each column adds itself to `fieldIndexToProperty` exactly when its lower-cased name is in the table and its class is assignable from the property's. |
| PojoUnMapper.BuildNameTable | src/main/java/io/rwhite226/unmappers/PojoUnMapper.java:28-34 | The first loop leaves `nameToProperty` as the name table of all the properties. |
| PojoUnMapper.BindFields | src/main/java/io/rwhite226/unmappers/PojoUnMapper.java:35-41 | The second loop leaves `fieldIndexToProperty` as the binding of all the columns. |
| PojoUnMapper.New | src/main/java/io/rwhite226/unmappers/PojoUnMapper.java:20-42 | The constructor computes the binding once, and `BindingMeaning` says what it holds. |
| PojoUnMapper.SinglePropertyTable | src/main/java/io/rwhite226/unmappers/PojoUnMapper.java:29-34 | One property gives an empty table if it is write-only, and otherwise a table with just its `getName`. |
| PojoUnMapper.SingleColumnBindingUpTo | src/main/java/io/rwhite226/unmappers/PojoUnMapper.java:35-41 | One column is bound iff its lower-cased name is in the table and the class check passes. |
| PojoUnMapper.SingleColumnBinding | src/main/java/io/rwhite226/unmappers/PojoUnMapper.java:29-41 | One column and one property: the column is bound iff the property is readable, goes by the column's lower-cased name and is assignable to it. |
| PojoUnMapper.ColumnNamesAreOnlyLowerCased | src/main/java/io/rwhite226/unmappers/PojoUnMapper.java:37 | A column `user_name` does not bind a property `userName`, because separators are not stripped. |
| PojoUnMapper.ColumnAnnotationNameBinds | src/main/java/io/rwhite226/unmappers/PojoUnMapper.java:31 | A property `fullName` annotated `@Column(name = "USER_NAME")` binds the column `user_name`. |
| PojoUnMapper.Fill | src/main/java/io/rwhite226/unmappers/PojoUnMapper.java:49-57 | A filled record has one entry per column. |
| PojoUnMapper.FillMeaning | src/main/java/io/rwhite226/unmappers/PojoUnMapper.java:49-57 | The fill succeeds iff every bound column's getter does. The record then holds each bound column's property value and leaves every other column unset. Otherwise it throws the exception of the first bound column whose getter throws. |
| PojoUnMapper.FillThrownSticks | src/main/java/io/rwhite226/unmappers/PojoUnMapper.java:50-56 | Once a getter has thrown, later columns do not change the outcome. |
| PojoUnMapper.FillRecord | src/main/java/io/rwhite226/unmappers/PojoUnMapper.java:49-57 | The in-place loop over a fresh record gives exactly the fill that `FillMeaning` describes. |
| PojoUnMapper.Recover | src/main/java/io/rwhite226/unmappers/PojoUnMapper.java:58-68 | On failure: the fallback's record if there is a fallback and it succeeds; otherwise a `MappingException` whose cause is the original exception, never the fallback's. |
| PojoUnMapper.Unmap | src/main/java/io/rwhite226/unmappers/PojoUnMapper.java:46-69 | Null gives null without touching anything. Any other source is filled and then recovered. |
| JooqIntrospectionMapper.Normalize | src/main/java/io/rwhite226/JooqIntrospectionMapper.java:23 | The normalised name is no longer than the name and contains no separator. |
| JooqIntrospectionMapper.NormalizeConcat | src/main/java/io/rwhite226/JooqIntrospectionMapper.java:98 | Normalisation works character by character: it distributes over concatenation, deletes a single separator and keeps any other single character. |
| JooqIntrospectionMapper.NormalizeKeepsCleanNames | src/main/java/io/rwhite226/JooqIntrospectionMapper.java:98 | A name without separators is its own normal form. |
| JooqIntrospectionMapper.NormalizeIdempotent | src/main/java/io/rwhite226/JooqIntrospectionMapper.java:98 | Normalising twice is normalising once. |
| JooqIntrospectionMapper.NormalizeDropsSeparator | src/main/java/io/rwhite226/JooqIntrospectionMapper.java:98 | A separator after a clean prefix is deleted, and the prefix is kept. |
| JooqIntrospectionMapper.NameMatchesMeaning | src/main/java/io/rwhite226/JooqIntrospectionMapper.java:104 | A name matches a column iff it lower-cases to the lower case of the column's raw or normalised name. |
| JooqIntrospectionMapper.NormalizeUserName | src/main/java/io/rwhite226/JooqIntrospectionMapper.java:98 | `user_name` normalises to `username`. |
| JooqIntrospectionMapper.CamelCaseEqualsIgnoringCase | src/main/java/io/rwhite226/JooqIntrospectionMapper.java:104 | `userName` and `UserName` equal `username` ignoring case. |
| JooqIntrospectionMapper.SnakeCaseFieldMatchesCamelCaseName | src/main/java/io/rwhite226/JooqIntrospectionMapper.java:104 | The column `user_name` matches the names `userName`, `UserName` and `user_name`. |
| JooqIntrospectionMapper.NoPartialOrReversedMatch | src/main/java/io/rwhite226/JooqIntrospectionMapper.java:115 | `identity` does not match the column `id`. Because only the column side is normalised, `user_name` does not match the column `userName`. |
| JooqIntrospectionMapper.FirstIndex | src/main/java/io/rwhite226/JooqIntrospectionMapper.java:101-110 | A scan that stops at the first hit finds an index inside the sequence. |
| JooqIntrospectionMapper.FirstIndexMeaning | src/main/java/io/rwhite226/JooqIntrospectionMapper.java:101-110 | The scan finds an element that accepts, with nothing before it accepting, or finds nothing and nothing accepts. |
| JooqIntrospectionMapper.FirstIndexIs | src/main/java/io/rwhite226/JooqIntrospectionMapper.java:104-108 | The scan stops at an element that accepts when nothing before it does. |
| JooqIntrospectionMapper.FirstIndexNone | src/main/java/io/rwhite226/JooqIntrospectionMapper.java:101-110 | The scan finds nothing when nothing accepts. |
| JooqIntrospectionMapper.ConstructorSlotMeaning | src/main/java/io/rwhite226/JooqIntrospectionMapper.java:101-110 | A column goes to the first constructor argument whose name matches and whose class is assignable from the column's; with no such argument, it goes to none. |
| JooqIntrospectionMapper.PropertySlotMeaning | src/main/java/io/rwhite226/JooqIntrospectionMapper.java:112-120 | The candidate property of a column is the first one that is not read-only, is assignable from the column's class and matches by name; with no such property, there is none. |
| JooqIntrospectionMapper.ConstructorSlots | src/main/java/io/rwhite226/JooqIntrospectionMapper.java:94-110 | There is one constructor slot per column, each naming an existing argument. |
| JooqIntrospectionMapper.ConstructorSlotsAt | src/main/java/io/rwhite226/JooqIntrospectionMapper.java:94-110 | Column `c`'s entry is column `c`'s own constructor slot. |
| JooqIntrospectionMapper.PropertySlots | src/main/java/io/rwhite226/JooqIntrospectionMapper.java:94-120 | There is one property slot per column, each naming an existing property. |
| JooqIntrospectionMapper.PropertySlotsAt | src/main/java/io/rwhite226/JooqIntrospectionMapper.java:94-120 | Column `c`'s entry is column `c`'s own property slot. |
| JooqIntrospectionMapper.SlotIndexes | src/main/java/io/rwhite226/JooqIntrospectionMapper.java:92 | `constructorIndexes` has one entry per constructor argument. |
| JooqIntrospectionMapper.SlotIndexesStep | src/main/java/io/rwhite226/JooqIntrospectionMapper.java:107 | Each column overwrites its constructor slot, if it has one, with its index. |
| JooqIntrospectionMapper.SlotIndexesMeaning | src/main/java/io/rwhite226/JooqIntrospectionMapper.java:92-110 | A slot holds the last column that goes to it, or 0 when none does. |
| JooqIntrospectionMapper.SlotMapStep | src/main/java/io/rwhite226/JooqIntrospectionMapper.java:112-120 | Each column is `put` into `propertyMap` exactly when no argument takes it and some property does. |
| JooqIntrospectionMapper.ConstructorIndexesMeaning | src/main/java/io/rwhite226/JooqIntrospectionMapper.java:92-110 | Entry `i` of the planned `constructorIndexes` is the last column that goes to argument `i`, a later column overwriting an earlier one, or 0 when no column does. |
| JooqIntrospectionMapper.PropertyMapMeaning | src/main/java/io/rwhite226/JooqIntrospectionMapper.java:101-120 | A column is in `propertyMap` iff no constructor argument accepts it and some property does; it then maps to the first property that accepts it. |
| JooqIntrospectionMapper.ColumnBindsAtMostOnce | src/main/java/io/rwhite226/JooqIntrospectionMapper.java:107-118 | A column in `propertyMap` appears in `constructorIndexes` only as the default 0 of a slot that no column goes to. |
| JooqIntrospectionMapper.FirstAcceptingArgumentBinds | src/main/java/io/rwhite226/JooqIntrospectionMapper.java:101-108 | A column goes to the first constructor argument that accepts it. |
| JooqIntrospectionMapper.BoundFieldNotInPropertyMap | src/main/java/io/rwhite226/JooqIntrospectionMapper.java:108 | A column that goes to a constructor argument is never in `propertyMap`. |
| JooqIntrospectionMapper.LastBoundFieldHoldsSlot | src/main/java/io/rwhite226/JooqIntrospectionMapper.java:94-107 | A column that goes to slot `i` holds it when no later column goes there. |
| JooqIntrospectionMapper.ConstructorBeforeProperties | src/main/java/io/rwhite226/JooqIntrospectionMapper.java:101-120 | The constructor wins: a column that some argument accepts is never in `propertyMap`. The first accepting argument holds it unless a later column also goes there. |
| JooqIntrospectionMapper.PlanIsWellFormed | src/main/java/io/rwhite226/JooqIntrospectionMapper.java:84-121 | `build` throws exactly when the class has no introspection. Otherwise every constructor index is a column index or the default 0, and every key of `propertyMap` is a column index. |
| JooqIntrospectionMapper.FindArgument | src/main/java/io/rwhite226/JooqIntrospectionMapper.java:101-110 | The argument loop finds the column's constructor slot as `ConstructorSlotMeaning` describes it. |
| JooqIntrospectionMapper.FindProperty | src/main/java/io/rwhite226/JooqIntrospectionMapper.java:112-120 | The property loop finds the column's property slot as `PropertySlotMeaning` describes it. |
| JooqIntrospectionMapper.PlanFields | src/main/java/io/rwhite226/JooqIntrospectionMapper.java:92-121 | The field loop, with its labelled `continue`, leaves the `int[]` and the map that `ConstructorIndexesMeaning` and `PropertyMapMeaning` describe. |
| JooqIntrospectionMapper.Build | src/main/java/io/rwhite226/JooqIntrospectionMapper.java:84-121 | `build` gives the plan described by `PlanIsWellFormed`, `ConstructorIndexesMeaning` and `PropertyMapMeaning`, or throws for a class without introspection. |
| JooqIntrospectionMapper.ArgumentsMeaning | src/main/java/io/rwhite226/JooqIntrospectionMapper.java:126-133 | The arguments are all there iff every index names a column; slot `i` then holds the value of column `constructorIndexes[i]`. Otherwise `ArrayIndexOutOfBoundsException` names the first index that does not. |
| JooqIntrospectionMapper.ArgumentsThrownSticks | src/main/java/io/rwhite226/JooqIntrospectionMapper.java:127-133 | Once the argument loop has thrown, later slots do not change the outcome. |
| JooqIntrospectionMapper.ConstructorArguments | src/main/java/io/rwhite226/JooqIntrospectionMapper.java:126-133 | The loop over the `args` array gives exactly the arguments that `ArgumentsMeaning` describes. |
| JooqIntrospectionMapper.SetPropertiesThrownSticks | src/main/java/io/rwhite226/JooqIntrospectionMapper.java:136-139 | Once a setter has thrown, later columns do not change the outcome. |
| JooqIntrospectionMapper.NoSetterWithoutBinding | src/main/java/io/rwhite226/JooqIntrospectionMapper.java:136-139 | With an empty `propertyMap`, no setter runs and the bean is returned as constructed. |
| JooqIntrospectionMapper.ApplySetters | src/main/java/io/rwhite226/JooqIntrospectionMapper.java:136-139 | The setter loop writes each bound column's value into its property, in ascending column order, and stops at the first setter that throws. |
| JooqIntrospectionMapper.ConstructorChoice | src/main/java/io/rwhite226/JooqIntrospectionMapper.java:125-135 | The argument constructor runs iff the constructor has arguments, whether or not any column is bound to them. With none bound it gets column 0's value in every slot. Over a record type with no columns it throws `ArrayIndexOutOfBoundsException(0)`. |
| JooqIntrospectionMapper.ArgumentsOfPlan | src/main/java/io/rwhite226/JooqIntrospectionMapper.java:125-133 | Under a planned mapper, each argument holds the value of the last column bound to it, or of column 0 when none is. |
| JooqIntrospectionMapper.Recover | src/main/java/io/rwhite226/JooqIntrospectionMapper.java:141-150 | On failure: the fallback's bean if there is a fallback and it succeeds; otherwise the original exception, unchanged, never the fallback's. |
| JooqIntrospectionMapper.Instantiate | src/main/java/io/rwhite226/JooqIntrospectionMapper.java:123-140 | The `try` block constructs the bean as `ConstructorChoice` describes and then runs the setters. |
| JooqIntrospectionMapper.Map | src/main/java/io/rwhite226/JooqIntrospectionMapper.java:122-152 | Mapping is the `try` block followed by the recovery that `Recover` describes. |
| JooqIntrospectionMapper.Provider.Provide | src/main/java/io/rwhite226/JooqIntrospectionMapper.java:72-82 | With caching exactly `TRUE`: the cached mapper for an existing key, without building; otherwise a fresh build, stored when it succeeds. With caching null or false: a fresh build and an unchanged cache. |
| JooqIntrospectionMapper.NewProvider | src/main/java/io/rwhite226/JooqIntrospectionMapper.java:57-61 | A null configuration throws `NullPointerException`; otherwise the provider keeps the configuration and the fallback. |
| JooqIntrospectionUnMapper.SelectStrategy | src/main/java/io/rwhite226/JooqIntrospectionUnMapper.java:41-46 | An array class gets the array unmapper, even one assignable to `Map`. A non-array class assignable to `Map` gets the map unmapper. Every other class gets the POJO unmapper. |
| JooqIntrospectionUnMapper.PlanMeaning | src/main/java/io/rwhite226/JooqIntrospectionUnMapper.java:41-46 | Building throws `IntrospectionException` exactly when the class has no introspection, whichever unmapper it would get. Otherwise it gives the selected unmapper over the record type, the class, its introspection and the fallback. |
| JooqIntrospectionUnMapper.Build | src/main/java/io/rwhite226/JooqIntrospectionUnMapper.java:41-46 | `build` gives the unmapper that `PlanMeaning` describes, with the POJO unmapper's constructor loops run. |
| JooqIntrospectionUnMapper.Unmap | src/main/java/io/rwhite226/JooqIntrospectionUnMapper.java:41-46 | Each selected unmapper unmaps as its own `unmap` does. |
| JooqIntrospectionUnMapper.NullSourceGivesNull | src/main/java/io/rwhite226/unmappers/PojoUnMapper.java:47 | Every unmapper gives null for a null source. |
| JooqIntrospectionUnMapper.Provider.Provide | src/main/java/io/rwhite226/JooqIntrospectionUnMapper.java:28-39 | With caching exactly `TRUE`: the cached unmapper for an existing key, without building; otherwise a fresh build, stored when it succeeds. With caching null or false: a fresh build and an unchanged cache. |
| JooqIntrospectionUnMapper.NewProvider | src/main/java/io/rwhite226/JooqIntrospectionUnMapper.java:22-26 | A null configuration throws `NullPointerException`; otherwise the provider keeps the configuration and the fallback. |
| JooqIntrospectionUnMapper.ProvideFromTwoProviders | src/main/java/io/rwhite226/JooqIntrospectionUnMapper.java:16 | The static cache is shared. Once one caching provider has built an unmapper for a key, a second caching provider gets that same unmapper, carrying the first provider's fallback. |

## Left out

- Concurrency: `ConcurrentHashMap.computeIfAbsent` is modelled as a sequential
  lookup followed by a store.
- Logging through slf4j and the text of exception messages.
- Cache keys: both caches compare `Pair` keys by structural equality of the
  modelled record type (its fields' names and classes) and class. Java looks keys
  up through `Pair.equals` and `Pair.hashCode`, which call jOOQ's
  `RecordType.equals` and `Class.equals`. Where jOOQ's equality differs from
  structural equality, Java may share a cache entry that the model keeps apart,
  or the other way round. `Pair.EqualsIsStructural` proves that the two agree
  when the component equalities are structural.
- JavaStrings.LowerCase: `toLowerCase` and `equalsIgnoreCase` fold ASCII
  letters only. Locale- and Unicode-aware case mapping is not modelled.
- JooqIntrospectionMapper.ApplySetters: the setters run in ascending column
  order instead of `HashMap` iteration order. No claim is made about which column
  wins when two columns bind the same property.
- The class hierarchy: `isAssignableFrom` is a parameter relation, and
  `instanceof Object[]` and `instanceof Map` are the `ObjectArray` and
  `MapObject` values.
- MapUnMapper.Unmap: maps are modelled with string keys only. A key of another
  type never equals a column name, so it could only be ignored.
- `record.set` and `record.setValue` are modelled as storing the value as it is.
  jOOQ's data-type conversion, and the exceptions it can throw, are not modelled.
- Duplicate field names in a record type: `recordType.field(field)` is taken to
  be non-null and `setValue` to target the field's own index.
- Micronaut's introspection itself: reading and writing a property, and the
  constructors, are opaque functions that may throw. The bean's contents after a
  setter are whatever that function returns, so nothing is proved about reading
  back what was written.
- `JooqIntrospectionFactory.java` (dependency-injection wiring) is not part of
  this model.
- A primitive array is modelled by its component class and length only; its
  elements play no part, because every unmapper rejects it or ignores them.
- `getRegex()` is overridable in Java; the model uses the fixed pattern of line
  23.
