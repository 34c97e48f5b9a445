/**
 * What Micronaut's bean introspection tells the mappers about a bean class: its
 * constructor's arguments, its properties, and how to construct an instance and
 * read and write its properties. Construction, reading and writing are the bean's
 * own code and may throw; they are given as functions.
 */
module Micronaut {
  import opened Java

  /** A constructor `Argument`: its name and declared class. */
  datatype Argument = Argument(name: string, argumentType: TypeTag)

  /** A `javax.persistence.Column` annotation, with its `name` member if it has one. */
  datatype ColumnAnnotation = ColumnAnnotation(name: Option<string>)

  /** A `BeanProperty`. */
  datatype BeanProperty = BeanProperty(
    name: string,
    propertyType: TypeTag,
    readOnly: bool,
    writeOnly: bool,
    column: Option<ColumnAnnotation>)

  /**
   * A `BeanIntrospection`. `instantiate` is the no-argument constructor,
   * `instantiateWith` the constructor taking `constructorArguments`;
   * `getProperty(k, bean)` reads property `k` of `bean`, and `setProperty(k, bean, v)` writes
   * `v` into it and gives the updated bean.
   */
  datatype BeanIntrospection = BeanIntrospection(
    constructorArguments: seq<Argument>,
    beanProperties: seq<BeanProperty>,
    instantiate: Outcome<Value>,
    instantiateWith: seq<Value> -> Outcome<Value>,
    getProperty: (nat, Value) -> Outcome<Value>,
    setProperty: (nat, Value, Value) -> Outcome<Value>)

  /**
   * `BeanIntrospector.SHARED.getIntrospection`: `None` where it throws because
   * the class has no introspection.
   */
  type Introspector = TypeTag -> Option<BeanIntrospection>

  /** `getIntrospection` as an outcome. */
  function GetIntrospection(introspector: Introspector, beanType: TypeTag): (r: Outcome<BeanIntrospection>)
    ensures r.Thrown? <==> introspector(beanType).None?
    ensures r.Thrown? ==> r.exception == IntrospectionException(beanType)
    ensures r.Ok? ==> introspector(beanType) == Some(r.value)
  {
    match introspector(beanType)
    case Some(b) => Ok(b)
    case None => Thrown(IntrospectionException(beanType))
  }
}
