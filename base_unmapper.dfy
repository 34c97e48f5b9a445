/**
 * What every unmapper's constructor (`BaseUnMapper`) captures: the record type,
 * the bean class, the class's introspection and the fallback provider. Asking for
 * the introspection is where building any unmapper can fail.
 */
module BaseUnMapper {
  import opened Java
  import opened Jooq
  import opened Micronaut

  /**
   * `fallbackProvider.provide(type, recordType).unmap(source)`: a record, or null;
   * providing may throw as well as unmapping.
   */
  type UnmapperFallbackProvider = (TypeTag, RecordType, Value) -> Outcome<Option<Record>>

  /** The fields of `BaseUnMapper`. */
  datatype Base = Base(
    recordType: RecordType,
    beanType: TypeTag,
    bean: BeanIntrospection,
    fallbackProvider: Option<UnmapperFallbackProvider>)

  /**
   * The constructor: it throws exactly when the class has no introspection, and
   * otherwise keeps what it was given together with the introspection.
   */
  function NewBase(recordType: RecordType, beanType: TypeTag, introspector: Introspector,
                   fallbackProvider: Option<UnmapperFallbackProvider>): (r: Outcome<Base>)
    ensures r.Thrown? <==> introspector(beanType).None?
    ensures r.Thrown? ==> r.exception == IntrospectionException(beanType)
    ensures r.Ok? ==> r.value == Base(recordType, beanType, introspector(beanType).value, fallbackProvider)
  {
    match GetIntrospection(introspector, beanType)
    case Thrown(e) => Thrown(e)
    case Ok(bean) => Ok(Base(recordType, beanType, bean, fallbackProvider))
  }
}
