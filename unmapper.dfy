/**
 * `JooqIntrospectionUnMapper`: the `RecordUnmapperProvider`. It picks one of the
 * three unmappers by the bean class and, when the configuration allows it, keeps
 * what it builds in a cache shared by every provider.
 */
module JooqIntrospectionUnMapper {
  import opened Java
  import opened Jooq
  import opened Micronaut
  import opened BaseUnMapper
  import Pair
  import ArrayUnMapper
  import MapUnMapper
  import PojoUnMapper

  // ---------------------------------------------------------------------------
  // `build`
  // ---------------------------------------------------------------------------

  datatype Strategy = ArrayStrategy | MapStrategy | PojoStrategy

  /**
   * The unmapper a bean class gets: an array class the array unmapper, even one
   * that is also assignable to `Map`; any other class assignable to `Map` the
   * map unmapper; every other class the POJO unmapper.
   */
  function SelectStrategy(beanType: TypeTag, assignable: Assignability): (s: Strategy)
    ensures s == ArrayStrategy <==> IsArray(beanType)
    ensures s == MapStrategy <==> !IsArray(beanType) && assignable(MapInterface, beanType)
    ensures s == PojoStrategy <==> !IsArray(beanType) && !assignable(MapInterface, beanType)
  {
    if IsArray(beanType) then ArrayStrategy
    else if assignable(MapInterface, beanType) then MapStrategy
    else PojoStrategy
  }

  /** A `RecordUnmapper` as `build` returns it. */
  datatype RecordUnmapper =
    | ArrayUnmapper(arrayUnMapper: ArrayUnMapper.ArrayUnMapper)
    | MapUnmapper(mapUnMapper: MapUnMapper.MapUnMapper)
    | PojoUnmapper(pojoUnMapper: PojoUnMapper.PojoUnMapper)

  /** What every unmapper keeps from `BaseUnMapper`. */
  function BaseOf(u: RecordUnmapper): Base {
    match u
    case ArrayUnmapper(a) => a.base
    case MapUnmapper(m) => m.base
    case PojoUnmapper(p) => p.base
  }

  /** What `build` returns for a record type and a bean class. */
  function Plan(recordType: RecordType, beanType: TypeTag, introspector: Introspector,
                assignable: Assignability, fallbackProvider: Option<UnmapperFallbackProvider>): Outcome<RecordUnmapper>
  {
    match NewBase(recordType, beanType, introspector, fallbackProvider)
    case Thrown(e) => Thrown(e)
    case Ok(base) =>
      match SelectStrategy(beanType, assignable)
      case ArrayStrategy => Ok(ArrayUnmapper(ArrayUnMapper.ArrayUnMapper(base)))
      case MapStrategy => Ok(MapUnmapper(MapUnMapper.MapUnMapper(base)))
      case PojoStrategy =>
        Ok(PojoUnmapper(PojoUnMapper.PojoUnMapper(
          base, PojoUnMapper.Binding(recordType, base.bean.beanProperties, assignable))))
  }

  /**
   * Building fails exactly when the class has no introspection, whichever
   * unmapper it would get, arrays and maps included; otherwise the unmapper is
   * the one the class selects, over the record type, the class, its
   * introspection and the provider's fallback.
   */
  lemma PlanMeaning(recordType: RecordType, beanType: TypeTag, introspector: Introspector,
                    assignable: Assignability, fallbackProvider: Option<UnmapperFallbackProvider>)
    ensures var r := Plan(recordType, beanType, introspector, assignable, fallbackProvider);
            r.Thrown? <==> introspector(beanType).None?
    ensures var r := Plan(recordType, beanType, introspector, assignable, fallbackProvider);
            r.Thrown? ==> r.exception == IntrospectionException(beanType)
    ensures var r := Plan(recordType, beanType, introspector, assignable, fallbackProvider);
            r.Ok? ==>
              BaseOf(r.value) == Base(recordType, beanType, introspector(beanType).value, fallbackProvider) &&
              (r.value.ArrayUnmapper? <==> IsArray(beanType)) &&
              (r.value.MapUnmapper? <==> !IsArray(beanType) && assignable(MapInterface, beanType)) &&
              (r.value.PojoUnmapper? <==> !IsArray(beanType) && !assignable(MapInterface, beanType))
  {
    var s := SelectStrategy(beanType, assignable);
  }

  /** `build`: the dispatch, with the POJO unmapper's constructor loops. */
  method Build(recordType: RecordType, beanType: TypeTag, introspector: Introspector,
               assignable: Assignability, fallbackProvider: Option<UnmapperFallbackProvider>)
    returns (r: Outcome<RecordUnmapper>)
    ensures r == Plan(recordType, beanType, introspector, assignable, fallbackProvider)
  {
    var base := NewBase(recordType, beanType, introspector, fallbackProvider);
    if base.Thrown? {
      return Thrown(base.exception);
    }
    if IsArray(beanType) {
      r := Ok(ArrayUnmapper(ArrayUnMapper.ArrayUnMapper(base.value)));
    } else if assignable(MapInterface, beanType) {
      r := Ok(MapUnmapper(MapUnMapper.MapUnMapper(base.value)));
    } else {
      var pojo := PojoUnMapper.New(base.value, assignable);
      r := Ok(PojoUnmapper(pojo));
    }
  }

  /** `RecordUnmapper.unmap`: each unmapper does what its own `unmap` does. */
  method Unmap(u: RecordUnmapper, source: Value) returns (r: Outcome<Option<Record>>)
    ensures u.ArrayUnmapper? ==> ArrayUnMapper.Unmapped(u.arrayUnMapper.base.recordType, source, r)
    ensures u.MapUnmapper? ==> MapUnMapper.Unmapped(u.mapUnMapper.base.recordType, source, r)
    ensures u.PojoUnmapper? ==> PojoUnMapper.Unmapped(u.pojoUnMapper, source, r)
  {
    match u
    case ArrayUnmapper(a) => r := ArrayUnMapper.Unmap(a, source);
    case MapUnmapper(m) => r := MapUnMapper.Unmap(m, source);
    case PojoUnmapper(p) => r := PojoUnMapper.Unmap(p, source);
  }

  /** Every unmapper gives null for a null source. */
  lemma NullSourceGivesNull(u: RecordUnmapper, r: Outcome<Option<Record>>)
    requires u.ArrayUnmapper? ==> ArrayUnMapper.Unmapped(u.arrayUnMapper.base.recordType, Null, r)
    requires u.MapUnmapper? ==> MapUnMapper.Unmapped(u.mapUnMapper.base.recordType, Null, r)
    requires u.PojoUnmapper? ==> PojoUnMapper.Unmapped(u.pojoUnMapper, Null, r)
    ensures r == Ok(None)
  {
  }

  // ---------------------------------------------------------------------------
  // The provider and its cache (`provide`)
  // ---------------------------------------------------------------------------

  /** The static `cache`: one object, shared by every provider that is given it. */
  class UnmapperCache {
    var entries: map<Pair.Pair, RecordUnmapper>

    constructor ()
      ensures entries == map[]
    {
      entries := map[];
    }
  }

  /** A `JooqIntrospectionUnMapper`. */
  class Provider {
    const configuration: Configuration
    const fallbackProvider: Option<UnmapperFallbackProvider>
    const introspector: Introspector
    const assignable: Assignability
    const cache: UnmapperCache

    constructor (configuration: Configuration, fallbackProvider: Option<UnmapperFallbackProvider>,
                 introspector: Introspector, assignable: Assignability, cache: UnmapperCache)
      ensures this.configuration == configuration && this.fallbackProvider == fallbackProvider
      ensures this.introspector == introspector && this.assignable == assignable && this.cache == cache
    {
      this.configuration := configuration;
      this.fallbackProvider := fallbackProvider;
      this.introspector := introspector;
      this.assignable := assignable;
      this.cache := cache;
    }

    /**
     * `provide`: with caching exactly `TRUE`, the cached unmapper for the key if
     * there is one, otherwise a newly built one that is then cached (a build
     * that throws caches nothing); with caching null or false, a new build on
     * every call and the cache left alone.
     */
    method Provide(beanType: TypeTag, recordType: RecordType) returns (r: Outcome<RecordUnmapper>)
      modifies cache
      ensures var key := Pair.Pair(recordType, beanType);
              var built := Plan(recordType, beanType, introspector, assignable, fallbackProvider);
              if !CachingEnabled(configuration) then
                r == built && cache.entries == old(cache.entries)
              else if key in old(cache.entries) then
                r == Ok(old(cache.entries)[key]) && cache.entries == old(cache.entries)
              else
                r == built &&
                cache.entries == if built.Ok? then old(cache.entries)[key := built.value] else old(cache.entries)
    {
      if CachingEnabled(configuration) {
        var key := Pair.Pair(recordType, beanType);
        if key in cache.entries {
          return Ok(cache.entries[key]);
        }
        r := Build(recordType, beanType, introspector, assignable, fallbackProvider);
        if r.Ok? {
          cache.entries := cache.entries[key := r.value];
        }
      } else {
        r := Build(recordType, beanType, introspector, assignable, fallbackProvider);
      }
    }
  }

  /** The constructor's `Objects.requireNonNull(configuration)`. */
  method NewProvider(configuration: Option<Configuration>, fallbackProvider: Option<UnmapperFallbackProvider>,
                     introspector: Introspector, assignable: Assignability, cache: UnmapperCache)
    returns (r: Outcome<Provider>)
    ensures configuration.None? ==> r == Thrown(NullPointerException)
    ensures configuration.Some? ==>
            r.Ok? && fresh(r.value) &&
            r.value.configuration == configuration.value && r.value.fallbackProvider == fallbackProvider &&
            r.value.introspector == introspector && r.value.assignable == assignable && r.value.cache == cache
  {
    if configuration.None? {
      return Thrown(NullPointerException);
    }
    var p := new Provider(configuration.value, fallbackProvider, introspector, assignable, cache);
    r := Ok(p);
  }

  /**
   * Because the cache is shared, once one caching provider has built an
   * unmapper for a key, a second caching provider gets that same unmapper for an
   * equal key, whatever its own fallback provider and introspection.
   */
  method ProvideFromTwoProviders(p: Provider, q: Provider, beanType: TypeTag, recordType: RecordType)
    returns (first: Outcome<RecordUnmapper>, second: Outcome<RecordUnmapper>)
    requires p.cache == q.cache
    requires CachingEnabled(p.configuration) && CachingEnabled(q.configuration)
    modifies p.cache
    ensures first.Ok? ==> second == first
    ensures first.Ok? && Pair.Pair(recordType, beanType) !in old(p.cache.entries) ==>
            BaseOf(second.value).fallbackProvider == p.fallbackProvider
  {
    first := p.Provide(beanType, recordType);
    if first.Ok? && Pair.Pair(recordType, beanType) !in old(p.cache.entries) {
      PlanMeaning(recordType, beanType, p.introspector, p.assignable, p.fallbackProvider);
    }
    second := q.Provide(beanType, recordType);
  }
}
