/**
 * The parts of the Java runtime that the mappers see: null, exceptions, class
 * objects, the objects they copy from and to, and 32-bit `int` arithmetic.
 */
module Java {

  datatype Option<+T> = None | Some(value: T)

  /** The exceptions the mappers raise or pass on. */
  datatype Exception =
    | NullPointerException
      // BeanIntrospector.getIntrospection found no introspection for the class
    | IntrospectionException(beanType: TypeTag)
    | ArrayIndexOutOfBoundsException(index: int)
      // org.jooq.exception.MappingException, with its optional cause
    | MappingException(cause: Option<Exception>)
      // anything thrown by a collaborator: a constructor, a getter, a setter, a fallback
    | CollaboratorException(code: nat)

  /** A computation that returns a value or throws. */
  datatype Outcome<+T> = Ok(value: T) | Thrown(exception: Exception)

  /** A `java.lang.Class`. */
  datatype TypeTag =
    | ClassType(name: string)
    | ArrayType(component: TypeTag)
    | PrimitiveType(name: string)

  /** `Class.isArray`. */
  predicate IsArray(t: TypeTag) {
    t.ArrayType?
  }

  /** The class object of the `java.util.Map` interface. */
  const MapInterface: TypeTag := ClassType("java.util.Map")

  /**
   * `to.isAssignableFrom(from)`: the class hierarchy is not modelled, so every
   * operation that depends on it takes this relation as a parameter.
   */
  type Assignability = (TypeTag, TypeTag) -> bool

  /** A Java object as a mapper sees it. */
  datatype Value =
    | Null
    | Number(n: int)
    | Text(s: string)
      // an `Object[]`
    | ObjectArray(elements: seq<Value>)
      // an array of a primitive type (`int[]`, ...): an array, but not an `Object[]`
    | PrimitiveArray(component: TypeTag, length: nat)
      // a `java.util.Map` with string keys
    | MapObject(entries: map<string, Value>)
      // an instance of a bean class, by its properties
    | Bean(beanType: TypeTag, properties: map<string, Value>)

  /** Java's `int`. */
  type Int32 = x: int | -0x8000_0000 <= x < 0x8000_0000

  /** The `int` that Java's two's-complement arithmetic gives for the exact value `x`. */
  function Wrap32(x: int): (r: Int32)
    ensures (r - x) % 0x1_0000_0000 == 0
    ensures -0x8000_0000 <= x < 0x8000_0000 ==> r == x
  {
    var m := x % 0x1_0000_0000;
    if m < 0x8000_0000 then m else m - 0x1_0000_0000
  }
}
