/**
 * `Pair`: the key under which both providers cache what they build, a record
 * type together with a bean class. `equals` and `hashCode` are stated over the
 * components' own `equals` and `hashCode`, which are parameters.
 */
module Pair {
  import opened Java
  import opened Jooq

  datatype Pair = Pair(recordType: RecordType, beanType: TypeTag)

  /** The argument of `equals`: a `Pair`, or any other object. */
  datatype EqualsArgument = PairObject(pair: Pair) | OtherObject

  type RecordTypeEquality = (RecordType, RecordType) -> bool
  type TypeEquality = (TypeTag, TypeTag) -> bool

  /** `Pair.equals`. */
  predicate Equals(p: Pair, obj: EqualsArgument, recordTypeEquals: RecordTypeEquality, typeEquals: TypeEquality) {
    match obj
    case PairObject(q) => recordTypeEquals(p.recordType, q.recordType) && typeEquals(p.beanType, q.beanType)
    case OtherObject => false
  }

  /** `Pair.hashCode`: `31 * recordType.hashCode() + type.hashCode()` in `int` arithmetic. */
  function HashCode(p: Pair, recordTypeHash: RecordType -> Int32, typeHash: TypeTag -> Int32): (h: Int32)
    ensures (h - (31 * recordTypeHash(p.recordType) + typeHash(p.beanType))) % 0x1_0000_0000 == 0
  {
    Wrap32(31 * recordTypeHash(p.recordType) + typeHash(p.beanType))
  }

  /** A `Pair` equals exactly the pairs whose components are both equal; nothing else. */
  lemma EqualsMeaning(p: Pair, obj: EqualsArgument, recordTypeEquals: RecordTypeEquality, typeEquals: TypeEquality)
    ensures Equals(p, obj, recordTypeEquals, typeEquals) <==>
            obj.PairObject? &&
            recordTypeEquals(p.recordType, obj.pair.recordType) && typeEquals(p.beanType, obj.pair.beanType)
    ensures !Equals(p, OtherObject, recordTypeEquals, typeEquals)
  {
  }

  /**
   * Where the components are compared structurally, `equals` is structural
   * equality of pairs: the equality the model's caches use for their keys.
   */
  lemma EqualsIsStructural(p: Pair, q: Pair, recordTypeEquals: RecordTypeEquality, typeEquals: TypeEquality)
    requires forall a, b :: recordTypeEquals(a, b) <==> a == b
    requires forall s, t :: typeEquals(s, t) <==> s == t
    ensures Equals(p, PairObject(q), recordTypeEquals, typeEquals) <==> p == q
  {
  }

  /** `equals` is reflexive and symmetric whenever the components' `equals` are. */
  lemma EqualsReflexiveSymmetric(p: Pair, q: Pair, recordTypeEquals: RecordTypeEquality, typeEquals: TypeEquality)
    requires forall a :: recordTypeEquals(a, a)
    requires forall s :: typeEquals(s, s)
    requires forall a, b :: recordTypeEquals(a, b) ==> recordTypeEquals(b, a)
    requires forall s, t :: typeEquals(s, t) ==> typeEquals(t, s)
    ensures Equals(p, PairObject(p), recordTypeEquals, typeEquals)
    ensures Equals(p, PairObject(q), recordTypeEquals, typeEquals) ==> Equals(q, PairObject(p), recordTypeEquals, typeEquals)
  {
  }

  /** Equal pairs have equal hash codes whenever each component's `hashCode` agrees with its `equals`. */
  lemma EqualPairsHaveEqualHashCodes(
    p: Pair, q: Pair,
    recordTypeEquals: RecordTypeEquality, typeEquals: TypeEquality,
    recordTypeHash: RecordType -> Int32, typeHash: TypeTag -> Int32)
    requires forall a, b :: recordTypeEquals(a, b) ==> recordTypeHash(a) == recordTypeHash(b)
    requires forall s, t :: typeEquals(s, t) ==> typeHash(s) == typeHash(t)
    requires Equals(p, PairObject(q), recordTypeEquals, typeEquals)
    ensures HashCode(p, recordTypeHash, typeHash) == HashCode(q, recordTypeHash, typeHash)
  {
  }
}
