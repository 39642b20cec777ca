/**
  Runtime types, values and the two serializer kinds the formatter can delegate to.
  The serializers themselves are framework code; here a serializer is an encode/decode
  pair over element tokens, and whether one can be built for a type is an oracle.
 */
module Serializers {
  import opened Wrappers
  import opened Nesting

  /** Runtime type identity, compared exactly (not by assignability). */
  datatype TypeKey = BoolType | Int32Type | StringType | ClassType(name: string)

  /** Reference types: those whose default value is null. */
  predicate IsReferenceType(t: TypeKey) {
    t.StringType? || t.ClassType?
  }

  datatype Value =
    | Null
    | Bool(b: bool)
    | Int(i: int)
    | Str(s: string)
    | Object(typeName: string, members: seq<Value>)

  const Int32Min: int := -0x8000_0000
  const Int32Max: int := 0x7FFF_FFFF

  /** `v` is a value of the runtime type `t` (null belongs to every reference type). */
  predicate HasType(v: Value, t: TypeKey) {
    match t
    case BoolType => v.Bool?
    case Int32Type => v.Int? && Int32Min <= v.i <= Int32Max
    case StringType => v.Null? || v.Str?
    case ClassType(name) => v.Null? || (v.Object? && v.typeName == name)
  }

  /** `default(T)`: null for reference types, false for bool, 0 for int. */
  function DefaultValue(t: TypeKey): (v: Value)
    ensures HasType(v, t)
    ensures v.Null? <==> IsReferenceType(t)
    ensures v.Bool? ==> !v.b
    ensures v.Int? ==> v.i == 0
  {
    match t
    case BoolType => Bool(false)
    case Int32Type => Int(0)
    case StringType => Null
    case ClassType(_) => Null
  }

  /** `XmlSerializer` (reflection based) or an `XmlObjectSerializer` such as `DataContractSerializer`. */
  datatype SerializerKind = DataContractSerializer | XmlSerializer

  /**
    A serializer of either kind: how it writes a value and how it reads a document back.
    The kind decides only which constructor the formatter calls for a type with no
    serializer assigned; reading and writing go through these two operations alike.
   */
  datatype Serializer = Serializer(
    encode: Value -> seq<Token>,
    decode: seq<Token> -> Option<Value>)

  /**
    What a serializer built for `t` is trusted to do: every value of `t` is written as a
    non-empty balanced document that reads back as the same value, and whatever it reads is a `t`.
   */
  ghost predicate Lawful(s: Serializer, t: TypeKey) {
    && (forall v :: HasType(v, t) ==> s.decode(s.encode(v)) == Some(v))
    && (forall v :: HasType(v, t) ==> s.encode(v) != [] && Balanced(s.encode(v)))
    && (forall ts :: s.decode(ts).Some? ==> HasType(s.decode(ts).value, t))
  }

  /**
    The framework's serializer constructors: whether `new XmlSerializer(t)` or
    `new DataContractSerializer(t)` succeeds, and the serializer it builds.
   */
  datatype SerializerFactory = SerializerFactory(
    canCreate: (SerializerKind, TypeKey) -> bool,
    create: (SerializerKind, TypeKey) -> Serializer)
}
