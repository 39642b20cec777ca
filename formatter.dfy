/**
  The XML media type formatter: its configuration, its per-type serializer table,
  its memoized CanReadType verdicts, and the read and write operations that use them.
 */
module Formatting {
  import opened Wrappers
  import opened Nesting
  import opened DepthGuard
  import opened Serializers

  const DefaultMaxDepth: int := 1024
  const MinimumMaxDepth: int := 1

  datatype Encoding = Encoding(webName: string)

  const Utf8: Encoding := Encoding("utf-8")
  const Utf16: Encoding := Encoding("utf-16")

  /** A media type header value, reduced to its media type. */
  datatype MediaType = MediaType(mediaType: string)

  /** The formatter's static `DefaultMediaType`. */
  const DefaultMediaType: MediaType := MediaType("application/xml")

  /** Why a read failed with a serialization error. */
  datatype FailureCause =
    | NestingTooDeep   // the depth guard stopped the reader
    | Malformed        // the reader met an unmatched close or an unclosed element
    | Undecodable      // the serializer could not produce a value from the document

  datatype Error =
    | ArgumentNull(paramName: string)                             // ArgumentNullException
    | ArgumentOutOfRange(paramName: string, actual: int, minimum: int) // ArgumentOutOfRangeException
    | SerializationFailure(cause: FailureCause)                   // SerializationException
    | UnsupportedType(t: TypeKey)                                 // no serializer can be had for the type

  /** Every verdict recorded in `before` is still recorded, unchanged, in `after`. */
  predicate KeepsVerdicts(before: map<TypeKey, bool>, after: map<TypeKey, bool>) {
    forall t :: t in before ==> t in after && after[t] == before[t]
  }

  class XmlMediaTypeFormatter {
    /** The framework's serializer constructors, which the formatter calls but does not define. */
    const factory: SerializerFactory
    const supportedEncodings: seq<Encoding>

    var maxDepth: int
    var indent: bool
    var useXmlSerializer: bool
    /** Serializers assigned explicitly with SetSerializer, by exact type. */
    var serializers: map<TypeKey, Serializer>
    /** CanReadType verdicts, recorded on the first probe of each type. */
    var canReadCache: map<TypeKey, bool>

    ghost predicate Valid()
      reads this
    {
      maxDepth >= MinimumMaxDepth && supportedEncodings == [Utf8, Utf16]
    }

    constructor (factory: SerializerFactory)
      ensures Valid()
      ensures this.factory == factory
      ensures maxDepth == DefaultMaxDepth && !indent && !useXmlSerializer
      ensures supportedEncodings == [Utf8, Utf16]
      ensures serializers == map[] && canReadCache == map[]
    {
      this.factory := factory;
      supportedEncodings := [Utf8, Utf16];
      maxDepth := DefaultMaxDepth;
      indent := false;
      useXmlSerializer := false;
      serializers := map[];
      canReadCache := map[];
    }

    /** The kind of serializer built for a type that has none assigned. */
    function DefaultKind(): (k: SerializerKind)
      reads this
      ensures k == XmlSerializer <==> useXmlSerializer
    {
      if useXmlSerializer then XmlSerializer else DataContractSerializer
    }

    /**
      The serializer used for `t`: the one assigned to it if any, otherwise a default one
      of the current kind when the framework can build it, otherwise none.
     */
    function SerializerFor(t: TypeKey): (r: Option<Serializer>)
      reads this
      ensures t in serializers ==> r == Some(serializers[t])
      ensures t !in serializers ==> (r.Some? <==> factory.canCreate(DefaultKind(), t))
      ensures t !in serializers && r.Some? ==> r.value == factory.create(DefaultKind(), t)
    {
      if t in serializers then Some(serializers[t])
      else if factory.canCreate(DefaultKind(), t) then Some(factory.create(DefaultKind(), t))
      else None
    }

    /** The MaxDepth setter: values below the minimum are rejected and leave the setting as it was. */
    method SetMaxDepth(value: int) returns (r: Outcome<Error>)
      requires Valid()
      modifies this`maxDepth
      ensures Valid()
      ensures value >= MinimumMaxDepth ==> r == Pass && maxDepth == value
      ensures value < MinimumMaxDepth ==>
        r == Fail(ArgumentOutOfRange("value", value, MinimumMaxDepth)) && maxDepth == old(maxDepth)
    {
      if value < MinimumMaxDepth {
        return Fail(ArgumentOutOfRange("value", value, MinimumMaxDepth));
      }
      maxDepth := value;
      return Pass;
    }

    /**
      Assigns `serializer` to the type `t`, replacing any serializer assigned before. Both
      overloads (XmlSerializer and XmlObjectSerializer) are this method: which kind the
      serializer is does not change how it is stored or used. A null argument is reported
      before anything changes.
     */
    method SetSerializer(t: Option<TypeKey>, serializer: Option<Serializer>) returns (r: Outcome<Error>)
      requires Valid()
      modifies this`serializers
      ensures Valid()
      ensures t.None? ==> r == Fail(ArgumentNull("type")) && serializers == old(serializers)
      ensures t.Some? && serializer.None? ==>
        r == Fail(ArgumentNull("serializer")) && serializers == old(serializers)
      ensures t.Some? && serializer.Some? ==>
        r == Pass && serializers == old(serializers)[t.value := serializer.value]
    {
      if t.None? {
        return Fail(ArgumentNull("type"));
      }
      if serializer.None? {
        return Fail(ArgumentNull("serializer"));
      }
      serializers := serializers[t.value := serializer.value];
      return Pass;
    }

    /** The generic overload `SetSerializer<T>(serializer)`: the type is given, so only the serializer can be null. */
    method SetSerializerOf(t: TypeKey, serializer: Option<Serializer>) returns (r: Outcome<Error>)
      requires Valid()
      modifies this`serializers
      ensures Valid()
      ensures serializer.None? ==> r == Fail(ArgumentNull("serializer")) && serializers == old(serializers)
      ensures serializer.Some? ==> r == Pass && serializers == old(serializers)[t := serializer.value]
    {
      r := SetSerializer(Some(t), serializer);
    }

    /** Drops the serializer assigned to the type `t`; a type with none assigned is left as it is. */
    method RemoveSerializer(t: Option<TypeKey>) returns (r: Outcome<Error>)
      requires Valid()
      modifies this`serializers
      ensures Valid()
      ensures t.None? ==> r == Fail(ArgumentNull("type")) && serializers == old(serializers)
      ensures t.Some? ==> r == Pass && serializers == old(serializers) - {t.value}
    {
      if t.None? {
        return Fail(ArgumentNull("type"));
      }
      serializers := serializers - {t.value};
      return Pass;
    }

    /**
      Whether the formatter can read `t`. The first probe of a type records whether a
      serializer can be had for it; every later probe answers from that record.
     */
    method CanReadType(t: TypeKey) returns (b: bool)
      requires Valid()
      modifies this`canReadCache
      ensures Valid()
      ensures KeepsVerdicts(old(canReadCache), canReadCache)
      ensures t in canReadCache && b == canReadCache[t]
      ensures t in old(canReadCache) ==> canReadCache == old(canReadCache)
      ensures t !in old(canReadCache) ==>
        b == SerializerFor(t).Some? && canReadCache == old(canReadCache)[t := b]
    {
      if t in canReadCache {
        return canReadCache[t];
      }
      b := SerializerFor(t).Some?;
      canReadCache := canReadCache[t := b];
    }

    /** Whether the formatter can write `t`: the same recorded verdict as CanReadType. */
    method CanWriteType(t: TypeKey) returns (b: bool)
      requires Valid()
      modifies this`canReadCache
      ensures Valid()
      ensures KeepsVerdicts(old(canReadCache), canReadCache)
      ensures t in canReadCache && b == canReadCache[t]
      ensures t in old(canReadCache) ==> canReadCache == old(canReadCache)
      ensures t !in old(canReadCache) ==>
        b == SerializerFor(t).Some? && canReadCache == old(canReadCache)[t := b]
    {
      b := CanReadType(t);
    }

    /** Writes `value` as a `t` through the serializer resolved for `t`. */
    method WriteToStream(t: TypeKey, value: Value) returns (r: Result<seq<Token>, Error>)
      ensures SerializerFor(t).None? ==> r == Failure(UnsupportedType(t))
      ensures SerializerFor(t).Some? ==> r == Success(SerializerFor(t).value.encode(value))
    {
      match SerializerFor(t)
      case None =>
        r := Failure(UnsupportedType(t));
      case Some(s) =>
        r := Success(s.encode(value));
    }

    /**
      Reads a `t` from `content`. A declared length of zero yields `default(T)` without
      consulting any serializer; otherwise (a positive or an unknown length) the whole
      content is read through the depth guard and handed to the resolved serializer.
     */
    method ReadFromStream(t: TypeKey, content: seq<Token>, contentLength: Option<nat>)
      returns (r: Result<Value, Error>)
      requires Valid()
      ensures contentLength == Some(0) ==> r == Success(DefaultValue(t))
      ensures contentLength != Some(0) && SerializerFor(t).None? ==> r == Failure(UnsupportedType(t))
      ensures contentLength != Some(0) && SerializerFor(t).Some? ==>
        var s := SerializerFor(t).value;
        && (r.Success? <==> Balanced(content) && MaxNesting(content) <= maxDepth && s.decode(content).Some?)
        && (r.Success? ==> r.value == s.decode(content).value)
        && (r.Failure? ==> r.error.SerializationFailure?)
        && (r == Failure(SerializationFailure(NestingTooDeep)) ==> MaxNesting(content) > maxDepth)
        && (NeverBelowZero(content) && MaxNesting(content) > maxDepth ==>
              r == Failure(SerializationFailure(NestingTooDeep)))
        && (forall k :: 0 < k <= |content| && NeverBelowZero(content[..k]) && MaxNesting(content[..k]) > maxDepth
                    ==> r == Failure(SerializationFailure(NestingTooDeep)))
    {
      if contentLength == Some(0) {
        return Success(DefaultValue(t));
      }
      var resolved := SerializerFor(t);
      if resolved.None? {
        return Failure(UnsupportedType(t));
      }
      var s := resolved.value;
      var verdict := CheckDepth(content, maxDepth);
      match verdict
      case TooDeep(_) =>
        r := Failure(SerializationFailure(NestingTooDeep));
      case Unbalanced =>
        r := Failure(SerializationFailure(Malformed));
      case WithinLimit =>
        match s.decode(content)
        case None =>
          r := Failure(SerializationFailure(Undecodable));
        case Some(v) =>
          r := Success(v);
    }
  }
}
