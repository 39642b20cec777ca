/**
  The formatter's test cases, each as a client of the model whose postcondition is
  what the test asserts. Framework behaviour a test relies on becomes a precondition.
 */
module FormatterScenarios {
  import opened Wrappers
  import opened Nesting
  import opened XmlText
  import opened NestedDocument
  import opened Serializers
  import opened Formatting

  const SampleType: TypeKey := ClassType("SampleType")
  const NestType: TypeKey := ClassType("Nest")

  /** A SampleType instance with the given Number. */
  function Sample(number: int): Value {
    Object("SampleType", [Int(number)])
  }

  /** The element structure the data contract serializer gives a SampleType: the root and its Number member. */
  const SampleDocument: seq<Token> :=
    [Open("DataContractSampleType"), Open("Number"), Close("Number"), Close("DataContractSampleType")]

  lemma SampleDocumentShape()
    ensures Balanced(SampleDocument) && MaxNesting(SampleDocument) == 2
  {
    assert SampleDocument == NestedElements("DataContractSampleType", "Number", 1);
    NestedElementsShape("DataContractSampleType", "Number", 1);
  }

  method SupportEncodingContainDefaultEncodings(factory: SerializerFactory) returns (encodings: seq<Encoding>)
    ensures |encodings| == 2
    ensures encodings[0].webName == "utf-8" && encodings[1].webName == "utf-16"
  {
    var formatter := new XmlMediaTypeFormatter(factory);
    encodings := formatter.supportedEncodings;
  }

  /** MaxDepth starts at 1024, accepts 1, rejects 0 without changing, and reads back 10. */
  method MaxDepthReturnsCorrectValue(factory: SerializerFactory)
    returns (initial: int, atMinimum: Outcome<Error>, belowMinimum: Outcome<Error>, afterRejection: int, roundTrip: int)
    ensures initial == 1024
    ensures atMinimum == Pass
    ensures belowMinimum == Fail(ArgumentOutOfRange("value", 0, 1)) && afterRejection == 1
    ensures roundTrip == 10
  {
    var formatter := new XmlMediaTypeFormatter(factory);
    initial := formatter.maxDepth;
    atMinimum := formatter.SetMaxDepth(1);
    belowMinimum := formatter.SetMaxDepth(0);
    afterRejection := formatter.maxDepth;
    var _ := formatter.SetMaxDepth(10);
    roundTrip := formatter.maxDepth;
  }

  method IndentGetSet(factory: SerializerFactory) returns (initial: bool, afterSet: bool)
    ensures !initial && afterSet
  {
    var formatter := new XmlMediaTypeFormatter(factory);
    initial := formatter.indent;
    formatter.indent := true;
    afterSet := formatter.indent;
  }

  /** The default media type is `application/xml`. */
  method DefaultMediaTypeReturnsApplicationXml() returns (m: MediaType)
    ensures m.mediaType == "application/xml"
  {
    m := DefaultMediaType;
  }

  method UseXmlSerializerDefault(factory: SerializerFactory) returns (initial: bool)
    ensures !initial
  {
    var formatter := new XmlMediaTypeFormatter(factory);
    initial := formatter.useXmlSerializer;
  }

  /** With MaxDepth 1, the two-level document written for a SampleType cannot be read back. */
  method ReadDeeplyNestedObjectThrows(factory: SerializerFactory) returns (r: Result<Value, Error>)
    requires factory.canCreate(DataContractSerializer, SampleType)
    requires factory.create(DataContractSerializer, SampleType).encode(Sample(1)) == SampleDocument
    ensures r == Failure(SerializationFailure(NestingTooDeep))
  {
    var formatter := new XmlMediaTypeFormatter(factory);
    var _ := formatter.SetMaxDepth(1);
    var written := formatter.WriteToStream(SampleType, Sample(1));
    SampleDocumentShape();
    r := formatter.ReadFromStream(SampleType, written.value, None);
  }

  /** With MaxDepth `depth + 1`, the helper's document for `depth` (deepest point `depth + 1`) is read. */
  method ReadNestedDocumentAtLimit(factory: SerializerFactory, depth: nat) returns (r: Result<Value, Error>)
    requires factory.canCreate(XmlSerializer, NestType)
    requires Lawful(factory.create(XmlSerializer, NestType), NestType)
    requires factory.create(XmlSerializer, NestType).decode(NestedTokens(depth)).Some?
    ensures r == Success(factory.create(XmlSerializer, NestType).decode(NestedTokens(depth)).value)
    ensures HasType(r.value, NestType)
  {
    var formatter := new XmlMediaTypeFormatter(factory);
    var _ := formatter.SetMaxDepth(depth + 1);
    formatter.useXmlSerializer := true;
    var text := GetDeeplyNestedObject(depth);
    NestedDocumentTokens(depth);
    NestedElementsShape("Nest", "A", depth);
    var tokens := Tokenize(text).value;
    r := formatter.ReadFromStream(NestType, tokens, Some(|text|));
  }

  /** The test's instance: MaxDepth 5001 admits the helper's document for 5000. */
  method ReadDeeplyNestedObjectWorks(factory: SerializerFactory) returns (r: Result<Value, Error>)
    requires factory.canCreate(XmlSerializer, NestType)
    requires Lawful(factory.create(XmlSerializer, NestType), NestType)
    requires factory.create(XmlSerializer, NestType).decode(NestedTokens(5000)).Some?
    ensures r == Success(factory.create(XmlSerializer, NestType).decode(NestedTokens(5000)).value)
    ensures HasType(r.value, NestType)
  {
    r := ReadNestedDocumentAtLimit(factory, 5000);
  }

  /** One level less of MaxDepth and the same document is rejected as too deep. */
  method ReadNestedDocumentAboveLimitThrows(factory: SerializerFactory, depth: nat) returns (r: Result<Value, Error>)
    requires depth >= 1
    requires factory.canCreate(XmlSerializer, NestType)
    ensures r == Failure(SerializationFailure(NestingTooDeep))
  {
    var formatter := new XmlMediaTypeFormatter(factory);
    var _ := formatter.SetMaxDepth(depth);
    formatter.useXmlSerializer := true;
    var text := GetDeeplyNestedObject(depth);
    NestedDocumentTokens(depth);
    NestedElementsShape("Nest", "A", depth);
    var tokens := Tokenize(text).value;
    r := formatter.ReadFromStream(NestType, tokens, Some(|text|));
  }

  /** Two probes of the same type agree with each other and with the serializer constructor. */
  method CanReadTypeReturnsSameResultAsXmlSerializerConstructor(factory: SerializerFactory, t: TypeKey)
    returns (first: bool, second: bool)
    ensures first == factory.canCreate(XmlSerializer, t)
    ensures second == first
  {
    var formatter := new XmlMediaTypeFormatter(factory);
    formatter.useXmlSerializer := true;
    first := formatter.CanReadType(t);
    second := formatter.CanReadType(t);
  }

  /** Each null argument is reported by name, and none of the calls assigns or removes anything. */
  method SerializerNullArguments(factory: SerializerFactory, s: Serializer)
    returns (nullType: Outcome<Error>, nullSerializer: Outcome<Error>, genericNull: Outcome<Error>,
             removeNull: Outcome<Error>, table: map<TypeKey, Serializer>)
    ensures nullType == Fail(ArgumentNull("type"))
    ensures nullSerializer == Fail(ArgumentNull("serializer"))
    ensures genericNull == Fail(ArgumentNull("serializer"))
    ensures removeNull == Fail(ArgumentNull("type"))
    ensures table == map[]
  {
    var formatter := new XmlMediaTypeFormatter(factory);
    nullType := formatter.SetSerializer(None, Some(s));
    nullSerializer := formatter.SetSerializer(Some(StringType), None);
    genericNull := formatter.SetSerializerOf(StringType, None);
    removeNull := formatter.RemoveSerializer(None);
    table := formatter.serializers;
  }

  /**
    After SetSerializer(t, s), writing a `t` and reading it back (with the written length
    declared) gives the value written, whichever serializer `s` is.
   */
  method ReadFromStreamRoundTripsWriteToStream(factory: SerializerFactory, t: TypeKey, s: Serializer, v: Value)
    returns (r: Result<Value, Error>)
    requires Lawful(s, t) && HasType(v, t)
    requires MaxNesting(s.encode(v)) <= DefaultMaxDepth
    ensures r == Success(v)
  {
    var formatter := new XmlMediaTypeFormatter(factory);
    var _ := formatter.SetSerializer(Some(t), Some(s));
    var written := formatter.WriteToStream(t, v);
    r := formatter.ReadFromStream(t, written.value, Some(|written.value|));
  }

  /** A declared length of zero gives default(T), whether or not a serializer exists for T. */
  method ReadWhenContentLengthIsZero(factory: SerializerFactory, t: TypeKey) returns (r: Result<Value, Error>)
    ensures r == Success(DefaultValue(t))
    ensures t == BoolType ==> r.value == Bool(false)
    ensures t == Int32Type ==> r.value == Int(0)
    ensures t == StringType ==> r.value == Null
  {
    var formatter := new XmlMediaTypeFormatter(factory);
    r := formatter.ReadFromStream(t, [], Some(0));
  }

  /** With the length unknown, the whole content is read: a SampleType written with Number 42 reads back. */
  method ReadWhenContentLengthIsNull(factory: SerializerFactory) returns (r: Result<Value, Error>)
    requires factory.canCreate(DataContractSerializer, SampleType)
    requires Lawful(factory.create(DataContractSerializer, SampleType), SampleType)
    requires MaxNesting(factory.create(DataContractSerializer, SampleType).encode(Sample(42))) <= DefaultMaxDepth
    ensures r == Success(Sample(42))
  {
    var formatter := new XmlMediaTypeFormatter(factory);
    var written := formatter.WriteToStream(SampleType, Sample(42));
    r := formatter.ReadFromStream(SampleType, written.value, None);
  }
}
