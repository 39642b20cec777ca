# XmlMediaTypeFormatter — a verified model of its tested contract

The ASP.NET Web API `XmlMediaTypeFormatter` converts typed values to XML and back at the
edge of the HTTP pipeline. Its implementation is not part of this model; its test suite
(`XmlMediaTypeFormatterTests.cs`) pins down a small stateful contract, and that contract is
what is modelled and proved here:

- the formatter's configuration: `MaxDepth` (default 1024, at least 1), `Indent` and
  `UseXmlSerializer` (both false by default) and `SupportedEncodings` (utf-8, then utf-16);
- the per-type serializer table changed by `SetSerializer` / `RemoveSerializer`, with their
  null-argument errors raised before anything changes;
- the memoized `CanReadType` verdict, which never changes once recorded;
- the read path: a declared length of zero yields `default(T)` without touching a serializer;
  otherwise the whole content goes through the depth guard, an explicit counter that fails as
  soon as the depth passes `MaxDepth`, and then to the resolved serializer;
- the test helper `GetDeeplyNestedObject`, built with the same string-builder loop, and the
  proof that its document nests exactly `depth + 1` deep, which ties it to the guard's boundary.

Files and modules:

| file | module | contents |
|---|---|---|
| wrappers.dfy | Wrappers | Option / Result / Outcome, Max, Min, Repeat |
| nesting.dfy | Nesting | element tokens; Depth, MaxNesting, MinDepth, Balanced; concatenation lemmas; the nested-element shape |
| depth_guard.dfy | DepthGuard | the counter loop `CheckDepth` |
| xml_text.dfy | XmlText | a minimal markup scanner from text to element tokens, with lemmas for tags and repeated tags |
| nested_document.dfy | NestedDocument | `GetDeeplyNestedObject` and the lemmas about its document |
| serializers.dfy | Serializers | runtime types, values, `default(T)`, serializer kinds, the serializer factory oracle |
| formatter.dfy | Formatting | the `XmlMediaTypeFormatter` class |
| formatter_scenarios.dfy | FormatterScenarios | the modelled test cases, each as a client whose postcondition is the test's assertion, plus the general boundary lemmas and methods behind them |

Modelling choices:

- A type identity is a `TypeKey`; a serializer is an encode/decode pair over element tokens.
  Its kind (`XmlSerializer` or a data contract `XmlObjectSerializer`) selects only which
  constructor builds the default serializer for a type (`SerializerKind`, chosen by
  UseXmlSerializer); it does not change how the formatter reads or writes with it. A null
  argument is `None`. Exceptions are `Outcome`/`Result` failures carrying an `Error` that
  names the exception (`ArgumentNull("type")`, `ArgumentOutOfRange("value", …)`,
  `SerializationFailure(NestingTooDeep)`, …).
- Whether the framework can construct a serializer for a type, and the serializer it then
  builds, are an oracle (`SerializerFactory`) given to the constructor. Where a test relies on
  what the framework serializer does (the round trip, the shape of the document written for
  `SampleType`), the scenario states it as a precondition; `Lawful` is the round-trip
  assumption.
- Content reaches the formatter as element tokens. The declared content length is an
  `Option<nat>`: `None` is an unknown length, which, like a positive one, reads the whole
  content. The scenarios declare the token count as the length of written content; it is zero
  only for empty content, as the byte length is.
- `CanReadType` verdicts are recorded per type and are not invalidated by a later
  `SetSerializer` or `RemoveSerializer`: every state-changing method keeps all recorded
  verdicts (`KeepsVerdicts`). `CanWriteType` answers from the same record.
- A too-deep document fails with a `SerializationFailure`, because the test expects a
  `SerializationException`; the cause `NestingTooDeep` says why.
- For a reference type such as `string`, the zero-length read returns null: the test compares
  against `default(T)`, which the code evaluates to null, not to an empty string.

## Model

| member | source | states |
|---|---|---|
| Formatting.XmlMediaTypeFormatter.constructor | test/System.Net.Http.Formatting.Test.Unit/Formatting/XmlMediaTypeFormatterTests.cs:103-117 | a new formatter has MaxDepth 1024, Indent and UseXmlSerializer false, supported encodings utf-8 then utf-16, no serializers and no recorded verdicts |
| Formatting.XmlMediaTypeFormatter.SetMaxDepth | test/System.Net.Http.Formatting.Test.Unit/Formatting/XmlMediaTypeFormatterTests.cs:49-61 | a value of at least 1 is stored; a smaller one fails with ArgumentOutOfRange and leaves MaxDepth as it was; MaxDepth stays at least 1 |
| Formatting.XmlMediaTypeFormatter.SetSerializer | test/System.Net.Http.Formatting.Test.Unit/Formatting/XmlMediaTypeFormatterTests.cs:194-229 | a null type fails with ArgumentNull("type"), then a null serializer with ArgumentNull("serializer"), both leaving the table unchanged; otherwise the type maps to the serializer and nothing else changes |
| Formatting.XmlMediaTypeFormatter.SetSerializerOf | test/System.Net.Http.Formatting.Test.Unit/Formatting/XmlMediaTypeFormatterTests.cs:209-236 | the generic overload: a null serializer fails with ArgumentNull("serializer") and changes nothing; otherwise the type maps to the serializer |
| Formatting.XmlMediaTypeFormatter.RemoveSerializer | test/System.Net.Http.Formatting.Test.Unit/Formatting/XmlMediaTypeFormatterTests.cs:238-243 | a null type fails with ArgumentNull("type") and changes nothing; otherwise the type's entry, if any, is removed and nothing else changes |
| Formatting.XmlMediaTypeFormatter.CanReadType | test/System.Net.Http.Formatting.Test.Unit/Formatting/XmlMediaTypeFormatterTests.cs:175-192 | the first probe of a type answers whether a serializer can be had for it and records that; a later probe returns the recorded verdict and changes nothing; no recorded verdict is ever altered |
| Formatting.XmlMediaTypeFormatter.CanWriteType | test/System.Net.Http.Formatting.Test.Unit/Formatting/XmlMediaTypeFormatterTests.cs:381-384 | answers from, and records into, the same verdicts as CanReadType |
| Formatting.XmlMediaTypeFormatter.SerializerFor | test/System.Net.Http.Formatting.Test.Unit/Formatting/XmlMediaTypeFormatterTests.cs:245-292 | a serializer assigned to the exact type wins; otherwise one of the kind UseXmlSerializer selects, if the framework can build it; otherwise none |
| Formatting.XmlMediaTypeFormatter.DefaultKind | test/System.Net.Http.Formatting.Test.Unit/Formatting/XmlMediaTypeFormatterTests.cs:119-161 | the default serializer is the XmlSerializer exactly when UseXmlSerializer is set, the data contract serializer otherwise |
| Formatting.XmlMediaTypeFormatter.WriteToStream | test/System.Net.Http.Formatting.Test.Unit/Formatting/XmlMediaTypeFormatterTests.cs:258-263 | output is the resolved serializer's encoding of the value; with no serializer, an UnsupportedType error |
| Formatting.XmlMediaTypeFormatter.ReadFromStream | test/System.Net.Http.Formatting.Test.Unit/Formatting/XmlMediaTypeFormatterTests.cs:294-326 | declared length 0 gives default(T) whatever the serializers; otherwise success exactly when the document is balanced, no deeper than MaxDepth and decodable, with the decoded value; a document with any prefix that passes MaxDepth before an unmatched close fails with NestingTooDeep, whatever follows that prefix; every failure after resolution is a serialization failure |
| DepthGuard.CheckDepth | test/System.Net.Http.Formatting.Test.Unit/Formatting/XmlMediaTypeFormatterTests.cs:63-85 | accepts exactly the balanced documents whose maximum nesting is at most the limit; stops at the first token that takes the depth to limit + 1, having consumed nothing after it; any prefix that passes the limit without going below zero makes the verdict TooDeep, whatever the rest of the document is |
| Serializers.DefaultValue | test/System.Net.Http.Formatting.Test.Unit/Formatting/XmlMediaTypeFormatterTests.cs:294-308 | default(T) is a value of T, null exactly for reference types, false for bool and 0 for int |
| NestedDocument.GetDeeplyNestedObject | test/System.Net.Http.Formatting.Test.Unit/Formatting/XmlMediaTypeFormatterTests.cs:87-101 | the loop builds the prolog, the Nest open tag, depth copies of `<A>`, depth copies of `</A>` and `</Nest>`, in that order (no copies for a negative depth) |
| NestedDocument.NestedDocumentTokens | test/System.Net.Http.Formatting.Test.Unit/Formatting/XmlMediaTypeFormatterTests.cs:87-101 | read as markup, the helper's text is the Nest root around d nested A elements, the prolog contributing no element |
| NestedDocument.NestedDocumentDepth | test/System.Net.Http.Formatting.Test.Unit/Formatting/XmlMediaTypeFormatterTests.cs:75-101 | the helper's document for d is balanced and its maximum nesting is exactly d + 1 |
| Nesting.NestedElementsShape | test/System.Net.Http.Formatting.Test.Unit/Formatting/XmlMediaTypeFormatterTests.cs:87-101 | a root around d nested children is balanced with maximum nesting d + 1 |
| FormatterScenarios.SupportEncodingContainDefaultEncodings | test/System.Net.Http.Formatting.Test.Unit/Formatting/XmlMediaTypeFormatterTests.cs:40-47 | exactly two supported encodings, utf-8 then utf-16 |
| FormatterScenarios.MaxDepthReturnsCorrectValue | test/System.Net.Http.Formatting.Test.Unit/Formatting/XmlMediaTypeFormatterTests.cs:49-61 | default 1024; 1 accepted; 0 rejected without change; 10 reads back as 10 |
| FormatterScenarios.IndentGetSet | test/System.Net.Http.Formatting.Test.Unit/Formatting/XmlMediaTypeFormatterTests.cs:103-110 | Indent is false on a new formatter and true after being set |
| FormatterScenarios.DefaultMediaTypeReturnsApplicationXml | test/System.Net.Http.Formatting.Test.Unit/Formatting/XmlMediaTypeFormatterTests.cs:32-38 | the static default media type is `application/xml` |
| FormatterScenarios.UseXmlSerializerDefault | test/System.Net.Http.Formatting.Test.Unit/Formatting/XmlMediaTypeFormatterTests.cs:112-117 | UseXmlSerializer is false on a new formatter |
| FormatterScenarios.SampleDocumentShape | test/System.Net.Http.Formatting.Test.Unit/Formatting/XmlMediaTypeFormatterTests.cs:387-392 | the data contract document of a SampleType, a root with one Number member, is balanced and two levels deep |
| FormatterScenarios.ReadDeeplyNestedObjectThrows | test/System.Net.Http.Formatting.Test.Unit/Formatting/XmlMediaTypeFormatterTests.cs:63-73 | with MaxDepth 1, reading back the written SampleType fails with a NestingTooDeep serialization failure and returns no value |
| FormatterScenarios.ReadNestedDocumentAtLimit | test/System.Net.Http.Formatting.Test.Unit/Formatting/XmlMediaTypeFormatterTests.cs:75-101 | with MaxDepth d + 1 the helper's document for d is read and yields what the Nest serializer decodes from it, a value of type Nest when that serializer is lawful |
| FormatterScenarios.ReadDeeplyNestedObjectWorks | test/System.Net.Http.Formatting.Test.Unit/Formatting/XmlMediaTypeFormatterTests.cs:75-85 | the test's instance: with MaxDepth 5001 and UseXmlSerializer set, the document for 5000 is read, and the result has type Nest (as `IsType<Nest>` checks, up to the null that `HasType` admits) |
| FormatterScenarios.ReadNestedDocumentAboveLimitThrows | test/System.Net.Http.Formatting.Test.Unit/Formatting/XmlMediaTypeFormatterTests.cs:63-101 | with MaxDepth d the same document fails with NestingTooDeep, so d + 1 is the exact boundary |
| FormatterScenarios.CanReadTypeReturnsSameResultAsXmlSerializerConstructor | test/System.Net.Http.Formatting.Test.Unit/Formatting/XmlMediaTypeFormatterTests.cs:175-192 | with UseXmlSerializer set, the first probe equals whether an XmlSerializer can be constructed for the type, and the second equals the first |
| FormatterScenarios.SerializerNullArguments | test/System.Net.Http.Formatting.Test.Unit/Formatting/XmlMediaTypeFormatterTests.cs:194-243 | each null argument fails with ArgumentNull naming "type" or "serializer", and the table stays empty |
| FormatterScenarios.ReadFromStreamRoundTripsWriteToStream | test/System.Net.Http.Formatting.Test.Unit/Formatting/XmlMediaTypeFormatterTests.cs:245-292 | after SetSerializer(t, s), writing a value of t and reading it back with the written length returns the same value, for any lawful serializer of either kind |
| FormatterScenarios.ReadWhenContentLengthIsZero | test/System.Net.Http.Formatting.Test.Unit/Formatting/XmlMediaTypeFormatterTests.cs:294-308 | declared length 0 returns default(T): false, 0, or null for string |
| FormatterScenarios.ReadWhenContentLengthIsNull | test/System.Net.Http.Formatting.Test.Unit/Formatting/XmlMediaTypeFormatterTests.cs:310-326 | with the length unknown, the SampleType written with Number 42 reads back whole |

## Left out

- The serializers' own encoding and decoding, and the exact text they emit: they are framework code; they appear as an encode/decode pair and a factory oracle, trusted through `Lawful` or a scenario precondition.
- Indentation (lines 119-173): the `Indent` flag is stored and read back, but the model's output is element tokens, which carry no whitespace, so the `"\r\n"` checks and the absent XML declaration are not modelled.
- Character-encoding selection and byte conversion: their tests (lines 328-372) delegate to helpers that are not part of this model; only the list of supported encodings is modelled.
- Supported media types (the `Constructor` theory, lines 24-30): the media types it expects come from a data set that is not part of this model.
- `TypeIsCorrect` (line 21) and the reflection-based assertion helpers (`Assert.Reflection`, `Assert.Http.IsKnownUnserializable`, `Assert.Http.CanRoundTrip`): they inspect .NET metadata.
- Asynchronous tasks, streams, stream positions and HTTP content headers beyond the declared length: the content is the token sequence itself.
- Concurrent use of one formatter instance: the model is sequential.
- Element-name matching: the depth guard counts opens and closes; a close whose name differs from the open it matches is the XML reader's error, not modelled.
- The markup scanner `Tokenize` is a stand-in for the framework's XML reader that looks only at tags; it does not handle attribute values containing `>`, CDATA, or entity references.
- Value types other than `bool` and `int` (structs, enums, `DateTime`, `decimal`, nullable value types): `TypeKey` has only `BoolType` and `Int32Type` as value types, so `default(T)` for the others, whose default is not `null`, is not modelled; every `ClassType` is a reference type.
- `IsType<Nest>` also rejects null: the read scenarios prove `HasType(r.value, NestType)`, which admits null for a reference type; that the Nest serializer reads a `<Nest>` root as an object and not as null is up to that serializer.
- A null type passed to `CanReadType` / `CanWriteType`: not exercised by the tests; the model takes a type.
- The action-executed filter context (`HttpActionExecutedContextTest.cs`): a plain property holder with one null check, outside the formatter.
