/**
  The adversarial document the formatter tests feed to the depth guard, built the way
  the test helper `GetDeeplyNestedObject` builds it: a string builder that grows at both ends.
 */
module NestedDocument {
  import opened Wrappers
  import opened Nesting
  import opened XmlText

  const PrologBody: string := "?xml version=\"1.0\"?"
  const NestBody: string := "Nest xmlns=\"http://example.com\""

  /** The text the helper returns for nesting parameter `d`. */
  function NestedDocumentText(d: nat): string {
    Tag(PrologBody) + Tag(NestBody) + Repeat(Tag("A"), d) + Repeat(Tag("/A"), d) + Tag("/Nest")
  }

  /** Builds the document: `depth` loop rounds, each inserting `<A>` in front and appending `</A>`. */
  method GetDeeplyNestedObject(depth: int) returns (s: string)
    ensures s == NestedDocumentText(if depth < 0 then 0 else depth)
  {
    var sb: string := "";
    var i := 0;
    while i < depth
      invariant 0 <= i <= (if depth < 0 then 0 else depth)
      invariant sb == Repeat(Tag("A"), i) + Repeat(Tag("/A"), i)
    {
      sb := Tag("A") + sb;      // insert at the front
      sb := sb + Tag("/A");     // append at the end
      RepeatSnoc(Tag("/A"), i);
      i := i + 1;
    }
    sb := Tag(NestBody) + sb;
    sb := sb + Tag("/Nest");
    sb := Tag(PrologBody) + sb;
    s := sb;
    assert i == if depth < 0 then 0 else depth;
  }

  lemma NestBodyName()
    ensures TagName(NestBody) == "Nest"
  {
    assert NestBody == "Nest" + [' '] + "xmlns=\"http://example.com\"";
    TagNameBeforeSpace("Nest", "xmlns=\"http://example.com\"");
  }

  lemma NestBodyTokens()
    ensures '>' !in NestBody && TagTokens(NestBody) == Some([Open("Nest")])
  {
    assert '>' !in NestBody;
    NestBodyName();
    OpenTagTokens(NestBody);
  }

  lemma ElementTagTokens()
    ensures TagTokens("A") == Some([Open("A")])
    ensures TagTokens("/A") == Some([Close("A")])
  {
    OpenTagTokens("A");
    CloseTagTokens("/A");
    assert "/A"[1..] == "A";
  }

  lemma CloseNestTagTokens()
    ensures TagTokens("/Nest") == Some([Close("Nest")])
  {
    CloseTagTokens("/Nest");
    assert "/Nest"[1..] == "Nest";
  }

  lemma CloseNestTokens()
    ensures Tokenize(Tag("/Nest")) == Some([Close("Nest")])
  {
    CloseNestTagTokens();
    assert Tag("/Nest") + [] == Tag("/Nest");
    TokenizeTag("/Nest", []);
    assert [Close("Nest")] + [] == [Close("Nest")];
  }

  /** The `A` elements and the closing root tag. */
  lemma InnerTokens(d: nat)
    ensures Tokenize(Repeat(Tag("A"), d) + (Repeat(Tag("/A"), d) + Tag("/Nest")))
         == Some(Opens("A", d) + (Closes("A", d) + [Close("Nest")]))
  {
    ElementTagTokens();
    CloseNestTokens();
    TokenizeRepeat("/A", [Close("A")], d, Tag("/Nest"));
    TokenizeRepeat("A", [Open("A")], d, Repeat(Tag("/A"), d) + Tag("/Nest"));
  }

  /** Two leading tags, for any bodies free of `>`. */
  lemma TwoTagsTokens(first: string, second: string, rest: string)
    requires '>' !in first && '>' !in second
    ensures Tokenize(Tag(first) + Tag(second) + rest)
         == Join(TagTokens(first), Join(TagTokens(second), Tokenize(rest)))
  {
    assert Tag(first) + Tag(second) + rest == Tag(first) + (Tag(second) + rest);
    TokenizeTag(first, Tag(second) + rest);
    TokenizeTag(second, rest);
  }

  // The next three facts are lemmas of their own rather than asserts in NestedDocumentTokens:
  // there, the solver unfolds the string literals together with the document and runs out of resource.

  /** The prolog is one tag that yields no token. */
  lemma PrologTokens()
    ensures '>' !in PrologBody && TagTokens(PrologBody) == Some([])
  {
  }

  /** The document's text regrouped as the two leading tags and the rest. */
  lemma DocumentTextParts(d: nat)
    ensures NestedDocumentText(d)
         == Tag(PrologBody) + Tag(NestBody) + (Repeat(Tag("A"), d) + (Repeat(Tag("/A"), d) + Tag("/Nest")))
  {
  }

  /** The tokens of the two leading tags (none, then the `Nest` open) followed by the rest form `NestedTokens(d)`. */
  lemma DocumentTokenParts(d: nat)
    ensures [] + ([Open("Nest")] + (Opens("A", d) + (Closes("A", d) + [Close("Nest")]))) == NestedTokens(d)
  {
  }

  /** Read as markup, the document is the `Nest` root around `d` nested `A` elements; the prolog adds no token. */
  lemma NestedDocumentTokens(d: nat)
    ensures Tokenize(NestedDocumentText(d)) == Some(NestedTokens(d))
  {
    var inner := Repeat(Tag("A"), d) + (Repeat(Tag("/A"), d) + Tag("/Nest"));
    DocumentTextParts(d);
    InnerTokens(d);
    NestBodyTokens();
    PrologTokens();
    TwoTagsTokens(PrologBody, NestBody, inner);
    DocumentTokenParts(d);
  }

  /**
    The helper's document for nesting parameter `d` is balanced and reaches depth exactly `d + 1`,
    so a depth limit of `d + 1` is the smallest that admits it.
   */
  lemma NestedDocumentDepth(d: nat)
    ensures Tokenize(NestedDocumentText(d)).Some?
    ensures Balanced(Tokenize(NestedDocumentText(d)).value)
    ensures MaxNesting(Tokenize(NestedDocumentText(d)).value) == d + 1
  {
    NestedDocumentTokens(d);
    NestedElementsShape("Nest", "A", d);
  }
}
