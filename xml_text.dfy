/**
  A minimal scanner from XML text to the element tokens the depth guard counts.
  It stands in for the framework's XML reader and looks only at markup: character
  data between tags carries no nesting, a declaration `<?...?>` or a comment-like
  `<!...>` yields nothing, `</n>` closes, `<n/>` opens and closes, `<n attrs>` opens.
 */
module XmlText {
  import opened Wrappers
  import opened Nesting

  /** The position of the first `c` in `s`, if any. */
  function IndexOf(s: string, c: char): (r: Option<nat>)
    ensures r.Some? ==> r.value < |s| && s[r.value] == c && c !in s[..r.value]
    ensures r.None? ==> c !in s
  {
    if s == [] then None
    else if s[0] == c then Some(0)
    else match IndexOf(s[1..], c)
      case None => None
      case Some(j) => assert s[..j + 1] == [s[0]] + s[1..][..j]; Some(j + 1)
  }

  /** The element name of a tag body: everything up to the first space. */
  function TagName(body: string): (name: string)
    ensures ' ' !in name
    ensures |name| <= |body| && name == body[..|name|]
  {
    match IndexOf(body, ' ')
    case None => body
    case Some(j) => body[..j]
  }

  /** The tokens one tag stands for, given the text between its `<` and `>`; None for `<>`. */
  function TagTokens(body: string): Option<seq<Token>> {
    if body == [] then None
    else if body[0] == '?' || body[0] == '!' then Some([])
    else if body[0] == '/' then Some([Close(TagName(body[1..]))])
    else if body[|body| - 1] == '/' then
      var name := TagName(body[..|body| - 1]);
      Some([Open(name), Close(name)])
    else Some([Open(TagName(body))])
  }

  /** Both parts present: their tokens one after the other. */
  function Join(a: Option<seq<Token>>, b: Option<seq<Token>>): Option<seq<Token>> {
    if a.Some? && b.Some? then Some(a.value + b.value) else None
  }

  /** The element tokens of `s` in document order; None if a `<` is never closed by `>` or a tag is empty. */
  function Tokenize(s: string): Option<seq<Token>>
    decreases |s|
  {
    if s == [] then Some([])
    else if s[0] != '<' then Tokenize(s[1..])
    else match IndexOf(s, '>')
      case None => None
      case Some(j) => Join(TagTokens(s[1..j]), Tokenize(s[j + 1..]))
  }

  /** The text of one tag with the given body. */
  function Tag(body: string): string {
    "<" + body + ">"
  }

  lemma {:induction false} IndexOfAfter(prefix: string, c: char, rest: string)
    requires c !in prefix
    ensures IndexOf(prefix + [c] + rest, c) == Some(|prefix|)
  {
    if prefix != [] {
      assert (prefix + [c] + rest)[1..] == prefix[1..] + [c] + rest;
      IndexOfAfter(prefix[1..], c, rest);
    }
  }

  lemma OpenTagTokens(body: string)
    requires body != [] && body[0] != '?' && body[0] != '!' && body[0] != '/' && body[|body| - 1] != '/'
    ensures TagTokens(body) == Some([Open(TagName(body))])
  {
  }

  lemma CloseTagTokens(body: string)
    requires body != [] && body[0] == '/'
    ensures TagTokens(body) == Some([Close(TagName(body[1..]))])
  {
  }

  /** The name ends at the first space; the attributes after it do not matter. */
  lemma TagNameBeforeSpace(name: string, attributes: string)
    requires ' ' !in name
    ensures TagName(name + [' '] + attributes) == name
  {
    IndexOfAfter(name, ' ', attributes);
    assert (name + [' '] + attributes)[..|name|] == name;
  }

  /** A complete tag at the front of the text contributes its own tokens, then scanning resumes after it. */
  lemma TokenizeTag(body: string, rest: string)
    requires '>' !in body
    ensures Tokenize(Tag(body) + rest) == Join(TagTokens(body), Tokenize(rest))
  {
    var s := Tag(body) + rest;
    assert s == ("<" + body) + ['>'] + rest;
    IndexOfAfter("<" + body, '>', rest);
    assert s[1..|body| + 1] == body;
    assert s[|body| + 2..] == rest;
  }

  lemma JoinAssoc(a: seq<Token>, b: seq<Token>, c: Option<seq<Token>>)
    ensures Join(Some(a), Join(Some(b), c)) == Join(Some(a + b), c)
  {
    if c.Some? {
      assert a + (b + c.value) == (a + b) + c.value;
    }
  }

  lemma RepeatFront(s: string, n: nat, rest: string)
    requires n > 0
    ensures Repeat(s, n) + rest == s + (Repeat(s, n - 1) + rest)
  {
  }

  lemma TokenizeRepeatNone(body: string, rest: string)
    ensures Tokenize(Repeat(Tag(body), 0) + rest) == Join(Some(Repeat([], 0)), Tokenize(rest))
  {
    assert Repeat(Tag(body), 0) + rest == rest;
    if Tokenize(rest).Some? {
      assert [] + Tokenize(rest).value == Tokenize(rest).value;
    }
  }

  lemma TokenizeRepeatStep(body: string, tokens: seq<Token>, n: nat, rest: string)
    requires '>' !in body && TagTokens(body) == Some(tokens) && n > 0
    requires Tokenize(Repeat(Tag(body), n - 1) + rest) == Join(Some(Repeat(tokens, n - 1)), Tokenize(rest))
    ensures Tokenize(Repeat(Tag(body), n) + rest) == Join(Some(Repeat(tokens, n)), Tokenize(rest))
  {
    var later := Repeat(Tag(body), n - 1) + rest;
    RepeatFront(Tag(body), n, rest);
    TokenizeTag(body, later);
    JoinAssoc(tokens, Repeat(tokens, n - 1), Tokenize(rest));
  }

  /** `n` copies of one tag contribute `n` copies of its tokens. */
  lemma {:induction false} TokenizeRepeat(body: string, tokens: seq<Token>, n: nat, rest: string)
    requires '>' !in body && TagTokens(body) == Some(tokens)
    ensures Tokenize(Repeat(Tag(body), n) + rest) == Join(Some(Repeat(tokens, n)), Tokenize(rest))
  {
    if n == 0 {
      TokenizeRepeatNone(body, rest);
    } else {
      TokenizeRepeat(body, tokens, n - 1, rest);
      TokenizeRepeatStep(body, tokens, n, rest);
    }
  }
}
