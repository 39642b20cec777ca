/**
  The element structure of an XML document, reduced to what the depth guard sees:
  a sequence of element-open and element-close tokens in document order.
  Depths are measured on prefixes, each defined by recursion on the last token.
 */
module Nesting {
  import opened Wrappers

  datatype Token = Open(name: string) | Close(name: string)

  /** The change in nesting depth caused by one token. */
  function Delta(t: Token): int {
    if t.Open? then 1 else -1
  }

  /** The nesting depth after reading all of `ts`, starting at depth 0. */
  function Depth(ts: seq<Token>): int
  {
    if ts == [] then 0 else Depth(ts[..|ts| - 1]) + Delta(ts[|ts| - 1])
  }

  /** The largest depth reached at any point while reading `ts` (0 for the empty document). */
  function MaxNesting(ts: seq<Token>): int
  {
    if ts == [] then 0 else Max(MaxNesting(ts[..|ts| - 1]), Depth(ts))
  }

  /** The smallest depth reached at any point while reading `ts`. */
  function MinDepth(ts: seq<Token>): int
  {
    if ts == [] then 0 else Min(MinDepth(ts[..|ts| - 1]), Depth(ts))
  }

  /** No prefix closes more elements than it opened. */
  predicate NeverBelowZero(ts: seq<Token>) {
    MinDepth(ts) >= 0
  }

  /** Every element opened is closed, and nothing is closed that was not opened. */
  predicate Balanced(ts: seq<Token>) {
    NeverBelowZero(ts) && Depth(ts) == 0
  }

  lemma {:induction false} DepthWithinBounds(ts: seq<Token>)
    ensures MinDepth(ts) <= Depth(ts) <= MaxNesting(ts)
    ensures MinDepth(ts) <= 0 <= MaxNesting(ts)
  {
    if ts != [] {
      DepthWithinBounds(ts[..|ts| - 1]);
    }
  }

  /** Reading one more token: the three measures of the longer prefix from those of the shorter one. */
  lemma PrefixStep(ts: seq<Token>, i: nat)
    requires i < |ts|
    ensures Depth(ts[..i + 1]) == Depth(ts[..i]) + Delta(ts[i])
    ensures MaxNesting(ts[..i + 1]) == Max(MaxNesting(ts[..i]), Depth(ts[..i + 1]))
    ensures MinDepth(ts[..i + 1]) == Min(MinDepth(ts[..i]), Depth(ts[..i + 1]))
  {
    assert ts[..i + 1][..i] == ts[..i];
  }

  /** Depths of a concatenation: `b` is read starting from the depth `a` ends at. */
  lemma {:induction false} Concat(a: seq<Token>, b: seq<Token>)
    ensures Depth(a + b) == Depth(a) + Depth(b)
    ensures MaxNesting(a + b) == Max(MaxNesting(a), Depth(a) + MaxNesting(b))
    ensures MinDepth(a + b) == Min(MinDepth(a), Depth(a) + MinDepth(b))
  {
    if b == [] {
      assert a + b == a;
      DepthWithinBounds(a);
    } else {
      var b' := b[..|b| - 1];
      assert (a + b)[..|a + b| - 1] == a + b';
      assert (a + b)[|a + b| - 1] == b[|b| - 1];
      Concat(a, b');
    }
  }

  /** The maxima and minima of a prefix never exceed those of the whole. */
  lemma {:induction false} PrefixBounds(ts: seq<Token>, i: nat)
    requires i <= |ts|
    ensures MaxNesting(ts[..i]) <= MaxNesting(ts)
    ensures MinDepth(ts[..i]) >= MinDepth(ts)
  {
    assert ts == ts[..i] + ts[i..];
    Concat(ts[..i], ts[i..]);
  }

  /** A prefix no deeper than `limit` has only prefixes no deeper than `limit`. */
  lemma ShorterPrefixesWithin(ts: seq<Token>, i: nat, limit: int)
    requires i <= |ts| && MaxNesting(ts[..i]) <= limit
    ensures forall k :: 0 < k <= i ==> MaxNesting(ts[..k]) <= limit
  {
    forall k | 0 < k <= i
      ensures MaxNesting(ts[..k]) <= limit
    {
      PrefixBounds(ts[..i], k);
      assert ts[..i][..k] == ts[..k];
    }
  }

  /** Once a prefix has closed more than it opened, so has every longer prefix. */
  lemma LongerPrefixesBelowZero(ts: seq<Token>, j: nat)
    requires j <= |ts| && !NeverBelowZero(ts[..j])
    ensures forall k :: j <= k <= |ts| ==> !NeverBelowZero(ts[..k])
  {
    forall k | j <= k <= |ts|
      ensures !NeverBelowZero(ts[..k])
    {
      PrefixBounds(ts[..k], j);
      assert ts[..k][..j] == ts[..j];
    }
  }

  /** `n` nested openings of the element `name`. */
  function Opens(name: string, n: nat): seq<Token> {
    Repeat([Open(name)], n)
  }

  /** `n` closings of the element `name`. */
  function Closes(name: string, n: nat): seq<Token> {
    Repeat([Close(name)], n)
  }

  lemma {:induction false} OpensShape(name: string, n: nat)
    ensures Depth(Opens(name, n)) == n
    ensures MaxNesting(Opens(name, n)) == n
    ensures MinDepth(Opens(name, n)) == 0
  {
    if n > 0 {
      OpensShape(name, n - 1);
      Concat([Open(name)], Opens(name, n - 1));
      assert [Open(name)] == [] + [Open(name)];
    }
  }

  lemma {:induction false} ClosesShape(name: string, n: nat)
    ensures Depth(Closes(name, n)) + n == 0
    ensures MaxNesting(Closes(name, n)) == 0
    ensures MinDepth(Closes(name, n)) + n == 0
  {
    if n > 0 {
      ClosesShape(name, n - 1);
      Concat([Close(name)], Closes(name, n - 1));
      assert [Close(name)] == [] + [Close(name)];
    }
  }

  /** A `root` element holding `d` nested `child` elements. */
  function NestedElements(root: string, child: string, d: nat): seq<Token> {
    [Open(root)] + Opens(child, d) + Closes(child, d) + [Close(root)]
  }

  /** Such a document is balanced and its deepest point is exactly `d + 1`: the root plus `d` levels. */
  lemma {:induction false} NestedElementsShape(root: string, child: string, d: nat)
    ensures Balanced(NestedElements(root, child, d))
    ensures MaxNesting(NestedElements(root, child, d)) == d + 1
  {
    var first := [Open(root)];
    assert first == [] + first;
    OpensShape(child, d);
    ClosesShape(child, d);
    Concat(first, Opens(child, d));
    Concat(first + Opens(child, d), Closes(child, d));
    var last := [Close(root)];
    assert last == [] + last;
    Concat(first + Opens(child, d) + Closes(child, d), last);
  }

  /** The element structure of the document the tests build for the depth guard: a `Nest` root around `d` `A`s. */
  function NestedTokens(d: nat): seq<Token> {
    NestedElements("Nest", "A", d)
  }
}
