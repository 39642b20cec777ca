/**
  The depth guard the formatter places around its XML reader: an explicit counter
  updated token by token, which stops reading as soon as the counter passes the limit.
 */
module DepthGuard {
  import opened Nesting

  datatype Verdict =
    | WithinLimit            // the whole document was read and every element was closed
    | TooDeep(consumed: nat) // reading stopped after `consumed` tokens, the last of which passed the limit
    | Unbalanced             // a close without a matching open, or an element left open at the end

  method CheckDepth(tokens: seq<Token>, maxDepth: nat) returns (v: Verdict)
    // the document is accepted exactly when it is balanced and never deeper than the limit
    ensures v == WithinLimit <==> Balanced(tokens) && MaxNesting(tokens) <= maxDepth
    // the guard fails at the first token that takes the depth past the limit, and no later
    ensures v.TooDeep? ==>
      && 0 < v.consumed <= |tokens|
      && Depth(tokens[..v.consumed]) == maxDepth + 1
      && NeverBelowZero(tokens[..v.consumed])
      && MaxNesting(tokens[..v.consumed - 1]) <= maxDepth
    ensures v.TooDeep? ==> MaxNesting(tokens) > maxDepth
    // a document that is too deep and never closes more than it opened is reported as too deep
    ensures NeverBelowZero(tokens) && MaxNesting(tokens) > maxDepth ==> v.TooDeep?
    // the same holds of every prefix: passing the limit before any unmatched close is reported
    // as too deep, whatever follows in the rest of the document, which is not read
    ensures forall k :: 0 < k <= |tokens| && NeverBelowZero(tokens[..k]) && MaxNesting(tokens[..k]) > maxDepth
                    ==> v.TooDeep?
  {
    var depth := 0;
    var i := 0;
    while i < |tokens|
      invariant 0 <= i <= |tokens|
      invariant depth == Depth(tokens[..i])
      invariant NeverBelowZero(tokens[..i])
      invariant MaxNesting(tokens[..i]) <= maxDepth
    {
      PrefixStep(tokens, i);
      PrefixBounds(tokens, i + 1);
      if tokens[i].Open? {
        depth := depth + 1;
        if depth > maxDepth {
          return TooDeep(i + 1);
        }
      } else {
        if depth == 0 {
          ShorterPrefixesWithin(tokens, i, maxDepth);
          LongerPrefixesBelowZero(tokens, i + 1);
          return Unbalanced;
        }
        depth := depth - 1;
      }
      i := i + 1;
    }
    assert tokens[..i] == tokens;
    ShorterPrefixesWithin(tokens, i, maxDepth);
    if depth != 0 {
      return Unbalanced;
    }
    return WithinLimit;
  }
}
