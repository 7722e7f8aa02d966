/**
 Facts that stay folded: behind a quantifier over `Unfold` they are seen only where it is named.
 */
module Folding {
  predicate Unfold(b: bool) { true }
}
