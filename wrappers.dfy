/** Option and Result: the optional value and the value-or-error pair used throughout the model. */
module Wrappers {

  /** A value that may be absent (a nil reference in Go, a missing JSON key). */
  datatype Option<+T> = None | Some(value: T)

  /** Either a value or an error: Go's `(T, error)` pair with exactly one side set. */
  datatype Result<+R, +E> = Success(value: R) | Failure(error: E)
}

/** Small facts about strings (sequences of characters). */
module Strings {

  /** `t` occurs somewhere inside `s`. */
  ghost predicate IsInfix(t: string, s: string) {
    exists k :: 0 <= k <= |s| && t <= s[k..]
  }

  /** Whatever surrounds `t`, it is still found in the concatenation. */
  lemma InfixOfConcat(a: string, t: string, b: string)
    ensures IsInfix(t, a + t + b)
  {
    var s := a + t + b;
    assert s[|a|..] == t + b;
    assert t <= s[|a|..];
  }

  /** An infix of `s` stays an infix when text is added on either side of `s`. */
  lemma InfixGrows(t: string, s: string, a: string, b: string)
    requires IsInfix(t, s)
    ensures IsInfix(t, a + s + b)
  {
    var k :| 0 <= k <= |s| && t <= s[k..];
    var w := a + s + b;
    assert w[|a| + k..] == s[k..] + b;
    assert t <= w[|a| + k..];
  }
}
