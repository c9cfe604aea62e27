/** Searching a string for a character, from the front or from the back: the text operations log paths and log lines rest on. */
module Strings {
  import opened Wrappers

  /** The position of the first occurrence of c in s, if any. */
  function IndexOf(s: string, c: char): (r: Option<nat>)
    ensures r.Some? ==> r.value < |s| && s[r.value] == c && c !in s[..r.value]
    ensures r.None? ==> c !in s
  {
    if s == [] then None
    else if s[0] == c then Some(0)
    else
      match IndexOf(s[1..], c)
      case None => None
      case Some(i) =>
        assert s[..i + 1] == [s[0]] + s[1..][..i];
        Some(i + 1)
  }

  /** A character that does not occur in a is found right after it. */
  lemma {:induction false} FirstOccurrence(a: string, c: char, x: string)
    requires c !in a
    ensures IndexOf(a + [c] + x, c) == Some(|a|)
  {
    if a != [] {
      assert (a + [c] + x)[1..] == a[1..] + [c] + x;
      FirstOccurrence(a[1..], c, x);
    }
  }

  /** A string split at the first occurrence of a character that the left part lacks splits only one way. */
  lemma SplitAtFirst(a1: string, x1: string, a2: string, x2: string, c: char)
    requires c !in a1 && c !in a2
    requires a1 + [c] + x1 == a2 + [c] + x2
    ensures a1 == a2 && x1 == x2
  {
    var s := a1 + [c] + x1;
    FirstOccurrence(a1, c, x1);
    FirstOccurrence(a2, c, x2);
    assert a1 == s[..|a1|] == a2;
    assert x1 == s[|a1| + 1..] == x2;
  }

  /** The position of the last occurrence of c in s, if any. */
  function LastIndexOf(s: string, c: char): (r: Option<nat>)
    ensures r.Some? ==> r.value < |s| && s[r.value] == c && c !in s[r.value + 1..]
    ensures r.None? ==> c !in s
  {
    if s == [] then None
    else if s[|s| - 1] == c then Some(|s| - 1)
    else
      match LastIndexOf(s[..|s| - 1], c)
      case None => None
      case Some(i) =>
        assert s[i + 1..] == s[..|s| - 1][i + 1..] + [s[|s| - 1]];
        Some(i)
  }

  /** A character that does not occur in x is found last right before it. */
  lemma {:induction false} LastOccurrence(a: string, c: char, x: string)
    requires c !in x
    ensures LastIndexOf(a + [c] + x, c) == Some(|a|)
  {
    if x != [] {
      assert (a + [c] + x)[..|a + [c] + x| - 1] == a + [c] + x[..|x| - 1];
      LastOccurrence(a, c, x[..|x| - 1]);
    }
  }
}
