/**
 * Small string utilities used to read a rendered filter expression back
 * into its fields: dropping a literal prefix and splitting at a delimiter.
 */
module Text {
  import opened Optional

  /** The rest of `s` after `prefix`, or None when `s` does not start with it. */
  function StripPrefix(s: string, prefix: string): (r: Option<string>)
    ensures r.Some? <==> prefix <= s
    ensures r.Some? ==> s == prefix + r.value
  {
    if prefix <= s then Some(s[|prefix|..]) else None
  }

  /**
   * Splits `s` at the first occurrence of `stop` into the text before it and
   * the text after it, or None when `stop` does not occur.
   */
  function SplitAt(s: string, stop: char): (r: Option<(string, string)>)
    ensures r.Some? <==> stop in s
    ensures r.Some? ==> stop !in r.value.0 && s == r.value.0 + [stop] + r.value.1
    decreases |s|
  {
    if s == [] then None
    else if s[0] == stop then Some(([], s[1..]))
    else
      var (before, after) :- SplitAt(s[1..], stop);
      Some(([s[0]] + before, after))
  }

  lemma StripPrefixConcat(prefix: string, rest: string)
    ensures StripPrefix(prefix + rest, prefix) == Some(rest)
  {
    assert prefix <= prefix + rest;
    assert (prefix + rest)[|prefix|..] == rest;
  }

  /** Splitting a text joined at a delimiter that the first part lacks recovers both parts. */
  lemma {:induction false} SplitAtConcat(before: string, stop: char, after: string)
    requires stop !in before
    ensures SplitAt(before + [stop] + after, stop) == Some((before, after))
    decreases |before|
  {
    var s := before + [stop] + after;
    if before != [] {
      assert s[1..] == before[1..] + [stop] + after;
      SplitAtConcat(before[1..], stop, after);
      assert [before[0]] + before[1..] == before;
    } else {
      assert s[1..] == after;
    }
  }

  /** `sub` occurs in `s` starting at index `i`. */
  predicate OccursAt(s: string, sub: string, i: int) {
    0 <= i <= |s| - |sub| && s[i..i + |sub|] == sub
  }

  /** `sub` occurs somewhere in `s`, as JavaScript's `includes` tests. */
  predicate Contains(s: string, sub: string) {
    exists i :: 0 <= i <= |s| - |sub| && OccursAt(s, sub, i)
  }

  /** A text starting with `prefix` contains it. */
  lemma PrefixContained(s: string, prefix: string)
    requires prefix <= s
    ensures Contains(s, prefix)
  {
    assert OccursAt(s, prefix, 0);
  }

  /** A text lacking some character of `sub` does not contain `sub`. */
  lemma MissingCharNotContained(s: string, sub: string, c: char)
    requires c in sub && c !in s
    ensures !Contains(s, sub)
  {
    var k :| 0 <= k < |sub| && sub[k] == c;
    forall i | 0 <= i <= |s| - |sub|
      ensures !OccursAt(s, sub, i)
    {
      assert s[i..i + |sub|][k] == s[i + k] != c;
    }
  }
}
