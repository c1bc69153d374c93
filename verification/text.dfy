/** String helpers shared by the grammar validators and the resolvers.
    Strings are `seq<char>`; every suffix and separator the source tests
    for is ASCII, so the substrings cut at a separator or suffix are the
    same whether positions count characters or bytes (the positions
    themselves differ once a multi-byte character precedes them). */
module Text {
  import opened Wrappers

  predicate StartsWith(s: string, prefix: string) {
    |prefix| <= |s| && s[..|prefix|] == prefix
  }

  predicate EndsWith(s: string, suffix: string) {
    |suffix| <= |s| && s[|s| - |suffix|..] == suffix
  }

  /** `s` without its last `n` characters (Rust's `&s[..s.len() - n]`). */
  function DropLast(s: string, n: nat): (r: string)
    requires n <= |s|
    ensures |r| == |s| - n
    ensures forall i :: 0 <= i < |r| ==> r[i] == s[i]
  {
    s[..|s| - n]
  }

  /** The position of the first `c` in `s` (Rust's `str::find`). */
  function Find(s: string, c: char): (r: Option<nat>)
    ensures r.None? <==> c !in s
    ensures r.Some? ==> r.value < |s| && s[r.value] == c && c !in s[..r.value]
  {
    if |s| == 0 then None
    else if s[0] == c then Some(0)
    else
      match Find(s[1..], c)
      case None => None
      case Some(i) =>
        assert s[1..][..i] == s[1..i + 1];
        assert s[..i + 1] == [s[0]] + s[1..i + 1];
        Some(i + 1)
  }

  lemma EndsWithAppend(s: string, suffix: string)
    ensures EndsWith(s + suffix, suffix)
    ensures DropLast(s + suffix, |suffix|) == s
  {
    assert (s + suffix)[|s|..] == suffix;
    assert (s + suffix)[..|s|] == s;
  }

  lemma StartsWithAppend(prefix: string, s: string)
    ensures StartsWith(prefix + s, prefix)
  {
    assert (prefix + s)[..|prefix|] == prefix;
  }

  /** A string ending in `suffix` ends in the last character of `suffix`. */
  lemma EndsWithLastChar(s: string, suffix: string)
    requires EndsWith(s, suffix) && |suffix| > 0
    ensures s[|s| - 1] == suffix[|suffix| - 1]
  {
    assert s[|s| - |suffix|..][|suffix| - 1] == s[|s| - 1];
  }

  /** The first `c` is at `i` when `s[i]` is `c` and nothing before it is. */
  lemma {:induction false} FindAt(s: string, c: char, i: nat)
    requires i < |s| && s[i] == c && c !in s[..i]
    ensures Find(s, c) == Some(i)
  {
    if i > 0 {
      assert s[0] in s[..i];
      assert s[1..][..i - 1] == s[1..i];
      assert s[..i] == [s[0]] + s[1..i];
      FindAt(s[1..], c, i - 1);
    }
  }
}
