/**
  The few Python `str` operations the agent relies on: `strip()` with and
  without an argument, `lower()` and `split(sep, 1)`. The
  prefix test `startswith` is Dafny's `<=` on sequences.
 */
module PyStr {
  import opened Wrappers

  /** Python's `str.isspace()` on one character: what `strip()` removes. */
  predicate IsSpace(c: char)
  {
    || c == ' ' || '\t' <= c <= '\r' || '\U{1C}' <= c <= '\U{1F}'
    || c == '\U{85}' || c == '\U{A0}' || c == '\U{1680}' || '\U{2000}' <= c <= '\U{200A}'
    || c == '\U{2028}' || c == '\U{2029}' || c == '\U{202F}' || c == '\U{205F}' || c == '\U{3000}'
  }

  /** The characters `value.strip('"\'')` removes: the two quote characters. */
  predicate IsQuote(c: char)
  {
    c == '"' || c == '\''
  }

  /** The first index at or after `i` whose character is not in `cs`, or `|s|`. */
  function SkipLeading(s: string, cs: char -> bool, i: nat): (k: nat)
    requires i <= |s|
    ensures i <= k <= |s|
    ensures forall j :: i <= j < k ==> cs(s[j])
    ensures k < |s| ==> !cs(s[k])
    decreases |s| - i
  {
    if i < |s| && cs(s[i]) then SkipLeading(s, cs, i + 1) else i
  }

  /** The end of `s[lo..j]` once the characters in `cs` are cut from its right end. */
  function SkipTrailing(s: string, cs: char -> bool, lo: nat, j: nat): (k: nat)
    requires lo <= j <= |s|
    ensures lo <= k <= j
    ensures forall m :: k <= m < j ==> cs(s[m])
    ensures lo < k ==> !cs(s[k - 1])
    decreases j
  {
    if lo < j && cs(s[j - 1]) then SkipTrailing(s, cs, lo, j - 1) else j
  }

  /**
    Python's `s.strip(chars)`, with `cs` telling which characters are in
    `chars`: the characters in `cs` removed from the left end, then from the
    right end of what is left.
   */
  function StripChars(s: string, cs: char -> bool): string
  {
    var lo := SkipLeading(s, cs, 0);
    s[lo..SkipTrailing(s, cs, lo, |s|)]
  }

  /** Python's `s.strip()`. */
  function Strip(s: string): string
  {
    StripChars(s, IsSpace)
  }

  /**
    What `strip` keeps is one contiguous piece `s[lo..hi]` of `s` whose two
    ends are not in `cs`, and all that is cut away on either side is in `cs`.
   */
  lemma StripCharsIsMaximalSlice(s: string, cs: char -> bool)
    ensures var lo := SkipLeading(s, cs, 0); var hi := SkipTrailing(s, cs, lo, |s|);
      && StripChars(s, cs) == s[lo..hi]
      && (forall i :: 0 <= i < lo ==> cs(s[i]))
      && (forall i :: hi <= i < |s| ==> cs(s[i]))
      && (lo < hi ==> !cs(s[lo]) && !cs(s[hi - 1]))
  {
  }

  /** A character that `strip` does not remove survives the strip. */
  lemma StripKeeps(s: string, cs: char -> bool, c: char)
    requires c in s && !cs(c)
    ensures c in StripChars(s, cs)
  {
    var lo := SkipLeading(s, cs, 0);
    var hi := SkipTrailing(s, cs, lo, |s|);
    var k :| 0 <= k < |s| && s[k] == c;
    assert lo <= k < hi;
    assert StripChars(s, cs)[k - lo] == c;
  }

  /** Nothing is stripped from a string whose two ends are outside `cs`. */
  lemma StripCharsUnchanged(s: string, cs: char -> bool)
    requires s == [] || (!cs(s[0]) && !cs(s[|s| - 1]))
    ensures StripChars(s, cs) == s
  {
    assert s[0..|s|] == s;
  }

  /** Stripping twice is stripping once. */
  lemma StripCharsIdempotent(s: string, cs: char -> bool)
    ensures StripChars(StripChars(s, cs), cs) == StripChars(s, cs)
  {
    StripCharsIsMaximalSlice(s, cs);
    StripCharsUnchanged(StripChars(s, cs), cs);
  }

  /** Python's `str.lower()` on one character, restricted to ASCII letters. */
  function LowerChar(c: char): char
  {
    if 'A' <= c <= 'Z' then (c as int - 'A' as int + 'a' as int) as char else c
  }

  /** Python's `s.lower()` for ASCII letters; other characters are kept. */
  function Lower(s: string): (r: string)
    ensures |r| == |s|
    ensures forall i :: 0 <= i < |s| ==> r[i] == LowerChar(s[i])
    ensures forall i :: 0 <= i < |r| ==> !('A' <= r[i] <= 'Z')
  {
    if s == [] then [] else [LowerChar(s[0])] + Lower(s[1..])
  }

  /**
    Python's `s.split(sep, 1)` when `sep` occurs in `s`: the text before the
    first `sep` and everything after it. `None` when `sep` does not occur.
   */
  function SplitOnce(s: string, sep: char): (r: Option<(string, string)>)
    ensures r.None? <==> sep !in s
    ensures r.Some? ==> s == r.value.0 + [sep] + r.value.1 && sep !in r.value.0
  {
    if s == [] then None
    else if s[0] == sep then Some(([], s[1..]))
    else match SplitOnce(s[1..], sep)
      case None => None
      case Some(parts) => Some(([s[0]] + parts.0, parts.1))
  }

  /** Splitting `a + [sep] + b` at its first `sep` gives back `a` and `b` when `a` holds no `sep`. */
  lemma {:induction false} SplitOnceJoin(a: string, sep: char, b: string)
    requires sep !in a
    ensures SplitOnce(a + [sep] + b, sep) == Some((a, b))
  {
    if a == [] {
      assert ([sep] + b)[1..] == b;
    } else {
      assert (a + [sep] + b)[0] == a[0];
      assert (a + [sep] + b)[1..] == a[1..] + [sep] + b;
      SplitOnceJoin(a[1..], sep, b);
      assert a[0] != sep && [a[0]] + a[1..] == a;
    }
  }
}
