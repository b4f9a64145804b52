/** String helpers with Python's meaning: `k in s`, `str.lower()`, `str.strip()`
    and `sep.join(parts)`. Substring containment is proved against an independent
    definition (`IsSubstring`), stripping against `TrimmedSlice`, and lower-casing is
    specified character by character. */
module Text {

  /** `k` occurs in `s` starting at index `i`. */
  ghost predicate OccursAt(k: string, s: string, i: int)
  {
    0 <= i && i + |k| <= |s| && s[i..i + |k|] == k
  }

  /** The reference meaning of substring containment. */
  ghost predicate IsSubstring(k: string, s: string)
  {
    exists i :: OccursAt(k, s, i)
  }

  predicate StartsWith(s: string, prefix: string)
  {
    |prefix| <= |s| && s[..|prefix|] == prefix
  }

  predicate EndsWith(s: string, suffix: string)
  {
    |suffix| <= |s| && s[|s| - |suffix|..] == suffix
  }

  lemma EndsWithConcat(a: string, b: string)
    ensures EndsWith(a + b, b)
  {
    assert (a + b)[|a|..] == b;
  }

  /** The middle of `a + x + b` is determined by the whole and its two ends. */
  lemma MiddleDetermined(a: string, x: string, y: string, b: string)
    requires a + x + b == a + y + b
    ensures x == y
  {
    var t := a + x + b;
    assert |x| == |y|;
    assert x == t[|a|..|a| + |x|];
    assert y == (a + y + b)[|a|..|a| + |y|];
  }

  lemma PrefixCancel(a: string, x: string, y: string)
    requires a + x == a + y
    ensures x == y
  {
    assert x == (a + x)[|a|..];
  }

  /** Python's `k in s` on strings, computed by trying every start position from the left.
      The empty string is contained in every string. */
  predicate Contains(s: string, k: string)
    decreases |s|
  {
    StartsWith(s, k) || (|s| > 0 && Contains(s[1..], k))
  }

  lemma {:induction false} ContainsIff(s: string, k: string)
    ensures Contains(s, k) <==> IsSubstring(k, s)
    decreases |s|
  {
    if StartsWith(s, k) {
      assert OccursAt(k, s, 0);
    } else if |s| == 0 {
    } else {
      ContainsIff(s[1..], k);
      if Contains(s[1..], k) {
        var j :| OccursAt(k, s[1..], j);
        var shifted, inTail := s[j + 1..j + 1 + |k|], s[1..][j..j + |k|];
        assert forall m | 0 <= m < |k| :: shifted[m] == inTail[m];
        assert OccursAt(k, s, j + 1);
      }
      if IsSubstring(k, s) {
        var i :| OccursAt(k, s, i);
        assert i != 0;
        var atI, inTail := s[i..i + |k|], s[1..][i - 1..i - 1 + |k|];
        assert forall m | 0 <= m < |k| :: atI[m] == inTail[m];
        assert OccursAt(k, s[1..], i - 1);
      }
    }
  }

  /** Python's `any(w in s for w in words)`. */
  predicate ContainsAny(s: string, words: seq<string>)
  {
    exists w | w in words :: Contains(s, w)
  }

  lemma ContainsAnyIff(s: string, words: seq<string>)
    ensures ContainsAny(s, words) <==> exists w | w in words :: IsSubstring(w, s)
  {
    forall w | w in words
      ensures Contains(s, w) <==> IsSubstring(w, s)
    {
      ContainsIff(s, w);
    }
  }

  /** A string that lacks some character of `k` cannot contain `k`. */
  lemma MissingCharNotSubstring(k: string, s: string, j: nat)
    requires j < |k|
    requires forall i | 0 <= i < |s| :: s[i] != k[j]
    ensures !IsSubstring(k, s)
  {
    forall i
      ensures !OccursAt(k, s, i)
    {
      if 0 <= i && i + |k| <= |s| {
        assert s[i..i + |k|][j] == s[i + j];
      }
    }
  }

  lemma {:induction false} SubstringOfConcat(k: string, pre: string, s: string, post: string)
    requires IsSubstring(k, s)
    ensures IsSubstring(k, pre + s + post)
  {
    var i :| OccursAt(k, s, i);
    var t := pre + s + post;
    assert t[|pre| + i..|pre| + i + |k|] == s[i..i + |k|];
    assert OccursAt(k, t, |pre| + i);
  }

  // ---------------------------------------------------------------------------
  // Lower-casing (ASCII approximation of Python's `str.lower()`)
  // ---------------------------------------------------------------------------

  predicate IsUpper(c: char)
  {
    'A' <= c <= 'Z'
  }

  function LowerChar(c: char): (d: char)
    ensures !IsUpper(d)
    ensures IsUpper(c) ==> d as int == c as int + 32
    ensures !IsUpper(c) ==> d == c
  {
    if IsUpper(c) then (c as int + 32) as char else c
  }

  /** Folds A-Z to a-z and leaves every other character, Devanagari included, as it is. */
  function Lower(s: string): (r: string)
    ensures |r| == |s|
    ensures forall i | 0 <= i < |r| :: !IsUpper(r[i])
    ensures forall i | 0 <= i < |s| ::
      if IsUpper(s[i]) then r[i] as int == s[i] as int + 32 else r[i] == s[i]
  {
    seq(|s|, i requires 0 <= i < |s| => LowerChar(s[i]))
  }

  lemma LowerIdempotent(s: string)
    ensures Lower(Lower(s)) == Lower(s)
  {
  }

  lemma LowerConcat(a: string, b: string)
    ensures Lower(a + b) == Lower(a) + Lower(b)
  {
  }

  // ---------------------------------------------------------------------------
  // Stripping (ASCII approximation of Python's `str.strip()`)
  // ---------------------------------------------------------------------------

  predicate IsSpace(c: char)
  {
    c == ' ' || c == '\t' || c == '\n' || c == '\r' || c == '\U{000B}' || c == '\U{000C}'
  }

  function TrimStart(s: string): (r: string)
    ensures |r| <= |s| && r == s[|s| - |r|..]
    ensures r == [] || !IsSpace(r[0])
    ensures forall i | 0 <= i < |s| - |r| :: IsSpace(s[i])
    decreases |s|
  {
    if |s| > 0 && IsSpace(s[0]) then TrimStart(s[1..]) else s
  }

  function TrimEnd(s: string): (r: string)
    ensures |r| <= |s| && r == s[..|r|]
    ensures r == [] || !IsSpace(r[|r| - 1])
    ensures forall i | |r| <= i < |s| :: IsSpace(s[i])
    decreases |s|
  {
    if |s| > 0 && IsSpace(s[|s| - 1]) then TrimEnd(s[..|s| - 1]) else s
  }

  /** `r` is the slice of `s` at `lo`, and everything of `s` outside it is whitespace. */
  ghost predicate TrimmedSlice(s: string, lo: int, r: string)
  {
    0 <= lo <= |s| - |r| && r == s[lo..lo + |r|]
    && (forall i | 0 <= i < lo :: IsSpace(s[i]))
    && (forall i | lo + |r| <= i < |s| :: IsSpace(s[i]))
  }

  /** Cutting whitespace off the front of `s` at `lo` and then off the back leaves a
      trimmed slice of `s`. */
  lemma TrimmedSliceOfTrims(s: string, lo: nat, t: string, r: string)
    requires lo <= |s| && t == s[lo..] && |r| <= |t| && r == t[..|r|]
    requires forall i | 0 <= i < lo :: IsSpace(s[i])
    requires forall j | |r| <= j < |t| :: IsSpace(t[j])
    ensures TrimmedSlice(s, lo, r)
  {
    assert r == s[lo..lo + |r|];
    forall i | lo + |r| <= i < |s|
      ensures IsSpace(s[i])
    {
      assert s[i] == t[i - lo];
    }
  }

  /** Python's `s.strip()`: the slice of `s` that neither starts nor ends with
      whitespace, everything cut off on either side being whitespace. */
  function Strip(s: string): (r: string)
    ensures exists lo :: TrimmedSlice(s, lo, r)
    ensures r == [] || (!IsSpace(r[0]) && !IsSpace(r[|r| - 1]))
  {
    var t := TrimStart(s);
    var r := TrimEnd(t);
    TrimmedSliceOfTrims(s, |s| - |t|, t, r);
    r
  }

  lemma StripIdempotent(s: string)
    ensures Strip(Strip(s)) == Strip(s)
  {
    var r := Strip(s);
    if r != [] {
      assert TrimStart(r) == r;
      assert TrimEnd(r) == r;
    }
  }

  // ---------------------------------------------------------------------------
  // Joining
  // ---------------------------------------------------------------------------

  /** Python's `sep.join(parts)`. */
  function Join(sep: string, parts: seq<string>): string
  {
    if parts == [] then []
    else if |parts| == 1 then parts[0]
    else parts[0] + sep + Join(sep, parts[1..])
  }
}
