/**
 * The few Python string operations the backend relies on, on `seq<char>`:
 * `str.startswith`, the substring test `p in s`, `str.replace` (every
 * occurrence) and `str.strip()` with no argument.
 */
module Text {

  /** `s.startswith(p)`, compared character by character. */
  predicate StartsWith(s: string, p: string)
    ensures StartsWith(s, p) ==> |p| <= |s|
    decreases |p|
  {
    p == [] || (s != [] && s[0] == p[0] && StartsWith(s[1..], p[1..]))
  }

  /** `s.startswith(p)` holds exactly when the first `|p|` characters of `s` are `p`. */
  lemma {:induction false} StartsWithIff(s: string, p: string)
    ensures StartsWith(s, p) <==> |p| <= |s| && s[..|p|] == p
    decreases |p|
  {
    if p != [] && s != [] {
      StartsWithIff(s[1..], p[1..]);
      if |p| <= |s| && s[..|p|] == p {
        assert s[1..][..|p| - 1] == s[..|p|][1..];
      }
      if StartsWith(s, p) {
        assert s[..|p|] == [s[0]] + s[1..][..|p| - 1];
        assert p == [p[0]] + p[1..];
      }
    }
  }

  /** A string that starts with `p` and is longer is `p`, the middle part, and its last character. */
  lemma SplitAroundMiddle(c: string, p: string)
    requires StartsWith(c, p) && |c| > |p|
    ensures c == p + c[|p|..|c| - 1] + [c[|c| - 1]]
  {
    StartsWithIff(c, p);
    assert c == c[..|p|] + c[|p|..|c| - 1] + c[|c| - 1..];
  }

  /** Every string starts with itself followed by anything. */
  lemma StartsWithAppend(p: string, q: string)
    ensures StartsWith(p + q, p)
  {
    StartsWithIff(p + q, p);
    assert (p + q)[..|p|] == p;
  }

  /** Python's `p in s` on strings: `p` occurs in `s` as a contiguous substring. */
  predicate Contains(s: string, p: string)
    decreases |s|
  {
    StartsWith(s, p) || (|s| > 0 && Contains(s[1..], p))
  }

  /** `p` occurs in `s` starting at index `i`. */
  predicate OccursAt(s: string, p: string, i: int)
  {
    0 <= i && i + |p| <= |s| && s[i..i + |p|] == p
  }

  /** `p in s` holds exactly when `p` occurs at some index of `s`. */
  lemma {:induction false} ContainsIff(s: string, p: string)
    ensures Contains(s, p) <==> exists i :: OccursAt(s, p, i)
    decreases |s|
  {
    StartsWithIff(s, p);
    if |p| <= |s| {
      assert s[0..|p|] == s[..|p|];
      assert StartsWith(s, p) <==> OccursAt(s, p, 0);
    }
    if s != [] {
      var t := s[1..];
      ContainsIff(t, p);
      if Contains(t, p) {
        var j :| OccursAt(t, p, j);
        assert s[j + 1..j + 1 + |p|] == t[j..j + |p|];
        assert OccursAt(s, p, j + 1);
      }
      if i :| OccursAt(s, p, i) && i > 0 {
        assert t[i - 1..i - 1 + |p|] == s[i..i + |p|];
        assert OccursAt(t, p, i - 1);
      }
    }
  }

  /**
   * `s.replace(pat, rep)`: occurrences of `pat` are found scanning left to
   * right and never overlap; an empty `pat` matches before every character
   * and at the end.
   */
  function ReplaceAll(s: string, pat: string, rep: string): string
    decreases |s|
  {
    if pat == [] then
      if s == [] then rep else rep + [s[0]] + ReplaceAll(s[1..], pat, rep)
    else if s == [] then []
    else if StartsWith(s, pat) then rep + ReplaceAll(s[|pat|..], pat, rep)
    else [s[0]] + ReplaceAll(s[1..], pat, rep)
  }

  /** The characters for which Python's `str.isspace()` holds. */
  predicate IsSpace(c: char)
  {
    || '\t' <= c <= '\r'
    || '\U{1C}' <= c <= ' '
    || c == '\U{85}' || c == '\U{A0}' || c == '\U{1680}'
    || '\U{2000}' <= c <= '\U{200A}'
    || c == '\U{2028}' || c == '\U{2029}' || c == '\U{202F}' || c == '\U{205F}' || c == '\U{3000}'
  }

  /** `s.lstrip()`. */
  function TrimStart(s: string): string
  {
    if s != [] && IsSpace(s[0]) then TrimStart(s[1..]) else s
  }

  /** `s.rstrip()`. */
  function TrimEnd(s: string): string
  {
    if s != [] && IsSpace(s[|s| - 1]) then TrimEnd(s[..|s| - 1]) else s
  }

  /** `s.strip()`. */
  function Strip(s: string): string
  {
    TrimEnd(TrimStart(s))
  }

  /** `lstrip()` leaves the suffix that follows the leading whitespace, and it starts with a non-space. */
  lemma {:induction false} TrimStartDropsLeadingSpace(s: string)
    ensures |TrimStart(s)| <= |s| && TrimStart(s) == s[|s| - |TrimStart(s)|..]
    ensures forall k :: 0 <= k < |s| - |TrimStart(s)| ==> IsSpace(s[k])
    ensures TrimStart(s) != [] ==> !IsSpace(TrimStart(s)[0])
  {
    if s != [] && IsSpace(s[0]) {
      var t := TrimStart(s[1..]);
      TrimStartDropsLeadingSpace(s[1..]);
      assert TrimStart(s) == t;
      assert s[1..][|s| - 1 - |t|..] == s[|s| - |t|..];
      forall k | 0 <= k < |s| - |t| ensures IsSpace(s[k]) {
        if k > 0 {
          assert s[k] == s[1..][k - 1];
        }
      }
    }
  }

  /** `rstrip()` leaves the prefix that precedes the trailing whitespace, and it ends with a non-space. */
  lemma {:induction false} TrimEndDropsTrailingSpace(s: string)
    ensures |TrimEnd(s)| <= |s| && TrimEnd(s) == s[..|TrimEnd(s)|]
    ensures forall k :: |TrimEnd(s)| <= k < |s| ==> IsSpace(s[k])
    ensures TrimEnd(s) != [] ==> !IsSpace(TrimEnd(s)[|TrimEnd(s)| - 1])
  {
    if s != [] && IsSpace(s[|s| - 1]) {
      var t := TrimEnd(s[..|s| - 1]);
      TrimEndDropsTrailingSpace(s[..|s| - 1]);
      assert TrimEnd(s) == t;
      assert s[..|s| - 1][..|t|] == s[..|t|];
      forall k | |t| <= k < |s| ensures IsSpace(s[k]) {
        if k < |s| - 1 {
          assert s[k] == s[..|s| - 1][k];
        }
      }
    }
  }

  /**
   * What `strip()` returns is the infix `s[i..j]` that is left once every
   * leading and trailing whitespace character is dropped, and it neither
   * starts nor ends with whitespace.
   */
  lemma StripIsTrimmedInfix(s: string)
    ensures exists i, j ::
              && 0 <= i <= j <= |s| && Strip(s) == s[i..j]
              && (forall k :: 0 <= k < i ==> IsSpace(s[k]))
              && (forall k :: j <= k < |s| ==> IsSpace(s[k]))
    ensures Strip(s) != [] ==> !IsSpace(Strip(s)[0]) && !IsSpace(Strip(s)[|Strip(s)| - 1])
  {
    var t := TrimStart(s);
    TrimStartDropsLeadingSpace(s);
    TrimEndDropsTrailingSpace(t);
    var i := |s| - |t|;
    var j := i + |TrimEnd(t)|;
    assert Strip(s) == s[i..j];
    forall k | j <= k < |s| ensures IsSpace(s[k]) {
      assert s[k] == t[k - i];
    }
  }

  /** Stripping twice is the same as stripping once. */
  lemma StripIdempotent(s: string)
    ensures Strip(Strip(s)) == Strip(s)
  {
    var r := Strip(s);
    StripIsTrimmedInfix(s);
    assert TrimStart(r) == r;
    assert TrimEnd(r) == r;
  }

  lemma {:induction false} ContainsTail(s: string, p: string)
    requires |s| > 0 && !Contains(s, p)
    ensures !Contains(s[1..], p)
  {
  }

  /** A pattern that does not occur leaves the string unchanged. */
  lemma {:induction false} ReplaceAbsent(s: string, pat: string, rep: string)
    requires pat != [] && !Contains(s, pat)
    ensures ReplaceAll(s, pat, rep) == s
    decreases |s|
  {
    if s != [] {
      ReplaceAbsent(s[1..], pat, rep);
      assert s == [s[0]] + s[1..];
    }
  }

  /** Putting the first character of `p` back in front of the rest of `p + x + y`. */
  lemma ConsAssociates(p: string, x: string, y: string)
    requires p != []
    ensures [p[0]] + (p[1..] + x + y) == p + x + y
  {
    assert [p[0]] + p[1..] == p;
  }

  /** An occurrence at the front is replaced, and the scan resumes right after it. */
  lemma ReplaceAtFront(pat: string, rep: string, q: string)
    requires pat != []
    ensures ReplaceAll(pat + q, pat, rep) == rep + ReplaceAll(q, pat, rep)
  {
    StartsWithAppend(pat, q);
    assert (pat + q)[|pat|..] == q;
  }

  /** Where no occurrence starts, the first character is copied and the scan moves on by one. */
  lemma ReplaceCopiesHead(s: string, pat: string, rep: string)
    requires pat != [] && s != [] && !StartsWith(s, pat)
    ensures ReplaceAll(s, pat, rep) == [s[0]] + ReplaceAll(s[1..], pat, rep)
  {
  }

  /**
   * If no occurrence of `pat` starts inside a non-empty `p`, none starts at
   * the front of `p + pat + q`, and none starts inside `p` minus its first character.
   */
  lemma ClearPrefixStep(p: string, pat: string, q: string)
    requires pat != [] && p != []
    requires !Contains(p + pat[..|pat| - 1], pat)
    ensures !StartsWith(p + pat + q, pat)
    ensures !Contains(p[1..] + pat[..|pat| - 1], pat)
  {
    var s := p + pat + q;
    var head := p + pat[..|pat| - 1];
    StartsWithIff(s, pat);
    StartsWithIff(head, pat);
    assert head[..|pat|] == s[..|pat|];
    assert head[1..] == p[1..] + pat[..|pat| - 1];
    ContainsTail(head, pat);
  }

  /**
   * When no occurrence of `pat` starts inside `p` (not even one running on
   * into the `pat` that follows it), the scan copies `p`, replaces the
   * occurrence right after it and carries on with `q`.
   */
  lemma {:induction false} ReplaceAfterClearPrefix(p: string, pat: string, rep: string, q: string)
    requires pat != []
    requires !Contains(p + pat[..|pat| - 1], pat)
    ensures ReplaceAll(p + pat + q, pat, rep) == p + rep + ReplaceAll(q, pat, rep)
    decreases |p|
  {
    var s := p + pat + q;
    if p == [] {
      assert s == pat + q;
      ReplaceAtFront(pat, rep, q);
    } else {
      var r := ReplaceAll(q, pat, rep);
      ClearPrefixStep(p, pat, q);
      ReplaceCopiesHead(s, pat, rep);
      assert s[0] == p[0] && s[1..] == p[1..] + pat + q;
      ReplaceAfterClearPrefix(p[1..], pat, rep, q);
      ConsAssociates(p, rep, r);
    }
  }
}
