/** The string operations the core relies on: ASCII lowercasing (`str.lower`),
    the substring test (`needle in haystack`) and replace-all (`str.replace`). */
module Strings {

  /** True for the ASCII capital letters. */
  predicate IsUpper(c: char) {
    'A' <= c <= 'Z'
  }

  /** ASCII lowercasing of one character; every other character is kept. */
  function LowerChar(c: char): (r: char)
    ensures !IsUpper(r)
  {
    if IsUpper(c) then (c as int + 32) as char else c
  }

  /** `s.lower()` restricted to ASCII: a length-preserving character map. */
  function Lower(s: string): (r: string)
    ensures |r| == |s|
    ensures forall i :: 0 <= i < |s| ==> r[i] == LowerChar(s[i])
  {
    seq(|s|, i requires 0 <= i < |s| => LowerChar(s[i]))
  }

  /** Lowercasing twice is lowercasing once. */
  lemma LowerIdempotent(s: string)
    ensures Lower(Lower(s)) == Lower(s)
  {
    assert forall i :: 0 <= i < |s| ==> Lower(Lower(s))[i] == Lower(s)[i];
  }

  /** Lowercasing works character by character, so it distributes over `+`. */
  lemma LowerConcat(a: string, b: string)
    ensures Lower(a + b) == Lower(a) + Lower(b)
  {
    assert forall i :: 0 <= i < |a + b| ==> Lower(a + b)[i] == (Lower(a) + Lower(b))[i];
  }

  // ---------------------------------------------------------------------------
  // Substring test

  /** `s.startswith(p)`, decided character by character. */
  predicate StartsWith(s: string, p: string)
    decreases |p|
  {
    |p| == 0 || (|s| > 0 && s[0] == p[0] && StartsWith(s[1..], p[1..]))
  }

  /** Python's `needle in haystack` for strings: some suffix of the haystack
      starts with the needle (the empty needle is in every string). */
  predicate Contains(haystack: string, needle: string)
    ensures |needle| == 0 ==> Contains(haystack, needle)
    decreases |haystack|
  {
    StartsWith(haystack, needle) || (|haystack| > 0 && Contains(haystack[1..], needle))
  }

  /** The needle occurs in the haystack at index `i`. */
  predicate OccursAt(haystack: string, needle: string, i: int) {
    0 <= i && i + |needle| <= |haystack| && haystack[i..i + |needle|] == needle
  }

  /** The character-wise prefix test agrees with slice comparison. */
  lemma {:induction false} StartsWithIffPrefix(s: string, p: string)
    ensures StartsWith(s, p) <==> |p| <= |s| && s[..|p|] == p
    decreases |p|
  {
    if |p| > 0 && |s| > 0 {
      StartsWithIffPrefix(s[1..], p[1..]);
      if |p| <= |s| {
        assert s[..|p|] == [s[0]] + s[1..][..|p| - 1];
        assert p == [p[0]] + p[1..];
      }
    }
  }

  /** The recursive substring test agrees with the index-based definition. */
  lemma {:induction false} ContainsIffOccurs(haystack: string, needle: string)
    ensures Contains(haystack, needle) <==> exists i :: OccursAt(haystack, needle, i)
    decreases |haystack|
  {
    StartsWithIffPrefix(haystack, needle);
    if StartsWith(haystack, needle) {
      assert OccursAt(haystack, needle, 0);
    } else if |haystack| > 0 {
      var rest := haystack[1..];
      ContainsIffOccurs(rest, needle);
      if Contains(rest, needle) {
        var i :| OccursAt(rest, needle, i);
        assert haystack[i + 1..i + 1 + |needle|] == rest[i..i + |needle|];
        assert OccursAt(haystack, needle, i + 1);
      } else {
        forall i | OccursAt(haystack, needle, i)
          ensures false
        {
          assert i != 0;
          assert rest[i - 1..i - 1 + |needle|] == haystack[i..i + |needle|];
          assert OccursAt(rest, needle, i - 1);
        }
      }
    }
  }

  /** A match survives any text added on either side. */
  lemma ContainsExtended(prefix: string, text: string, suffix: string, needle: string)
    requires Contains(text, needle)
    ensures Contains(prefix + text + suffix, needle)
  {
    ContainsIffOccurs(text, needle);
    var i :| OccursAt(text, needle, i);
    var whole := prefix + text + suffix;
    assert whole[|prefix| + i..|prefix| + i + |needle|] == text[i..i + |needle|];
    assert OccursAt(whole, needle, |prefix| + i);
    ContainsIffOccurs(whole, needle);
  }

  /** A haystack shorter than the needle cannot contain it. */
  lemma NotContainsShort(haystack: string, needle: string)
    requires |haystack| < |needle|
    ensures !Contains(haystack, needle)
  {
    ContainsIffOccurs(haystack, needle);
  }

  /** A haystack lacking one of the needle's characters cannot contain it. */
  lemma NotContainsWithoutChar(haystack: string, needle: string, c: char)
    requires c in needle && c !in haystack
    ensures !Contains(haystack, needle)
  {
    ContainsIffOccurs(haystack, needle);
    var k :| 0 <= k < |needle| && needle[k] == c;
    forall i
      ensures !OccursAt(haystack, needle, i)
    {
      if 0 <= i && i + |needle| <= |haystack| {
        assert haystack[i..i + |needle|][k] == haystack[i + k] != c;
      }
    }
  }

  /** A needle without the character `c` cannot match across an occurrence
      of `c`, so a match in `a + [c] + b` lies inside `a` or inside `b`. */
  lemma NotContainsAcross(a: string, c: char, b: string, needle: string)
    requires c !in needle
    requires !Contains(a, needle) && !Contains(b, needle)
    ensures !Contains(a + [c] + b, needle)
  {
    var whole := a + [c] + b;
    ContainsIffOccurs(a, needle);
    ContainsIffOccurs(b, needle);
    ContainsIffOccurs(whole, needle);
    forall i
      ensures !OccursAt(whole, needle, i)
    {
      if 0 <= i && i + |needle| <= |whole| {
        if i + |needle| <= |a| {
          assert whole[i..i + |needle|] == a[i..i + |needle|];
          assert !OccursAt(a, needle, i);
        } else if i > |a| {
          var j := i - |a| - 1;
          assert whole[i..i + |needle|] == b[j..j + |needle|];
          assert !OccursAt(b, needle, j);
        } else {
          assert whole[i..i + |needle|][|a| - i] == c;
        }
      }
    }
  }

  // ---------------------------------------------------------------------------
  // Replace-all

  /** `s.replace(pat, rep)`: scanning left to right, every non-overlapping
      occurrence of the non-empty `pat` is replaced by `rep`. */
  function ReplaceAll(s: string, pat: string, rep: string): (r: string)
    requires |pat| > 0
    ensures |pat| <= |rep| ==> |s| <= |r|
    ensures |rep| <= |pat| ==> |r| <= |s|
    decreases |s|
  {
    if StartsWith(s, pat) then
      StartsWithIffPrefix(s, pat);
      rep + ReplaceAll(s[|pat|..], pat, rep)
    else if |s| == 0 then s
    else [s[0]] + ReplaceAll(s[1..], pat, rep)
  }

  /** A leading occurrence is replaced and the scan resumes after it. */
  lemma ReplaceAllLeading(pat: string, rest: string, rep: string)
    requires |pat| > 0
    ensures ReplaceAll(pat + rest, pat, rep) == rep + ReplaceAll(rest, pat, rep)
  {
    StartsWithIffPrefix(pat + rest, pat);
    assert (pat + rest)[..|pat|] == pat;
    assert (pat + rest)[|pat|..] == rest;
  }

  /** The scan at the first occurrence: when `a + pat` holds no occurrence
      of `pat` ending before the one written out, `a` is copied, that
      occurrence becomes `rep`, and the scan resumes on the text after it. */
  lemma {:induction false} ReplaceAllFirstOccurrence(a: string, pat: string, rep: string, b: string)
    requires |pat| > 0
    requires !Contains(a + pat[..|pat| - 1], pat)
    ensures ReplaceAll(a + pat + b, pat, rep) == a + rep + ReplaceAll(b, pat, rep)
    decreases |a|
  {
    var s := a + pat + b;
    if |a| == 0 {
      assert s == pat + b;
      ReplaceAllLeading(pat, b, rep);
    } else {
      var prefix := a + pat[..|pat| - 1];
      NoEarlierStart(a, pat, b);
      assert prefix[1..] == a[1..] + pat[..|pat| - 1];
      ReplaceAllFirstOccurrence(a[1..], pat, rep, b);
      assert s[1..] == a[1..] + pat + b;
      assert ReplaceAll(s, pat, rep) == [s[0]] + ReplaceAll(s[1..], pat, rep);
      assert a == [a[0]] + a[1..];
    }
  }

  /** `a + pat + b` does not start with `pat` when `a` is non-empty and
      `a + pat` minus its last character holds no occurrence. */
  lemma NoEarlierStart(a: string, pat: string, b: string)
    requires |pat| > 0 && |a| > 0
    requires !Contains(a + pat[..|pat| - 1], pat)
    ensures !StartsWith(a + pat + b, pat)
  {
    var s := a + pat + b;
    var prefix := a + pat[..|pat| - 1];
    StartsWithIffPrefix(s, pat);
    StartsWithIffPrefix(prefix, pat);
    assert s[..|pat|] == prefix[..|pat|];
  }

  /** Every string holding the pattern splits at its first occurrence, in the
      form `ReplaceAllFirstOccurrence` takes. */
  lemma {:induction false} FirstOccurrenceSplit(s: string, pat: string)
    requires |pat| > 0
    requires Contains(s, pat)
    ensures exists i :: OccursAt(s, pat, i) && !Contains(s[..i] + pat[..|pat| - 1], pat)
    decreases |s|
  {
    StartsWithIffPrefix(s, pat);
    if StartsWith(s, pat) {
      NotContainsShort(s[..0] + pat[..|pat| - 1], pat);
      assert OccursAt(s, pat, 0);
    } else {
      var rest := s[1..];
      FirstOccurrenceSplit(rest, pat);
      var j :| OccursAt(rest, pat, j) && !Contains(rest[..j] + pat[..|pat| - 1], pat);
      var x := s[..j + 1] + pat[..|pat| - 1];
      assert x[1..] == rest[..j] + pat[..|pat| - 1];
      assert s[j + 1..j + 1 + |pat|] == rest[j..j + |pat|];
      assert OccursAt(s, pat, j + 1);
      NoStartBeforeOccurrence(s, pat, j + 1);
    }
  }

  /** When `s` does not start with `pat` but has it at index `i`, the text up
      to that occurrence, without the occurrence's last character, does not
      start with `pat` either. */
  lemma NoStartBeforeOccurrence(s: string, pat: string, i: int)
    requires |pat| > 0 && !StartsWith(s, pat) && OccursAt(s, pat, i)
    ensures !StartsWith(s[..i] + pat[..|pat| - 1], pat)
  {
    var x := s[..i] + pat[..|pat| - 1];
    StartsWithIffPrefix(s, pat);
    StartsWithIffPrefix(x, pat);
    if |pat| <= |x| {
      forall k | 0 <= k < |pat|
        ensures x[k] == s[k]
      {
        if k >= i {
          assert x[k] == pat[k - i] == s[i..i + |pat|][k - i];
        }
      }
      assert x[..|pat|] == s[..|pat|];
    }
  }

  /** Replacing in a string that holds the pattern keeps the text before its
      first occurrence, writes `rep` there and replaces in the rest. */
  lemma ReplaceAllSplitsAtFirst(s: string, pat: string, rep: string)
    requires |pat| > 0
    requires Contains(s, pat)
    ensures exists i ::
      && OccursAt(s, pat, i)
      && ReplaceAll(s, pat, rep) == s[..i] + rep + ReplaceAll(s[i + |pat|..], pat, rep)
  {
    FirstOccurrenceSplit(s, pat);
    var i :| OccursAt(s, pat, i) && !Contains(s[..i] + pat[..|pat| - 1], pat);
    assert s == s[..i] + pat + s[i + |pat|..];
    ReplaceAllFirstOccurrence(s[..i], pat, rep, s[i + |pat|..]);
  }

  /** Without an occurrence of the pattern, replacing changes nothing. */
  lemma {:induction false} ReplaceAllWithoutMatch(s: string, pat: string, rep: string)
    requires |pat| > 0
    requires !Contains(s, pat)
    ensures ReplaceAll(s, pat, rep) == s
    decreases |s|
  {
    if |s| > 0 {
      ReplaceAllWithoutMatch(s[1..], pat, rep);
      assert s == [s[0]] + s[1..];
    }
  }

  /** Every occurrence of the pattern puts the replacement into the output. */
  lemma {:induction false} ReplaceAllIntroduces(s: string, pat: string, rep: string)
    requires |pat| > 0
    requires Contains(s, pat)
    ensures Contains(ReplaceAll(s, pat, rep), rep)
    decreases |s|
  {
    if StartsWith(s, pat) {
      StartsWithIffPrefix(s, pat);
      var tail := ReplaceAll(s[|pat|..], pat, rep);
      StartsWithIffPrefix(rep + tail, rep);
      assert (rep + tail)[..|rep|] == rep;
    } else {
      ReplaceAllIntroduces(s[1..], pat, rep);
      var tail := ReplaceAll(s[1..], pat, rep);
      assert ([s[0]] + tail)[1..] == tail;
    }
  }

  /** No occurrence of `needle` can start inside `rep` when `rep` does not
      hold the needle's first character. */
  lemma {:induction false} NoMatchStartsInside(rep: string, x: string, needle: string)
    requires |needle| > 0 && needle[0] !in rep
    requires !Contains(x, needle)
    ensures !Contains(rep + x, needle)
    decreases |rep|
  {
    if |rep| > 0 {
      NoMatchStartsInside(rep[1..], x, needle);
      assert (rep + x)[1..] == rep[1..] + x;
      assert (rep + x)[0] == rep[0];
    } else {
      assert rep + x == x;
    }
  }

  /** A prefix of the output free of `rep[0]` already stood at the head of
      the input: the scan copies characters and only ever inserts `rep`. */
  lemma {:induction false} OutputPrefixFromInput(t: string, pat: string, rep: string, w: string)
    requires |pat| > 0 && |rep| > 0 && rep[0] !in w
    requires StartsWith(ReplaceAll(t, pat, rep), w)
    ensures StartsWith(t, w)
    decreases |t|
  {
    if |w| > 0 {
      if StartsWith(t, pat) {
        assert false;
      } else if |t| > 0 {
        var tail := ReplaceAll(t[1..], pat, rep);
        assert ([t[0]] + tail)[1..] == tail;
        OutputPrefixFromInput(t[1..], pat, rep, w[1..]);
      }
    }
  }

  /** When neither string can start inside the other (`pat[0] !in rep` and
      `rep[0] !in pat`), the output holds no occurrence of the pattern. */
  lemma {:induction false} ReplaceAllRemoves(s: string, pat: string, rep: string)
    requires |pat| > 0 && |rep| > 0
    requires pat[0] !in rep && rep[0] !in pat
    ensures !Contains(ReplaceAll(s, pat, rep), pat)
    decreases |s|
  {
    if StartsWith(s, pat) {
      StartsWithIffPrefix(s, pat);
      ReplaceAllRemoves(s[|pat|..], pat, rep);
      NoMatchStartsInside(rep, ReplaceAll(s[|pat|..], pat, rep), pat);
    } else if |s| == 0 {
      NotContainsShort(s, pat);
    } else {
      var tail := ReplaceAll(s[1..], pat, rep);
      ReplaceAllRemoves(s[1..], pat, rep);
      var out := [s[0]] + tail;
      assert out[1..] == tail;
      if StartsWith(out, pat) {
        assert s[0] == pat[0];
        assert StartsWith(tail, pat[1..]);
        assert forall k :: 0 <= k < |pat| - 1 ==> pat[1..][k] == pat[k + 1];
        assert rep[0] !in pat[1..];
        OutputPrefixFromInput(s[1..], pat, rep, pat[1..]);
      }
    }
  }
}
