/**
 * The few pieces of Python's `str` behaviour the parsers rely on: `str.isspace`,
 * `str.strip()`, `str.lower()`, `re.sub(r"\s+", " ", s)`, `startswith`, `endswith`,
 * the `in` substring test and `" ".join`.
 */
module Strings {

  /** Python's `str.isspace()` for one character (also what `\s` matches in `re`). */
  predicate IsSpace(c: char)
  {
    || ('\t' <= c <= '\r')
    || ('\U{1C}' <= c <= '\U{1F}')
    || c == ' ' || c == '\U{85}' || c == '\U{A0}' || c == '\U{1680}'
    || ('\U{2000}' <= c <= '\U{200A}')
    || c == '\U{2028}' || c == '\U{2029}' || c == '\U{202F}' || c == '\U{205F}' || c == '\U{3000}'
  }

  /** Neither the first nor the last character is whitespace. */
  predicate NoEdgeSpace(s: string)
  {
    |s| == 0 || (!IsSpace(s[0]) && !IsSpace(s[|s| - 1]))
  }

  /** `s` with its leading whitespace removed: the longest suffix that starts with a non-space. */
  function TrimStart(s: string): (r: string)
    ensures |r| <= |s| && r == s[|s| - |r|..]
    ensures forall k :: 0 <= k < |s| - |r| ==> IsSpace(s[k])
    ensures |r| == 0 || !IsSpace(r[0])
  {
    if |s| > 0 && IsSpace(s[0]) then TrimStart(s[1..]) else s
  }

  /** `s` with its trailing whitespace removed. */
  function TrimEnd(s: string): (r: string)
    ensures |r| <= |s| && r == s[..|r|]
    ensures forall k :: |r| <= k < |s| ==> IsSpace(s[k])
    ensures |r| == 0 || !IsSpace(r[|r| - 1])
  {
    if |s| > 0 && IsSpace(s[|s| - 1]) then TrimEnd(s[..|s| - 1]) else s
  }

  /** `r` is `s[i..i + |r|]` and everything of `s` around it is whitespace. */
  ghost predicate SpaceBoundedSlice(s: string, r: string, i: int)
  {
    && OccursAt(s, r, i)
    && (forall k :: 0 <= k < i ==> IsSpace(s[k]))
    && (forall k :: i + |r| <= k < |s| ==> IsSpace(s[k]))
  }

  /** Python's `s.strip()`: drops whitespace at both ends and keeps everything between. */
  function Strip(s: string): (r: string)
    ensures NoEdgeSpace(r)
    ensures exists i :: SpaceBoundedSlice(s, r, i)
  {
    var t := TrimStart(s);
    var r := TrimEnd(t);
    TrimBothBounded(s);
    assert |r| > 0 ==> r[0] == t[0];
    r
  }

  /** Trimming both ends leaves a slice of `s` with only whitespace around it. */
  lemma TrimBothBounded(s: string)
    ensures SpaceBoundedSlice(s, TrimEnd(TrimStart(s)), |s| - |TrimStart(s)|)
  {
    var t := TrimStart(s);
    var r := TrimEnd(t);
    var i := |s| - |t|;
    SliceOfSuffix(s, t, r, i);
    SpacesAfterSlice(s, t, r, i);
  }

  /** A prefix `r` of the suffix `t == s[i..]` is the slice of `s` at `i`. */
  lemma SliceOfSuffix(s: string, t: string, r: string, i: int)
    requires 0 <= i <= |s| && t == s[i..]
    requires |r| <= |t| && r == t[..|r|]
    ensures OccursAt(s, r, i)
  {
    assert s[i..i + |r|] == r by {
      forall k | 0 <= k < |r|
        ensures s[i..i + |r|][k] == r[k]
      {
        assert r[k] == t[k] == s[i + k];
      }
    }
  }

  /** Whitespace after the prefix `r` of `t == s[i..]` is whitespace of `s` after the slice. */
  lemma SpacesAfterSlice(s: string, t: string, r: string, i: int)
    requires 0 <= i <= |s| && t == s[i..] && |r| <= |t|
    requires forall k :: |r| <= k < |t| ==> IsSpace(t[k])
    ensures forall k :: i + |r| <= k < |s| ==> IsSpace(s[k])
  {
    forall k | i + |r| <= k < |s|
      ensures IsSpace(s[k])
    {
      assert s[k] == t[k - i];
    }
  }


  /** A string without whitespace at its ends is left alone by `strip()`. */
  lemma StripKeeps(s: string)
    requires NoEdgeSpace(s)
    ensures Strip(s) == s
  {
  }

  lemma StripIdempotent(s: string)
    ensures Strip(Strip(s)) == Strip(s)
  {
    StripKeeps(Strip(s));
  }

  /**
   * `str.lower()` for one character, for the letters the reports use: ASCII, Latin-1 and
   * the Cyrillic block U+0400..U+042F. Every other character is left as it is.
   */
  function LowerChar(c: char): (l: char)
    ensures IsSpace(l) <==> IsSpace(c)
  {
    if 'A' <= c <= 'Z' then (c as int + 32) as char
    else if '\U{C0}' <= c <= '\U{DE}' && c != '\U{D7}' then (c as int + 32) as char
    else if '\U{410}' <= c <= '\U{42F}' then (c as int + 32) as char
    else if '\U{400}' <= c <= '\U{40F}' then (c as int + 80) as char
    else c
  }

  lemma LowerCharIdempotent(c: char)
    ensures LowerChar(LowerChar(c)) == LowerChar(c)
  {
  }

  function Lower(s: string): (r: string)
    ensures |r| == |s|
    ensures forall k :: 0 <= k < |s| ==> r[k] == LowerChar(s[k])
  {
    seq(|s|, k requires 0 <= k < |s| => LowerChar(s[k]))
  }

  /** Every character is already lower case. */
  predicate IsLowered(s: string)
  {
    forall k :: 0 <= k < |s| ==> LowerChar(s[k]) == s[k]
  }

  /** Every whitespace character is a plain space and no two whitespace characters touch. */
  predicate Collapsed(s: string)
  {
    && (forall k :: 0 <= k < |s| && IsSpace(s[k]) ==> s[k] == ' ')
    && (forall k :: 0 <= k < |s| - 1 ==> !(IsSpace(s[k]) && IsSpace(s[k + 1])))
  }

  /** Python's `re.sub(r"\s+", " ", s)`: every maximal run of whitespace becomes one space. */
  function CollapseSpaces(s: string): (r: string)
    decreases |s|
  {
    if |s| == 0 then ""
    else if IsSpace(s[0]) then " " + CollapseSpaces(TrimStart(s))
    else [s[0]] + CollapseSpaces(s[1..])
  }

  lemma {:induction false} CollapseSpacesCollapsed(s: string)
    ensures Collapsed(CollapseSpaces(s))
    ensures |s| > 0 ==> |CollapseSpaces(s)| > 0 && (IsSpace(CollapseSpaces(s)[0]) <==> IsSpace(s[0]))
    decreases |s|
  {
    if |s| > 0 {
      if IsSpace(s[0]) {
        CollapseSpacesCollapsed(TrimStart(s));
      } else {
        CollapseSpacesCollapsed(s[1..]);
      }
    }
  }

  /** Trimming the front of a string that ends in a non-space keeps that last character. */
  lemma TrimStartKeepsLast(s: string)
    requires |s| > 0 && !IsSpace(s[|s| - 1])
    ensures |TrimStart(s)| > 0 && TrimStart(s)[|TrimStart(s)| - 1] == s[|s| - 1]
  {
    var t := TrimStart(s);
    assert t == s[|s| - |t|..];
  }

  /** Appending a non-empty string keeps its last character last. */
  lemma LastOfAppend(prefix: string, rest: string)
    requires |rest| > 0
    ensures |prefix + rest| > 0 && (prefix + rest)[|prefix + rest| - 1] == rest[|rest| - 1]
  {
  }

  /** One unfolding of `CollapseSpaces`; trimming a leading space shortens the string. */
  lemma CollapseSpacesStep(s: string)
    requires |s| > 0
    ensures IsSpace(s[0]) ==> |TrimStart(s)| < |s| && CollapseSpaces(s) == " " + CollapseSpaces(TrimStart(s))
    ensures !IsSpace(s[0]) ==> CollapseSpaces(s) == [s[0]] + CollapseSpaces(s[1..])
  {
  }

  /** Collapsing keeps a final non-space character last. */
  lemma {:induction false} CollapseSpacesLastChar(s: string)
    requires |s| > 0 && !IsSpace(s[|s| - 1])
    ensures |CollapseSpaces(s)| > 0 && CollapseSpaces(s)[|CollapseSpaces(s)| - 1] == s[|s| - 1]
    decreases |s|
  {
    CollapseSpacesStep(s);
    if IsSpace(s[0]) {
      var t := TrimStart(s);
      TrimStartKeepsLast(s);
      CollapseSpacesLastChar(t);
      LastOfAppend(" ", CollapseSpaces(t));
    } else if |s| > 1 {
      CollapseSpacesLastChar(s[1..]);
      LastOfAppend([s[0]], CollapseSpaces(s[1..]));
    }
  }

  /** Every character of the result is a space or a character of the input. */
  lemma {:induction false} CollapseSpacesChars(s: string)
    ensures forall k :: 0 <= k < |CollapseSpaces(s)| ==> CollapseSpaces(s)[k] == ' ' || CollapseSpaces(s)[k] in s
    decreases |s|
  {
    if |s| > 0 {
      if IsSpace(s[0]) {
        var t := TrimStart(s);
        CollapseSpacesChars(t);
        forall c | c in t ensures c in s {
          var k :| 0 <= k < |t| && t[k] == c;
          assert s[|s| - |t| + k] == c;
        }
      } else {
        CollapseSpacesChars(s[1..]);
      }
    }
  }

  /** A string that is already collapsed is a fixed point. */
  lemma {:induction false} CollapseSpacesKeeps(s: string)
    requires Collapsed(s)
    ensures CollapseSpaces(s) == s
    decreases |s|
  {
    if |s| > 0 {
      if IsSpace(s[0]) {
        assert TrimStart(s) == s[1..] by {
          assert s[1..] == [] || !IsSpace(s[1]);
        }
        CollapseSpacesKeeps(s[1..]);
      } else {
        CollapseSpacesKeeps(s[1..]);
      }
      assert s == [s[0]] + s[1..];
    }
  }

  function StartsWith(s: string, prefix: string): bool
  {
    |prefix| <= |s| && s[..|prefix|] == prefix
  }

  function EndsWith(s: string, suffix: string): bool
  {
    |suffix| <= |s| && s[|s| - |suffix|..] == suffix
  }

  /** `needle` occurs in `hay` starting at index `i`. */
  predicate OccursAt(hay: string, needle: string, i: int)
  {
    0 <= i && i + |needle| <= |hay| && hay[i..i + |needle|] == needle
  }

  /** Python's `needle in hay` for strings. */
  predicate Contains(hay: string, needle: string)
  {
    exists i :: 0 <= i <= |hay| && OccursAt(hay, needle, i)
  }

  /** A one-character needle is found exactly when that character occurs. */
  lemma ContainsChar(hay: string, c: char)
    ensures Contains(hay, [c]) <==> c in hay
  {
    if c in hay {
      var i :| 0 <= i < |hay| && hay[i] == c;
      assert OccursAt(hay, [c], i);
    }
    if Contains(hay, [c]) {
      var i :| 0 <= i <= |hay| && OccursAt(hay, [c], i);
      assert hay[i..i + 1][0] == hay[i];
    }
  }

  /** Python's `sep.join(parts)`. */
  function Join(sep: string, parts: seq<string>): string
  {
    if |parts| == 0 then ""
    else if |parts| == 1 then parts[0]
    else Join(sep, parts[..|parts| - 1]) + sep + parts[|parts| - 1]
  }
}
