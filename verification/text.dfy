/**
 * The string operations chatbot.py relies on: `str.join`, the first
 * field of `str.split`, `str.capitalize` and `str.strip`.
 */
module Text {

  /** `sep.join(parts)`. */
  function Join(parts: seq<string>, sep: string): string
  {
    if |parts| == 0 then ""
    else if |parts| == 1 then parts[0]
    else parts[0] + sep + Join(parts[1..], sep)
  }

  /** Joining two non-empty lists is joining their joins with one more separator. */
  lemma {:induction false} JoinAppend(a: seq<string>, b: seq<string>, sep: string)
    requires a != [] && b != []
    ensures Join(a + b, sep) == Join(a, sep) + sep + Join(b, sep)
  {
    if |a| == 1 {
      assert (a + b)[1..] == b;
    } else {
      assert (a + b)[1..] == a[1..] + b;
      JoinAppend(a[1..], b, sep);
    }
  }

  /**
   * Every part occurs in the joined text, in its own place: the parts before
   * it joined, a separator unless it is the first, the part itself, a
   * separator unless it is the last, the parts after it joined.
   */
  lemma JoinAt(parts: seq<string>, sep: string, i: nat)
    requires i < |parts|
    ensures Join(parts, sep) ==
      Join(parts[..i], sep) + (if i > 0 then sep else "") + parts[i]
      + (if i + 1 < |parts| then sep else "") + Join(parts[i + 1..], sep)
  {
    var before, here, after := parts[..i], [parts[i]], parts[i + 1..];
    assert parts == before + (here + after);
    var rest := Join(here + after, sep);
    if after != [] {
      JoinAppend(here, after, sep);
      assert rest == parts[i] + sep + Join(after, sep);
    } else {
      assert here + after == here;
      assert rest == parts[i];
    }
    if before != [] {
      JoinAppend(before, here + after, sep);
    } else {
      assert parts == here + after;
    }
  }

  /** `s.split(c)[0]`: the text before the first `c`, or all of `s` when there is none. */
  function BeforeFirst(s: string, c: char): (r: string)
    ensures r <= s
    ensures c !in r
    ensures |r| < |s| ==> s[|r|] == c
  {
    if s == [] || s[0] == c then [] else [s[0]] + BeforeFirst(s[1..], c)
  }

  /** The three facts BeforeFirst promises determine its result. */
  lemma BeforeFirstUnique(s: string, c: char, r: string)
    requires r <= s && c !in r && (|r| < |s| ==> s[|r|] == c)
    ensures r == BeforeFirst(s, c)
  {
  }

  /** Text without `c` is its own first field. */
  lemma BeforeFirstWhole(s: string, c: char)
    requires c !in s
    ensures BeforeFirst(s, c) == s
  {
    BeforeFirstUnique(s, c, s);
  }

  function Upper(c: char): char
  {
    if 'a' <= c <= 'z' then (c as int - 32) as char else c
  }

  function Lower(c: char): char
  {
    if 'A' <= c <= 'Z' then (c as int + 32) as char else c
  }

  /** `s.capitalize()` on ASCII letters: the first character upper case, the rest lower case. */
  function Capitalize(s: string): (r: string)
    ensures |r| == |s|
    ensures s != [] ==> r[0] == Upper(s[0])
    ensures forall i :: 0 < i < |s| ==> r[i] == Lower(s[i])
  {
    if s == [] then [] else [Upper(s[0])] + seq(|s| - 1, i requires 0 <= i < |s| - 1 => Lower(s[i + 1]))
  }

  /** Capitalizing an already capitalized text changes nothing. */
  lemma CapitalizeIdempotent(s: string)
    ensures Capitalize(Capitalize(s)) == Capitalize(s)
  {
    var r := Capitalize(s);
    assert forall i :: 0 < i < |r| ==> Capitalize(r)[i] == Lower(Lower(s[i])) == r[i];
  }

  /** A label without capitals keeps everything after its first character. */
  lemma CapitalizeLowerLabel(s: string)
    requires forall i :: 0 <= i < |s| ==> !('A' <= s[i] <= 'Z')
    ensures s != [] ==> Capitalize(s)[1..] == s[1..]
  {
    if s != [] {
      assert forall i :: 0 <= i < |s| - 1 ==> Capitalize(s)[1..][i] == Lower(s[i + 1]) == s[1..][i];
    }
  }

  /** The characters Python's `str.strip()` removes (those for which `str.isspace()` holds). */
  predicate IsSpace(c: char)
  {
    || ('\U{9}' <= c <= '\U{D}')
    || ('\U{1C}' <= c <= '\U{20}')
    || c == '\U{85}' || c == '\U{A0}' || c == '\U{1680}'
    || ('\U{2000}' <= c <= '\U{200A}')
    || c == '\U{2028}' || c == '\U{2029}' || c == '\U{202F}' || c == '\U{205F}' || c == '\U{3000}'
  }

  /** `s.lstrip()`. */
  function TrimStart(s: string): (r: string)
    ensures |r| <= |s|
  {
    if s != [] && IsSpace(s[0]) then TrimStart(s[1..]) else s
  }

  /** `s.rstrip()`. */
  function TrimEnd(s: string): (r: string)
    ensures |r| <= |s|
  {
    if s != [] && IsSpace(s[|s| - 1]) then TrimEnd(s[..|s| - 1]) else s
  }

  /** lstrip removes a leading run of white space and stops at the first other character. */
  lemma {:induction false} TrimStartSpec(s: string)
    ensures var r := TrimStart(s);
      && |r| <= |s| && r == s[|s| - |r|..]
      && (forall i :: 0 <= i < |s| - |r| ==> IsSpace(s[i]))
      && (r != [] ==> !IsSpace(r[0]))
  {
    if s != [] && IsSpace(s[0]) {
      TrimStartSpec(s[1..]);
      var r := TrimStart(s);
      assert s[1..][|s| - 1 - |r|..] == s[|s| - |r|..];
      forall i | 0 <= i < |s| - |r|
        ensures IsSpace(s[i])
      {
        if i > 0 {
          assert s[i] == s[1..][i - 1];
        }
      }
    }
  }

  /** rstrip removes a trailing run of white space and stops at the last other character. */
  lemma {:induction false} TrimEndSpec(s: string)
    ensures var r := TrimEnd(s);
      && r <= s
      && (forall i :: |r| <= i < |s| ==> IsSpace(s[i]))
      && (r != [] ==> !IsSpace(r[|r| - 1]))
  {
    if s != [] && IsSpace(s[|s| - 1]) {
      var t := s[..|s| - 1];
      TrimEndSpec(t);
      var r := TrimEnd(s);
      forall i | |r| <= i < |s|
        ensures IsSpace(s[i])
      {
        if i < |s| - 1 {
          assert s[i] == t[i];
        }
      }
    }
  }

  /** `s.strip()`. */
  function Strip(s: string): string
  {
    TrimEnd(TrimStart(s))
  }

  /**
   * What strip promises: the result is the part of `s` between index `i` and
   * index `i + |r|`, and everything cut off on either side is white space...
   */
  lemma StripSpec(s: string) returns (i: nat)
    ensures i + |Strip(s)| <= |s| && Strip(s) == s[i..i + |Strip(s)|]
    ensures forall k :: 0 <= k < i ==> IsSpace(s[k])
    ensures forall k :: i + |Strip(s)| <= k < |s| ==> IsSpace(s[k])
  {
    TrimStartSpec(s);
    i := |s| - |TrimStart(s)|;
    StripInfix(s);
    StripTrailing(s);
  }

  lemma StripInfix(s: string)
    ensures var i := |s| - |TrimStart(s)|;
      i + |Strip(s)| <= |s| && Strip(s) == s[i..i + |Strip(s)|]
  {
    var t := TrimStart(s);
    var r := TrimEnd(t);
    TrimStartSpec(s);
    TrimEndSpec(t);
    var i := |s| - |t|;
    assert t == s[i..];
    assert r == t[..|r|];
    assert r == s[i..i + |r|];
  }

  lemma StripTrailing(s: string)
    ensures var i := |s| - |TrimStart(s)|;
      forall k :: i + |Strip(s)| <= k < |s| ==> IsSpace(s[k])
  {
    var t := TrimStart(s);
    var r := TrimEnd(t);
    TrimStartSpec(s);
    TrimEndSpec(t);
    var i := |s| - |t|;
    forall k | i + |r| <= k < |s|
      ensures IsSpace(s[k])
    {
      assert s[k] == t[k - i];
    }
  }

  /** ... and the result neither begins nor ends with white space. */
  lemma StripEnds(s: string)
    ensures Strip(s) != [] ==> !IsSpace(Strip(s)[0]) && !IsSpace(Strip(s)[|Strip(s)| - 1])
  {
    var t := TrimStart(s);
    var r := TrimEnd(t);
    TrimStartSpec(s);
    TrimEndSpec(t);
    if r != [] {
      assert r[0] == t[0];
    }
  }

  /** Stripping twice is stripping once. */
  lemma StripIdempotent(s: string)
    ensures Strip(Strip(s)) == Strip(s)
  {
    var r := Strip(s);
    StripEnds(s);
    assert TrimStart(r) == r;
    assert TrimEnd(r) == r;
  }

  /** `t in s` for strings: `t` occurs somewhere in `s`. */
  predicate Contains(s: string, t: string)
  {
    exists i :: 0 <= i <= |s| && t <= s[i..]
  }

  /** `s.endswith(t)`. */
  predicate EndsWith(s: string, t: string)
  {
    |t| <= |s| && s[|s| - |t|..] == t
  }

  lemma ContainsMiddle(a: string, t: string, b: string)
    ensures Contains(a + t + b, t)
  {
    assert (a + t + b)[|a|..] == t + b;
  }
}
