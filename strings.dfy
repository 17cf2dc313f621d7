/** The few Python string operations the orchestration relies on:
    `in` (substring test), `str.strip()`, `str.lower()` and `str.startswith`. */
module PyStrings {

  /** `p in s`: `p` occurs in `s` as a contiguous substring. */
  function Contains(s: string, p: string): bool
    decreases |s|
  {
    if |p| > |s| then false
    else s[..|p|] == p || Contains(s[1..], p)
  }

  /** Independent statement of the substring test: some window of `s` equals `p`. */
  ghost predicate OccursAt(s: string, p: string, i: int) {
    0 <= i && i + |p| <= |s| && s[i..i + |p|] == p
  }

  lemma {:induction false} ContainsIff(s: string, p: string)
    ensures Contains(s, p) <==> exists i :: OccursAt(s, p, i)
    decreases |s|
  {
    if |p| > |s| {
      assert forall i :: !OccursAt(s, p, i);
    } else if s[..|p|] == p {
      assert OccursAt(s, p, 0);
    } else {
      ContainsIff(s[1..], p);
      assert !OccursAt(s, p, 0);
      forall i | 1 <= i
        ensures OccursAt(s, p, i) <==> OccursAt(s[1..], p, i - 1)
      {
        OccursShift(s, p, i);
      }
      if Contains(s[1..], p) {
        var j :| OccursAt(s[1..], p, j);
        assert OccursAt(s, p, j + 1);
      }
    }
  }

  /** A window of `s` starting at `i >= 1` is a window of `s[1..]` starting at `i - 1`. */
  lemma OccursShift(s: string, p: string, i: int)
    requires 1 <= i && |s| > 0
    ensures OccursAt(s, p, i) <==> OccursAt(s[1..], p, i - 1)
  {
    if i + |p| <= |s| {
      var t := s[1..];
      assert t[i - 1..i - 1 + |p|] == s[i..i + |p|];
    }
  }

  /** Python's `str.isspace()` for one character: the characters of Unicode
      category Zs and of bidirectional class WS, B or S. */
  predicate IsSpace(c: char) {
    ('\t' <= c <= '\r') || ('\U{1C}' <= c <= '\U{1F}') || c == ' ' || c == '\U{85}' ||
    c == '\U{A0}' || c == '\U{1680}' || ('\U{2000}' <= c <= '\U{200A}') ||
    c == '\U{2028}' || c == '\U{2029}' || c == '\U{202F}' || c == '\U{205F}' || c == '\U{3000}'
  }

  /** `s.lstrip()`: `s` without its leading whitespace. */
  function TrimStart(s: string): string {
    if |s| > 0 && IsSpace(s[0]) then TrimStart(s[1..]) else s
  }

  /** `s.rstrip()`: `s` without its trailing whitespace. */
  function TrimEnd(s: string): string {
    if |s| > 0 && IsSpace(s[|s| - 1]) then TrimEnd(s[..|s| - 1]) else s
  }

  /** Stripping the front keeps a suffix, removes only whitespace, and stops
      at the first non-whitespace character. */
  lemma {:induction false} TrimStartRemovesLeadingSpace(s: string)
    ensures var r := TrimStart(s);
      |r| <= |s| && r == s[|s| - |r|..] &&
      (forall i :: 0 <= i < |s| - |r| ==> IsSpace(s[i])) &&
      (r != [] ==> !IsSpace(r[0]))
    decreases |s|
  {
    if |s| > 0 && IsSpace(s[0]) {
      var t := s[1..];
      TrimStartRemovesLeadingSpace(t);
      var r := TrimStart(t);
      assert t[|t| - |r|..] == s[|s| - |r|..];
      forall i | 0 <= i < |s| - |r|
        ensures IsSpace(s[i])
      {
        if i > 0 {
          assert s[i] == t[i - 1];
        }
      }
    }
  }

  /** Stripping the back keeps a prefix, removes only whitespace, and stops
      at the last non-whitespace character. */
  lemma {:induction false} TrimEndRemovesTrailingSpace(s: string)
    ensures var r := TrimEnd(s);
      |r| <= |s| && r == s[..|r|] &&
      (forall i :: |r| <= i < |s| ==> IsSpace(s[i])) &&
      (r != [] ==> !IsSpace(r[|r| - 1]))
    decreases |s|
  {
    if |s| > 0 && IsSpace(s[|s| - 1]) {
      var t := s[..|s| - 1];
      TrimEndRemovesTrailingSpace(t);
      var r := TrimEnd(t);
      assert t[..|r|] == s[..|r|];
      forall i | |r| <= i < |s|
        ensures IsSpace(s[i])
      {
        if i < |s| - 1 {
          assert s[i] == t[i];
        }
      }
    }
  }

  /** `s.strip()`. */
  function Strip(s: string): string {
    TrimEnd(TrimStart(s))
  }

  /** `c.lower()` on the ASCII letters; other characters are kept. */
  function LowerChar(c: char): char {
    if 'A' <= c <= 'Z' then (c as int - 'A' as int + 'a' as int) as char else c
  }

  /** `s.lower()`, character by character. */
  function Lower(s: string): string {
    if s == [] then [] else [LowerChar(s[0])] + Lower(s[1..])
  }

  /** Lower-casing keeps the length and maps every character on its own. */
  lemma {:induction false} LowerPerCharacter(s: string)
    ensures |Lower(s)| == |s|
    ensures forall i :: 0 <= i < |s| ==> Lower(s)[i] == LowerChar(s[i])
    decreases |s|
  {
    if s != [] {
      LowerPerCharacter(s[1..]);
      forall i | 0 <= i < |s|
        ensures Lower(s)[i] == LowerChar(s[i])
      {
        if i > 0 {
          assert Lower(s)[i] == Lower(s[1..])[i - 1];
        }
      }
    }
  }

  /** `s.startswith(p)`. */
  predicate StartsWith(s: string, p: string) {
    |p| <= |s| && s[..|p|] == p
  }

  /** The whitespace `Strip` removes in front is exactly the leading run of
      whitespace: if `s[k]` is the first non-space character, `Strip(s)`
      begins with it. */
  lemma {:induction false} StripStartsAtFirstNonSpace(s: string, k: nat)
    requires k < |s| && !IsSpace(s[k])
    requires forall i :: 0 <= i < k ==> IsSpace(s[i])
    ensures Strip(s) != [] && Strip(s)[0] == s[k]
  {
    TrimStartRemovesLeadingSpace(s);
    var t := TrimStart(s);
    TrimEndRemovesTrailingSpace(t);
    var m := |s| - |t|;
    assert m <= k;
    assert t != [] && t[0] == s[m] && !IsSpace(s[m]);
    assert m == k;
    var r := TrimEnd(t);
    assert r != [] && r[0] == t[0];
  }
}
