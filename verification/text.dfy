/**
 * The few `java.lang.String` operations the operators use, on ASCII text:
 * case mapping, prefix / suffix / substring tests and case-insensitive
 * equality. Non-ASCII letters are left unchanged by the case mappings.
 */
module Text {

  function UpperChar(c: char): char
  {
    if 'a' <= c <= 'z' then (c as int - 32) as char else c
  }

  function LowerChar(c: char): char
  {
    if 'A' <= c <= 'Z' then (c as int + 32) as char else c
  }

  /** `String.toUpperCase` on ASCII text. */
  function ToUpper(s: string): (t: string)
    ensures |t| == |s|
    ensures forall i :: 0 <= i < |s| ==> t[i] == UpperChar(s[i])
  {
    seq(|s|, i requires 0 <= i < |s| => UpperChar(s[i]))
  }

  /** `String.toLowerCase` on ASCII text. */
  function ToLower(s: string): (t: string)
    ensures |t| == |s|
    ensures forall i :: 0 <= i < |s| ==> t[i] == LowerChar(s[i])
  {
    seq(|s|, i requires 0 <= i < |s| => LowerChar(s[i]))
  }

  /** Upper-casing twice is upper-casing once. */
  lemma ToUpperIdempotent(s: string)
    ensures ToUpper(ToUpper(s)) == ToUpper(s)
  {
  }

  /** Upper-casing forgets the case the text had. */
  lemma ToUpperOfToLower(s: string)
    ensures ToUpper(ToLower(s)) == ToUpper(s)
  {
  }

  predicate StartsWith(s: string, prefix: string)
  {
    |prefix| <= |s| && s[..|prefix|] == prefix
  }

  predicate EndsWith(s: string, suffix: string)
  {
    |suffix| <= |s| && s[|s| - |suffix|..] == suffix
  }

  /** `s.contains(p)`: `p` occurs in `s` at some offset. */
  predicate Contains(s: string, p: string)
    decreases |s|
  {
    StartsWith(s, p) || (0 < |s| && Contains(s[1..], p))
  }

  /** An occurrence at any offset makes `Contains` true. */
  lemma {:induction false} ContainsAt(s: string, p: string, k: int)
    requires 0 <= k <= |s| - |p| && s[k..k + |p|] == p
    ensures Contains(s, p)
    decreases k
  {
    if k > 0 {
      assert s[1..][k - 1..k - 1 + |p|] == s[k..k + |p|];
      ContainsAt(s[1..], p, k - 1);
    } else {
      assert s[..|p|] == s[k..k + |p|];
    }
  }

  /** A text shorter than the pattern cannot contain it. */
  lemma {:induction false} NotContainsShorter(s: string, p: string)
    requires |s| < |p|
    ensures !Contains(s, p)
    decreases |s|
  {
    if 0 < |s| {
      NotContainsShorter(s[1..], p);
    }
  }

  /**
   * A text as long as the pattern, or one longer, that differs from it at
   * index `k` (and, when one longer, also at `k + 1` from the pattern's
   * `k`) does not contain it.
   */
  lemma NotContainedDiffering(s: string, p: string, k: int)
    requires 0 <= k < |p| <= |s| <= |p| + 1
    requires s[k] != p[k]
    requires |s| == |p| + 1 ==> s[k + 1] != p[k]
    ensures !Contains(s, p)
  {
    assert s[..|p|] != p by {
      assert s[..|p|][k] != p[k];
    }
    if |s| == |p| {
      NotContainsShorter(s[1..], p);
    } else {
      assert s[1..][..|p|] != p by {
        assert s[1..][..|p|][k] != p[k];
      }
      NotContainsShorter(s[1..][1..], p);
    }
  }

  /** `String.equalsIgnoreCase` on ASCII text. */
  predicate EqualsIgnoreCase(a: string, b: string)
  {
    ToUpper(a) == ToUpper(b)
  }

  lemma EqualsIgnoreCaseExample()
    ensures EqualsIgnoreCase("Hh", "HH") && !EqualsIgnoreCase("HV", "VH")
  {
    assert ToUpper("Hh") == "HH";
    assert ToUpper("HV")[0] != ToUpper("VH")[0];
  }
}
