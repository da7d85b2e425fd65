/**
 * The few `java.lang.String` operations the services rely on, over `seq<char>`.
 */
module Text {

  /** `Character.isWhitespace`: the ASCII controls TAB..CR and FS..US, SPACE, and the Unicode
      space, line and paragraph separators other than the three non-breaking spaces. */
  predicate IsWhitespace(c: char) {
    || ('\t' <= c <= '\r')
    || ('\U{1C}' <= c <= ' ')
    || c == '\U{1680}'
    || ('\U{2000}' <= c <= '\U{2006}')
    || ('\U{2008}' <= c <= '\U{200A}')
    || c == '\U{2028}' || c == '\U{2029}' || c == '\U{205F}' || c == '\U{3000}'
  }

  /** `String.isBlank`: empty, or whitespace only. A null reference is treated the same way by
      every caller that tests it, so it needs no separate case. */
  predicate IsBlank(s: string) {
    forall i | 0 <= i < |s| :: IsWhitespace(s[i])
  }

  function LowerChar(c: char): char {
    if 'A' <= c <= 'Z' then (c as int + 32) as char else c
  }

  /** `String.toLowerCase`, restricted to A..Z (see README for why this is exact for every
      keyword and extension test in the model). */
  function Lower(s: string): string {
    seq(|s|, i requires 0 <= i < |s| => LowerChar(s[i]))
  }

  /** Text without capitals is its own lowercase form. */
  lemma LowerKeepsLowercase(s: string)
    requires forall i | 0 <= i < |s| :: !('A' <= s[i] <= 'Z')
    ensures Lower(s) == s
  {
  }

  predicate StartsWith(s: string, prefix: string) {
    prefix <= s
  }

  predicate EndsWith(s: string, suffix: string) {
    |suffix| <= |s| && s[|s| - |suffix|..] == suffix
  }

  /** `String.contains`. */
  predicate Contains(s: string, part: string) {
    exists i | 0 <= i <= |s| - |part| :: part <= s[i..]
  }

  /** A text lacking a part's first character does not contain the part. */
  lemma NotContainsAbsentChar(s: string, part: string)
    requires part != [] && part[0] !in s
    ensures !Contains(s, part)
  {
    forall i | 0 <= i <= |s| - |part| ensures !(part <= s[i..]) {
      assert s[i..][0] == s[i];
    }
  }

  /** A text in which no position starts with a part's first two characters does not contain it. */
  lemma NotContainsByPair(s: string, part: string)
    requires 2 <= |part|
    requires forall i | 0 <= i <= |s| - |part| :: s[i] != part[0] || s[i + 1] != part[1]
    ensures !Contains(s, part)
  {
    forall i | 0 <= i <= |s| - |part| ensures !(part <= s[i..]) {
      assert s[i..][0] == s[i] && s[i..][1] == s[i + 1];
    }
  }

  /** Appending to a built-up text; stated once so that long concatenations need no unfolding. */
  lemma AppendAssociates(a: string, b: string, c: string)
    ensures a + b + c == a + (b + c)
  {
  }

  lemma EndsWithAfterPrefix(a: string, b: string, suffix: string)
    requires EndsWith(b, suffix)
    ensures EndsWith(a + b, suffix)
  {
    assert (a + b)[|a + b| - |suffix|..] == b[|b| - |suffix|..];
  }

  /** `%d` for a non-negative number. */
  function NatToString(n: nat): (r: string)
    ensures r != []
    ensures forall i | 0 <= i < |r| :: '0' <= r[i] <= '9'
  {
    var digit := ['0' + (n % 10) as char];
    if n < 10 then digit else NatToString(n / 10) + digit
  }

  /** Different numbers print differently. */
  lemma {:induction false} NatToStringInjective(a: nat, b: nat)
    requires NatToString(a) == NatToString(b)
    ensures a == b
    decreases a
  {
    var ra, rb := NatToString(a), NatToString(b);
    assert ra[|ra| - 1] == '0' + (a % 10) as char;
    assert rb[|rb| - 1] == '0' + (b % 10) as char;
    if 10 <= a && 10 <= b {
      assert NatToString(a / 10) == ra[..|ra| - 1];
      assert NatToString(b / 10) == rb[..|rb| - 1];
      NatToStringInjective(a / 10, b / 10);
    }
  }
}
