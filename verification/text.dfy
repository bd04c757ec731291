/**
 The string primitives the settings layer relies on, with their .NET meaning:
 `char.IsWhiteSpace`, `string.IsNullOrWhiteSpace`, an ordinal prefix test and
 the ordinal `string.Replace(oldValue, newValue)`.
 */
module Text {
  import opened Platform

  /**
   `char.IsWhiteSpace`: the Unicode space, line and paragraph separators
   (categories Zs, Zl, Zp) together with U+0009..U+000D and U+0085, as of
   Unicode 6.3. Earlier Unicode data also counted U+180E as a space.
   */
  predicate IsWhiteSpace(c: char) {
    var n := c as int;
    || (0x09 <= n <= 0x0D)
    || n == 0x20
    || n == 0x85
    || n == 0xA0
    || n == 0x1680
    || (0x2000 <= n <= 0x200A)
    || n == 0x2028
    || n == 0x2029
    || n == 0x202F
    || n == 0x205F
    || n == 0x3000
  }

  /** Scans `s` left to right, as the framework does, for a non-white-space character. */
  function AllWhiteSpace(s: string): (r: bool)
    ensures r <==> forall i :: 0 <= i < |s| ==> IsWhiteSpace(s[i])
  {
    if |s| == 0 then true
    else IsWhiteSpace(s[0]) && AllWhiteSpace(s[1..])
  }

  /** `string.IsNullOrWhiteSpace`: a missing string, the empty string, or only white space. */
  predicate IsNullOrWhiteSpace(v: Option<string>) {
    match v
    case None => true
    case Some(s) => AllWhiteSpace(s)
  }

  /** Ordinal prefix test. */
  predicate StartsWith(s: string, prefix: string) {
    |prefix| <= |s| && s[..|prefix|] == prefix
  }

  /** `pat` occurs somewhere in `s`. */
  predicate Occurs(s: string, pat: string) {
    exists i :: 0 <= i <= |s| && StartsWith(s[i..], pat)
  }

  /**
   Ordinal `s.Replace(oldValue, newValue)`: scans left to right and replaces every
   non-overlapping occurrence of `oldValue` by `newValue`. The framework rejects an empty
   `oldValue`, hence the precondition.
   */
  function Replace(s: string, oldValue: string, newValue: string): (r: string)
    requires |oldValue| > 0
    ensures |newValue| <= |oldValue| ==> |r| <= |s|
    decreases |s|
  {
    if StartsWith(s, oldValue) then
      newValue + Replace(s[|oldValue|..], oldValue, newValue)
    else if |s| == 0 then
      s
    else
      [s[0]] + Replace(s[1..], oldValue, newValue)
  }

  /** Replacing a pattern that does not occur leaves the string unchanged. */
  lemma {:induction false} ReplaceAbsentIsIdentity(s: string, oldValue: string, newValue: string)
    requires |oldValue| > 0 && !Occurs(s, oldValue)
    ensures Replace(s, oldValue, newValue) == s
    decreases |s|
  {
    assert s[0..] == s;
    if |s| > 0 {
      assert !Occurs(s[1..], oldValue) by {
        forall i | 0 <= i <= |s[1..]|
          ensures !StartsWith(s[1..][i..], oldValue)
        {
          assert s[1..][i..] == s[i + 1..];
        }
      }
      ReplaceAbsentIsIdentity(s[1..], oldValue, newValue);
      assert s == [s[0]] + s[1..];
    }
  }

  /** A string that lacks the first character of `pat` does not contain `pat`. */
  lemma AbsentCharacterNoOccurrence(s: string, pat: string)
    requires |pat| > 0 && pat[0] !in s
    ensures !Occurs(s, pat)
  {
    forall i | 0 <= i <= |s|
      ensures !StartsWith(s[i..], pat)
    {
      if i < |s| {
        assert s[i..][0] == s[i];
      }
    }
  }
}
