/**
 * The three JavaScript string operations the marketplace's logic relies on:
 * `toLowerCase`, `includes` and `startsWith`. Case folding is restricted to
 * ASCII ('A'..'Z' to 'a'..'z'); every other character is left as it is.
 */
module JsString {

  predicate IsUpper(c: char)
  {
    'A' <= c <= 'Z'
  }

  /** ASCII case folding of one character. */
  function LowerChar(c: char): (lower: char)
  {
    if IsUpper(c) then (c as int + 32) as char else c
  }

  /** `s.toLowerCase()`, ASCII only. */
  function ToLowerCase(s: string): (r: string)
    ensures |r| == |s|
    ensures forall i :: 0 <= i < |r| ==> !IsUpper(r[i])
    ensures forall i :: 0 <= i < |s| && !IsUpper(s[i]) ==> r[i] == s[i]
    ensures forall i :: 0 <= i < |s| && IsUpper(s[i]) ==> r[i] as int == s[i] as int + 32
  {
    seq(|s|, i requires 0 <= i < |s| => LowerChar(s[i]))
  }

  /**
   * Two characters that are equal once ASCII case is ignored: the same
   * character, or an upper-case letter and the letter 32 code points above it.
   */
  predicate SameIgnoringAsciiCase(x: char, y: char)
  {
    || x == y
    || ('A' <= x <= 'Z' && y as int == x as int + 32)
    || ('A' <= y <= 'Z' && x as int == y as int + 32)
  }

  /** Lower-casing identifies two strings exactly when they agree letter by letter up to ASCII case. */
  lemma ToLowerCaseEqualIff(a: string, b: string)
    ensures ToLowerCase(a) == ToLowerCase(b) <==>
      |a| == |b| && forall i :: 0 <= i < |a| ==> SameIgnoringAsciiCase(a[i], b[i])
  {
  }

  /** `s.startsWith(prefix)`. */
  predicate StartsWith(s: string, prefix: string)
  {
    prefix <= s
  }

  /** `s.includes(sub)`: scan the start positions of `s` from the left. */
  function Includes(s: string, sub: string): (r: bool)
    ensures sub == [] ==> r
    ensures r ==> |sub| <= |s|
    decreases |s|
  {
    if sub <= s then true
    else if s == [] then false
    else Includes(s[1..], sub)
  }

  /** `sub` occurs in `s` starting at position `i`. */
  ghost predicate OccursAt(s: string, sub: string, i: int)
  {
    0 <= i && i + |sub| <= |s| && s[i..i + |sub|] == sub
  }

  /** Reference definition of a substring: some position where it occurs. */
  ghost predicate IsSubstring(sub: string, s: string)
  {
    exists i :: OccursAt(s, sub, i)
  }

  /** The scanning `Includes` agrees with the positional definition. */
  lemma {:induction false} IncludesIsSubstring(s: string, sub: string)
    ensures Includes(s, sub) <==> IsSubstring(sub, s)
    decreases |s|
  {
    if sub <= s {
      assert OccursAt(s, sub, 0);
    } else if s == [] {
    } else {
      IncludesIsSubstring(s[1..], sub);
      if IsSubstring(sub, s) {
        var i :| OccursAt(s, sub, i);
        assert s[1..][i - 1..i - 1 + |sub|] == s[i..i + |sub|];
        assert OccursAt(s[1..], sub, i - 1);
      }
      if IsSubstring(sub, s[1..]) {
        var j :| OccursAt(s[1..], sub, j);
        assert s[1..][j..j + |sub|] == s[j + 1..j + 1 + |sub|];
        assert OccursAt(s, sub, j + 1);
      }
    }
  }
}
