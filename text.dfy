/**
 * The few JavaScript string operations the components rely on, over ASCII:
 * `trim()`, `toLowerCase()` and `includes()`.  Only the ASCII whitespace and
 * the ASCII letters are treated specially; every other character is left as is.
 */
module Text {

  /** The ASCII characters that `trim()` strips: space, tab, line feed,
      vertical tab, form feed and carriage return. */
  predicate IsSpace(c: char) {
    c == ' ' || c == '\t' || c == '\n' || c == '\U{0B}' || c == '\U{0C}' || c == '\r'
  }

  /** Every character of `s` is whitespace (the empty string included). */
  ghost predicate IsBlank(s: string) {
    forall i :: 0 <= i < |s| ==> IsSpace(s[i])
  }

  /** Strips leading whitespace: the result is a suffix of `s` that does not
      start with whitespace, and only whitespace was removed. */
  function TrimStart(s: string): (r: string)
    ensures |r| <= |s| && r == s[|s| - |r|..]
    ensures r != [] ==> !IsSpace(r[0])
    ensures forall i :: 0 <= i < |s| - |r| ==> IsSpace(s[i])
  {
    if s != [] && IsSpace(s[0]) then TrimStart(s[1..]) else s
  }

  /** Strips trailing whitespace: the result is a prefix of `s` that does not
      end with whitespace, and only whitespace was removed. */
  function TrimEnd(s: string): (r: string)
    ensures |r| <= |s| && r == s[..|r|]
    ensures r != [] ==> !IsSpace(r[|r| - 1])
    ensures forall i :: |r| <= i < |s| ==> IsSpace(s[i])
  {
    if s != [] && IsSpace(s[|s| - 1]) then TrimEnd(s[..|s| - 1]) else s
  }

  /** `s.trim()`.  It is empty exactly when `s` is blank, which is what the
      guard `if (!s.trim())` of the components tests. */
  function Trim(s: string): (r: string)
    ensures r == "" <==> IsBlank(s)
    ensures r != "" ==> !IsSpace(r[0]) && !IsSpace(r[|r| - 1])
  {
    TrimEnd(TrimStart(s))
  }

  /** `toLowerCase()` on one character, restricted to ASCII letters. */
  function LowerChar(c: char): (d: char)
    ensures 'A' <= c <= 'Z' ==> 'a' <= d <= 'z' && d as int - 'a' as int == c as int - 'A' as int
    ensures !('A' <= c <= 'Z') ==> d == c
  {
    if 'A' <= c <= 'Z' then (c as int - 'A' as int + 'a' as int) as char else c
  }

  /** `s.toLowerCase()`: same length, every character lowered. */
  function Lower(s: string): (r: string)
    ensures |r| == |s|
    ensures forall i :: 0 <= i < |s| ==> r[i] == LowerChar(s[i])
  {
    seq(|s|, i requires 0 <= i < |s| => LowerChar(s[i]))
  }

  /** `k` occurs in `s` at position `i`. */
  ghost predicate OccursAt(s: string, k: string, i: nat) {
    i + |k| <= |s| && s[i..i + |k|] == k
  }

  /** `k` occurs somewhere in `s`: the meaning of `s.includes(k)`. */
  ghost predicate Occurs(s: string, k: string) {
    exists i: nat :: OccursAt(s, k, i)
  }

  /** `s.includes(k)`, by trying each start position from the left. */
  function Contains(s: string, k: string): bool
    decreases |s|
  {
    if |k| > |s| then false
    else if s[..|k|] == k then true
    else Contains(s[1..], k)
  }

  /** `Contains` finds a substring exactly when it occurs. */
  lemma {:induction false} ContainsOccurs(s: string, k: string)
    ensures Contains(s, k) <==> Occurs(s, k)
    decreases |s|
  {
    if |k| > |s| {
      forall i: nat ensures !OccursAt(s, k, i) {}
    } else if s[..|k|] == k {
      assert OccursAt(s, k, 0);
    } else {
      ContainsOccurs(s[1..], k);
      if Occurs(s, k) {
        var i: nat :| OccursAt(s, k, i);
        assert i != 0;
        assert s[1..][i - 1..i - 1 + |k|] == s[i..i + |k|];
        assert OccursAt(s[1..], k, i - 1);
      }
      if Occurs(s[1..], k) {
        var i: nat :| OccursAt(s[1..], k, i);
        assert s[i + 1..i + 1 + |k|] == s[1..][i..i + |k|];
        assert OccursAt(s, k, i + 1);
      }
    }
  }

  /** A text occurs at the start of any text it begins. */
  lemma OccursStart(k: string, b: string)
    ensures Occurs(k + b, k)
  {
    assert (k + b)[..|k|] == k;
    assert OccursAt(k + b, k, 0);
  }

  /** What occurs in a text still occurs after something is put in front. */
  lemma OccursPrepend(a: string, s: string, k: string)
    requires Occurs(s, k)
    ensures Occurs(a + s, k)
  {
    var i: nat :| OccursAt(s, k, i);
    assert (a + s)[|a| + i..|a| + i + |k|] == s[i..i + |k|];
    assert OccursAt(a + s, k, |a| + i);
  }

  /** A word occurs in a text when its characters stand at consecutive places. */
  lemma OccursAtPlace(s: string, k: string, i: nat)
    requires i + |k| <= |s|
    requires forall j :: 0 <= j < |k| ==> s[i + j] == k[j]
    ensures Occurs(s, k)
  {
    assert s[i..i + |k|] == k;
    assert OccursAt(s, k, i);
  }

  /** A word does not occur in a text when, for some `j`, no place of the
      text holds the word's first character with the word's `j`-th character
      `j` places further on. */
  lemma NotOccursPair(s: string, k: string, j: nat)
    requires 1 <= j < |k|
    requires forall i :: 0 <= i && i + j < |s| ==> s[i] != k[0] || s[i + j] != k[j]
    ensures !Occurs(s, k)
  {
    forall i: nat ensures !OccursAt(s, k, i) {
      if i + |k| <= |s| {
        assert s[i..i + |k|][0] == s[i] && s[i..i + |k|][j] == s[i + j];
      }
    }
  }
}
