/** The string operations the reply guard relies on: ASCII lowercasing,
    Python's `in` substring test and Python's `str.strip()`. */
module Text {

  /** Python's `str.isspace()`: the ASCII whitespace and separator controls
      plus the Unicode space separators and line/paragraph separators. */
  predicate IsSpace(c: char) {
    var n := c as int;
    || 9 <= n <= 13 || 28 <= n <= 32
    || n == 0x85 || n == 0xA0 || n == 0x1680
    || 0x2000 <= n <= 0x200A
    || n == 0x2028 || n == 0x2029 || n == 0x202F || n == 0x205F || n == 0x3000
  }

  predicate IsUpper(c: char) {
    'A' <= c <= 'Z'
  }

  /** `lower()` on one character, restricted to the ASCII letters. */
  function LowerChar(c: char): (r: char)
    ensures IsUpper(c) ==> r as int == c as int + 32
    ensures !IsUpper(c) ==> r == c
  {
    if IsUpper(c) then (c as int + 32) as char else c
  }

  /** `str.lower()` over ASCII: each character is lowercased in place. */
  function Lower(s: string): (r: string)
    ensures |r| == |s|
    ensures forall i :: 0 <= i < |s| ==> r[i] == LowerChar(s[i])
  {
    if s == [] then [] else [LowerChar(s[0])] + Lower(s[1..])
  }

  predicate StartsWith(s: string, p: string) {
    |p| <= |s| && s[..|p|] == p
  }

  /** Python's `p in s` for strings, by scanning the start positions of `s`. */
  predicate Contains(s: string, p: string)
    decreases |s|
  {
    StartsWith(s, p) || (s != [] && Contains(s[1..], p))
  }

  /** `p` occurs in `s` beginning at index `i`. */
  ghost predicate OccursAt(s: string, p: string, i: int) {
    0 <= i && i + |p| <= |s| && s[i..i + |p|] == p
  }

  /** The scan finds `p` exactly when some position of `s` holds it. */
  lemma {:induction false} ContainsIff(s: string, p: string)
    ensures Contains(s, p) <==> exists i :: OccursAt(s, p, i)
    decreases |s|
  {
    if StartsWith(s, p) {
      assert OccursAt(s, p, 0);
    } else if s != [] {
      ContainsIff(s[1..], p);
      if Contains(s[1..], p) {
        var j :| OccursAt(s[1..], p, j);
        assert s[1..][j..j + |p|] == s[j + 1..j + 1 + |p|];
        assert OccursAt(s, p, j + 1);
      }
      if exists i :: OccursAt(s, p, i) {
        var i :| OccursAt(s, p, i);
        assert s[1..][i - 1..i - 1 + |p|] == s[i..i + |p|];
        assert OccursAt(s[1..], p, i - 1);
      }
    }
  }

  /** A pattern holding a character the text lacks cannot occur in it. */
  lemma MissingCharNoMatch(s: string, p: string, c: char)
    requires c in p && c !in s
    ensures !Contains(s, p)
  {
    ContainsIff(s, p);
  }

  /** The index of the first non-whitespace character at or after `i`,
      or `|s|` when there is none. */
  function SkipLeft(s: string, i: nat): (j: nat)
    requires i <= |s|
    ensures i <= j <= |s|
    ensures forall k :: i <= k < j ==> IsSpace(s[k])
    ensures j < |s| ==> !IsSpace(s[j])
    decreases |s| - i
  {
    if i < |s| && IsSpace(s[i]) then SkipLeft(s, i + 1) else i
  }

  /** The index just past the last non-whitespace character before `j`,
      scanning no lower than `lo`. */
  function SkipRight(s: string, lo: nat, j: nat): (k: nat)
    requires lo <= j <= |s|
    ensures lo <= k <= j
    ensures forall m :: k <= m < j ==> IsSpace(s[m])
    ensures k > lo ==> !IsSpace(s[k - 1])
    decreases j
  {
    if j > lo && IsSpace(s[j - 1]) then SkipRight(s, lo, j - 1) else j
  }

  /** `r` is `s[a..b]` with only whitespace outside it. */
  ghost predicate StrippedAt(s: string, r: string, a: int, b: int) {
    && 0 <= a <= b <= |s|
    && r == s[a..b]
    && (forall i :: 0 <= i < a ==> IsSpace(s[i]))
    && (forall i :: b <= i < |s| ==> IsSpace(s[i]))
  }

  /** Python's `str.strip()` with no argument: leading whitespace is skipped,
      then trailing whitespace. */
  function Strip(s: string): (r: string)
    ensures exists a, b :: StrippedAt(s, r, a, b)
    ensures r != [] ==> !IsSpace(r[0]) && !IsSpace(r[|r| - 1])
  {
    var a := SkipLeft(s, 0);
    var b := SkipRight(s, a, |s|);
    assert StrippedAt(s, s[a..b], a, b);
    s[a..b]
  }

  /** Text with no whitespace at either end is left alone by `strip()`. */
  lemma StripUnchanged(s: string)
    requires s != [] ==> !IsSpace(s[0]) && !IsSpace(s[|s| - 1])
    ensures Strip(s) == s
  {
  }
}
