/** The string operations the forms and list views call: `trim`, the `\s`
    class of regular expressions, `toLowerCase` (over ASCII), `includes`, and
    `toString` of a numeric id. */
module Text {

  /** The characters JavaScript counts as white space in `trim()` and in the
      regular-expression class `\s`: the WhiteSpace and LineTerminator code
      points of the language standard. */
  predicate IsSpace(c: char) {
    || c == '\t' || c == '\n' || c == '\U{000B}' || c == '\U{000C}' || c == '\r'
    || c == ' ' || c == '\U{00A0}' || c == '\U{1680}'
    || ('\U{2000}' <= c <= '\U{200A}')
    || c == '\U{2028}' || c == '\U{2029}' || c == '\U{202F}' || c == '\U{205F}'
    || c == '\U{3000}' || c == '\U{FEFF}'
  }

  /** Every character of `s` is white space (true of the empty string). */
  predicate IsBlank(s: string) {
    forall k :: 0 <= k < |s| ==> IsSpace(s[k])
  }

  /** The position of the first non-space at or after `i`, or `|s|` when
      there is none; everything before it is white space. */
  function SkipSpace(s: string, i: nat): (k: nat)
    requires i <= |s| && IsBlank(s[..i])
    ensures i <= k <= |s| && IsBlank(s[..k])
    ensures k == |s| || !IsSpace(s[k])
    decreases |s| - i
  {
    if i < |s| && IsSpace(s[i]) then
      assert forall m :: 0 <= m < i + 1 ==> s[..i + 1][m] == s[m];
      SkipSpace(s, i + 1)
    else i
  }

  /** Moving down from `j` past white space, but not below `i`: the end of
      the text once the trailing white space is dropped. */
  function DropSpace(s: string, i: nat, j: nat): (k: nat)
    requires i <= j <= |s| && IsBlank(s[j..])
    ensures i <= k <= j && IsBlank(s[k..])
    ensures k == i || !IsSpace(s[k - 1])
    decreases j - i
  {
    if i < j && IsSpace(s[j - 1]) then
      DropSpace(s, i, j - 1)
    else j
  }

  /** `s[i..j]` is `s` with the white space `s[..i]` before it and the white
      space `s[j..]` after it cut off. */
  ghost predicate CutsSpaceAround(s: string, r: string, i: int, j: int) {
    0 <= i <= j <= |s| && r == s[i..j] && IsBlank(s[..i]) && IsBlank(s[j..])
  }

  /** What is left after cutting white space around it, if it starts with a
      non-space, is empty exactly when all of `s` is white space. */
  lemma CutEmpty(s: string, r: string, i: int, j: int)
    requires CutsSpaceAround(s, r, i, j)
    requires r == [] || !IsSpace(r[0])
    ensures r == [] <==> IsBlank(s)
  {
    if r == [] {
      forall k | 0 <= k < |s|
        ensures IsSpace(s[k])
      {
        if k < i {
          assert s[..i][k] == s[k];
        } else {
          assert s[j..][k - j] == s[k];
        }
      }
    } else {
      assert s[i] == r[0];
    }
  }

  /** `s.trim()`: `s` with its leading and trailing white space cut off. It is
      empty exactly when `s` is blank, which is what the forms' `!x.trim()`
      tests. */
  function Trim(s: string): (r: string)
    ensures exists i, j :: CutsSpaceAround(s, r, i, j)
    ensures r == [] <==> IsBlank(s)
    ensures r == [] || (!IsSpace(r[0]) && !IsSpace(r[|r| - 1]))
  {
    assert s[..0] == [];
    var i := SkipSpace(s, 0);
    assert s[|s|..] == [];
    var j := DropSpace(s, i, |s|);
    assert CutsSpaceAround(s, s[i..j], i, j);
    CutEmpty(s, s[i..j], i, j);
    s[i..j]
  }

  /** `toLowerCase()` on one character, over ASCII. */
  function LowerChar(c: char): (r: char)
    ensures 'A' <= c <= 'Z' ==> 'a' <= r <= 'z' && r as int == c as int + 32
    ensures !('A' <= c <= 'Z') ==> r == c
  {
    if 'A' <= c <= 'Z' then (c as int - 'A' as int + 'a' as int) as char else c
  }

  /** `s.toLowerCase()`, over ASCII. */
  function Lower(s: string): (r: string)
    ensures |r| == |s|
    ensures forall k :: 0 <= k < |s| ==> r[k] == LowerChar(s[k])
    ensures forall k :: 0 <= k < |r| ==> !('A' <= r[k] <= 'Z')
  {
    seq(|s|, k requires 0 <= k < |s| => LowerChar(s[k]))
  }

  /** Lower-casing twice is lower-casing once. */
  lemma LowerIdempotent(s: string)
    ensures Lower(Lower(s)) == Lower(s)
  {
  }

  /** `t` occurs in `s` starting at position `i`. */
  predicate OccursAt(s: string, t: string, i: nat) {
    i + |t| <= |s| && s[i..i + |t|] == t
  }

  /** `s.includes(t)`: `t` occurs in `s` as a contiguous substring. */
  predicate Includes(s: string, t: string) {
    exists i: nat :: i <= |s| && OccursAt(s, t, i)
  }

  /** Every string includes the empty string. */
  lemma IncludesEmpty(s: string)
    ensures Includes(s, "")
  {
    assert OccursAt(s, "", 0);
  }

  /** Inclusion is transitive: whatever occurs in a substring of `s` occurs in `s`. */
  lemma IncludesTransitive(s: string, t: string, u: string)
    requires Includes(s, t) && Includes(t, u)
    ensures Includes(s, u)
  {
    var i: nat :| i <= |s| && OccursAt(s, t, i);
    var j: nat :| j <= |t| && OccursAt(t, u, j);
    forall k | 0 <= k < |u|
      ensures s[i + j + k] == u[k]
    {
      assert s[i + j + k] == s[i..i + |t|][j + k] == t[j + k];
      assert t[j + k] == t[j..j + |u|][k];
    }
    assert OccursAt(s, u, i + j);
  }

  /** A string without the first character of `t` does not include `t`. */
  lemma ExcludedByFirstChar(s: string, t: string)
    requires t != []
    requires forall k :: 0 <= k < |s| ==> s[k] != t[0]
    ensures !Includes(s, t)
  {
    forall i: nat | i <= |s|
      ensures !OccursAt(s, t, i)
    {
      if i + |t| <= |s| {
        assert s[i..i + |t|][0] == s[i];
      }
    }
  }

  /** Lower-casing keeps an occurrence where it was. */
  lemma LowerKeepsIncludes(s: string, t: string)
    requires Includes(s, t)
    ensures Includes(Lower(s), Lower(t))
  {
    var i: nat :| i <= |s| && OccursAt(s, t, i);
    assert Lower(s)[i..i + |t|] == Lower(t);
    assert OccursAt(Lower(s), Lower(t), i);
  }

  /** The character of one decimal digit. */
  function DigitChar(d: nat): (c: char)
    requires d < 10
    ensures '0' <= c <= '9'
  {
    ('0' as int + d) as char
  }

  /** The number a string of decimal digits denotes. */
  ghost function DigitsValue(r: string): int
  {
    if r == [] then 0 else 10 * DigitsValue(r[..|r| - 1]) + (r[|r| - 1] as int - '0' as int)
  }

  /** `n.toString()` for a non-negative integer id: the decimal digits of `n`,
      with no leading zero. */
  function DecimalString(n: nat): (r: string)
    ensures 1 <= |r|
    ensures forall k :: 0 <= k < |r| ==> '0' <= r[k] <= '9'
    ensures r[0] == '0' ==> n == 0
    ensures DigitsValue(r) == n
  {
    if n < 10 then
      assert [DigitChar(n)][..0] == [];
      [DigitChar(n)]
    else
      var prefix := DecimalString(n / 10);
      var r := prefix + [DigitChar(n % 10)];
      assert r[..|r| - 1] == prefix;
      r
  }
}
