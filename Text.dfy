/** Text predicates used by the product search: lower-casing, substring
    containment and the binary (code-point) string order the store sorts
    names by. */
module Text {

  /** Lower-cases the ASCII letters A-Z and leaves every other character. */
  function LowerChar(c: char): char
  {
    if 'A' <= c <= 'Z' then (c as int + 32) as char else c
  }

  function Lower(s: string): (r: string)
    ensures |r| == |s|
  {
    seq(|s|, i requires 0 <= i < |s| => LowerChar(s[i]))
  }

  /** `t` occurs in `s` as a contiguous block. */
  predicate Contains(s: string, t: string)
  {
    (|t| <= |s| && s[..|t|] == t) || (s != [] && Contains(s[1..], t))
  }

  /** Case-insensitive substring test. */
  predicate ContainsIgnoreCase(s: string, t: string)
  {
    Contains(Lower(s), Lower(t))
  }

  lemma EmptyIsContained(s: string)
    ensures ContainsIgnoreCase(s, "")
  {
    assert Lower(s)[..0] == Lower("");
  }

  /** Lexicographic order on code points: the store's ascending sort on a
      string field. */
  predicate LexLe(a: string, b: string)
  {
    a == [] || (b != [] && (a[0] < b[0] || (a[0] == b[0] && LexLe(a[1..], b[1..]))))
  }

  lemma {:induction false} LexLeTotal(a: string, b: string)
    ensures LexLe(a, b) || LexLe(b, a)
  {
    if a != [] && b != [] && a[0] == b[0] {
      LexLeTotal(a[1..], b[1..]);
    }
  }
}
