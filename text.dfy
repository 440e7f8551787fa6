/** The two string operations of the host language that the label code relies
    on: lower-casing and joining a list of strings with a separator. */
module Text {

  /** Lower-case form of one character. Covers the ASCII capitals and the
      Greek capitals (U+0391 to U+03A9, U+03A2 being unassigned); every other
      character is left as it is. No other character lower-cases to a letter
      that the modelled comparisons look for, so the outcome of those
      comparisons is the host language's. */
  function LowerChar(c: char): char {
    if 'A' <= c <= 'Z' then (c as int + 32) as char
    else if 'Α' <= c <= 'Ω' && c != '\U{03A2}' then (c as int + 32) as char
    else c
  }

  /** The characters that lower-case to `c`, when `c` itself is lower-case. */
  function CaseVariants(c: char): set<char> {
    if 'a' <= c <= 'z' || ('α' <= c <= 'ω' && c != 'ς') then {c, (c as int - 32) as char}
    else {c}
  }

  /** Lower-case form of a string, character by character. */
  function Lower(s: string): (r: string)
    ensures |r| == |s|
    ensures forall i :: 0 <= i < |s| ==> r[i] == LowerChar(s[i])
  {
    seq(|s|, i requires 0 <= i < |s| => LowerChar(s[i]))
  }

  /** `s` is `t` up to the case of its letters. */
  ghost predicate FoldsTo(s: string, t: string) {
    |s| == |t| && forall i :: 0 <= i < |s| ==> s[i] in CaseVariants(t[i])
  }

  /** `t` contains no character that lower-casing would change. */
  ghost predicate IsLowerCase(t: string) {
    forall i :: 0 <= i < |t| ==> LowerChar(t[i]) == t[i]
  }

  /** Comparing the lower-case form of `s` with a lower-case `t` is the same
      as comparing `s` with `t` letter by letter, ignoring case. */
  lemma LowerEqIff(s: string, t: string)
    requires IsLowerCase(t)
    ensures Lower(s) == t <==> FoldsTo(s, t)
  {
  }

  /** The host language's `sep.join(parts)`. */
  function Join(sep: string, parts: seq<string>): (r: string)
    ensures |parts| == 0 ==> r == ""
    ensures |parts| > 0 ==> parts[0] <= r
    decreases |parts|
  {
    if |parts| == 0 then ""
    else if |parts| == 1 then parts[0]
    else parts[0] + sep + Join(sep, parts[1..])
  }

  /** Joining two parts puts the separator between them. */
  lemma {:induction false} JoinTwo(sep: string, a: string, b: string)
    ensures Join(sep, [a, b]) == a + sep + b
  {
  }

  /** Joining three parts puts the separator between each neighbouring pair. */
  lemma {:induction false} JoinThree(sep: string, a: string, b: string, c: string)
    ensures Join(sep, [a, b, c]) == a + sep + b + sep + c
  {
    assert [a, b, c][1..] == [b, c];
    JoinTwo(sep, b, c);
  }
}
