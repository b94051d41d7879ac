/** The small part of JavaScript's value semantics that login.js relies on:
    truthiness of optional strings, `String.prototype.includes` and
    `String.prototype.toLowerCase`. */
module JsText {
  import opened Wrappers

  /** `if (s)` for a value that is a string or `undefined`: the empty string
      and `undefined` are falsy, every other string is truthy. */
  predicate Truthy(s: Option<string>)
  {
    s.Some? && s.value != ""
  }

  /** `w` occurs in `s` starting at position `i`. */
  predicate OccursAt(s: string, w: string, i: int)
  {
    0 <= i && i + |w| <= |s| && s[i..i + |w|] == w
  }

  /** `s.includes(w)`: `w` occurs in `s` at some position. */
  predicate Includes(s: string, w: string)
  {
    exists i :: 0 <= i <= |s| && OccursAt(s, w, i)
  }

  /** Lower-case of one character, ASCII letters only. */
  function LowerChar(c: char): char
  {
    if 'A' <= c <= 'Z' then (c as int - 'A' as int + 'a' as int) as char else c
  }

  /** `s.toLowerCase()` on the ASCII range, character by character. */
  function Lower(s: string): (r: string)
    ensures |r| == |s|
    ensures forall i :: 0 <= i < |s| ==> r[i] == LowerChar(s[i])
  {
    seq(|s|, i requires 0 <= i < |s| => LowerChar(s[i]))
  }

  /** Lower-casing commutes with taking a slice. */
  lemma LowerSlice(s: string, i: nat, j: nat)
    requires i <= j <= |s|
    ensures Lower(s)[i..j] == Lower(s[i..j])
  {
  }
}
