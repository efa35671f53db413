/**
  The string operations the scraper applies: `sep.join(xs)`, and the
  detail-page path segment `s.replace(' ', '-').lower()`.
 */
module Text {

  /** Python's `sep.join(xs)`. */
  function Join(sep: string, xs: seq<string>): string
    decreases |xs|
  {
    if xs == [] then ""
    else if |xs| == 1 then xs[0]
    else xs[0] + sep + Join(sep, xs[1..])
  }

  /** `str.lower()` on one character, restricted to ASCII. */
  function LowerAscii(c: char): char {
    if 'A' <= c <= 'Z' then (c as int + 32) as char else c
  }

  /** `s.replace(from, to)` for single characters. */
  function ReplaceChar(s: string, from: char, to: char): string {
    seq(|s|, i requires 0 <= i < |s| => if s[i] == from then to else s[i])
  }

  /** `s.lower()` on ASCII letters; every other character is kept. */
  function Lower(s: string): string {
    seq(|s|, i requires 0 <= i < |s| => LowerAscii(s[i]))
  }

  /** `s.replace(' ', '-').lower()`: the state and city segments of a detail URL. */
  function Slug(s: string): string {
    Lower(ReplaceChar(s, ' ', '-'))
  }

  /**
    A slug has the length of its text and keeps no space and no ASCII capital:
    each space becomes a hyphen, each ASCII capital its lower-case letter, and
    every other character stays as it is.
   */
  lemma SlugShape(s: string)
    ensures |Slug(s)| == |s|
    ensures forall i :: 0 <= i < |s| ==> Slug(s)[i] != ' ' && !('A' <= Slug(s)[i] <= 'Z')
    ensures forall i :: 0 <= i < |s| && s[i] == ' ' ==> Slug(s)[i] == '-'
    ensures forall i :: 0 <= i < |s| && 'A' <= s[i] <= 'Z' ==> Slug(s)[i] as int == s[i] as int + 32
    ensures forall i :: 0 <= i < |s| && s[i] != ' ' && !('A' <= s[i] <= 'Z') ==> Slug(s)[i] == s[i]
  {
  }
}
