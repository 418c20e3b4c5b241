/**
 * String helpers for the few `str` methods the application calls: `lower`,
 * `startswith`, `endswith` and the `in` substring test.
 *
 * `Lower` folds only the ASCII letters A-Z. No character outside ASCII lower-cases
 * to one of the letters the application looks for ('d', 'a', 't', 'e', 'c', 's', 'v'),
 * so the substring and suffix tests below give the same answers as Python's full
 * Unicode `str.lower` would.
 */
module Text {

  function LowerChar(c: char): char {
    if 'A' <= c <= 'Z' then (c as int + 32) as char else c
  }

  function Lower(s: string): string {
    seq(|s|, i requires 0 <= i < |s| => LowerChar(s[i]))
  }

  predicate StartsWith(s: string, prefix: string) {
    |prefix| <= |s| && s[..|prefix|] == prefix
  }

  predicate EndsWith(s: string, suffix: string) {
    |suffix| <= |s| && s[|s| - |suffix|..] == suffix
  }

  /** `sub` occurs in `s` starting at index `i`. */
  predicate OccursAt(s: string, sub: string, i: int) {
    0 <= i <= |s| - |sub| && s[i..i + |sub|] == sub
  }

  /** Python's `sub in s`. */
  predicate Contains(s: string, sub: string) {
    exists i :: 0 <= i <= |s| && OccursAt(s, sub, i)
  }
}
