/**
 * Regular expressions are not modelled; the preludes consult an oracle.
 * An `Oracle` describes ONE regex engine: `matchesAt(p, s, i)` says that
 * pattern `p` has a match in `s` starting at character index `i` under that
 * engine's syntax and semantics, and `compiles(p)` says that `p` is a valid
 * pattern for it. Rust's `regex` crate and Python's `re` are different
 * dialects (Python's `$` also matches before a final newline, Rust's does
 * not), so the Rust prelude is always given a Rust oracle and the Python
 * prelude a Python oracle, and nothing ties the two together.
 * Rust's `Regex::is_match` searches (a match may start anywhere), Python's
 * `re.match` is anchored at the start of the string.
 */
module Regex {

  datatype Oracle = Oracle(compiles: string -> bool, matchesAt: (string, string, nat) -> bool)

  /** Rust `Regex::new(p).unwrap().is_match(s)`, under a Rust-dialect oracle. */
  predicate IsMatch(rx: Oracle, p: string, s: string)
  {
    exists i: nat :: i <= |s| && rx.matchesAt(p, s, i)
  }

  /** Python `re.match(p, s)` is truthy, under a Python-dialect oracle. */
  predicate ReMatch(rx: Oracle, p: string, s: string)
  {
    rx.matchesAt(p, s, 0)
  }

  /** Within one engine, a match anchored at the start is also a match found by searching. */
  lemma ReMatchImpliesIsMatch(rx: Oracle, p: string, s: string)
    requires ReMatch(rx, p, s)
    ensures IsMatch(rx, p, s)
  {
    assert rx.matchesAt(p, s, 0);
  }

  /** The converse fails: a pattern that matches only after the first character. */
  lemma IsMatchNotAnchored()
    ensures exists rx: Oracle, p: string, s: string :: IsMatch(rx, p, s) && !ReMatch(rx, p, s)
  {
    var rx := Oracle(p => true, (p, s, i) => i == 1);
    assert rx.matchesAt("b", "ab", 1);
    assert IsMatch(rx, "b", "ab") && !ReMatch(rx, "b", "ab");
  }
}
