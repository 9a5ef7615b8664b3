/**
 * Where the two preludes disagree. The structural validators are the same
 * in both; the primitive checks differ in how a string is measured (UTF-8
 * bytes against code points), what counts as an integer, how literals are
 * compared and where a pattern may match. Each difference is stated as the
 * direction in which one prelude is stricter, with a value that tells them
 * apart. The Rust checks always take a Rust-dialect regex oracle and the
 * Python checks a Python-dialect one.
 */
module Divergence {
  import opened Wrappers
  import opened Json
  import opened Issues
  import opened Regex
  import RustPrelude
  import PyPrelude

  /** A string has at least as many UTF-8 bytes as characters. */
  lemma {:induction false} Utf8LenAtLeastChars(s: string)
    ensures RustPrelude.Utf8Len(s) >= |s|
    ensures RustPrelude.Utf8Len(s) <= 4 * |s|
  {
    if s != [] {
      Utf8LenAtLeastChars(s[1..]);
    }
  }

  /** On ASCII text the two measures agree. */
  lemma {:induction false} Utf8LenAscii(s: string)
    requires forall i :: 0 <= i < |s| ==> s[i] as int < 0x80
    ensures RustPrelude.Utf8Len(s) == |s|
  {
    if s != [] {
      assert s[0] as int < 0x80;
      Utf8LenAscii(s[1..]);
    }
  }

  /** A string Rust finds too short, Python finds too short as well (whatever the two regex engines do). */
  lemma TooShortInRustIsTooShortInPython(value: Value, minLength: Option<nat>, maxLength: Option<nat>,
                                         pattern: Option<string>, rustRx: Oracle, pyRx: Oracle)
    requires StrTooShort in RustPrelude.StrCodes(value, minLength, maxLength, pattern, rustRx)
    ensures StrTooShort in PyPrelude.StrCodes(value, minLength, maxLength, pattern, pyRx)
  {
    Utf8LenAtLeastChars(value.s);
  }

  /** A string Python finds too long, Rust finds too long as well. */
  lemma TooLongInPythonIsTooLongInRust(value: Value, minLength: Option<nat>, maxLength: Option<nat>,
                                       pattern: Option<string>, rustRx: Oracle, pyRx: Oracle)
    requires StrTooLong in PyPrelude.StrCodes(value, minLength, maxLength, pattern, pyRx)
    ensures StrTooLong in RustPrelude.StrCodes(value, minLength, maxLength, pattern, rustRx)
  {
    Utf8LenAtLeastChars(value.s);
  }

  /** On ASCII strings both preludes give the same length verdicts. */
  lemma AsciiLengthsAgree(s: string, minLength: Option<nat>, maxLength: Option<nat>,
                          pattern: Option<string>, rustRx: Oracle, pyRx: Oracle)
    requires forall i :: 0 <= i < |s| ==> s[i] as int < 0x80
    ensures StrTooShort in RustPrelude.StrCodes(Str(s), minLength, maxLength, pattern, rustRx)
        <==> StrTooShort in PyPrelude.StrCodes(Str(s), minLength, maxLength, pattern, pyRx)
    ensures StrTooLong in RustPrelude.StrCodes(Str(s), minLength, maxLength, pattern, rustRx)
        <==> StrTooLong in PyPrelude.StrCodes(Str(s), minLength, maxLength, pattern, pyRx)
  {
    Utf8LenAscii(s);
  }

  /** `"é"` is one character but two bytes: under a maximum of 1 only Rust rejects it. */
  lemma NonAsciiTooLongOnlyInRust(rustRx: Oracle, pyRx: Oracle)
    ensures StrTooLong in RustPrelude.StrCodes(Str("é"), None, Some(1), None, rustRx)
    ensures StrTooLong !in PyPrelude.StrCodes(Str("é"), None, Some(1), None, pyRx)
  {
    assert "é"[1..] == [];
    assert RustPrelude.Utf8Len("é") == 2;
  }

  /** A number Rust finds non-integral, Python finds non-integral as well. */
  lemma NotIntegerInRustIsNotIntegerInPython(value: Value, min: Option<real>, max: Option<real>)
    requires NumNotInteger in RustPrelude.NumCodes(value, min, max, true)
    ensures NumNotInteger in PyPrelude.NumCodes(value, min, max, true)
  {
  }

  /** A float with no fractional part passes Rust's integer check but not Python's `isinstance(value, int)`. */
  lemma WholeFloatIsIntegerOnlyInRust()
    ensures NumNotInteger !in RustPrelude.NumCodes(Float(2.0), None, None, true)
    ensures NumNotInteger in PyPrelude.NumCodes(Float(2.0), None, None, true)
  {
  }

  /** Both preludes reject booleans as numbers, with a single `type.mismatch`. */
  lemma BooleansAreNotNumbers(b: bool, min: Option<real>, max: Option<real>, integer: bool)
    ensures RustPrelude.NumCodes(Bool(b), min, max, integer) == [TypeMismatch]
    ensures PyPrelude.NumCodes(Bool(b), min, max, integer) == [TypeMismatch]
  {
  }

  /** Python's `==` makes `True` equal to `1` and `1.0`; serde_json's comparisons do not. */
  lemma LiteralOneAcceptsTrueOnlyInPython()
    ensures RustPrelude.LiteralCodes(Bool(true), LitInt(1)) == [LiteralMismatch]
    ensures PyPrelude.LiteralCodes(Bool(true), LitInt(1)) == []
    ensures RustPrelude.LiteralCodes(Float(1.0), LitInt(1)) == [LiteralMismatch]
    ensures PyPrelude.LiteralCodes(Float(1.0), LitInt(1)) == []
  {
  }

  /** Every value Rust accepts for a literal, Python accepts too. */
  lemma RustLiteralMatchIsPythonMatch(value: Value, expected: Literal)
    requires RustPrelude.LiteralCodes(value, expected) == []
    ensures PyPrelude.LiteralCodes(value, expected) == []
  {
  }

  /**
   * Where the two engines agree on an anchored match at the start of the
   * string, a string that Rust's search rejects is rejected by Python's
   * anchored match as well. The hypothesis is needed: see the next lemma.
   */
  lemma PatternMismatchInRustIsMismatchInPython(s: string, pattern: string, rustRx: Oracle, pyRx: Oracle)
    requires pyRx.matchesAt(pattern, s, 0) ==> rustRx.matchesAt(pattern, s, 0)
    requires RustPrelude.PatternCodes(Str(s), pattern, rustRx) == [PatternMismatch]
    ensures PyPrelude.PatternCodes(Str(s), pattern, pyRx) == [PatternMismatch]
  {
    if ReMatch(pyRx, pattern, s) {
      ReMatchImpliesIsMatch(rustRx, pattern, s);
    }
  }

  /**
   * The dialects differ: `^a$` on `"a\n"`. Python's `$` also matches before
   * a final newline, so `re.match` succeeds; Rust's `$` matches only at the
   * end, so `is_match` fails. The oracles below give the two engines'
   * answers for that pattern; Rust then reports `pattern.mismatch` and
   * Python reports nothing.
   */
  lemma DollarBeforeFinalNewlineOnlyInPython()
    ensures var rustRx := Oracle(p => true, (p, s, i) => s == "a" && i == 0);
            var pyRx := Oracle(p => true, (p, s, i) => (s == "a" || s == "a\n") && i == 0);
            RustPrelude.PatternCodes(Str("a\n"), "^a$", rustRx) == [PatternMismatch]
            && PyPrelude.PatternCodes(Str("a\n"), "^a$", pyRx) == []
  {
    var rustRx := Oracle(p => true, (p, s, i) => s == "a" && i == 0);
    var pyRx := Oracle(p => true, (p, s, i) => (s == "a" || s == "a\n") && i == 0);
    assert "a\n" != "a" by {
      assert |"a\n"| == 2;
    }
    assert !IsMatch(rustRx, "^a$", "a\n");
    assert ReMatch(pyRx, "^a$", "a\n");
  }

  /** A pattern that does not compile is skipped by Rust: every string passes it. */
  lemma InvalidPatternSkippedInRust(s: string, pattern: string, rustRx: Oracle)
    requires !rustRx.compiles(pattern)
    ensures RustPrelude.PatternCodes(Str(s), pattern, rustRx) == []
  {
  }
}
