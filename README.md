# Validation primitives of the SpecSpec preludes, in Dafny

Validators generated by SpecSpec embed a small prelude of validation
primitives. The prelude comes in two versions with the same structure, one
in Rust (`src/codegen/rust/prelude.rs`) and one in Python
(`src/codegen/prelude.py`). This project models both versions and proves
what they promise.

- **Issue list.** Every validator appends coded issues to a list the caller
  owns (`Issues.IssueList`, a class whose `items` field the validators
  extend). An issue carries the rendered path (`"(root)"` for the empty
  path, otherwise the segments joined with `.`) and a code. The exact code
  strings are in `Issues.Text`.
- **Primitive checks.** `RustPrelude` and `PyPrelude` hold `validate_str`,
  `validate_num`, `validate_literal` and `validate_pattern` (and, in Rust,
  `validate_literal_str` and `validate_literal_i64`). `validate_bool` and
  `validate_object` are the same in both languages and live in `Engine`.
  Each method is proved against a function giving the codes it appends, and
  the function's contract states which codes appear, when, and in which
  order.
- **Structural combinators** (`Engine`). The closures that generated code
  passes around are modelled as a `Rule` datatype: one prelude call with its
  arguments, or a body that makes several calls in turn (`AllOf`, as an
  object closure does: `validate_object`, then `validate_field` per key).
  - `Run` gives the issues a closure appends.
  - `Apply` is the imperative interpreter. It dispatches to the primitive
    checks, `ValidateField`, `ValidateList` (with its element loop),
    `ValidateOneOf` (with a scratch list per option) and `ValidateAll` (the
    loop over a sequential body). `MatchesValidator` and `Validate` call
    `Apply` on a fresh list.
  - The same combinators serve both preludes, through a `Lang` parameter
    that selects the primitive checks.
- **Laws** (`EngineLemmas`):
  - a closure's codes do not depend on the path it is called at;
  - every issue a closure appends is reported at the closure's path or at a
    path below it (the rendering of `path + ext` for some `ext`);
  - a sequential body passes exactly when each of its calls passes;
  - a list passes exactly when its length is in bounds and every element
    passes on its own;
  - a `oneOf` passes exactly when some option passes on its own;
  - distinct list indices give distinct path segments.
- **Differences between the preludes** (`Divergence`): string length in
  UTF-8 bytes against code points, the integer test, literal equality, and
  a searching against an anchored regex match. Each prelude has its own regex
  oracle, since the two regex dialects differ.
- **Zip-backed bundle view** (`ZipView`) and the **file checks** built on it
  (`FsChecks`): `validate_fs_file`, `validate_fs_directory` and
  `validate_json_file`.

Three facts about the prelude code that the model keeps:

- A matching `oneOf` option adds nothing; it is not re-run in reporting
  mode.
- The code for a failed standalone pattern check is `pattern.mismatch`.
- Neither prelude has a NaN check of its own.

## Model

| member | source | states |
|---|---|---|
| Issues.RenderPath | src/codegen/rust/prelude.rs:34 | the empty path renders as `(root)`; a one-segment path renders as that segment |
| Issues.RenderChild | src/codegen/prelude.py:13 | a child path renders as the parent's rendering, `.`, then the new segment; the exception is a child of the root, which renders as the segment alone |
| Issues.RenderExtends | src/codegen/rust/prelude.rs:34 | below a non-empty path, every descendant's rendering starts with the path's own rendering |
| Issues.JoinSnoc | src/codegen/prelude.py:13 | joining one more segment appends the separator and that segment |
| Issues.AddIssue | src/codegen/rust/prelude.rs:32-38 | appends exactly one issue, with the rendered path and the given code; the earlier issues are kept (Python `add_issue` at src/codegen/prelude.py:11-13 behaves the same) |
| Issues.IssueList.Push | src/codegen/rust/prelude.rs:33 | `push` extends the list by exactly the given issue |
| Regex.ReMatchImpliesIsMatch | src/codegen/rust/prelude.rs:159 | within one regex engine, a match anchored at the start of the string is also a match that a search (`is_match`) finds |
| Regex.IsMatchNotAnchored | src/codegen/rust/prelude.rs:66 | the converse fails: a pattern may match only after the first character |
| RustPrelude.StrCodes | src/codegen/rust/prelude.rs:42-78 | a non-string gives exactly `type.mismatch`; on a string the codes are too_short, too_long and pattern_mismatch, in that order; each appears exactly when its bound is broken (length in UTF-8 bytes), and pattern_mismatch needs a pattern that compiles and does not match anywhere |
| RustPrelude.ValidateStr | src/codegen/rust/prelude.rs:42-78 | appends exactly the issues `StrCodes` gives, at the path |
| RustPrelude.NumCodes | src/codegen/rust/prelude.rs:80-114 | a non-number (booleans included) gives exactly `type.mismatch` and nothing else; otherwise the codes are not_integer (a float with a fractional part), too_small and too_large, in that order, each exactly when its condition holds |
| RustPrelude.ValidateNum | src/codegen/rust/prelude.rs:80-114 | appends exactly the issues `NumCodes` gives, at the path |
| Engine.BoolCodes | src/codegen/rust/prelude.rs:116-121 | no issue exactly for a boolean; otherwise a single `type.mismatch` |
| Engine.ValidateBool | src/codegen/prelude.py:52-55 | appends exactly the issues `BoolCodes` gives |
| RustPrelude.LiteralCodes | src/codegen/rust/prelude.rs:123-133 | at most one `literal.mismatch`; no issue exactly when the value equals the literal under serde_json's comparison: strings and booleans by value, an i64 literal only by an integer in range, an f64 literal also by an integer with the same value, null only by null |
| RustPrelude.ValidateLiteral | src/codegen/rust/prelude.rs:123-133 | appends exactly the issues `LiteralCodes` gives |
| RustPrelude.LiteralStrCodes | src/codegen/rust/prelude.rs:135-143 | `validate_literal_str` reports exactly what the generic literal check reports for a string literal |
| RustPrelude.ValidateLiteralStr | src/codegen/rust/prelude.rs:135-143 | appends exactly the issues `LiteralStrCodes` gives |
| RustPrelude.LiteralI64Codes | src/codegen/rust/prelude.rs:145-153 | `validate_literal_i64` reports exactly what the generic literal check reports for an i64 literal |
| RustPrelude.ValidateLiteralI64 | src/codegen/rust/prelude.rs:145-153 | appends exactly the issues `LiteralI64Codes` gives |
| RustPrelude.PatternCodes | src/codegen/rust/prelude.rs:155-170 | a non-string gives exactly `type.mismatch`; on a string, no issue exactly when the pattern does not compile or matches somewhere; otherwise one `pattern.mismatch` |
| RustPrelude.ValidatePattern | src/codegen/rust/prelude.rs:155-170 | appends exactly the issues `PatternCodes` gives |
| PyPrelude.StrCodes | src/codegen/prelude.py:18-33 | a non-string gives exactly `type.mismatch` (early return); on a string the codes are too_short, too_long and pattern_mismatch, in that order; each appears exactly when its bound is broken (length in characters), and pattern_mismatch exactly when `re.match` fails |
| PyPrelude.ValidateStr | src/codegen/prelude.py:18-33 | appends exactly the issues `StrCodes` gives |
| PyPrelude.NumCodes | src/codegen/prelude.py:36-49 | booleans and non-numbers give exactly `type.mismatch`; otherwise not_integer (any float when `integer` is set), too_small and too_large follow in that order, each exactly when its condition holds |
| PyPrelude.ValidateNum | src/codegen/prelude.py:36-49 | appends exactly the issues `NumCodes` gives |
| PyPrelude.LiteralCodes | src/codegen/prelude.py:58-61 | at most one `literal.mismatch`; no issue exactly when Python `==` holds, under which `True`, `1` and `1.0` are equal |
| PyPrelude.ValidateLiteral | src/codegen/prelude.py:58-61 | appends exactly the issues `LiteralCodes` gives |
| PyPrelude.PatternCodes | src/codegen/prelude.py:64-71 | a non-string gives exactly `type.mismatch`; on a string, no issue exactly when `re.match` succeeds |
| PyPrelude.ValidatePattern | src/codegen/prelude.py:64-71 | appends exactly the issues `PatternCodes` gives |
| Engine.ObjectCodes | src/codegen/rust/prelude.rs:174-182 | no issue exactly for an object; otherwise a single `type.mismatch` |
| Engine.ValidateObject | src/codegen/prelude.py:76-81 | appends exactly the issues `ObjectCodes` gives, and returns true exactly for an object |
| Engine.FieldIssues | src/codegen/rust/prelude.rs:184-208 | a non-object adds nothing; a missing optional key adds nothing; a missing required key adds exactly one `field.missing` at the parent path; a present key adds exactly what its validator adds at `path + [key]` |
| Engine.ValidateField | src/codegen/prelude.py:84-97 | appends exactly the issues `FieldIssues` gives |
| Engine.LengthCodes | src/codegen/rust/prelude.rs:220-231 | list.too_short comes before list.too_long, and each appears exactly when its bound is broken |
| Engine.CheckLength | src/codegen/prelude.py:109-112 | appends exactly the length issues `LengthCodes` gives, at the list's path |
| Engine.ListIssues | src/codegen/rust/prelude.rs:240-243 | a non-array adds exactly one `type.mismatch` and nothing else |
| Engine.ValidateList | src/codegen/rust/prelude.rs:210-245 | appends the length issues, then every element's issues in index order |
| Engine.ValidateItems | src/codegen/prelude.py:114-116 | the element loop appends element i's issues, validated at `path + ["[i]"]`, for every i in order, with no early exit |
| Engine.ValidateItem | src/codegen/rust/prelude.rs:233-237 | one pass of the element loop extends the issues by element i's issues |
| Engine.OneOfIssues | src/codegen/rust/prelude.rs:247-262 | at most one issue, never an option's own; no issue exactly when some option leaves its scratch list empty; otherwise exactly one `oneof.no_match` |
| Engine.ValidateOneOf | src/codegen/prelude.py:119-130 | leaves the caller's list untouched while trying options in order, stops at the first that passes, and appends `OneOfIssues` |
| Engine.ValidateAll | src/codegen/rust/prelude.rs:23 | a closure body that calls several validators in turn (for an object: `validate_object`, then `validate_field` per key) appends each call's issues in call order, on the same value and path, with none skipped |
| Engine.TryOption | src/codegen/rust/prelude.rs:254-256 | runs an option on a fresh scratch list and reports exactly whether it stayed empty |
| Engine.Apply | src/codegen/rust/prelude.rs:23 | calling a closure appends exactly `Run` of that closure |
| Engine.ApplyPrimitive | src/codegen/rust/prelude.rs:42-182 | calling a closure that is one primitive check appends exactly that check's codes, in the selected prelude, at the path |
| Engine.MatchesValidator | src/codegen/prelude.py:133-137 | true exactly when the closure, run at the root on a fresh list, appends nothing; no caller-visible list changes |
| Engine.Validate | src/codegen/rust/prelude.rs:525-532 | the result's issues are exactly those of the closure run at the root, and `ok` holds exactly when they are empty (Python `validate` at src/codegen/prelude.py:142-149 behaves the same) |
| EngineLemmas.RunCodesAnyPath | src/codegen/rust/prelude.rs:184-262 | the codes a closure appends are the same at every path |
| EngineLemmas.FieldCodesAnyPath | src/codegen/rust/prelude.rs:192-207 | the codes `validate_field` appends are the same at every path |
| EngineLemmas.ItemsCodesAnyPath | src/codegen/rust/prelude.rs:232-238 | the codes the element loop appends are the same at every path |
| EngineLemmas.ListCodesAnyPath | src/codegen/rust/prelude.rs:210-245 | the codes `validate_list` appends are the same at every path |
| EngineLemmas.OneOfCodesAnyPath | src/codegen/rust/prelude.rs:247-262 | the codes `validate_oneof` appends are the same at every path |
| EngineLemmas.AllCodesAnyPath | src/codegen/rust/prelude.rs:23 | the codes a sequential closure body appends are the same at every path |
| EngineLemmas.RunPassesAnyPath | src/codegen/rust/prelude.rs:253-258 | a closure passes at one path exactly when it passes at any other, so a scratch run decides the same as a real one |
| EngineLemmas.MatchesAtAnyPath | src/codegen/prelude.py:133-137 | `matches_validator` tests at the root, and its verdict is the verdict at any path |
| EngineLemmas.RunUnder | src/codegen/rust/prelude.rs:196-198 | every issue a closure appends at any path, the root included, carries the rendering of that path or of a path below it (`path + ext`) |
| EngineLemmas.FieldUnder | src/codegen/prelude.py:90-97 | every issue of `validate_field` carries the rendering of its path (a missing key) or of a path below it (the field's own issues, at `path + [key] + ext`) |
| EngineLemmas.ItemsUnder | src/codegen/prelude.py:115-116 | every issue of the element loop carries the rendering of `path + ext` for some `ext` |
| EngineLemmas.ListUnder | src/codegen/rust/prelude.rs:218-244 | every issue of `validate_list` carries the rendering of its path (type and length issues) or of a path below it (element issues) |
| EngineLemmas.AllUnder | src/codegen/rust/prelude.rs:23 | every issue of a sequential closure body carries the rendering of its path or of a path below it |
| EngineLemmas.UnderAncestor | src/codegen/rust/prelude.rs:234-235 | issues at or below a child path `path + ext` are at or below `path` too |
| EngineLemmas.PlaceAtPath | src/codegen/rust/prelude.rs:34 | each issue a primitive check pushes is exactly `Issue(RenderPath(path), code)`, in code order |
| EngineLemmas.SiblingIsNotBelow | src/codegen/rust/prelude.rs:34 | "below" is about paths, not name prefixes: an issue rendered `ab` is not below the path `["a"]` |
| EngineLemmas.ItemsPassIff | src/codegen/prelude.py:114-116 | the element loop adds nothing exactly when every element passes at its own index path |
| EngineLemmas.ItemsPrefix | src/codegen/rust/prelude.rs:233-237 | later elements only append: the issues of earlier elements stay a prefix |
| EngineLemmas.ElementsPassAnyPath | src/codegen/rust/prelude.rs:235 | every element passes at its index path exactly when every element passes on its own |
| EngineLemmas.ListPassIff | src/codegen/rust/prelude.rs:218-239 | a list with an item validator passes exactly when its length is within bounds and every element, validated on its own, passes |
| EngineLemmas.OneOfPassIff | src/codegen/prelude.py:123-130 | `validate_oneof` adds nothing exactly when some option, validated on its own, passes |
| EngineLemmas.AllPassIff | src/codegen/prelude.py:84-97 | a sequential closure body (an object closure and its `validate_field` calls) adds nothing exactly when each of its calls adds nothing |
| EngineLemmas.AllPrefix | src/codegen/rust/prelude.rs:23 | the issues of earlier calls in a sequential body stay a prefix of the issues of the whole body |
| EngineLemmas.OneOfEmptyFails | src/codegen/rust/prelude.rs:260-261 | a `oneOf` with no options always adds one `oneof.no_match` |
| EngineLemmas.DecimalInjective | src/codegen/rust/prelude.rs:235 | distinct indices format to distinct decimal strings |
| EngineLemmas.IndexSegmentInjective | src/codegen/prelude.py:116 | distinct elements are reported under distinct `[i]` segments |
| Divergence.Utf8LenAtLeastChars | src/codegen/rust/prelude.rs:53 | a string's UTF-8 byte length lies between its character count and four times that count |
| Divergence.Utf8LenAscii | src/codegen/rust/prelude.rs:53 | on ASCII text the byte length equals the character count |
| Divergence.TooShortInRustIsTooShortInPython | src/codegen/prelude.py:26-27 | a string that is too short for Rust is too short for Python as well |
| Divergence.TooLongInPythonIsTooLongInRust | src/codegen/rust/prelude.rs:58-62 | a string that is too long for Python is too long for Rust as well |
| Divergence.AsciiLengthsAgree | src/codegen/rust/prelude.rs:52-63 | on ASCII strings both preludes give the same length verdicts |
| Divergence.NonAsciiTooLongOnlyInRust | src/codegen/rust/prelude.rs:58-62 | `"é"` under a maximum length of 1 is too long for Rust only |
| Divergence.NotIntegerInRustIsNotIntegerInPython | src/codegen/prelude.py:44-45 | a number Rust finds non-integral, Python finds non-integral too |
| Divergence.WholeFloatIsIntegerOnlyInRust | src/codegen/rust/prelude.rs:98-101 | the float 2.0 passes Rust's integer check and fails Python's |
| Divergence.BooleansAreNotNumbers | src/codegen/prelude.py:41-43 | both preludes reject a boolean as a number with a single `type.mismatch` |
| Divergence.LiteralOneAcceptsTrueOnlyInPython | src/codegen/prelude.py:60 | the literal 1 accepts `true` and `1.0` in Python and rejects both in Rust |
| Divergence.RustLiteralMatchIsPythonMatch | src/codegen/rust/prelude.rs:129 | with numbers as exact reals, every value Rust accepts for a literal, Python accepts too |
| Divergence.PatternMismatchInRustIsMismatchInPython | src/codegen/rust/prelude.rs:158-162 | with a valid pattern, and where the Python engine's anchored match at the start implies the Rust engine's, a string that Rust's search rejects is rejected by Python's `re.match` as well |
| Divergence.DollarBeforeFinalNewlineOnlyInPython | src/codegen/prelude.py:70 | without that hypothesis the implication fails: `^a$` on `"a\n"` matches under Python's `re` (its `$` matches before a final newline) but not under Rust's `regex`, so only Rust reports `pattern.mismatch` |
| Divergence.InvalidPatternSkippedInRust | src/codegen/rust/prelude.rs:158 | Rust skips a pattern that does not compile, so every string passes it |
| ZipView.IsFile | src/codegen/rust/prelude.rs:320-326 | a file is exactly a stored entry name, and a file exists |
| ZipView.IsDir | src/codegen/rust/prelude.rs:328-334 | a directory is exactly a name that, followed by `/`, starts some stored entry name; a directory exists |
| ZipView.Exists | src/codegen/rust/prelude.rs:311-318 | `exists` holds exactly when some stored name is the path itself or continues it with `/` |
| ZipView.ExistsIffFileOrDir | src/codegen/rust/prelude.rs:311-318 | `exists` holds exactly when `is_file` or `is_dir` holds |
| ZipView.AncestorIsDir | src/codegen/rust/prelude.rs:328-334 | every `/`-separated ancestor of a stored entry is a directory |
| ZipView.FileAndDirAtOnce | src/codegen/rust/prelude.rs:320-334 | a name can be both a file and a directory, as with entries `a` and `a/b` |
| ZipView.SiblingPrefixIsNotDir | src/codegen/rust/prelude.rs:330 | a shared name prefix without `/` does not make a directory |
| ZipView.TrailingSlashIsNotDir | src/codegen/rust/prelude.rs:311-334 | a query ending in `/` is not normalised: `a/` neither exists nor is a directory when only `a/b` is stored |
| FsChecks.FileCodes | src/codegen/rust/prelude.rs:462-497 | at most one issue; not_found exactly when the path is neither file nor directory; not_file exactly for a directory that is not a file; wrong_ext exactly for a file whose extension (missing reads as empty) differs from the expected one; none otherwise |
| FsChecks.ValidateFsFile | src/codegen/rust/prelude.rs:462-497 | appends `FileCodes` at `path + [rel]` and returns true exactly when it appended nothing |
| FsChecks.DirCodes | src/codegen/rust/prelude.rs:499-521 | at most one issue; not_found exactly when the path is neither file nor directory; not_dir exactly for a file that is not a directory; none exactly for a directory |
| FsChecks.ValidateFsDirectory | src/codegen/rust/prelude.rs:499-521 | appends `DirCodes` at `path + [rel]` and returns true exactly when it appended nothing |
| FsChecks.Read | src/codegen/rust/prelude.rs:336-346 | `read` succeeds only on a stored entry, and gives exactly its UTF-8 decoding (which may fail) |
| FsChecks.ReadJson | src/codegen/rust/prelude.rs:348-352 | `read_json` succeeds exactly when `read` succeeds and its text parses, and gives the parsed value; success implies a file |
| FsChecks.JsonFileIssues | src/codegen/rust/prelude.rs:426-460 | a missing path, a directory, or content that is not valid UTF-8 JSON gives exactly one not_found, not_file or parse_error issue at `path + [rel]`; parsed content gives exactly what the content validator adds there |
| FsChecks.ValidateJsonFile | src/codegen/rust/prelude.rs:426-460 | appends `JsonFileIssues` and returns the parsed content exactly when the path is a file whose content parses |
| FsChecks.JsonFileUnder | src/codegen/rust/prelude.rs:433-451 | every issue of `validate_json_file`, including the content validator's, carries the rendering of `path + [rel]` or of a path below it |
| FsChecks.JsonFileWithoutContentCheck | src/codegen/rust/prelude.rs:436-458 | without a content validator, at most one issue, and none exactly when the content is returned |

## Left out

- Message texts of the issues are not modelled: an issue is its path and code (`Issues.Text` gives the code strings).
- Regular expressions are an oracle (`Regex.Oracle`): whether a pattern compiles and whether it matches at a given start index. One oracle describes one engine; Rust's `regex` crate and Python's `re` are different dialects and are given separate oracles that the model does not relate (`Divergence.PatternMismatchInRustIsMismatchInPython` assumes agreement on the one input it is about). Python raises on a pattern that does not compile; that exception is not modelled, and `PyPrelude.StrCodes` and `PyPrelude.PatternCodes` treat such a pattern like any other.
- Floating point is modelled by exact reals: NaN, infinities and the rounding of large integers by `as_f64` are not modelled. The Rust integer test `fract() == 0.0` is `IsIntegral` on the real value.
- Python `validate_literal` is modelled for scalar literals only (string, integer, float, boolean, null); comparisons against lists or dicts are not modelled.
- The generic Rust `validate_literal<T>` is modelled for the literal types generated code passes (`&str`, `i64`, `f64`, `bool`, `Value::Null`).
- `validate_oneof`'s `descriptions` parameter only changes the message text and is not modelled.
- `FSContext::new` (opening a directory or an archive), the directory-mode branches of `exists`, `is_file` and `is_dir`, and `basename` are file-system I/O and are not part of this model; only the zip-entry map is.
- `String::from_utf8`, `serde_json::from_str` and `Path::extension` are not modelled: `FsChecks.Host` supplies them as functions returning an `Option`, and the error texts of `read` and `read_json` are not modelled.
- `validate_bundle` and `validate_path` stat the real file system and open archives; they are not part of this model.
- Closures are modelled as the `Rule` datatype: a single prelude call, or a sequence of such calls on the same value and path (`AllOf`). Generated closures that branch on a result (for example, skip the field checks when `validate_object` fails) or compute values of their own are not modelled; for the field checks the skip makes no difference, since `validate_field` adds nothing on a non-object.
