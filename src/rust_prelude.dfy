/**
 * The primitive validators of the Rust prelude. Each one pushes coded
 * issues at the current path onto `issues`; the functions below give the
 * codes a call pushes, and the methods are the validators themselves.
 */
module RustPrelude {
  import opened Wrappers
  import opened Json
  import opened Issues
  import opened Regex

  /** Bytes in the UTF-8 encoding of one character. */
  function Utf8Width(c: char): nat
  {
    if c as int < 0x80 then 1
    else if c as int < 0x800 then 2
    else if c as int < 0x1_0000 then 3
    else 4
  }

  /** `str::len`: the length of a Rust string in UTF-8 bytes, not in characters. */
  function Utf8Len(s: string): nat
  {
    if s == [] then 0 else Utf8Width(s[0]) + Utf8Len(s[1..])
  }

  /** `f64::fract() == 0.0`. */
  predicate IsIntegral(x: real)
  {
    x.Floor as real == x
  }

  /** The codes `validate_str` pushes. */
  function StrCodes(value: Value, minLength: Option<nat>, maxLength: Option<nat>,
                    pattern: Option<string>, rx: Oracle): (cs: seq<Code>)
    ensures Ordered(cs)
    ensures !value.Str? ==> cs == [TypeMismatch]
    ensures value.Str? ==>
      && OnlyCodes(cs, {StrTooShort, StrTooLong, StrPatternMismatch})
      && (StrTooShort in cs <==> minLength.Some? && Utf8Len(value.s) < minLength.value)
      && (StrTooLong in cs <==> maxLength.Some? && Utf8Len(value.s) > maxLength.value)
      && (StrPatternMismatch in cs <==>
            pattern.Some? && rx.compiles(pattern.value) && !IsMatch(rx, pattern.value, value.s))
  {
    match AsStr(value)
    case Some(s) =>
      If(minLength.Some? && Utf8Len(s) < minLength.value, StrTooShort)
      + If(maxLength.Some? && Utf8Len(s) > maxLength.value, StrTooLong)
      + If(pattern.Some? && rx.compiles(pattern.value) && !IsMatch(rx, pattern.value, s), StrPatternMismatch)
    case None => [TypeMismatch]
  }

  method ValidateStr(value: Value, path: seq<string>, issues: IssueList,
                     minLength: Option<nat>, maxLength: Option<nat>, pattern: Option<string>, rx: Oracle)
    modifies issues
    ensures issues.items == old(issues.items) + Place(path, StrCodes(value, minLength, maxLength, pattern, rx))
  {
    match AsStr(value) {
      case Some(s) =>
        ghost var start := issues.items;
        ghost var pushed: seq<Code> := [];
        PlaceNone(start, path);
        if minLength.Some? && Utf8Len(s) < minLength.value {
          AddIssue(issues, path, StrTooShort);
          PlaceSnoc(start, path, pushed, StrTooShort);
          pushed := pushed + [StrTooShort];
        }
        if maxLength.Some? && Utf8Len(s) > maxLength.value {
          AddIssue(issues, path, StrTooLong);
          PlaceSnoc(start, path, pushed, StrTooLong);
          pushed := pushed + [StrTooLong];
        }
        if pattern.Some? && rx.compiles(pattern.value) {
          if !IsMatch(rx, pattern.value, s) {
            AddIssue(issues, path, StrPatternMismatch);
            PlaceSnoc(start, path, pushed, StrPatternMismatch);
            pushed := pushed + [StrPatternMismatch];
          }
        }
        assert pushed == If(minLength.Some? && Utf8Len(s) < minLength.value, StrTooShort)
          + If(maxLength.Some? && Utf8Len(s) > maxLength.value, StrTooLong)
          + If(pattern.Some? && rx.compiles(pattern.value) && !IsMatch(rx, pattern.value, s), StrPatternMismatch);
        assert pushed == StrCodes(value, minLength, maxLength, pattern, rx);
      case None =>
        AddIssue(issues, path, TypeMismatch);
    }
  }

  /**
   * The codes `validate_num` pushes. Every JSON number has an `f64` value,
   * so the `as_i64` fallback of the source never decides anything.
   */
  function NumCodes(value: Value, min: Option<real>, max: Option<real>, integer: bool): (cs: seq<Code>)
    ensures Ordered(cs)
    ensures !(value.Int? || value.Float?) ==> cs == [TypeMismatch]
    ensures value.Int? || value.Float? ==>
      var n := AsF64(value).value;
      && OnlyCodes(cs, {NumNotInteger, NumTooSmall, NumTooLarge})
      && (NumNotInteger in cs <==> integer && value.Float? && !IsIntegral(value.r))
      && (NumTooSmall in cs <==> min.Some? && n < min.value)
      && (NumTooLarge in cs <==> max.Some? && n > max.value)
  {
    match AsF64(value)
    case Some(n) =>
      If(integer && !IsIntegral(n), NumNotInteger)
      + If(min.Some? && n < min.value, NumTooSmall)
      + If(max.Some? && n > max.value, NumTooLarge)
    case None => [TypeMismatch]
  }

  method ValidateNum(value: Value, path: seq<string>, issues: IssueList,
                     min: Option<real>, max: Option<real>, integer: bool)
    modifies issues
    ensures issues.items == old(issues.items) + Place(path, NumCodes(value, min, max, integer))
  {
    match AsF64(value) {
      case Some(num) =>
        ghost var start := issues.items;
        ghost var pushed: seq<Code> := [];
        PlaceNone(start, path);
        if integer && !IsIntegral(num) {
          AddIssue(issues, path, NumNotInteger);
          PlaceSnoc(start, path, pushed, NumNotInteger);
          pushed := pushed + [NumNotInteger];
        }
        if min.Some? && num < min.value {
          AddIssue(issues, path, NumTooSmall);
          PlaceSnoc(start, path, pushed, NumTooSmall);
          pushed := pushed + [NumTooSmall];
        }
        if max.Some? && num > max.value {
          AddIssue(issues, path, NumTooLarge);
          PlaceSnoc(start, path, pushed, NumTooLarge);
          pushed := pushed + [NumTooLarge];
        }
        assert pushed == If(integer && !IsIntegral(num), NumNotInteger)
          + If(min.Some? && num < min.value, NumTooSmall)
          + If(max.Some? && num > max.value, NumTooLarge);
        assert pushed == NumCodes(value, min, max, integer);
      case None =>
        AddIssue(issues, path, TypeMismatch);
    }
  }

  /**
   * serde_json's `Value: PartialEq<T>` for the literal types generated code
   * passes: `&str` by `as_str`, `i64` by `as_i64`, `f64` by `as_f64`, `bool`
   * by `as_bool`, and `Value::Null` by structural equality.
   */
  function LiteralEq(value: Value, expected: Literal): bool
  {
    match expected
    case LitStr(e) => AsStr(value) == Some(e)
    case LitInt(e) => AsI64(value) == Some(e)
    case LitFloat(e) => AsF64(value) == Some(e)
    case LitBool(e) => AsBool(value) == Some(e)
    case LitNull => value == Null
  }

  /** The codes `validate_literal` pushes. */
  function LiteralCodes(value: Value, expected: Literal): (cs: seq<Code>)
    ensures OnlyCodes(cs, {LiteralMismatch}) && |cs| <= 1
    ensures expected.LitStr? ==> (cs == [] <==> value == Str(expected.s))
    ensures expected.LitInt? ==>
      (cs == [] <==> value == Int(expected.i) && I64Min <= expected.i <= I64Max)
    ensures expected.LitFloat? ==>
      (cs == [] <==> value == Float(expected.r) || (value.Int? && value.i as real == expected.r))
    ensures expected.LitBool? ==> (cs == [] <==> value == Bool(expected.b))
    ensures expected.LitNull? ==> (cs == [] <==> value == Null)
  {
    If(!LiteralEq(value, expected), LiteralMismatch)
  }

  method ValidateLiteral(value: Value, path: seq<string>, issues: IssueList, expected: Literal)
    modifies issues
    ensures issues.items == old(issues.items) + Place(path, LiteralCodes(value, expected))
  {
    if !LiteralEq(value, expected) {
      AddIssue(issues, path, LiteralMismatch);
    }
  }

  /** The codes `validate_literal_str` pushes: the same as the generic check against a string. */
  function LiteralStrCodes(value: Value, expected: string): (cs: seq<Code>)
    ensures cs == LiteralCodes(value, LitStr(expected))
  {
    match AsStr(value)
    case Some(s) => if s == expected then [] else [LiteralMismatch]
    case None => [LiteralMismatch]
  }

  method ValidateLiteralStr(value: Value, path: seq<string>, issues: IssueList, expected: string)
    modifies issues
    ensures issues.items == old(issues.items) + Place(path, LiteralStrCodes(value, expected))
  {
    match AsStr(value) {
      case Some(s) =>
        if s != expected {
          AddIssue(issues, path, LiteralMismatch);
        }
      case None =>
        AddIssue(issues, path, LiteralMismatch);
    }
  }

  /** The codes `validate_literal_i64` pushes: the same as the generic check against an `i64`. */
  function LiteralI64Codes(value: Value, expected: int): (cs: seq<Code>)
    requires I64Min <= expected <= I64Max
    ensures cs == LiteralCodes(value, LitInt(expected))
  {
    match AsI64(value)
    case Some(n) => if n == expected then [] else [LiteralMismatch]
    case None => [LiteralMismatch]
  }

  method ValidateLiteralI64(value: Value, path: seq<string>, issues: IssueList, expected: int)
    requires I64Min <= expected <= I64Max
    modifies issues
    ensures issues.items == old(issues.items) + Place(path, LiteralI64Codes(value, expected))
  {
    match AsI64(value) {
      case Some(n) =>
        if n != expected {
          AddIssue(issues, path, LiteralMismatch);
        }
      case None =>
        AddIssue(issues, path, LiteralMismatch);
    }
  }

  /** The codes `validate_pattern` pushes; a pattern that does not compile is skipped. */
  function PatternCodes(value: Value, pattern: string, rx: Oracle): (cs: seq<Code>)
    ensures |cs| <= 1
    ensures !value.Str? ==> cs == [TypeMismatch]
    ensures value.Str? ==>
      && OnlyCodes(cs, {PatternMismatch})
      && (cs == [] <==> !rx.compiles(pattern) || IsMatch(rx, pattern, value.s))
  {
    match AsStr(value)
    case Some(s) => If(rx.compiles(pattern) && !IsMatch(rx, pattern, s), PatternMismatch)
    case None => [TypeMismatch]
  }

  method ValidatePattern(value: Value, path: seq<string>, issues: IssueList, pattern: string, rx: Oracle)
    modifies issues
    ensures issues.items == old(issues.items) + Place(path, PatternCodes(value, pattern, rx))
  {
    match AsStr(value) {
      case Some(s) =>
        if rx.compiles(pattern) {
          if !IsMatch(rx, pattern, s) {
            AddIssue(issues, path, PatternMismatch);
          }
        }
      case None =>
        AddIssue(issues, path, TypeMismatch);
    }
  }
}
