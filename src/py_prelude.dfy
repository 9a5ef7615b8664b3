/**
 * The primitive validators of the Python prelude. They differ from the Rust
 * ones in what a string length is (characters, not bytes), what counts as an
 * integer (an `int`, not an integral number), how a literal is compared
 * (Python `==`, under which `True == 1 == 1.0`) and how a pattern is applied
 * (`re.match`, anchored at the start).
 */
module PyPrelude {
  import opened Wrappers
  import opened Json
  import opened Issues
  import opened Regex

  /** The codes `validate_str` appends. */
  function StrCodes(value: Value, minLength: Option<nat>, maxLength: Option<nat>,
                    pattern: Option<string>, rx: Oracle): (cs: seq<Code>)
    ensures Ordered(cs)
    ensures !value.Str? ==> cs == [TypeMismatch]
    ensures value.Str? ==>
      && OnlyCodes(cs, {StrTooShort, StrTooLong, StrPatternMismatch})
      && (StrTooShort in cs <==> minLength.Some? && |value.s| < minLength.value)
      && (StrTooLong in cs <==> maxLength.Some? && |value.s| > maxLength.value)
      && (StrPatternMismatch in cs <==> pattern.Some? && !ReMatch(rx, pattern.value, value.s))
  {
    if !value.Str? then [TypeMismatch]
    else
      If(minLength.Some? && |value.s| < minLength.value, StrTooShort)
      + If(maxLength.Some? && |value.s| > maxLength.value, StrTooLong)
      + If(pattern.Some? && !ReMatch(rx, pattern.value, value.s), StrPatternMismatch)
  }

  method ValidateStr(value: Value, path: seq<string>, issues: IssueList,
                     minLength: Option<nat>, maxLength: Option<nat>, pattern: Option<string>, rx: Oracle)
    modifies issues
    ensures issues.items == old(issues.items) + Place(path, StrCodes(value, minLength, maxLength, pattern, rx))
  {
    if !value.Str? {
      AddIssue(issues, path, TypeMismatch);
      return;
    }
    ghost var start := issues.items;
    ghost var pushed: seq<Code> := [];
    PlaceNone(start, path);
    if minLength.Some? && |value.s| < minLength.value {
      AddIssue(issues, path, StrTooShort);
      PlaceSnoc(start, path, pushed, StrTooShort);
      pushed := pushed + [StrTooShort];
    }
    if maxLength.Some? && |value.s| > maxLength.value {
      AddIssue(issues, path, StrTooLong);
      PlaceSnoc(start, path, pushed, StrTooLong);
      pushed := pushed + [StrTooLong];
    }
    if pattern.Some? {
      if !ReMatch(rx, pattern.value, value.s) {
        AddIssue(issues, path, StrPatternMismatch);
        PlaceSnoc(start, path, pushed, StrPatternMismatch);
        pushed := pushed + [StrPatternMismatch];
      }
    }
    assert pushed == If(minLength.Some? && |value.s| < minLength.value, StrTooShort)
      + If(maxLength.Some? && |value.s| > maxLength.value, StrTooLong)
      + If(pattern.Some? && !ReMatch(rx, pattern.value, value.s), StrPatternMismatch);
    assert pushed == StrCodes(value, minLength, maxLength, pattern, rx);
  }

  /** The numeric value of an `int` or `float`; a `bool` is rejected before this is asked. */
  function NumberOf(value: Value): real
    requires value.Int? || value.Float?
  {
    if value.Int? then value.i as real else value.r
  }

  /** The codes `validate_num` appends. */
  function NumCodes(value: Value, min: Option<real>, max: Option<real>, integer: bool): (cs: seq<Code>)
    ensures Ordered(cs)
    ensures !(value.Int? || value.Float?) ==> cs == [TypeMismatch]
    ensures value.Int? || value.Float? ==>
      && OnlyCodes(cs, {NumNotInteger, NumTooSmall, NumTooLarge})
      && (NumNotInteger in cs <==> integer && value.Float?)
      && (NumTooSmall in cs <==> min.Some? && NumberOf(value) < min.value)
      && (NumTooLarge in cs <==> max.Some? && NumberOf(value) > max.value)
  {
    if !(value.Int? || value.Float?) then [TypeMismatch]
    else
      If(integer && !value.Int?, NumNotInteger)
      + If(min.Some? && NumberOf(value) < min.value, NumTooSmall)
      + If(max.Some? && NumberOf(value) > max.value, NumTooLarge)
  }

  method ValidateNum(value: Value, path: seq<string>, issues: IssueList,
                     min: Option<real>, max: Option<real>, integer: bool)
    modifies issues
    ensures issues.items == old(issues.items) + Place(path, NumCodes(value, min, max, integer))
  {
    if !(value.Int? || value.Float?) {
      AddIssue(issues, path, TypeMismatch);
      return;
    }
    ghost var start := issues.items;
    ghost var pushed: seq<Code> := [];
    PlaceNone(start, path);
    if integer && !value.Int? {
      AddIssue(issues, path, NumNotInteger);
      PlaceSnoc(start, path, pushed, NumNotInteger);
      pushed := pushed + [NumNotInteger];
    }
    if min.Some? && NumberOf(value) < min.value {
      AddIssue(issues, path, NumTooSmall);
      PlaceSnoc(start, path, pushed, NumTooSmall);
      pushed := pushed + [NumTooSmall];
    }
    if max.Some? && NumberOf(value) > max.value {
      AddIssue(issues, path, NumTooLarge);
      PlaceSnoc(start, path, pushed, NumTooLarge);
      pushed := pushed + [NumTooLarge];
    }
    assert pushed == If(integer && !value.Int?, NumNotInteger)
      + If(min.Some? && NumberOf(value) < min.value, NumTooSmall)
      + If(max.Some? && NumberOf(value) > max.value, NumTooLarge);
    assert pushed == NumCodes(value, min, max, integer);
  }

  /** Python compares `bool`, `int` and `float` by numeric value. */
  function NumericValue(value: Value): Option<real>
  {
    match value
    case Bool(b) => Some(if b then 1.0 else 0.0)
    case Int(i) => Some(i as real)
    case Float(r) => Some(r)
    case _ => None
  }

  function LiteralNumber(expected: Literal): Option<real>
  {
    match expected
    case LitBool(b) => Some(if b then 1.0 else 0.0)
    case LitInt(i) => Some(i as real)
    case LitFloat(r) => Some(r)
    case _ => None
  }

  /** Python's `value == expected` for a scalar `expected`. */
  predicate PyEquals(value: Value, expected: Literal)
  {
    match expected
    case LitStr(e) => value == Str(e)
    case LitNull => value == Null
    case _ => NumericValue(value).Some? && NumericValue(value) == LiteralNumber(expected)
  }

  /** The codes `validate_literal` appends. */
  function LiteralCodes(value: Value, expected: Literal): (cs: seq<Code>)
    ensures OnlyCodes(cs, {LiteralMismatch}) && |cs| <= 1
    ensures expected.LitStr? ==> (cs == [] <==> value == Str(expected.s))
    ensures expected.LitNull? ==> (cs == [] <==> value == Null)
    ensures expected.LitInt? ==>
      (cs == [] <==>
         || value == Int(expected.i)
         || value == Float(expected.i as real)
         || (value.Bool? && expected.i == (if value.b then 1 else 0)))
    ensures expected.LitFloat? ==>
      (cs == [] <==>
         || value == Float(expected.r)
         || (value.Int? && value.i as real == expected.r)
         || (value.Bool? && expected.r == (if value.b then 1.0 else 0.0)))
    ensures expected.LitBool? ==>
      (cs == [] <==>
         || value == Bool(expected.b)
         || value == Int(if expected.b then 1 else 0)
         || value == Float(if expected.b then 1.0 else 0.0))
  {
    If(!PyEquals(value, expected), LiteralMismatch)
  }

  method ValidateLiteral(value: Value, path: seq<string>, issues: IssueList, expected: Literal)
    modifies issues
    ensures issues.items == old(issues.items) + Place(path, LiteralCodes(value, expected))
  {
    if !PyEquals(value, expected) {
      AddIssue(issues, path, LiteralMismatch);
    }
  }

  /** The codes `validate_pattern` appends. */
  function PatternCodes(value: Value, pattern: string, rx: Oracle): (cs: seq<Code>)
    ensures |cs| <= 1
    ensures !value.Str? ==> cs == [TypeMismatch]
    ensures value.Str? ==> OnlyCodes(cs, {PatternMismatch}) && (cs == [] <==> ReMatch(rx, pattern, value.s))
  {
    if !value.Str? then [TypeMismatch] else If(!ReMatch(rx, pattern, value.s), PatternMismatch)
  }

  method ValidatePattern(value: Value, path: seq<string>, issues: IssueList, pattern: string, rx: Oracle)
    modifies issues
    ensures issues.items == old(issues.items) + Place(path, PatternCodes(value, pattern, rx))
  {
    if !value.Str? {
      AddIssue(issues, path, TypeMismatch);
      return;
    }
    if !ReMatch(rx, pattern, value.s) {
      AddIssue(issues, path, PatternMismatch);
    }
  }
}
