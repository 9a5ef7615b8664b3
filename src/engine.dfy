/**
 * The structural validators both preludes share, and the closures generated
 * code passes to them. A closure `Fn(&Value, &[String], &mut Issues)` (Python
 * `Callable[[Any, list[str], Issues], None]`) is modelled as a `Rule`: one
 * prelude call together with its arguments, children being closures again,
 * or a body that makes several such calls in turn (`AllOf`; an object
 * closure calls `validate_object` and then `validate_field` once per key).
 * `Run` gives the issues a closure appends; `Apply` is the call itself.
 */
module Engine {
  import opened Wrappers
  import opened Json
  import opened Issues
  import opened Regex
  import RustPrelude
  import PyPrelude

  /** Which prelude's primitive checks apply. */
  datatype Lang = Rust | Python

  datatype Rule =
    | StrCheck(minLength: Option<nat>, maxLength: Option<nat>, pattern: Option<string>)
    | NumCheck(min: Option<real>, max: Option<real>, integer: bool)
    | BoolCheck
    | LiteralCheck(expected: Literal)
    | PatternCheck(regex: string)
    | ObjectCheck
    | FieldCheck(key: string, validator: Option<Rule>, optional: bool)
    | ListCheck(itemValidator: Option<Rule>, minItems: Option<nat>, maxItems: Option<nat>)
    | OneOfCheck(validators: seq<Rule>)
    | AllOf(rules: seq<Rule>)

  /** `ValidationResult` / the dict `validate` returns. */
  datatype ValidationResult = ValidationResult(ok: bool, issues: seq<Issue>)

  /** The ASCII digit for `d`. */
  function Digit(d: nat): char
    requires d < 10
  {
    ('0' as int + d) as char
  }

  /** Decimal rendering of a natural number, as `{}` formats it. */
  function Decimal(n: nat): string
  {
    if n < 10 then [Digit(n)] else Decimal(n / 10) + [Digit(n % 10)]
  }

  /** The path segment of list element `i`: `"[i]"`. */
  function IndexSegment(i: nat): string
  {
    "[" + Decimal(i) + "]"
  }

  /** The codes `validate_bool` pushes (identical in both preludes). */
  function BoolCodes(value: Value): (cs: seq<Code>)
    ensures cs == [] <==> value.Bool?
    ensures cs != [] ==> cs == [TypeMismatch]
  {
    If(!value.Bool?, TypeMismatch)
  }

  /** The codes `validate_object` pushes (identical in both preludes). */
  function ObjectCodes(value: Value): (cs: seq<Code>)
    ensures cs == [] <==> value.Object?
    ensures cs != [] ==> cs == [TypeMismatch]
  {
    If(!value.Object?, TypeMismatch)
  }

  /**
   * What a primitive (non-structural) closure pushes: its codes, all at the
   * current path. The structural validators below work for any such
   * function, which is how both preludes share them.
   */
  type Prim = (Rule, Value) -> seq<Code>

  /** The primitive checks of one prelude; structural rules push nothing of their own here. */
  function PrimCodes(lang: Lang, rx: Oracle, r: Rule, value: Value): seq<Code>
  {
    match r
    case StrCheck(minLength, maxLength, pattern) =>
      if lang == Rust then RustPrelude.StrCodes(value, minLength, maxLength, pattern, rx)
      else PyPrelude.StrCodes(value, minLength, maxLength, pattern, rx)
    case NumCheck(min, max, integer) =>
      if lang == Rust then RustPrelude.NumCodes(value, min, max, integer)
      else PyPrelude.NumCodes(value, min, max, integer)
    case BoolCheck => BoolCodes(value)
    case LiteralCheck(expected) =>
      if lang == Rust then RustPrelude.LiteralCodes(value, expected)
      else PyPrelude.LiteralCodes(value, expected)
    case PatternCheck(pattern) =>
      if lang == Rust then RustPrelude.PatternCodes(value, pattern, rx)
      else PyPrelude.PatternCodes(value, pattern, rx)
    case ObjectCheck => ObjectCodes(value)
    case _ => []
  }

  function Primitives(lang: Lang, rx: Oracle): Prim
  {
    (r, value) => PrimCodes(lang, rx, r, value)
  }

  /** The issues that calling closure `r` on `value` at `path` appends. */
  function Run(prim: Prim, r: Rule, value: Value, path: seq<string>): seq<Issue>
    decreases r, 0
  {
    match r
    case FieldCheck(key, validator, optional) => FieldIssues(prim, value, path, key, validator, optional)
    case ListCheck(itemValidator, minItems, maxItems) =>
      ListIssues(prim, value, path, itemValidator, minItems, maxItems)
    case OneOfCheck(validators) => OneOfIssues(prim, value, path, validators)
    case AllOf(rules) => AllIssues(prim, rules, value, path, |rules|)
    case _ => Place(path, prim(r, value))
  }

  /** The issues the first `n` calls of a sequential closure body append, each on the same value and path. */
  function AllIssues(prim: Prim, rules: seq<Rule>, value: Value, path: seq<string>, n: nat): seq<Issue>
    requires n <= |rules|
    decreases rules, 1, n
  {
    if n == 0 then []
    else AllIssues(prim, rules, value, path, n - 1) + Run(prim, rules[n - 1], value, path)
  }

  /** The issues `validate_field` appends. */
  function FieldIssues(prim: Prim, obj: Value, path: seq<string>,
                       key: string, validator: Option<Rule>, optional: bool): (out: seq<Issue>)
    decreases validator, 1
    ensures !obj.Object? ==> out == []
    ensures obj.Object? && key !in obj.fields && optional ==> out == []
    ensures obj.Object? && key !in obj.fields && !optional ==> out == [At(path, FieldMissing)]
    ensures obj.Object? && key in obj.fields ==>
      out == if validator.Some? then Run(prim, validator.value, obj.fields[key], path + [key]) else []
  {
    match obj
    case Object(fields) =>
      if key in fields then
        (if validator.Some? then Run(prim, validator.value, fields[key], path + [key]) else [])
      else Place(path, If(!optional, FieldMissing))
    case _ => []
  }

  /** The issues the element loop of `validate_list` appends for the first `n` elements. */
  function ItemsIssues(prim: Prim, item: Rule, items: seq<Value>, path: seq<string>, n: nat): seq<Issue>
    requires n <= |items|
    decreases item, 1, n
  {
    if n == 0 then []
    else ItemsIssues(prim, item, items, path, n - 1) + Run(prim, item, items[n - 1], path + [IndexSegment(n - 1)])
  }

  /** The codes of the length checks of `validate_list`. */
  function LengthCodes(len: nat, minItems: Option<nat>, maxItems: Option<nat>): (cs: seq<Code>)
    ensures Ordered(cs) && OnlyCodes(cs, {ListTooShort, ListTooLong})
    ensures ListTooShort in cs <==> minItems.Some? && len < minItems.value
    ensures ListTooLong in cs <==> maxItems.Some? && len > maxItems.value
  {
    If(minItems.Some? && len < minItems.value, ListTooShort)
    + If(maxItems.Some? && len > maxItems.value, ListTooLong)
  }

  /** The issues `validate_list` appends. */
  function ListIssues(prim: Prim, value: Value, path: seq<string>,
                      itemValidator: Option<Rule>, minItems: Option<nat>, maxItems: Option<nat>): (out: seq<Issue>)
    decreases itemValidator, 2
    ensures !value.Array? ==> out == [At(path, TypeMismatch)]
  {
    match value
    case Array(items) =>
      Place(path, LengthCodes(|items|, minItems, maxItems))
      + (if itemValidator.Some? then ItemsIssues(prim, itemValidator.value, items, path, |items|) else [])
    case _ => [At(path, TypeMismatch)]
  }

  /** Some option leaves a scratch list empty. */
  predicate SomeOptionPasses(prim: Prim, value: Value, path: seq<string>, validators: seq<Rule>)
    decreases validators, 0
  {
    exists i {:trigger Run(prim, validators[i], value, path)} ::
      0 <= i < |validators| && Run(prim, validators[i], value, path) == []
  }

  /** The issues `validate_oneof` appends: never an option's own issues. */
  function OneOfIssues(prim: Prim, value: Value, path: seq<string>, validators: seq<Rule>): (out: seq<Issue>)
    decreases validators, 1
    ensures |out| <= 1
    ensures out == [] <==> SomeOptionPasses(prim, value, path, validators)
    ensures out != [] ==> out == [At(path, OneOfNoMatch)]
  {
    if SomeOptionPasses(prim, value, path, validators) then [] else [At(path, OneOfNoMatch)]
  }

  /** `validate_bool`. */
  method ValidateBool(value: Value, path: seq<string>, issues: IssueList)
    modifies issues
    ensures issues.items == old(issues.items) + Place(path, BoolCodes(value))
  {
    if !value.Bool? {
      AddIssue(issues, path, TypeMismatch);
    }
  }

  /** `validate_object`: the result says whether the value is an object. */
  method ValidateObject(value: Value, path: seq<string>, issues: IssueList) returns (ok: bool)
    modifies issues
    ensures issues.items == old(issues.items) + Place(path, ObjectCodes(value))
    ensures ok <==> value.Object?
  {
    if value.Object? {
      ok := true;
    } else {
      AddIssue(issues, path, TypeMismatch);
      ok := false;
    }
  }

  /** Calling the closure `r`. */
  method Apply(lang: Lang, rx: Oracle, r: Rule, value: Value, path: seq<string>, issues: IssueList)
    modifies issues
    ensures issues.items == old(issues.items) + Run(Primitives(lang, rx), r, value, path)
    decreases r, 0
  {
    match r {
      case FieldCheck(key, validator, optional) =>
        ValidateField(lang, rx, value, path, issues, key, validator, optional);
      case ListCheck(itemValidator, minItems, maxItems) =>
        ValidateList(lang, rx, value, path, issues, itemValidator, minItems, maxItems);
      case OneOfCheck(validators) =>
        ValidateOneOf(lang, rx, value, path, issues, validators);
      case AllOf(rules) =>
        ValidateAll(lang, rx, rules, value, path, issues);
      case _ =>
        ApplyPrimitive(lang, rx, r, value, path, issues);
    }
  }

  /** Calling a closure that is one primitive check, in the given prelude. */
  method ApplyPrimitive(lang: Lang, rx: Oracle, r: Rule, value: Value, path: seq<string>, issues: IssueList)
    modifies issues
    ensures issues.items == old(issues.items) + Place(path, PrimCodes(lang, rx, r, value))
  {
    match r {
      case StrCheck(minLength, maxLength, pattern) =>
        if lang == Rust {
          RustPrelude.ValidateStr(value, path, issues, minLength, maxLength, pattern, rx);
        } else {
          PyPrelude.ValidateStr(value, path, issues, minLength, maxLength, pattern, rx);
        }
      case NumCheck(min, max, integer) =>
        if lang == Rust {
          RustPrelude.ValidateNum(value, path, issues, min, max, integer);
        } else {
          PyPrelude.ValidateNum(value, path, issues, min, max, integer);
        }
      case BoolCheck =>
        ValidateBool(value, path, issues);
      case LiteralCheck(expected) =>
        if lang == Rust {
          RustPrelude.ValidateLiteral(value, path, issues, expected);
        } else {
          PyPrelude.ValidateLiteral(value, path, issues, expected);
        }
      case PatternCheck(pattern) =>
        if lang == Rust {
          RustPrelude.ValidatePattern(value, path, issues, pattern, rx);
        } else {
          PyPrelude.ValidatePattern(value, path, issues, pattern, rx);
        }
      case ObjectCheck =>
        var _ := ValidateObject(value, path, issues);
      case _ =>
        assert PrimCodes(lang, rx, r, value) == [];
        assert issues.items == issues.items + Place(path, []);
    }
  }

  /** A sequential closure body: every call in order, on the same value and path, none skipped. */
  method ValidateAll(lang: Lang, rx: Oracle, rules: seq<Rule>, value: Value, path: seq<string>, issues: IssueList)
    modifies issues
    ensures issues.items == old(issues.items) + AllIssues(Primitives(lang, rx), rules, value, path, |rules|)
    decreases rules, 2
  {
    ghost var start := issues.items;
    var i := 0;
    while i < |rules|
      invariant i <= |rules|
      invariant issues.items == start + AllIssues(Primitives(lang, rx), rules, value, path, i)
    {
      ValidateCall(lang, rx, rules, value, path, i, issues, start);
      i := i + 1;
    }
  }

  /** One call of a sequential closure body. */
  method ValidateCall(lang: Lang, rx: Oracle, rules: seq<Rule>, value: Value, path: seq<string>, i: nat,
                      issues: IssueList, ghost start: seq<Issue>)
    requires i < |rules|
    requires issues.items == start + AllIssues(Primitives(lang, rx), rules, value, path, i)
    modifies issues
    ensures issues.items == start + AllIssues(Primitives(lang, rx), rules, value, path, i + 1)
    decreases rules, 1
  {
    Apply(lang, rx, rules[i], value, path, issues);
    Assoc(start, AllIssues(Primitives(lang, rx), rules, value, path, i), Run(Primitives(lang, rx), rules[i], value, path));
  }

  /** `validate_field`: a missing required key is reported at the parent's path; a present key is validated one level down. */
  method ValidateField(lang: Lang, rx: Oracle, obj: Value, path: seq<string>, issues: IssueList,
                       key: string, validator: Option<Rule>, optional: bool)
    modifies issues
    ensures issues.items == old(issues.items) + FieldIssues(Primitives(lang, rx), obj, path, key, validator, optional)
    decreases validator, 1
  {
    if obj.Object? {
      if key in obj.fields {
        if validator.Some? {
          Apply(lang, rx, validator.value, obj.fields[key], path + [key], issues);
        }
      } else if !optional {
        AddIssue(issues, path, FieldMissing);
      }
    }
  }

  /** `validate_list`: length checks first, then every element in index order, without stopping early. */
  method ValidateList(lang: Lang, rx: Oracle, value: Value, path: seq<string>, issues: IssueList,
                      itemValidator: Option<Rule>, minItems: Option<nat>, maxItems: Option<nat>)
    modifies issues
    ensures issues.items == old(issues.items) + ListIssues(Primitives(lang, rx), value, path, itemValidator, minItems, maxItems)
    decreases itemValidator, 2
  {
    if !value.Array? {
      AddIssue(issues, path, TypeMismatch);
    } else {
      var arr := value.items;
      CheckLength(|arr|, path, issues, minItems, maxItems);
      if itemValidator.Some? {
        ValidateItems(lang, rx, itemValidator.value, arr, path, issues);
        Assoc(old(issues.items), Place(path, LengthCodes(|arr|, minItems, maxItems)),
              ItemsIssues(Primitives(lang, rx), itemValidator.value, arr, path, |arr|));
      }
    }
  }

  /** The length checks of `validate_list`, shorter bound first. */
  method CheckLength(len: nat, path: seq<string>, issues: IssueList, minItems: Option<nat>, maxItems: Option<nat>)
    modifies issues
    ensures issues.items == old(issues.items) + Place(path, LengthCodes(len, minItems, maxItems))
  {
    ghost var start := issues.items;
    ghost var pushed: seq<Code> := [];
    PlaceNone(start, path);
    if minItems.Some? && len < minItems.value {
      AddIssue(issues, path, ListTooShort);
      PlaceSnoc(start, path, pushed, ListTooShort);
      pushed := pushed + [ListTooShort];
    }
    if maxItems.Some? && len > maxItems.value {
      AddIssue(issues, path, ListTooLong);
      PlaceSnoc(start, path, pushed, ListTooLong);
      pushed := pushed + [ListTooLong];
    }
    assert pushed == LengthCodes(len, minItems, maxItems);
  }

  /** The element loop of `validate_list`: element `i` is validated at `path + ["[i]"]`. */
  method ValidateItems(lang: Lang, rx: Oracle, item: Rule, arr: seq<Value>, path: seq<string>, issues: IssueList)
    modifies issues
    ensures issues.items == old(issues.items) + ItemsIssues(Primitives(lang, rx), item, arr, path, |arr|)
    decreases item, 2
  {
    ghost var start := issues.items;
    var i := 0;
    while i < |arr|
      invariant i <= |arr|
      invariant issues.items == start + ItemsIssues(Primitives(lang, rx), item, arr, path, i)
    {
      ValidateItem(lang, rx, item, arr, path, i, issues, start);
      i := i + 1;
    }
  }

  /** One pass of the element loop of `validate_list`. */
  method ValidateItem(lang: Lang, rx: Oracle, item: Rule, arr: seq<Value>, path: seq<string>, i: nat,
                      issues: IssueList, ghost start: seq<Issue>)
    requires i < |arr|
    requires issues.items == start + ItemsIssues(Primitives(lang, rx), item, arr, path, i)
    modifies issues
    ensures issues.items == start + ItemsIssues(Primitives(lang, rx), item, arr, path, i + 1)
    decreases item, 1
  {
    ItemsStep(Primitives(lang, rx), item, arr, path, i);
    Apply(lang, rx, item, arr[i], path + [IndexSegment(i)], issues);
    Assoc(start, ItemsIssues(Primitives(lang, rx), item, arr, path, i), Run(Primitives(lang, rx), item, arr[i], path + [IndexSegment(i)]));
  }

  lemma Assoc<T>(a: seq<T>, b: seq<T>, c: seq<T>)
    ensures (a + b) + c == a + (b + c)
  {
  }

  lemma ItemsStep(prim: Prim, item: Rule, arr: seq<Value>, path: seq<string>, i: nat)
    requires i < |arr|
    ensures ItemsIssues(prim, item, arr, path, i + 1)
            == ItemsIssues(prim, item, arr, path, i) + Run(prim, item, arr[i], path + [IndexSegment(i)])
  {
  }

  /**
   * `validate_oneof`: each option runs against a fresh scratch list; the
   * first option that leaves it empty ends the search, and only when none
   * does is one `oneof.no_match` pushed.
   */
  method ValidateOneOf(lang: Lang, rx: Oracle, value: Value, path: seq<string>, issues: IssueList,
                       validators: seq<Rule>)
    modifies issues
    ensures issues.items == old(issues.items) + OneOfIssues(Primitives(lang, rx), value, path, validators)
    decreases validators, 2
  {
    var k := 0;
    while k < |validators|
      invariant k <= |validators|
      invariant issues.items == old(issues.items)
      invariant forall j {:trigger Run(Primitives(lang, rx), validators[j], value, path)} ::
        0 <= j < k ==> Run(Primitives(lang, rx), validators[j], value, path) != []
    {
      var passed := TryOption(lang, rx, validators[k], value, path);
      if passed {
        assert SomeOptionPasses(Primitives(lang, rx), value, path, validators);
        return;
      }
      k := k + 1;
    }
    assert !SomeOptionPasses(Primitives(lang, rx), value, path, validators);
    AddIssue(issues, path, OneOfNoMatch);
  }

  /** One option of `validate_oneof`: run it against a fresh scratch list and report whether it stayed empty. */
  method TryOption(lang: Lang, rx: Oracle, r: Rule, value: Value, path: seq<string>) returns (passed: bool)
    ensures passed <==> Run(Primitives(lang, rx), r, value, path) == []
    decreases r, 1
  {
    var testIssues := new IssueList();
    Apply(lang, rx, r, value, path, testIssues);
    passed := |testIssues.items| == 0;
  }

  /** `matches_validator` (Python): run the closure at the root against a scratch list and report whether it stayed empty. */
  method MatchesValidator(rx: Oracle, value: Value, validator: Rule) returns (b: bool)
    ensures b <==> Run(Primitives(Python, rx), validator, value, []) == []
  {
    var testIssues := new IssueList();
    Apply(Python, rx, validator, value, [], testIssues);
    b := |testIssues.items| == 0;
  }

  /** `validate`: run the closure at the root path on a fresh list; the result is ok exactly when no issue was pushed. */
  method Validate(lang: Lang, rx: Oracle, value: Value, validator: Rule) returns (res: ValidationResult)
    ensures res.issues == Run(Primitives(lang, rx), validator, value, [])
    ensures res.ok <==> res.issues == []
  {
    var issues := new IssueList();
    Apply(lang, rx, validator, value, [], issues);
    res := ValidationResult(|issues.items| == 0, issues.items);
  }
}
