/**
 * Laws of the shared structural validators: where issues land, what makes
 * a list or a `oneOf` pass, and the fact that a closure's verdict does not
 * depend on the path it is called at (which is what lets `oneOf` test its
 * options with scratch lists and `matches_validator` test at the root).
 */
module EngineLemmas {
  import opened Wrappers
  import opened Json
  import opened Issues
  import opened Regex
  import opened Engine

  /** `p` is the rendering of `path` itself or of a path below it. */
  ghost predicate Below(path: seq<string>, p: string)
  {
    exists ext: seq<string> :: p == RenderPath(path + ext)
  }

  /** Every issue of `issues` is reported at `path` or at a path below it. */
  ghost predicate Under(path: seq<string>, issues: seq<Issue>)
  {
    forall i :: 0 <= i < |issues| ==> Below(path, issues[i].path)
  }

  lemma PrefixTrans<T>(a: seq<T>, b: seq<T>, c: seq<T>)
    requires a <= b && b <= c
    ensures a <= c
  {
    assert c[..|b|][..|a|] == c[..|a|];
  }

  lemma BelowSelf(path: seq<string>)
    ensures Below(path, RenderPath(path))
  {
    assert path + [] == path;
  }

  /** What is below a child path is below its parent too. */
  lemma BelowAncestor(path: seq<string>, ext: seq<string>, p: string)
    requires Below(path + ext, p)
    ensures Below(path, p)
  {
    var e :| p == RenderPath(path + ext + e);
    assert path + ext + e == path + (ext + e);
  }

  /** Below means below in the path, not a shared name prefix: an issue at `ab` is not below `a`. */
  lemma SiblingIsNotBelow()
    ensures !Below(["a"], "ab")
  {
    forall ext: seq<string>
      ensures RenderPath(["a"] + ext) != "ab"
    {
      var segs := ["a"] + ext;
      if ext == [] {
        assert segs == ["a"];
      } else {
        assert segs[0] == "a" && segs[1..] == ext;
        assert RenderPath(segs) == "a" + "." + Join(ext, ".");
        assert RenderPath(segs)[1] == '.';
      }
    }
  }

  /** The issues of a primitive check carry exactly the rendering of its path. */
  lemma PlaceAtPath(path: seq<string>, cs: seq<Code>)
    ensures forall i :: 0 <= i < |cs| ==> Place(path, cs)[i] == Issue(RenderPath(path), cs[i])
    ensures Under(path, Place(path, cs))
  {
    BelowSelf(path);
  }

  lemma UnderConcat(path: seq<string>, a: seq<Issue>, b: seq<Issue>)
    requires Under(path, a) && Under(path, b)
    ensures Under(path, a + b)
  {
    forall i | 0 <= i < |a + b|
      ensures Below(path, (a + b)[i].path)
    {
      if i < |a| {
        assert (a + b)[i] == a[i];
      } else {
        assert (a + b)[i] == b[i - |a|];
      }
    }
  }

  /** Issues found below `path + ext` are also below `path`. */
  lemma UnderAncestor(path: seq<string>, ext: seq<string>, issues: seq<Issue>)
    requires Under(path + ext, issues)
    ensures Under(path, issues)
  {
    forall i | 0 <= i < |issues|
      ensures Below(path, issues[i].path)
    {
      BelowAncestor(path, ext, issues[i].path);
    }
  }

  // ---------------------------------------------------------------------
  // Path independence: the codes a closure pushes do not depend on the path.
  // ---------------------------------------------------------------------

  lemma {:induction false} RunCodesAnyPath(prim: Prim, r: Rule, value: Value, p: seq<string>, q: seq<string>)
    ensures Codes(Run(prim, r, value, p)) == Codes(Run(prim, r, value, q))
    decreases r, 0
  {
    match r
    case FieldCheck(key, validator, optional) =>
      FieldCodesAnyPath(prim, value, p, q, key, validator, optional);
    case ListCheck(itemValidator, minItems, maxItems) =>
      ListCodesAnyPath(prim, value, p, q, itemValidator, minItems, maxItems);
    case OneOfCheck(validators) =>
      OneOfCodesAnyPath(prim, value, p, q, validators);
    case AllOf(rules) =>
      AllCodesAnyPath(prim, rules, value, p, q, |rules|);
    case _ =>
      CodesPlace(p, prim(r, value));
      CodesPlace(q, prim(r, value));
  }

  lemma {:induction false} FieldCodesAnyPath(prim: Prim, obj: Value, p: seq<string>, q: seq<string>,
                                             key: string, validator: Option<Rule>, optional: bool)
    ensures Codes(FieldIssues(prim, obj, p, key, validator, optional))
         == Codes(FieldIssues(prim, obj, q, key, validator, optional))
    decreases validator, 1
  {
    if obj.Object? && key in obj.fields && validator.Some? {
      RunCodesAnyPath(prim, validator.value, obj.fields[key], p + [key], q + [key]);
    }
  }

  lemma {:induction false} ItemsCodesAnyPath(prim: Prim, item: Rule, items: seq<Value>,
                                             p: seq<string>, q: seq<string>, n: nat)
    requires n <= |items|
    ensures Codes(ItemsIssues(prim, item, items, p, n)) == Codes(ItemsIssues(prim, item, items, q, n))
    decreases item, 1, n
  {
    if n > 0 {
      ItemsCodesAnyPath(prim, item, items, p, q, n - 1);
      RunCodesAnyPath(prim, item, items[n - 1], p + [IndexSegment(n - 1)], q + [IndexSegment(n - 1)]);
      CodesConcat(ItemsIssues(prim, item, items, p, n - 1),
                  Run(prim, item, items[n - 1], p + [IndexSegment(n - 1)]));
      CodesConcat(ItemsIssues(prim, item, items, q, n - 1),
                  Run(prim, item, items[n - 1], q + [IndexSegment(n - 1)]));
    }
  }

  lemma {:induction false} ListCodesAnyPath(prim: Prim, value: Value, p: seq<string>, q: seq<string>,
                                            itemValidator: Option<Rule>, minItems: Option<nat>, maxItems: Option<nat>)
    ensures Codes(ListIssues(prim, value, p, itemValidator, minItems, maxItems))
         == Codes(ListIssues(prim, value, q, itemValidator, minItems, maxItems))
    decreases itemValidator, 2
  {
    if value.Array? {
      var lc := LengthCodes(|value.items|, minItems, maxItems);
      CodesPlace(p, lc);
      CodesPlace(q, lc);
      if itemValidator.Some? {
        var item := itemValidator.value;
        ItemsCodesAnyPath(prim, item, value.items, p, q, |value.items|);
        CodesConcat(Place(p, lc), ItemsIssues(prim, item, value.items, p, |value.items|));
        CodesConcat(Place(q, lc), ItemsIssues(prim, item, value.items, q, |value.items|));
      } else {
        assert ListIssues(prim, value, p, itemValidator, minItems, maxItems) == Place(p, lc);
        assert ListIssues(prim, value, q, itemValidator, minItems, maxItems) == Place(q, lc);
      }
    }
  }

  lemma {:induction false} OneOfCodesAnyPath(prim: Prim, value: Value, p: seq<string>, q: seq<string>,
                                             validators: seq<Rule>)
    ensures Codes(OneOfIssues(prim, value, p, validators)) == Codes(OneOfIssues(prim, value, q, validators))
    decreases validators, 1
  {
    forall i {:trigger Run(prim, validators[i], value, p)} {:trigger Run(prim, validators[i], value, q)}
      | 0 <= i < |validators|
      ensures Run(prim, validators[i], value, p) == [] <==> Run(prim, validators[i], value, q) == []
    {
      RunCodesAnyPath(prim, validators[i], value, p, q);
    }
    assert SomeOptionPasses(prim, value, p, validators) <==> SomeOptionPasses(prim, value, q, validators);
  }

  lemma {:induction false} AllCodesAnyPath(prim: Prim, rules: seq<Rule>, value: Value,
                                           p: seq<string>, q: seq<string>, n: nat)
    requires n <= |rules|
    ensures Codes(AllIssues(prim, rules, value, p, n)) == Codes(AllIssues(prim, rules, value, q, n))
    decreases rules, 1, n
  {
    if n > 0 {
      AllCodesAnyPath(prim, rules, value, p, q, n - 1);
      RunCodesAnyPath(prim, rules[n - 1], value, p, q);
      CodesConcat(AllIssues(prim, rules, value, p, n - 1), Run(prim, rules[n - 1], value, p));
      CodesConcat(AllIssues(prim, rules, value, q, n - 1), Run(prim, rules[n - 1], value, q));
    }
  }

  /** A closure passes at one path exactly when it passes at any other. */
  lemma RunPassesAnyPath(prim: Prim, r: Rule, value: Value, p: seq<string>, q: seq<string>)
    ensures Run(prim, r, value, p) == [] <==> Run(prim, r, value, q) == []
  {
    RunCodesAnyPath(prim, r, value, p, q);
    assert |Codes(Run(prim, r, value, p))| == |Run(prim, r, value, p)|;
  }

  /**
   * `matches_validator` tests at the root, yet its verdict is the verdict
   * the closure would give anywhere in the document.
   */
  lemma MatchesAtAnyPath(rx: Oracle, r: Rule, value: Value, path: seq<string>)
    ensures Run(Primitives(Python, rx), r, value, []) == [] <==> Run(Primitives(Python, rx), r, value, path) == []
  {
    RunPassesAnyPath(Primitives(Python, rx), r, value, [], path);
  }

  // ---------------------------------------------------------------------
  // Issues stay under the path they were found at.
  // ---------------------------------------------------------------------

  lemma {:induction false} RunUnder(prim: Prim, r: Rule, value: Value, path: seq<string>)
    ensures Under(path, Run(prim, r, value, path))
    decreases r, 0
  {
    match r
    case FieldCheck(key, validator, optional) =>
      FieldUnder(prim, value, path, key, validator, optional);
    case ListCheck(itemValidator, minItems, maxItems) =>
      ListUnder(prim, value, path, itemValidator, minItems, maxItems);
    case OneOfCheck(validators) =>
      BelowSelf(path);
    case AllOf(rules) =>
      AllUnder(prim, rules, value, path, |rules|);
    case _ =>
      PlaceAtPath(path, prim(r, value));
  }

  lemma {:induction false} FieldUnder(prim: Prim, obj: Value, path: seq<string>,
                                      key: string, validator: Option<Rule>, optional: bool)
    ensures Under(path, FieldIssues(prim, obj, path, key, validator, optional))
    decreases validator, 1
  {
    if obj.Object? && key in obj.fields && validator.Some? {
      RunUnder(prim, validator.value, obj.fields[key], path + [key]);
      UnderAncestor(path, [key], Run(prim, validator.value, obj.fields[key], path + [key]));
    } else if obj.Object? && key !in obj.fields {
      PlaceAtPath(path, If(!optional, FieldMissing));
    }
  }

  lemma {:induction false} AllUnder(prim: Prim, rules: seq<Rule>, value: Value, path: seq<string>, n: nat)
    requires n <= |rules|
    ensures Under(path, AllIssues(prim, rules, value, path, n))
    decreases rules, 1, n
  {
    if n > 0 {
      AllUnder(prim, rules, value, path, n - 1);
      RunUnder(prim, rules[n - 1], value, path);
      UnderConcat(path, AllIssues(prim, rules, value, path, n - 1), Run(prim, rules[n - 1], value, path));
    }
  }

  lemma {:induction false} ItemsUnder(prim: Prim, item: Rule, items: seq<Value>, path: seq<string>, n: nat)
    requires n <= |items|
    ensures Under(path, ItemsIssues(prim, item, items, path, n))
    decreases item, 1, n
  {
    if n > 0 {
      var child := path + [IndexSegment(n - 1)];
      ItemsUnder(prim, item, items, path, n - 1);
      RunUnder(prim, item, items[n - 1], child);
      UnderAncestor(path, [IndexSegment(n - 1)], Run(prim, item, items[n - 1], child));
      UnderConcat(path, ItemsIssues(prim, item, items, path, n - 1), Run(prim, item, items[n - 1], child));
    }
  }

  lemma {:induction false} ListUnder(prim: Prim, value: Value, path: seq<string>,
                                     itemValidator: Option<Rule>, minItems: Option<nat>, maxItems: Option<nat>)
    ensures Under(path, ListIssues(prim, value, path, itemValidator, minItems, maxItems))
    decreases itemValidator, 2
  {
    if value.Array? {
      var placed := Place(path, LengthCodes(|value.items|, minItems, maxItems));
      PlaceAtPath(path, LengthCodes(|value.items|, minItems, maxItems));
      if itemValidator.Some? {
        var rest := ItemsIssues(prim, itemValidator.value, value.items, path, |value.items|);
        ItemsUnder(prim, itemValidator.value, value.items, path, |value.items|);
        UnderConcat(path, placed, rest);
      } else {
        assert placed + [] == placed;
      }
    } else {
      BelowSelf(path);
    }
  }

  // ---------------------------------------------------------------------
  // Lists: every element is checked, in index order, with no early exit.
  // ---------------------------------------------------------------------

  lemma EmptyConcat<T>(a: seq<T>, b: seq<T>)
    ensures a + b == [] <==> a == [] && b == []
  {
    assert |a + b| == |a| + |b|;
  }

  /** The first `n` elements each pass when validated at their own index path under `path`. */
  predicate ElementsPassAt(prim: Prim, item: Rule, items: seq<Value>, path: seq<string>, n: nat)
    requires n <= |items|
  {
    forall k {:trigger Run(prim, item, items[k], path + [IndexSegment(k)])} ::
      0 <= k < n ==> Run(prim, item, items[k], path + [IndexSegment(k)]) == []
  }

  /** Every element of `items`, validated on its own, passes. */
  predicate ElementsPass(prim: Prim, item: Rule, items: seq<Value>)
  {
    forall k {:trigger Run(prim, item, items[k], [])} :: 0 <= k < |items| ==> Run(prim, item, items[k], []) == []
  }

  /** The element loop reports nothing exactly when every element passes at its own index path. */
  lemma {:induction false} ItemsPassIff(prim: Prim, item: Rule, items: seq<Value>, path: seq<string>, n: nat)
    requires n <= |items|
    ensures ItemsIssues(prim, item, items, path, n) == [] <==> ElementsPassAt(prim, item, items, path, n)
    decreases n
  {
    if n > 0 {
      ItemsPassIff(prim, item, items, path, n - 1);
      ItemsStep(prim, item, items, path, n - 1);
      EmptyConcat(ItemsIssues(prim, item, items, path, n - 1), Run(prim, item, items[n - 1], path + [IndexSegment(n - 1)]));
    }
  }

  /** Issues of earlier elements come first and are never taken back by later ones. */
  lemma {:induction false} ItemsPrefix(prim: Prim, item: Rule, items: seq<Value>, path: seq<string>, m: nat, n: nat)
    requires m <= n <= |items|
    ensures ItemsIssues(prim, item, items, path, m) <= ItemsIssues(prim, item, items, path, n)
    decreases n - m
  {
    if m < n {
      ItemsPrefix(prim, item, items, path, m, n - 1);
      var a := ItemsIssues(prim, item, items, path, m);
      var b := ItemsIssues(prim, item, items, path, n - 1);
      assert a <= b;
      assert b <= b + Run(prim, item, items[n - 1], path + [IndexSegment(n - 1)]);
      PrefixTrans(a, b, ItemsIssues(prim, item, items, path, n));
    }
  }

  /** The length checks of `validate_list` pass. */
  predicate LengthWithin(len: nat, minItems: Option<nat>, maxItems: Option<nat>)
  {
    && (minItems.Some? ==> minItems.value <= len)
    && (maxItems.Some? ==> len <= maxItems.value)
  }

  /**
   * A list with an item validator passes exactly when its length is within
   * bounds and every element, validated on its own, passes.
   */
  lemma ListPassIff(prim: Prim, items: seq<Value>, path: seq<string>,
                    item: Rule, minItems: Option<nat>, maxItems: Option<nat>)
    ensures ListIssues(prim, Array(items), path, Some(item), minItems, maxItems) == [] <==>
      LengthWithin(|items|, minItems, maxItems) && ElementsPass(prim, item, items)
  {
    var lc := LengthCodes(|items|, minItems, maxItems);
    assert lc == [] <==> LengthWithin(|items|, minItems, maxItems) by {
      if lc != [] {
        assert lc[0] in lc;
      }
    }
    var rest := ItemsIssues(prim, item, items, path, |items|);
    assert ListIssues(prim, Array(items), path, Some(item), minItems, maxItems) == Place(path, lc) + rest;
    EmptyConcat(Place(path, lc), rest);
    ItemsPassIff(prim, item, items, path, |items|);
    ElementsPassAnyPath(prim, item, items, path);
    assert |Place(path, lc)| == |lc|;
  }

  /** Every element passes at its index path exactly when every element passes at the root. */
  lemma ElementsPassAnyPath(prim: Prim, item: Rule, items: seq<Value>, path: seq<string>)
    ensures ElementsPassAt(prim, item, items, path, |items|) <==> ElementsPass(prim, item, items)
  {
    forall k {:trigger Run(prim, item, items[k], path + [IndexSegment(k)])} {:trigger Run(prim, item, items[k], [])}
      | 0 <= k < |items|
      ensures Run(prim, item, items[k], path + [IndexSegment(k)]) == [] <==> Run(prim, item, items[k], []) == []
    {
      RunPassesAnyPath(prim, item, items[k], path + [IndexSegment(k)], []);
    }
  }

  // ---------------------------------------------------------------------
  // Sequential bodies: every call runs, and the body passes when all do.
  // ---------------------------------------------------------------------

  /** Each of the first `n` calls, on `value` at `path`, passes. */
  predicate CallsPass(prim: Prim, rules: seq<Rule>, value: Value, path: seq<string>, n: nat)
    requires n <= |rules|
  {
    forall k {:trigger Run(prim, rules[k], value, path)} :: 0 <= k < n ==> Run(prim, rules[k], value, path) == []
  }

  /** A sequential body reports nothing exactly when every one of its calls reports nothing. */
  lemma {:induction false} AllPassIff(prim: Prim, rules: seq<Rule>, value: Value, path: seq<string>, n: nat)
    requires n <= |rules|
    ensures AllIssues(prim, rules, value, path, n) == [] <==> CallsPass(prim, rules, value, path, n)
    decreases n
  {
    if n > 0 {
      AllPassIff(prim, rules, value, path, n - 1);
      EmptyConcat(AllIssues(prim, rules, value, path, n - 1), Run(prim, rules[n - 1], value, path));
    }
  }

  /** The issues of a sequential body are its calls' issues in call order: earlier calls' issues stay a prefix. */
  lemma {:induction false} AllPrefix(prim: Prim, rules: seq<Rule>, value: Value, path: seq<string>, m: nat, n: nat)
    requires m <= n <= |rules|
    ensures AllIssues(prim, rules, value, path, m) <= AllIssues(prim, rules, value, path, n)
    decreases n - m
  {
    if m < n {
      AllPrefix(prim, rules, value, path, m, n - 1);
      var a := AllIssues(prim, rules, value, path, m);
      var b := AllIssues(prim, rules, value, path, n - 1);
      assert b <= b + Run(prim, rules[n - 1], value, path);
      PrefixTrans(a, b, AllIssues(prim, rules, value, path, n));
    }
  }

  // ---------------------------------------------------------------------
  // oneOf: passes exactly when some option, validated on its own, passes.
  // ---------------------------------------------------------------------

  lemma OneOfPassIff(prim: Prim, value: Value, path: seq<string>, validators: seq<Rule>)
    ensures OneOfIssues(prim, value, path, validators) == [] <==>
      exists i {:trigger Run(prim, validators[i], value, [])} ::
        0 <= i < |validators| && Run(prim, validators[i], value, []) == []
  {
    if SomeOptionPasses(prim, value, path, validators) {
      var i :| 0 <= i < |validators| && Run(prim, validators[i], value, path) == [];
      RunPassesAnyPath(prim, validators[i], value, path, []);
    }
    if exists i {:trigger Run(prim, validators[i], value, [])} ::
         0 <= i < |validators| && Run(prim, validators[i], value, []) == [] {
      var i :| 0 <= i < |validators| && Run(prim, validators[i], value, []) == [];
      RunPassesAnyPath(prim, validators[i], value, path, []);
      assert SomeOptionPasses(prim, value, path, validators);
    }
  }

  /** An empty `oneOf` never passes. */
  lemma OneOfEmptyFails(prim: Prim, value: Value, path: seq<string>)
    ensures OneOfIssues(prim, value, path, []) == [At(path, OneOfNoMatch)]
  {
  }

  // ---------------------------------------------------------------------
  // Index segments name distinct elements.
  // ---------------------------------------------------------------------

  lemma {:induction false} DecimalNonEmpty(n: nat)
    ensures |Decimal(n)| >= 1
    ensures n >= 10 ==> |Decimal(n)| >= 2
  {
    if n >= 10 {
      DecimalNonEmpty(n / 10);
    }
  }

  lemma {:induction false} DecimalInjective(a: nat, b: nat)
    requires Decimal(a) == Decimal(b)
    ensures a == b
    decreases a
  {
    DecimalNonEmpty(a);
    DecimalNonEmpty(b);
    var da, db := Decimal(a), Decimal(b);
    if a < 10 && b < 10 {
      assert Digit(a) == da[0] == db[0] == Digit(b);
    } else if a >= 10 && b >= 10 {
      assert da[..|da| - 1] == Decimal(a / 10);
      assert db[..|db| - 1] == Decimal(b / 10);
      DecimalInjective(a / 10, b / 10);
      assert Digit(a % 10) == da[|da| - 1] == db[|db| - 1] == Digit(b % 10);
    }
  }

  /** Distinct list elements are reported under distinct path segments. */
  lemma IndexSegmentInjective(a: nat, b: nat)
    requires IndexSegment(a) == IndexSegment(b)
    ensures a == b
  {
    var sa, sb := IndexSegment(a), IndexSegment(b);
    assert sa[1..|sa| - 1] == Decimal(a);
    assert sb[1..|sb| - 1] == Decimal(b);
    DecimalInjective(a, b);
  }
}
