/**
 * The issue accumulator shared by both preludes: an issue is a rendered
 * path and a code, and validators only ever append issues to a list the
 * caller owns (`&mut Issues` in Rust, a `list` in Python).
 */
module Issues {

  /** The issue codes the preludes emit; `Text` gives the exact strings. */
  datatype Code =
    | TypeMismatch
    | StrTooShort | StrTooLong | StrPatternMismatch
    | NumNotInteger | NumTooSmall | NumTooLarge
    | LiteralMismatch
    | PatternMismatch
    | FieldMissing
    | ListTooShort | ListTooLong
    | OneOfNoMatch
    | FileNotFound | FileNotFile | FileWrongExt
    | DirNotFound | DirNotDir
    | JsonParseError

  function Text(c: Code): string
  {
    match c
    case TypeMismatch => "type.mismatch"
    case StrTooShort => "str.too_short"
    case StrTooLong => "str.too_long"
    case StrPatternMismatch => "str.pattern_mismatch"
    case NumNotInteger => "num.not_integer"
    case NumTooSmall => "num.too_small"
    case NumTooLarge => "num.too_large"
    case LiteralMismatch => "literal.mismatch"
    case PatternMismatch => "pattern.mismatch"
    case FieldMissing => "field.missing"
    case ListTooShort => "list.too_short"
    case ListTooLong => "list.too_long"
    case OneOfNoMatch => "oneof.no_match"
    case FileNotFound => "file.not_found"
    case FileNotFile => "file.not_file"
    case FileWrongExt => "file.wrong_ext"
    case DirNotFound => "dir.not_found"
    case DirNotDir => "dir.not_dir"
    case JsonParseError => "json.parse_error"
  }

  /**
   * The order in which a validator runs the checks behind each code: within
   * one primitive validator, codes are emitted in increasing rank.
   */
  function Rank(c: Code): nat
  {
    match c
    case TypeMismatch => 0
    case NumNotInteger => 1
    case StrTooShort => 2
    case NumTooSmall => 2
    case ListTooShort => 2
    case StrTooLong => 3
    case NumTooLarge => 3
    case ListTooLong => 3
    case StrPatternMismatch => 4
    case _ => 5
  }

  /** An issue as pushed by `add_issue`; the message text is not modelled. */
  datatype Issue = Issue(path: string, code: Code)

  /** Python's `sep.join(segs)` and Rust's `segs.join(sep)`. */
  function Join(segs: seq<string>, sep: string): string
  {
    if |segs| == 0 then ""
    else if |segs| == 1 then segs[0]
    else segs[0] + sep + Join(segs[1..], sep)
  }

  /** The path string of an issue: `"(root)"` for the empty path, else the segments joined with `.`. */
  function RenderPath(path: seq<string>): (s: string)
    ensures path == [] ==> s == "(root)"
    ensures |path| == 1 ==> s == path[0]
  {
    if path == [] then "(root)" else Join(path, ".")
  }

  /** The issue `add_issue` builds for this path and code. */
  function At(path: seq<string>, code: Code): (i: Issue)
    ensures i.code == code
  {
    Issue(RenderPath(path), code)
  }

  /** The code `c` if `cond` holds, nothing otherwise: one `if` of a validator. */
  function If(cond: bool, c: Code): (cs: seq<Code>)
    ensures cond <==> cs == [c]
    ensures !cond <==> cs == []
  {
    if cond then [c] else []
  }

  /** The issues `add_issue` pushes, one per code, all at `path`. */
  function Place(path: seq<string>, cs: seq<Code>): seq<Issue>
  {
    seq(|cs|, i requires 0 <= i < |cs| => At(path, cs[i]))
  }

  function Codes(s: seq<Issue>): (cs: seq<Code>)
    ensures |cs| == |s|
    ensures forall i :: 0 <= i < |s| ==> cs[i] == s[i].code
  {
    seq(|s|, i requires 0 <= i < |s| => s[i].code)
  }

  /** Every code of `cs` is one of `allowed`. */
  predicate OnlyCodes(cs: seq<Code>, allowed: set<Code>)
  {
    forall i :: 0 <= i < |cs| ==> cs[i] in allowed
  }

  /** Codes appear in strictly increasing check order: each at most once, in order. */
  predicate Ordered(cs: seq<Code>)
  {
    forall i, j :: 0 <= i < j < |cs| ==> Rank(cs[i]) < Rank(cs[j])
  }

  lemma CodesPlace(path: seq<string>, cs: seq<Code>)
    ensures Codes(Place(path, cs)) == cs
  {
  }

  lemma PlaceConcat(path: seq<string>, a: seq<Code>, b: seq<Code>)
    ensures Place(path, a + b) == Place(path, a) + Place(path, b)
  {
  }

  /** Pushing one more issue at `path` extends the placed codes by that code. */
  lemma PlaceSnoc(start: seq<Issue>, path: seq<string>, cs: seq<Code>, c: Code)
    ensures start + Place(path, cs) + [Issue(RenderPath(path), c)] == start + Place(path, cs + [c])
  {
    assert Place(path, cs + [c]) == Place(path, cs) + [At(path, c)];
  }

  lemma PlaceNone(start: seq<Issue>, path: seq<string>)
    ensures start + Place(path, []) == start
  {
  }

  lemma CodesConcat(a: seq<Issue>, b: seq<Issue>)
    ensures Codes(a + b) == Codes(a) + Codes(b)
  {
  }

  /** The rendering of a child path extends the parent's with `.` and the new segment. */
  lemma {:induction false} JoinSnoc(segs: seq<string>, seg: string, sep: string)
    requires segs != []
    ensures Join(segs + [seg], sep) == Join(segs, sep) + sep + seg
  {
    if |segs| == 1 {
      assert segs + [seg] == [segs[0], seg];
      assert [seg][1..] == [];
    } else {
      JoinSnoc(segs[1..], seg, sep);
      assert (segs + [seg])[1..] == segs[1..] + [seg];
    }
  }

  lemma RenderChild(path: seq<string>, seg: string)
    ensures RenderPath(path + [seg]) == if path == [] then seg else RenderPath(path) + "." + seg
  {
    if path != [] {
      JoinSnoc(path, seg, ".");
    }
  }

  /** Below a non-empty path, every descendant's rendering starts with the path's own rendering. */
  lemma {:induction false} RenderExtends(path: seq<string>, ext: seq<string>)
    requires path != []
    ensures RenderPath(path) <= RenderPath(path + ext)
  {
    if ext == [] {
      assert path + ext == path;
    } else {
      var init, last := ext[..|ext| - 1], ext[|ext| - 1];
      RenderExtends(path, init);
      assert path + ext == (path + init) + [last];
      RenderChild(path + init, last);
      var mid := RenderPath(path + init);
      assert mid <= mid + "." + last;
    }
  }

  /** The caller-owned issue list (`Vec<Issue>` / `list[dict]`). */
  class IssueList {
    var items: seq<Issue>

    constructor ()
      ensures items == []
    {
      items := [];
    }

    /** `Vec::push` / `list.append`. */
    method Push(i: Issue)
      modifies this
      ensures items == old(items) + [i]
    {
      items := items + [i];
    }
  }

  /** `add_issue`: append exactly one issue whose path is the rendering of `path`. */
  method AddIssue(issues: IssueList, path: seq<string>, code: Code)
    modifies issues
    ensures issues.items == old(issues.items) + [Issue(RenderPath(path), code)]
  {
    issues.Push(Issue(RenderPath(path), code));
  }
}
