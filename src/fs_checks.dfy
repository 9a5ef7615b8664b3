/**
 * The file-system validators of the Rust prelude over a zip bundle:
 * `validate_fs_file`, `validate_fs_directory` and `validate_json_file`.
 * Each reports at `path + [rel]`, stops at the first failed check, and
 * checks existence before kind, and kind before extension or content.
 */
module FsChecks {
  import opened Wrappers
  import opened Json
  import opened Issues
  import opened Regex
  import opened ZipView
  import opened Engine
  import EngineLemmas

  /**
   * Library calls the checks rely on that the model does not implement:
   * `Path::extension` (already converted to a string), `String::from_utf8`
   * and `serde_json::from_str`.
   */
  datatype Host = Host(extension: string -> Option<string>,
                       decodeUtf8: seq<Byte> -> Option<string>,
                       parseJson: string -> Option<Value>)

  /** The extension `validate_fs_file` compares: a path without one reads as `""`. */
  function ActualExt(host: Host, rel: string): string
  {
    match host.extension(rel)
    case Some(e) => e
    case None => ""
  }

  /** The codes `validate_fs_file` pushes: at most one, found in check order. */
  function FileCodes(ctx: ZipContext, host: Host, rel: string, ext: Option<string>): (cs: seq<Code>)
    ensures |cs| <= 1
    ensures cs == [FileNotFound] <==> !IsFile(ctx, rel) && !IsDir(ctx, rel)
    ensures cs == [FileNotFile] <==> IsDir(ctx, rel) && !IsFile(ctx, rel)
    ensures cs == [FileWrongExt] <==> IsFile(ctx, rel) && ext.Some? && ActualExt(host, rel) != ext.value
    ensures cs == [] <==> IsFile(ctx, rel) && (ext.Some? ==> ActualExt(host, rel) == ext.value)
  {
    ExistsIffFileOrDir(ctx, rel);
    if !Exists(ctx, rel) then [FileNotFound]
    else if !IsFile(ctx, rel) then [FileNotFile]
    else if ext.Some? && ActualExt(host, rel) != ext.value then [FileWrongExt]
    else []
  }

  /** `validate_fs_file`: the result is true exactly when nothing was pushed. */
  method ValidateFsFile(ctx: ZipContext, host: Host, rel: string, path: seq<string>, issues: IssueList,
                        ext: Option<string>) returns (ok: bool)
    modifies issues
    ensures issues.items == old(issues.items) + Place(path + [rel], FileCodes(ctx, host, rel, ext))
    ensures ok <==> FileCodes(ctx, host, rel, ext) == []
  {
    var filePath := path + [rel];
    if !Exists(ctx, rel) {
      AddIssue(issues, filePath, FileNotFound);
      return false;
    }
    if !IsFile(ctx, rel) {
      AddIssue(issues, filePath, FileNotFile);
      return false;
    }
    if ext.Some? {
      var actual := ActualExt(host, rel);
      if actual != ext.value {
        AddIssue(issues, filePath, FileWrongExt);
        return false;
      }
    }
    return true;
  }

  /** The codes `validate_fs_directory` pushes: at most one, found in check order. */
  function DirCodes(ctx: ZipContext, rel: string): (cs: seq<Code>)
    ensures |cs| <= 1
    ensures cs == [DirNotFound] <==> !IsFile(ctx, rel) && !IsDir(ctx, rel)
    ensures cs == [DirNotDir] <==> IsFile(ctx, rel) && !IsDir(ctx, rel)
    ensures cs == [] <==> IsDir(ctx, rel)
  {
    ExistsIffFileOrDir(ctx, rel);
    if !Exists(ctx, rel) then [DirNotFound]
    else if !IsDir(ctx, rel) then [DirNotDir]
    else []
  }

  /** `validate_fs_directory`: the result is true exactly when nothing was pushed. */
  method ValidateFsDirectory(ctx: ZipContext, rel: string, path: seq<string>, issues: IssueList)
    returns (ok: bool)
    modifies issues
    ensures issues.items == old(issues.items) + Place(path + [rel], DirCodes(ctx, rel))
    ensures ok <==> DirCodes(ctx, rel) == []
  {
    var dirPath := path + [rel];
    if !Exists(ctx, rel) {
      AddIssue(issues, dirPath, DirNotFound);
      return false;
    }
    if !IsDir(ctx, rel) {
      AddIssue(issues, dirPath, DirNotDir);
      return false;
    }
    return true;
  }

  /** `FSContext::read` in zip mode: the stored entry, decoded as UTF-8; a missing entry or bad UTF-8 is an error. */
  function Read(ctx: ZipContext, host: Host, rel: string): (r: Option<string>)
    ensures r.Some? ==> IsFile(ctx, rel) && host.decodeUtf8(ctx.entries[rel]) == r
    ensures IsFile(ctx, rel) ==> r == host.decodeUtf8(ctx.entries[rel])
  {
    if rel in ctx.entries then host.decodeUtf8(ctx.entries[rel]) else None
  }

  /** `FSContext::read_json`: `read`, then parsing; a failure of either is an error. */
  function ReadJson(ctx: ZipContext, host: Host, rel: string): (r: Option<Value>)
    ensures r.Some? ==> IsFile(ctx, rel)
    ensures r.Some? <==> Read(ctx, host, rel).Some? && host.parseJson(Read(ctx, host, rel).value).Some?
    ensures r.Some? ==> r == host.parseJson(Read(ctx, host, rel).value)
  {
    match Read(ctx, host, rel)
    case Some(text) => host.parseJson(text)
    case None => None
  }

  /** The issues `validate_json_file` appends when its content closure is `contentValidator`. */
  function JsonFileIssues(prim: Prim, ctx: ZipContext, host: Host, rel: string, path: seq<string>,
                          contentValidator: Option<Rule>): (out: seq<Issue>)
    ensures !IsFile(ctx, rel) && !IsDir(ctx, rel) ==> out == [At(path + [rel], FileNotFound)]
    ensures IsDir(ctx, rel) && !IsFile(ctx, rel) ==> out == [At(path + [rel], FileNotFile)]
    ensures IsFile(ctx, rel) && ReadJson(ctx, host, rel).None? ==> out == [At(path + [rel], JsonParseError)]
    ensures IsFile(ctx, rel) && ReadJson(ctx, host, rel).Some? ==>
      out == if contentValidator.Some? then Run(prim, contentValidator.value, ReadJson(ctx, host, rel).value, path + [rel])
             else []
  {
    ExistsIffFileOrDir(ctx, rel);
    var filePath := path + [rel];
    if !Exists(ctx, rel) then [At(filePath, FileNotFound)]
    else if !IsFile(ctx, rel) then [At(filePath, FileNotFile)]
    else match ReadJson(ctx, host, rel)
      case Some(content) =>
        if contentValidator.Some? then Run(prim, contentValidator.value, content, filePath) else []
      case None => [At(filePath, JsonParseError)]
  }

  /** `validate_json_file` (Rust prelude): the parsed content is returned exactly when it was validated. */
  method ValidateJsonFile(rx: Oracle, ctx: ZipContext, host: Host, rel: string, path: seq<string>,
                          issues: IssueList, contentValidator: Option<Rule>) returns (content: Option<Value>)
    modifies issues
    ensures issues.items == old(issues.items) + JsonFileIssues(Primitives(Rust, rx), ctx, host, rel, path, contentValidator)
    ensures content.Some? <==> IsFile(ctx, rel) && ReadJson(ctx, host, rel).Some?
    ensures content.Some? ==> content == ReadJson(ctx, host, rel)
  {
    var filePath := path + [rel];
    if !Exists(ctx, rel) {
      AddIssue(issues, filePath, FileNotFound);
      return None;
    }
    if !IsFile(ctx, rel) {
      AddIssue(issues, filePath, FileNotFile);
      return None;
    }
    var parsed := ReadJson(ctx, host, rel);
    match parsed {
      case Some(v) =>
        if contentValidator.Some? {
          Apply(Rust, rx, contentValidator.value, v, filePath, issues);
        }
        content := Some(v);
      case None =>
        AddIssue(issues, filePath, JsonParseError);
        content := None;
    }
  }

  /** Every issue of `validate_json_file`, including those of the content closure, is reported at or below `path + [rel]`. */
  lemma JsonFileUnder(prim: Prim, ctx: ZipContext, host: Host, rel: string, path: seq<string>,
                      contentValidator: Option<Rule>)
    ensures EngineLemmas.Under(path + [rel], JsonFileIssues(prim, ctx, host, rel, path, contentValidator))
  {
    var filePath := path + [rel];
    if IsFile(ctx, rel) && ReadJson(ctx, host, rel).Some? && contentValidator.Some? {
      EngineLemmas.RunUnder(prim, contentValidator.value, ReadJson(ctx, host, rel).value, filePath);
    } else {
      EngineLemmas.BelowSelf(filePath);
    }
  }

  /**
   * Without a content closure, `validate_json_file` pushes at most one
   * issue, and pushes none exactly when it returns the parsed content.
   */
  lemma JsonFileWithoutContentCheck(prim: Prim, ctx: ZipContext, host: Host, rel: string, path: seq<string>)
    ensures |JsonFileIssues(prim, ctx, host, rel, path, None)| <= 1
    ensures JsonFileIssues(prim, ctx, host, rel, path, None) == [] <==>
      IsFile(ctx, rel) && ReadJson(ctx, host, rel).Some?
  {
    ExistsIffFileOrDir(ctx, rel);
  }
}
