/**
 * The zip-mode queries of `FSContext`. A zip bundle is read once into a map
 * from entry names to contents; directory entries of the archive are not
 * stored, so a directory exists only through the names of the files under
 * it. The queries are prefix tests on those names.
 */
module ZipView {

  type Byte = bv8

  /** The zip-mode `FSContext`: entry name to entry bytes (directory entries are never stored). */
  datatype ZipContext = ZipContext(entries: map<string, seq<Byte>>)

  /** Some stored entry lies below `rel`: its name starts with `rel + "/"`. */
  predicate HasEntryBelow(ctx: ZipContext, rel: string)
  {
    exists k :: k in ctx.entries && rel + "/" <= k
  }

  /** `FSContext::is_file`: `rel` is the name of a stored entry. */
  function IsFile(ctx: ZipContext, rel: string): (b: bool)
    ensures b <==> rel in ctx.entries
    ensures b ==> Exists(ctx, rel)
  {
    rel in ctx.entries
  }

  /** An entry lies below `rel` exactly when its name continues `rel` with a `/`. */
  lemma BelowIff(ctx: ZipContext, rel: string)
    ensures HasEntryBelow(ctx, rel) <==>
      exists k :: k in ctx.entries && |rel| < |k| && k[..|rel|] == rel && k[|rel|] == '/'
  {
    if HasEntryBelow(ctx, rel) {
      var k :| k in ctx.entries && rel + "/" <= k;
      assert k[..|rel|] == (rel + "/")[..|rel|];
      assert k[|rel|] == (rel + "/")[|rel|];
    }
    if exists k :: k in ctx.entries && |rel| < |k| && k[..|rel|] == rel && k[|rel|] == '/' {
      var k :| k in ctx.entries && |rel| < |k| && k[..|rel|] == rel && k[|rel|] == '/';
      assert k[..|rel| + 1] == rel + "/";
    }
  }

  /** `FSContext::is_dir`: some stored entry lies below `rel`. */
  function IsDir(ctx: ZipContext, rel: string): (b: bool)
    ensures b ==> Exists(ctx, rel)
    ensures b <==> exists k :: k in ctx.entries && |rel| < |k| && k[..|rel|] == rel && k[|rel|] == '/'
  {
    BelowIff(ctx, rel);
    HasEntryBelow(ctx, rel)
  }

  /** `FSContext::exists`: some stored name is `rel` itself or continues it with a `/`. */
  predicate Exists(ctx: ZipContext, rel: string): (e: bool)
    ensures e <==> exists k :: k in ctx.entries &&
                     (k == rel || (|rel| < |k| && k[..|rel|] == rel && k[|rel|] == '/'))
  {
    BelowIff(ctx, rel);
    rel in ctx.entries || HasEntryBelow(ctx, rel)
  }

  /** Something exists at `rel` exactly when it is a file or a directory. */
  lemma ExistsIffFileOrDir(ctx: ZipContext, rel: string)
    ensures Exists(ctx, rel) <==> IsFile(ctx, rel) || IsDir(ctx, rel)
  {
  }

  /** Every proper `/`-separated ancestor of a stored entry is a directory. */
  lemma AncestorIsDir(ctx: ZipContext, dir: string, rest: string)
    requires dir + "/" + rest in ctx.entries
    ensures IsDir(ctx, dir) && Exists(ctx, dir)
  {
    var k := dir + "/" + rest;
    assert (dir + "/") <= k;
  }

  /**
   * Unlike on a real filesystem, the same name can be both a file and a
   * directory: an archive may hold both `a` and `a/b`.
   */
  lemma FileAndDirAtOnce()
    ensures var ctx := ZipContext(map["a" := [], "a/b" := []]);
            IsFile(ctx, "a") && IsDir(ctx, "a")
  {
    var ctx := ZipContext(map["a" := [], "a/b" := []]);
    assert "a" + "/" + "b" == "a/b";
    AncestorIsDir(ctx, "a", "b");
  }

  /** A shared name prefix is not enough: `ab/c` does not make `a` a directory. */
  lemma SiblingPrefixIsNotDir()
    ensures !IsDir(ZipContext(map["ab/c" := []]), "a")
  {
    var ctx := ZipContext(map["ab/c" := []]);
    forall k | k in ctx.entries
      ensures !("a/" <= k)
    {
      assert k == "ab/c";
      assert k[1] != '/';
    }
  }

  /** A trailing `/` in the query is not normalised: `a/` is not a directory even when `a/b` is stored. */
  lemma TrailingSlashIsNotDir()
    ensures var ctx := ZipContext(map["a/b" := []]);
            IsDir(ctx, "a") && !IsDir(ctx, "a/") && !Exists(ctx, "a/")
  {
    var ctx := ZipContext(map["a/b" := []]);
    assert "a" + "/" + "b" == "a/b";
    AncestorIsDir(ctx, "a", "b");
    forall k | k in ctx.entries
      ensures !("a//" <= k)
    {
      assert k == "a/b";
      assert k[2] != '/';
    }
  }
}
