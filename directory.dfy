/** The current-directory helpers of the files page: the `files/` prefix the
    listing and upload requests strip, the parent directory "Pasta Superior"
    goes to, and the breadcrumb trail derived from the directory. */
module Directory {
  import opened JsStrings

  /** The prefix `currentDir.startsWith("files/") ? currentDir.slice(6) : currentDir` removes. */
  const FilesPrefix: string := "files/"

  // ---------------------------------------------------------------------------
  // Prefix stripping

  /** The directory sent with a listing or an upload request: one leading
      `files/` is removed, anything else is sent as it is. */
  function CleanDir(dir: string): (r: string)
    ensures StartsWith(dir, FilesPrefix) ==> FilesPrefix + r == dir
    ensures !StartsWith(dir, FilesPrefix) ==> r == dir
  {
    if StartsWith(dir, FilesPrefix) then dir[|FilesPrefix|..] else dir
  }

  /** Only one prefix is stripped, so stripping is not idempotent. */
  lemma CleanDirStripsOnce()
    ensures CleanDir("files/files/x") == "files/x"
    ensures CleanDir(CleanDir("files/files/x")) == "x"
    ensures CleanDir("files") == "files" && CleanDir("") == ""
  {
  }

  // ---------------------------------------------------------------------------
  // Parent directory

  /** `p` is what remains of `dir` once its last `/`-separated part and the `/`
      before it are dropped; with no `/` at all, nothing remains. */
  ghost predicate IsParentOf(p: string, dir: string) {
    if '/' in dir then
      |p| < |dir| && p == dir[..|p|] && dir[|p|] == '/' && '/' !in dir[|p| + 1..]
    else
      p == ""
  }

  /** The position of the last `c` in `s`, or -1 when there is none. */
  function LastIndexOf(s: string, c: char): (k: int)
    ensures -1 <= k < |s|
    ensures k >= 0 ==> s[k] == c
    ensures forall j :: k < j < |s| ==> s[j] != c
    ensures k == -1 ==> c !in s
    decreases |s|
  {
    if s == [] then -1
    else if s[|s| - 1] == c then |s| - 1
    else LastIndexOf(s[..|s| - 1], c)
  }

  /** The parent of `dir`: everything before its last `/`, and "" when it has none. */
  function ParentDir(dir: string): (p: string)
    ensures IsParentOf(p, dir)
    ensures StartsWith(dir, p)
  {
    var k := LastIndexOf(dir, '/');
    if k < 0 then "" else
      assert dir[k + 1..] == dir[|dir[..k]| + 1..];
      dir[..k]
  }

  /** At most one string is the parent of a directory. */
  lemma ParentUnique(p: string, q: string, dir: string)
    requires IsParentOf(p, dir) && IsParentOf(q, dir)
    ensures p == q
  {
  }

  /** Splitting on `/`, popping the last part and joining the rest yields the parent. */
  lemma {:induction false} SplitPopJoinIsParent(dir: string)
    ensures var parts := Split(dir, '/');
            IsParentOf(Join(parts[..|parts| - 1], '/'), dir)
    decreases |dir|
  {
    if dir != [] {
      var tail := dir[1..];
      var rest := Split(tail, '/');
      var parts := Split(dir, '/');
      SplitPopJoinIsParent(tail);
      SplitSingle(tail, '/');
      var q := Join(rest[..|rest| - 1], '/');
      var p := Join(parts[..|parts| - 1], '/');
      assert dir == [dir[0]] + tail;
      if dir[0] == '/' {
        assert parts == [""] + rest;
        if |rest| > 1 {
          assert parts[..|parts| - 1] == [""] + rest[..|rest| - 1];
          assert p == [dir[0]] + q;
          assert dir[|p| + 1..] == tail[|q| + 1..];
        }
      } else {
        assert parts == [[dir[0]] + rest[0]] + rest[1..];
        if |rest| > 1 {
          var tl := rest[1..|rest| - 1];
          assert parts[..|parts| - 1] == [[dir[0]] + rest[0]] + tl;
          assert rest[..|rest| - 1] == [rest[0]] + tl;
          assert parts[..|parts| - 1][1..] == tl;
          assert rest[..|rest| - 1][1..] == tl;
          assert p == [dir[0]] + q;
          assert dir[|p| + 1..] == tail[|q| + 1..];
        }
      }
    }
  }

  /** Examples: "a/b" goes up to "a", "a" to the root, "a/b/" to "a/b". */
  lemma ParentDirExamples()
    ensures ParentDir("a/b") == "a"
    ensures ParentDir("a") == ""
    ensures ParentDir("a/b/") == "a/b"
  {
  }

  // ---------------------------------------------------------------------------
  // Path segments and breadcrumbs

  /** The non-empty strings of `parts`, in order. */
  function NonEmpty(parts: seq<string>): (r: seq<string>)
    ensures |r| <= |parts|
    ensures forall i :: 0 <= i < |r| ==> r[i] != "" && r[i] in parts
    ensures forall x :: multiset(r)[x] == if x == "" then 0 else multiset(parts)[x]
    decreases |parts|
  {
    if parts == [] then []
    else
      assert parts == [parts[0]] + parts[1..];
      if parts[0] == "" then NonEmpty(parts[1..])
      else [parts[0]] + NonEmpty(parts[1..])
  }

  /** Filtering a list with one more part at the end: the kept parts stay in order. */
  lemma {:induction false} NonEmptySnoc(parts: seq<string>, x: string)
    ensures NonEmpty(parts + [x]) == NonEmpty(parts) + (if x == "" then [] else [x])
    decreases |parts|
  {
    if parts != [] {
      assert (parts + [x])[1..] == parts[1..] + [x];
      NonEmptySnoc(parts[1..], x);
    }
  }

  lemma {:induction false} NonEmptyAll(parts: seq<string>)
    requires forall i :: 0 <= i < |parts| ==> parts[i] != ""
    ensures NonEmpty(parts) == parts
    decreases |parts|
  {
    if parts != [] {
      NonEmptyAll(parts[1..]);
    }
  }

  /** The non-empty `/`-separated segments of a directory. */
  function Segments(dir: string): (segs: seq<string>)
    ensures forall i :: 0 <= i < |segs| ==> segs[i] != "" && '/' !in segs[i]
  {
    NonEmpty(Split(dir, '/'))
  }

  /** A directory is normalized when it is not the root and has no empty
      segment: no leading or trailing `/` and no `//`. */
  predicate Normalized(dir: string) {
    dir != "" && forall i :: 0 <= i < |Split(dir, '/')| ==> Split(dir, '/')[i] != ""
  }

  /** Joining non-empty strings yields "" only for the empty list. */
  lemma JoinNonEmpty(parts: seq<string>, sep: char)
    requires parts != [] && parts[0] != ""
    ensures Join(parts, sep) != ""
  {
  }

  /** One entry of the breadcrumb trail. */
  datatype Crumb = Crumb(name: string, path: string)

  /** The synthetic first entry, standing for the root directory. */
  const RootCrumb: Crumb := Crumb("Files", "")

  /** The trail for a list of segments: the root entry, then for each segment
      an entry with that segment and the segments up to it joined by `/`. */
  ghost function Trail(segs: seq<string>): (t: seq<Crumb>)
    ensures |t| == |segs| + 1
    decreases |segs|
  {
    if segs == [] then [RootCrumb]
    else Trail(segs[..|segs| - 1]) + [Crumb(segs[|segs| - 1], Join(segs, '/'))]
  }

  /** Entry by entry, the trail holds the segments and their accumulated paths. */
  lemma {:induction false} TrailAt(segs: seq<string>)
    ensures Trail(segs)[0] == RootCrumb
    ensures forall i :: 1 <= i < |Trail(segs)| ==>
              Trail(segs)[i] == Crumb(segs[i - 1], Join(segs[..i], '/'))
    decreases |segs|
  {
    if segs != [] {
      var init := segs[..|segs| - 1];
      TrailAt(init);
      assert segs[..|segs|] == segs;
      assert forall i :: 1 <= i <= |init| ==> init[..i] == segs[..i];
    }
  }

  /** `getBreadcrumbs`: the root entry, then one entry per non-empty segment of
      `currentDir`, each carrying its segment and the path accumulated so far. */
  method GetBreadcrumbs(currentDir: string) returns (crumbs: seq<Crumb>)
    ensures crumbs == Trail(Segments(currentDir))
    ensures |crumbs| == 1 + |Segments(currentDir)|
    ensures crumbs[0] == RootCrumb
    ensures currentDir == "" ==> crumbs == [RootCrumb]
    ensures forall i :: 1 <= i < |crumbs| ==>
              crumbs[i].name == Segments(currentDir)[i - 1]
              && crumbs[i].path == Join(Segments(currentDir)[..i], '/')
    ensures forall i :: 1 <= i < |crumbs| ==> crumbs[i].name != "" && '/' !in crumbs[i].name
    ensures |crumbs| > 1 ==> crumbs[1].path == crumbs[1].name
    ensures forall i :: 2 <= i < |crumbs| ==>
              crumbs[i].path == crumbs[i - 1].path + "/" + crumbs[i].name
    ensures Normalized(currentDir) ==> crumbs[|crumbs| - 1].path == currentDir
  {
    if currentDir == "" {
      crumbs := [RootCrumb];
    } else {
      var parts := Split(currentDir, '/');
      crumbs := [RootCrumb];
      var currentPath := "";
      for k := 0 to |parts|
        invariant crumbs == Trail(NonEmpty(parts[..k]))
        invariant currentPath == Join(NonEmpty(parts[..k]), '/')
      {
        var part := parts[k];
        ghost var segs := NonEmpty(parts[..k]);
        BreadcrumbStep(parts, k);
        if part == "" {
          continue;
        }
        currentPath := if currentPath != "" then currentPath + "/" + part else part;
        crumbs := crumbs + [Crumb(part, currentPath)];
      }
      assert parts[..|parts|] == parts;
    }
    TrailAt(Segments(currentDir));
    TrailChain(Segments(currentDir));
    if Normalized(currentDir) {
      TrailOfNormalized(currentDir);
    }
  }

  /** One iteration of the breadcrumb loop: an empty part adds nothing, a
      non-empty part adds one entry whose path extends the running path. */
  lemma BreadcrumbStep(parts: seq<string>, k: nat)
    requires k < |parts|
    ensures var segs := NonEmpty(parts[..k]);
            var x := parts[k];
            && (x == "" ==> NonEmpty(parts[..k + 1]) == segs)
            && (x != "" ==> NonEmpty(parts[..k + 1]) == segs + [x]
                            && Trail(segs + [x]) == Trail(segs) + [Crumb(x, Join(segs + [x], '/'))]
                            && Join(segs + [x], '/') == if Join(segs, '/') != "" then Join(segs, '/') + "/" + x else x)
  {
    var segs := NonEmpty(parts[..k]);
    var x := parts[k];
    assert parts[..k + 1] == parts[..k] + [x];
    NonEmptySnoc(parts[..k], x);
    TrailSnoc(segs, x);
    PathSnoc(segs, x);
  }

  lemma TrailSnoc(segs: seq<string>, x: string)
    ensures Trail(segs + [x]) == Trail(segs) + [Crumb(x, Join(segs + [x], '/'))]
  {
  }

  /** The running path after one more non-empty segment. */
  lemma PathSnoc(segs: seq<string>, x: string)
    requires forall i :: 0 <= i < |segs| ==> segs[i] != ""
    ensures Join(segs + [x], '/') == if Join(segs, '/') != "" then Join(segs, '/') + "/" + x else x
  {
    JoinSnoc(segs, x, '/');
    if segs != [] {
      JoinNonEmpty(segs, '/');
    }
  }

  /** Each path after the first extends the one before it by `/` and its own name. */
  lemma TrailChain(segs: seq<string>)
    ensures |segs| > 0 ==> Trail(segs)[1].path == Trail(segs)[1].name
    ensures forall i :: 2 <= i < |Trail(segs)| ==>
              Trail(segs)[i].path == Trail(segs)[i - 1].path + "/" + Trail(segs)[i].name
  {
    TrailAt(segs);
    BreadcrumbPathsChain(segs);
  }

  /** For a normalized directory the last entry's path is the directory itself. */
  lemma TrailOfNormalized(dir: string)
    requires Normalized(dir)
    ensures Trail(Segments(dir))[|Segments(dir)|].path == dir
  {
    var segs := Segments(dir);
    TrailAt(segs);
    NonEmptyAll(Split(dir, '/'));
    JoinSplit(dir, '/');
    assert segs[..|segs|] == segs;
  }

  /** Each accumulated path extends the previous one by `/` and the next segment. */
  lemma BreadcrumbPathsChain(segs: seq<string>)
    ensures |segs| > 0 ==> Join(segs[..1], '/') == segs[0]
    ensures forall i :: 1 <= i < |segs| ==>
              Join(segs[..i + 1], '/') == Join(segs[..i], '/') + "/" + segs[i]
  {
    forall i | 1 <= i < |segs|
      ensures Join(segs[..i + 1], '/') == Join(segs[..i], '/') + "/" + segs[i]
    {
      assert segs[..i + 1] == segs[..i] + [segs[i]];
      JoinSnoc(segs[..i], segs[i], '/');
    }
  }
}
