/** Structure facts from one walk of the cloned repository: file and
    directory totals, the histogram of file extensions, the files at the
    top, the deepest directory, and three presence flags. The walk is given
    as the sequence of `os.walk` steps; the top-level listing, the set of
    its names that are directories and the existence of
    `.github/workflows` are given as inputs. */
module StructureAnalyzer {
  import opened Common
  import opened AnalysisModels
  import DocumentationAnalyzer
  import TestingAnalyzer

  // ---- depth ----

  /** Python's `s.replace(pat, "")`: occurrences of a non-empty `pat` are
      deleted left to right without overlapping; an empty `pat` changes nothing. */
  function RemoveAll(s: string, pat: string): (r: string)
    ensures |r| <= |s|
    decreases |s|
  {
    if pat == [] || |s| < |pat| then s
    else if s[..|pat|] == pat then RemoveAll(s[|pat|..], pat)
    else [s[0]] + RemoveAll(s[1..], pat)
  }

  /** Python's `s.count(c)` for one character. */
  function CountChar(s: string, c: char): (n: nat)
    ensures n <= |s|
    ensures n == 0 <==> c !in s
  {
    if s == [] then 0
    else
      assert s == s[..|s| - 1] + [s[|s| - 1]];
      CountChar(s[..|s| - 1], c) + (if s[|s| - 1] == c then 1 else 0)
  }

  /** The depth of a walked directory: the separators left after every
      occurrence of the repository path is deleted from it. */
  function Depth(root: string, repoPath: string): nat {
    CountChar(RemoveAll(root, repoPath), '/')
  }

  /** The largest depth over the walk, starting from 0. */
  function MaxDepth(walk: seq<WalkEntry>, repoPath: string): (d: nat)
    ensures forall i :: 0 <= i < |walk| ==> Depth(walk[i].root, repoPath) <= d
    ensures d == 0 || exists i :: 0 <= i < |walk| && Depth(walk[i].root, repoPath) == d
  {
    if walk == [] then 0
    else
      var n := |walk| - 1;
      var prev := MaxDepth(walk[..n], repoPath);
      MaxDepthStep(walk, walk[..n], repoPath, prev);
      Max(prev, Depth(walk[n].root, repoPath))
  }

  lemma MaxDepthStep(walk: seq<WalkEntry>, init: seq<WalkEntry>, repoPath: string, prev: nat)
    requires walk != [] && init == walk[..|walk| - 1]
    requires forall i :: 0 <= i < |init| ==> Depth(init[i].root, repoPath) <= prev
    requires prev == 0 || exists i :: 0 <= i < |init| && Depth(init[i].root, repoPath) == prev
    ensures forall i :: 0 <= i < |walk| ==> Depth(walk[i].root, repoPath) <= Max(prev, Depth(walk[|walk| - 1].root, repoPath))
    ensures Max(prev, Depth(walk[|walk| - 1].root, repoPath)) == 0 ||
      exists i :: 0 <= i < |walk| && Depth(walk[i].root, repoPath) == Max(prev, Depth(walk[|walk| - 1].root, repoPath))
  {
    var n := |walk| - 1;
    assert forall i :: 0 <= i < n ==> walk[..n][i] == walk[i];
  }

  /** A path in which the first character of `pat` never occurs keeps all its characters. */
  lemma {:induction false} RemoveAbsent(s: string, pat: string)
    requires pat != [] && pat[0] !in s
    ensures RemoveAll(s, pat) == s
    decreases |s|
  {
    if |s| >= |pat| {
      assert s[..|pat|][0] != pat[0];
      RemoveAbsent(s[1..], pat);
    }
  }

  /** The repository directory itself is at depth 0, a directory two levels
      below it at depth 2. */
  lemma DepthExamples()
    ensures Depth("r", "r") == 0
    ensures Depth("r/x/y", "r") == 2
  {
    assert "r"[..1] == "r" && "r"[1..] == [];
    RemoveLeading("/x/y");
    TwoSlashes();
  }

  /** Below "r", a path that never mentions `r` again loses only the prefix. */
  lemma RemoveLeading(rest: string)
    requires 'r' !in rest
    ensures RemoveAll("r" + rest, "r") == rest
  {
    var s := "r" + rest;
    assert s[..1] == "r" && s[1..] == rest;
    RemoveAbsent(rest, "r");
  }

  lemma TwoSlashes()
    ensures CountChar("/x/y", '/') == 2
  {
    assert "/x/y"[..3] == "/x/" && "/x/"[..2] == "/x" && "/x"[..1] == "/" && "/"[..0] == [];
  }

  /** A directory whose path repeats the repository path has the repetition
      deleted too, and is counted as shallower than it is: "a/b/a/b", two
      levels below "a/b", is at depth 1. */
  lemma RepeatedPathUndercounts()
    ensures Depth("a/b/a/b", "a/b") == 1
  {
    var y := "a/b/a/b";
    assert y[..3] == "a/b" && y[3..] == "/a/b";
    assert "/a/b"[..3] != "a/b" by { assert "/a/b"[..3][0] == '/'; }
    assert "/a/b"[1..] == "a/b" && "a/b"[..3] == "a/b" && "a/b"[3..] == [];
    assert RemoveAll("a/b", "a/b") == RemoveAll([], "a/b") == [];
    assert RemoveAll("/a/b", "a/b") == ['/'] + RemoveAll("a/b", "a/b") == "/";
    assert RemoveAll(y, "a/b") == "/";
    assert "/"[..0] == [] && "/"[0] == '/';
  }

  // ---- file counts and the extension histogram ----

  function TotalFiles(walk: seq<WalkEntry>): nat {
    if walk == [] then 0 else TotalFiles(walk[..|walk| - 1]) + |walk[|walk| - 1].files|
  }

  function TotalDirs(walk: seq<WalkEntry>): nat {
    if walk == [] then 0 else TotalDirs(walk[..|walk| - 1]) + |walk[|walk| - 1].dirs|
  }

  /** Whether some character of `s` in `[lo, hi)` is not a dot. */
  predicate HasNonDot(s: string, lo: nat, hi: nat)
    requires lo <= hi <= |s|
  {
    exists i :: lo <= i < hi && s[i] != '.'
  }

  /** `os.path.splitext(p)[1]`: from the last dot of the last path component
      to the end, unless everything before that dot in the component is
      dots (".bashrc", "..x"), in which case there is no extension. */
  function SplitExt(p: string): string {
    match RFind(p, '.')
    case None => ""
    case Some(dot) =>
      var start := ComponentStart(p);
      if start <= dot && HasNonDot(p, start, dot) then p[dot..] else ""
  }

  /** Where the last path component of `p` begins. */
  function ComponentStart(p: string): nat {
    match RFind(p, '/')
    case None => 0
    case Some(sep) => sep + 1
  }

  /** An extension is a suffix of the name that starts with its only dot
      and holds no separator. */
  lemma SplitExtShape(p: string)
    ensures var ext := SplitExt(p);
      ext == [] || (EndsWith(p, ext) && ext[0] == '.' && '.' !in ext[1..] && '/' !in ext)
  {
    match RFind(p, '.')
    case None =>
    case Some(dot) =>
      assert p[|p| - |p[dot..]|..] == p[dot..];
      assert p[dot..][1..] == p[dot + 1..];
  }

  /** `os.path.splitext(p)[1]` as the library computes it: the last dot
      after the last separator, then a scan over the component's leading
      dots for a character that is not a dot. */
  method SplitExtension(p: string) returns (ext: string)
    ensures ext == SplitExt(p)
  {
    var sepIndex := match RFind(p, '/') case None => -1 case Some(i) => i as int;
    var dotIndex := match RFind(p, '.') case None => -1 case Some(i) => i as int;
    if dotIndex > sepIndex {
      var filenameIndex := sepIndex + 1;
      while filenameIndex < dotIndex
        invariant sepIndex + 1 <= filenameIndex <= dotIndex
        invariant forall i :: sepIndex + 1 <= i < filenameIndex ==> p[i] == '.'
      {
        if p[filenameIndex] != '.' {
          return p[dotIndex..];
        }
        filenameIndex := filenameIndex + 1;
      }
    }
    return "";
  }

  /** "a.py" has the extension ".py", "a.b.c" only the last part ".c". */
  lemma SplitExtExamples()
    ensures SplitExt("a.py") == ".py"
    ensures SplitExt("a.b.c") == ".c"
  {
    assert "a.py"[..3] == "a.p" && "a.p"[..2] == "a." && "a.py"[1..] == ".py";
    assert RFind("a.py", '.') == Some(1);
    assert "a.b.c"[..4] == "a.b." && "a.b.c"[3..] == ".c";
    assert RFind("a.b.c", '.') == Some(3);
    assert "a.b.c"[0] != '.';
  }

  /** A name without a dot, or whose only dots lead it, has no extension. */
  lemma NoExtensionExamples()
    ensures SplitExt("ab") == ""
    ensures SplitExt(".rc") == ""
  {
    assert RFind("ab", '.') == None;
    assert ".rc"[..2] == ".r" && ".r"[..1] == ".";
    assert RFind(".rc", '.') == Some(0);
  }

  /** `ext or "no_ext"`. */
  function KeyOf(ext: string): string {
    if ext == [] then "no_ext" else ext
  }

  /** The histogram key of a file: its extension, or "no_ext". */
  function ExtKey(file: string): string {
    KeyOf(SplitExt(file))
  }

  /** "no_ext" never stands for a real extension, since every extension
      starts with a dot: a file is counted under it exactly when it has none. */
  lemma NoExtKey(file: string)
    ensures ExtKey(file) == "no_ext" <==> SplitExt(file) == []
    ensures ExtKey(file) != "no_ext" ==> ExtKey(file) == SplitExt(file) && ExtKey(file)[0] == '.'
  {
    SplitExtShape(file);
  }

  /** The count of `key` in a histogram, 0 when absent (`defaultdict(int)`). */
  function Get(h: map<string, nat>, key: string): nat {
    if key in h then h[key] else 0
  }

  function Inc(h: map<string, nat>, key: string): map<string, nat> {
    h[key := Get(h, key) + 1]
  }

  /** The histogram after counting `files` one by one. */
  function HistAdd(h: map<string, nat>, files: seq<string>): map<string, nat> {
    if files == [] then h
    else
      var n := |files| - 1;
      Inc(HistAdd(h, files[..n]), ExtKey(files[n]))
  }

  lemma HistAddStep(h: map<string, nat>, files: seq<string>, j: nat)
    requires j < |files|
    ensures HistAdd(h, files[..j + 1]) == Inc(HistAdd(h, files[..j]), ExtKey(files[j]))
  {
    assert files[..j + 1][..j] == files[..j];
  }

  /** The histogram of the whole walk. */
  function Histogram(walk: seq<WalkEntry>): map<string, nat> {
    if walk == [] then map[] else HistAdd(Histogram(walk[..|walk| - 1]), walk[|walk| - 1].files)
  }

  /** The number of files of `files` with histogram key `key`. */
  function CountKey(files: seq<string>, key: string): nat {
    if files == [] then 0
    else CountKey(files[..|files| - 1], key) + (if ExtKey(files[|files| - 1]) == key then 1 else 0)
  }

  function WalkCountKey(walk: seq<WalkEntry>, key: string): nat {
    if walk == [] then 0 else WalkCountKey(walk[..|walk| - 1], key) + CountKey(walk[|walk| - 1].files, key)
  }

  /** Counting adds the files with that key, and never leaves a zero entry. */
  lemma {:induction false} HistAddCounts(h: map<string, nat>, files: seq<string>, key: string)
    ensures Get(HistAdd(h, files), key) == Get(h, key) + CountKey(files, key)
    ensures key in HistAdd(h, files) <==> key in h || CountKey(files, key) > 0
  {
    if files != [] {
      HistAddCounts(h, files[..|files| - 1], key);
    }
  }

  /** Every key of the walk's histogram is the key of some file, with the
      number of files that have it as its value. */
  lemma {:induction false} HistogramCounts(walk: seq<WalkEntry>, key: string)
    ensures Get(Histogram(walk), key) == WalkCountKey(walk, key)
    ensures key in Histogram(walk) <==> WalkCountKey(walk, key) > 0
  {
    if walk != [] {
      var n := |walk| - 1;
      HistogramCounts(walk[..n], key);
      HistAddCounts(Histogram(walk[..n]), walk[n].files, key);
    }
  }

  /** The sum of a histogram's values. */
  ghost function SumValues(h: map<string, nat>): nat
    decreases |h|
  {
    if h == map[] then 0
    else
      var k :| k in h;
      h[k] + SumValues(h - {k})
  }

  lemma {:induction false} SumValuesRemove(h: map<string, nat>, key: string)
    requires key in h
    ensures SumValues(h) == h[key] + SumValues(h - {key})
    decreases |h|
  {
    var k :| k in h && SumValues(h) == h[k] + SumValues(h - {k});
    if k != key {
      SumValuesRemove(h - {k}, key);
      SumValuesRemove(h - {key}, k);
      assert h - {k} - {key} == h - {key} - {k};
    }
  }

  lemma SumValuesInc(h: map<string, nat>, key: string)
    ensures SumValues(Inc(h, key)) == SumValues(h) + 1
  {
    SumValuesRemove(Inc(h, key), key);
    if key in h {
      SumValuesRemove(h, key);
      assert Inc(h, key) - {key} == h - {key};
    } else {
      assert Inc(h, key) - {key} == h;
    }
  }

  lemma {:induction false} SumValuesHistAdd(h: map<string, nat>, files: seq<string>)
    ensures SumValues(HistAdd(h, files)) == SumValues(h) + |files|
  {
    if files != [] {
      var n := |files| - 1;
      SumValuesHistAdd(h, files[..n]);
      SumValuesInc(HistAdd(h, files[..n]), ExtKey(files[n]));
    }
  }

  /** The histogram's values add up to the number of files. */
  lemma {:induction false} HistogramSum(walk: seq<WalkEntry>)
    ensures SumValues(Histogram(walk)) == TotalFiles(walk)
  {
    if walk == [] {
      assert SumValues(map[]) == 0;
    } else {
      var n := |walk| - 1;
      HistogramSum(walk[..n]);
      SumValuesHistAdd(Histogram(walk[..n]), walk[n].files);
    }
  }

  // ---- root files and the flags ----

  /** The files of the steps whose directory is the repository path itself. */
  function RootFiles(walk: seq<WalkEntry>, repoPath: string): seq<string> {
    if walk == [] then []
    else
      var n := |walk| - 1;
      RootFiles(walk[..n], repoPath) + (if walk[n].root == repoPath then walk[n].files else [])
  }

  /** A walk visits the repository path once, first: the root files are the
      files of that first step, in their order. */
  lemma {:induction false} RootFilesOfFirstStep(walk: seq<WalkEntry>, repoPath: string)
    requires |walk| > 0 && walk[0].root == repoPath
    requires forall i :: 0 < i < |walk| ==> walk[i].root != repoPath
    ensures RootFiles(walk, repoPath) == walk[0].files
  {
    if |walk| > 1 {
      var n := |walk| - 1;
      RootFilesOfFirstStep(walk[..n], repoPath);
    } else {
      assert walk[..0] == [];
    }
  }

  /** `has_tests` of the structure scan: some top-level entry that is a
      directory has a test-directory name. */
  predicate HasTopLevelTestDir(listing: seq<string>, directories: set<string>) {
    exists i :: 0 <= i < |listing| && listing[i] in directories && TestingAnalyzer.IsTestDirName(listing[i])
  }

  /** Unlike the testing scan, the structure scan does not look below the
      top level: a repository whose only tests directory is `src/tests`
      has tests for one and not for the other. */
  lemma NestedTestsOnlyFoundByTestingScan()
    ensures !HasTopLevelTestDir(["src"], {"src"})
    ensures TestingAnalyzer.TestDirs([WalkEntry("r", ["src"], []), WalkEntry("r/src", ["tests"], [])]) == ["r/src/tests"]
  {
    assert !TestingAnalyzer.IsTestDirName("src") by { assert Lower("src") == "src"; }
    assert TestingAnalyzer.IsTestDirName("tests") by { assert Lower("tests") == "tests"; }
    assert PathJoin("r/src", "tests") == "r/src/tests";
    var e0 := WalkEntry("r", ["src"], []);
    var e1 := WalkEntry("r/src", ["tests"], []);
    assert TestingAnalyzer.TestDirsIn("r", ["src"]) == [] by { assert ["src"][..0] == []; }
    assert TestingAnalyzer.TestDirsIn("r/src", ["tests"]) == ["r/src/tests"] by { assert ["tests"][..0] == []; }
    assert TestingAnalyzer.TestDirs([e0]) == [] by { assert [e0][..0] == []; }
    assert [e0, e1][..1] == [e0];
  }

  /** `analyze_structure`. */
  method AnalyzeStructure(repoPath: string, walk: seq<WalkEntry>, listing: seq<string>,
                          directories: set<string>, workflowsExist: bool)
    returns (s: StructureAnalysis)
    ensures s.totalFiles == TotalFiles(walk) && s.totalDirectories == TotalDirs(walk)
    ensures s.fileTypes == Histogram(walk) && SumValues(s.fileTypes) == s.totalFiles
    ensures s.rootFiles == RootFiles(walk, repoPath)
    ensures s.maxDepth == MaxDepth(walk, repoPath)
    ensures s.hasReadme <==> exists i :: 0 <= i < |s.rootFiles| && DocumentationAnalyzer.IsReadmeName(s.rootFiles[i])
    ensures s.hasTests <==> HasTopLevelTestDir(listing, directories)
    ensures s.hasCi == workflowsExist
  {
    var fileTypes: map<string, nat> := map[];
    var totalFiles := 0;
    var totalDirs := 0;
    var rootFiles := [];
    var maxDepth := 0;
    for i := 0 to |walk|
      invariant totalFiles == TotalFiles(walk[..i]) && totalDirs == TotalDirs(walk[..i])
      invariant fileTypes == Histogram(walk[..i])
      invariant rootFiles == RootFiles(walk[..i], repoPath)
      invariant maxDepth == MaxDepth(walk[..i], repoPath)
    {
      assert walk[..i + 1][..i] == walk[..i];
      var entry := walk[i];
      var depth := Depth(entry.root, repoPath);
      maxDepth := Max(maxDepth, depth);
      totalDirs := totalDirs + |entry.dirs|;
      fileTypes, totalFiles, rootFiles := CountFiles(fileTypes, totalFiles, rootFiles, entry.files, entry.root == repoPath);
    }
    assert walk[..|walk|] == walk;
    HistogramSum(walk);
    var hasReadme := exists i :: 0 <= i < |rootFiles| && DocumentationAnalyzer.IsReadmeName(rootFiles[i]);
    var hasTests := exists i :: 0 <= i < |listing| && listing[i] in directories && TestingAnalyzer.IsTestDirName(listing[i]);
    s := StructureAnalysis(totalFiles, totalDirs, fileTypes, hasReadme, hasTests, workflowsExist, rootFiles, maxDepth);
  }

  /** A prefix one element longer is the old prefix plus that element. */
  lemma TakeOneMore(files: seq<string>, j: nat)
    requires j < |files|
    ensures files[..j + 1] == files[..j] + [files[j]]
  {
  }

  /** `file_types[ext or "no_ext"] += 1` for one file. */
  method CountFile(fileTypes: map<string, nat>, file: string) returns (fileTypes': map<string, nat>)
    ensures fileTypes' == Inc(fileTypes, ExtKey(file))
  {
    var ext := SplitExtension(file);
    fileTypes' := Inc(fileTypes, KeyOf(ext));
  }

  /** The inner loop over one step's files: each is counted, added to the
      histogram and, at the repository path, appended to the root files. */
  method CountFiles(fileTypes: map<string, nat>, totalFiles: nat, rootFiles: seq<string>,
                    files: seq<string>, atRoot: bool)
    returns (fileTypes': map<string, nat>, totalFiles': nat, rootFiles': seq<string>)
    ensures fileTypes' == HistAdd(fileTypes, files)
    ensures totalFiles' == totalFiles + |files|
    ensures rootFiles' == rootFiles + (if atRoot then files else [])
  {
    fileTypes', totalFiles', rootFiles' := fileTypes, totalFiles, rootFiles;
    for j := 0 to |files|
      invariant fileTypes' == HistAdd(fileTypes, files[..j])
      invariant totalFiles' == totalFiles + j
      invariant atRoot ==> rootFiles' == rootFiles + files[..j]
      invariant !atRoot ==> rootFiles' == rootFiles
    {
      HistAddStep(fileTypes, files, j);
      TakeOneMore(files, j);
      totalFiles' := totalFiles' + 1;
      fileTypes' := CountFile(fileTypes', files[j]);
      if atRoot {
        rootFiles' := rootFiles' + [files[j]];
      }
    }
    assert files[..|files|] == files;
    assert !atRoot ==> rootFiles + [] == rootFiles;
  }
}
