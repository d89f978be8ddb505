/** Testing facts from a walk of the checked-out repository: the test
    directories at any depth, the test files below each of them, the test
    frameworks mentioned in Python sources, and coverage artifacts. The walk
    is given as the sequence of `os.walk` steps, file contents as a map from
    path to text (a missing path is a file that could not be read), and the
    walk of one directory is the part of the repository walk at or below it. */
module TestingAnalyzer {
  import opened Common
  import opened AnalysisModels

  const TestDirNames: seq<string> := ["tests", "test", "__tests__"]

  predicate IsTestDirName(name: string) {
    Lower(name) in TestDirNames
  }

  // ---- find_test_directories ----

  /** The joined paths of the test directories among `dirs`, in order. */
  function TestDirsIn(root: string, dirs: seq<string>): seq<string> {
    if dirs == [] then []
    else
      var n := |dirs| - 1;
      TestDirsIn(root, dirs[..n]) + (if IsTestDirName(dirs[n]) then [PathJoin(root, dirs[n])] else [])
  }

  /** The test directories of a walk, in walk order. */
  function TestDirs(walk: seq<WalkEntry>): seq<string> {
    if walk == [] then []
    else
      var n := |walk| - 1;
      TestDirs(walk[..n]) + TestDirsIn(walk[n].root, walk[n].dirs)
  }

  method FindTestDirectories(walk: seq<WalkEntry>) returns (found: seq<string>)
    ensures found == TestDirs(walk)
  {
    found := [];
    for i := 0 to |walk|
      invariant found == TestDirs(walk[..i])
    {
      var entry := walk[i];
      assert walk[..i + 1][..i] == walk[..i];
      for j := 0 to |entry.dirs|
        invariant found == TestDirs(walk[..i]) + TestDirsIn(entry.root, entry.dirs[..j])
      {
        assert entry.dirs[..j + 1][..j] == entry.dirs[..j];
        if IsTestDirName(entry.dirs[j]) {
          found := found + [PathJoin(entry.root, entry.dirs[j])];
        }
      }
      assert entry.dirs[..|entry.dirs|] == entry.dirs;
    }
    assert walk[..|walk|] == walk;
  }

  predicate HasTestDirIn(dirs: seq<string>) {
    exists j :: 0 <= j < |dirs| && IsTestDirName(dirs[j])
  }

  lemma {:induction false} TestDirsInEmpty(root: string, dirs: seq<string>)
    ensures TestDirsIn(root, dirs) == [] <==> !HasTestDirIn(dirs)
  {
    if dirs != [] {
      var n := |dirs| - 1;
      TestDirsInEmpty(root, dirs[..n]);
      if HasTestDirIn(dirs[..n]) {
        var j :| 0 <= j < n && IsTestDirName(dirs[..n][j]);
        assert IsTestDirName(dirs[j]);
      }
      if HasTestDirIn(dirs) && !IsTestDirName(dirs[n]) {
        var j :| 0 <= j < |dirs| && IsTestDirName(dirs[j]);
        assert dirs[..n][j] == dirs[j];
      }
    }
  }

  /** Some test directory is found exactly when some step of the walk, at
      any depth, lists a directory named tests, test or __tests__ in any
      letter case. */
  lemma {:induction false} TestDirsFoundIff(walk: seq<WalkEntry>)
    ensures TestDirs(walk) != [] <==> exists i :: 0 <= i < |walk| && HasTestDirIn(walk[i].dirs)
  {
    if walk != [] {
      var n := |walk| - 1;
      TestDirsFoundIff(walk[..n]);
      TestDirsInEmpty(walk[n].root, walk[n].dirs);
      if exists i :: 0 <= i < n && HasTestDirIn(walk[..n][i].dirs) {
        var i :| 0 <= i < n && HasTestDirIn(walk[..n][i].dirs);
        assert HasTestDirIn(walk[i].dirs);
      }
      if exists i :: 0 <= i < |walk| && HasTestDirIn(walk[i].dirs) {
        var i :| 0 <= i < |walk| && HasTestDirIn(walk[i].dirs);
        if i < n {
          assert walk[..n][i] == walk[i];
        }
      }
    }
  }

  // ---- count_test_files ----

  predicate IsTestFile(name: string) {
    StartsWith(Lower(name), "test") || EndsWith(Lower(name), "_test.py")
  }

  function TestFilesIn(files: seq<string>): (n: nat)
    ensures n <= |files|
  {
    if files == [] then 0
    else TestFilesIn(files[..|files| - 1]) + (if IsTestFile(files[|files| - 1]) then 1 else 0)
  }

  function WalkTestFiles(walk: seq<WalkEntry>): nat {
    if walk == [] then 0
    else WalkTestFiles(walk[..|walk| - 1]) + TestFilesIn(walk[|walk| - 1].files)
  }

  predicate IsAtOrBelow(root: string, dir: string) {
    root == dir || StartsWith(root, dir + "/")
  }

  /** `os.walk(dir)`: the steps of the repository walk at or below `dir`. */
  function SubWalk(walk: seq<WalkEntry>, dir: string): (sub: seq<WalkEntry>)
    ensures forall k :: 0 <= k < |sub| ==> IsAtOrBelow(sub[k].root, dir)
    ensures |sub| <= |walk|
  {
    if walk == [] then []
    else
      var n := |walk| - 1;
      SubWalk(walk[..n], dir) + (if IsAtOrBelow(walk[n].root, dir) then [walk[n]] else [])
  }

  /** The test files counted below each test directory, summed over the directories. */
  function TestFileTotal(walk: seq<WalkEntry>, testDirs: seq<string>): nat {
    if testDirs == [] then 0
    else
      var n := |testDirs| - 1;
      TestFileTotal(walk, testDirs[..n]) + WalkTestFiles(SubWalk(walk, testDirs[n]))
  }

  method CountTestFiles(walk: seq<WalkEntry>, testDirs: seq<string>) returns (count: nat)
    ensures count == TestFileTotal(walk, testDirs)
  {
    count := 0;
    for k := 0 to |testDirs|
      invariant count == TestFileTotal(walk, testDirs[..k])
    {
      assert testDirs[..k + 1][..k] == testDirs[..k];
      var sub := SubWalk(walk, testDirs[k]);
      for i := 0 to |sub|
        invariant count == TestFileTotal(walk, testDirs[..k]) + WalkTestFiles(sub[..i])
      {
        assert sub[..i + 1][..i] == sub[..i];
        var files := sub[i].files;
        for j := 0 to |files|
          invariant count == TestFileTotal(walk, testDirs[..k]) + WalkTestFiles(sub[..i]) + TestFilesIn(files[..j])
        {
          assert files[..j + 1][..j] == files[..j];
          if StartsWith(Lower(files[j]), "test") || EndsWith(Lower(files[j]), "_test.py") {
            count := count + 1;
          }
        }
        assert files[..|files|] == files;
      }
      assert sub[..|sub|] == sub;
    }
    assert testDirs[..|testDirs|] == testDirs;
  }

  const OuterTests := WalkEntry("r", ["tests"], [])
  const InnerTests := WalkEntry("r/tests", ["test"], ["test_a.py"])
  const Innermost := WalkEntry("r/tests/test", [], ["test_b.py"])

  /** A repository "r" with a test directory "tests" holding another, "test". */
  const NestedWalk := [OuterTests, InnerTests, Innermost]

  lemma NestedWalkTestDirs()
    ensures TestDirs(NestedWalk) == ["r/tests", "r/tests/test"]
  {
    assert Lower("tests") == "tests" && Lower("test") == "test";
    assert IsTestDirName("tests") && IsTestDirName("test");
    assert PathJoin("r", "tests") == "r/tests" && PathJoin("r/tests", "test") == "r/tests/test";
    assert TestDirsIn("r", ["tests"]) == ["r/tests"] by { assert ["tests"][..0] == []; }
    assert TestDirsIn("r/tests", ["test"]) == ["r/tests/test"] by { assert ["test"][..0] == []; }
    assert TestDirs([OuterTests]) == ["r/tests"] by { assert [OuterTests][..0] == []; }
    assert TestDirs([OuterTests, InnerTests]) == ["r/tests", "r/tests/test"] by {
      assert [OuterTests, InnerTests][..1] == [OuterTests];
    }
    assert NestedWalk[..2] == [OuterTests, InnerTests];
  }

  lemma NestedWalkSubWalks()
    ensures SubWalk(NestedWalk, "r/tests") == [InnerTests, Innermost]
    ensures SubWalk(NestedWalk, "r/tests/test") == [Innermost]
  {
    assert !IsAtOrBelow("r", "r/tests") && !IsAtOrBelow("r", "r/tests/test") && !IsAtOrBelow("r/tests", "r/tests/test");
    assert IsAtOrBelow("r/tests/test", "r/tests") by { assert "r/tests/test"[..8] == "r/tests/"; }
    assert SubWalk([OuterTests], "r/tests") == [] && SubWalk([OuterTests], "r/tests/test") == [] by {
      assert [OuterTests][..0] == [];
    }
    assert [OuterTests, InnerTests][..1] == [OuterTests];
    assert SubWalk([OuterTests, InnerTests], "r/tests") == [InnerTests];
    assert SubWalk([OuterTests, InnerTests], "r/tests/test") == [];
    assert NestedWalk[..2] == [OuterTests, InnerTests];
  }

  /** A test directory nested inside another is walked twice, so its test
      file is counted once for each enclosing test directory: two files, a
      count of three. */
  lemma NestedTestDirsCountTwice()
    ensures TestFileTotal(NestedWalk, TestDirs(NestedWalk)) == 3
  {
    NestedWalkTestDirs();
    NestedWalkSubWalks();
    assert Lower("test_a.py")[..4] == "test" && Lower("test_b.py")[..4] == "test";
    assert TestFilesIn(["test_a.py"]) == 1 by { assert ["test_a.py"][..0] == []; }
    assert TestFilesIn(["test_b.py"]) == 1 by { assert ["test_b.py"][..0] == []; }
    assert WalkTestFiles([Innermost]) == 1 by { assert [Innermost][..0] == []; }
    assert WalkTestFiles([InnerTests, Innermost]) == 2 by {
      assert [InnerTests, Innermost][..1] == [InnerTests] && [InnerTests][..0] == [];
    }
    var dirs := ["r/tests", "r/tests/test"];
    assert dirs[..1] == ["r/tests"] && ["r/tests"][..0] == [];
    assert TestFileTotal(NestedWalk, ["r/tests"]) == 2;
    assert TestFileTotal(NestedWalk, dirs) == 2 + WalkTestFiles(SubWalk(NestedWalk, "r/tests/test"));
  }

  // ---- detect_test_frameworks ----

  /** The frameworks one file mentions: only `.py` files that can be read. */
  function FileFrameworks(root: string, file: string, contents: map<string, string>): set<string> {
    var path := PathJoin(root, file);
    if EndsWith(file, ".py") && path in contents then
      var text := Lower(contents[path]);
      (if Contains(text, "pytest") then {"pytest"} else {}) + (if Contains(text, "unittest") then {"unittest"} else {})
    else {}
  }

  function FilesFrameworks(root: string, files: seq<string>, contents: map<string, string>): set<string> {
    if files == [] then {}
    else
      var n := |files| - 1;
      FilesFrameworks(root, files[..n], contents) + FileFrameworks(root, files[n], contents)
  }

  function Frameworks(walk: seq<WalkEntry>, contents: map<string, string>): set<string> {
    if walk == [] then {}
    else
      var n := |walk| - 1;
      Frameworks(walk[..n], contents) + FilesFrameworks(walk[n].root, walk[n].files, contents)
  }

  method DetectTestFrameworks(walk: seq<WalkEntry>, contents: map<string, string>) returns (frameworks: set<string>)
    ensures frameworks == Frameworks(walk, contents)
    ensures frameworks <= {"pytest", "unittest"}
  {
    frameworks := {};
    for i := 0 to |walk|
      invariant frameworks == Frameworks(walk[..i], contents)
    {
      assert walk[..i + 1][..i] == walk[..i];
      var entry := walk[i];
      for j := 0 to |entry.files|
        invariant frameworks == Frameworks(walk[..i], contents) + FilesFrameworks(entry.root, entry.files[..j], contents)
      {
        assert entry.files[..j + 1][..j] == entry.files[..j];
        var mentioned := ScanFile(entry.root, entry.files[j], contents);
        frameworks := frameworks + mentioned;
      }
      assert entry.files[..|entry.files|] == entry.files;
    }
    assert walk[..|walk|] == walk;
    FrameworksBounded(walk, contents);
  }

  /** One file of the loop: read it if it is a readable `.py` file and
      note the frameworks its lowercased text mentions. */
  method ScanFile(root: string, file: string, contents: map<string, string>) returns (mentioned: set<string>)
    ensures mentioned == FileFrameworks(root, file, contents)
    ensures mentioned <= {"pytest", "unittest"}
  {
    mentioned := {};
    var path := PathJoin(root, file);
    if EndsWith(file, ".py") && path in contents {
      var content := Lower(contents[path]);
      if Contains(content, "pytest") {
        mentioned := mentioned + {"pytest"};
      }
      if Contains(content, "unittest") {
        mentioned := mentioned + {"unittest"};
      }
    }
  }

  lemma {:induction false} FrameworksBounded(walk: seq<WalkEntry>, contents: map<string, string>)
    ensures Frameworks(walk, contents) <= {"pytest", "unittest"}
  {
    if walk != [] {
      FrameworksBounded(walk[..|walk| - 1], contents);
      FilesFrameworksBounded(walk[|walk| - 1].root, walk[|walk| - 1].files, contents);
    }
  }

  lemma {:induction false} FilesFrameworksBounded(root: string, files: seq<string>, contents: map<string, string>)
    ensures FilesFrameworks(root, files, contents) <= {"pytest", "unittest"}
  {
    if files != [] {
      FilesFrameworksBounded(root, files[..|files| - 1], contents);
    }
  }

  /** A readable `.py` file at `path` whose lowercased text mentions `name`. */
  predicate Mentions(walk: seq<WalkEntry>, contents: map<string, string>, i: int, j: int, name: string) {
    && 0 <= i < |walk| && 0 <= j < |walk[i].files|
    && EndsWith(walk[i].files[j], ".py")
    && PathJoin(walk[i].root, walk[i].files[j]) in contents
    && Contains(Lower(contents[PathJoin(walk[i].root, walk[i].files[j])]), name)
  }

  lemma {:induction false} FilesFrameworksIff(root: string, files: seq<string>, contents: map<string, string>, name: string)
    requires name == "pytest" || name == "unittest"
    ensures name in FilesFrameworks(root, files, contents) <==>
      exists j :: 0 <= j < |files| && name in FileFrameworks(root, files[j], contents)
  {
    if files != [] {
      var n := |files| - 1;
      FilesFrameworksIff(root, files[..n], contents, name);
      if exists j :: 0 <= j < n && name in FileFrameworks(root, files[..n][j], contents) {
        var j :| 0 <= j < n && name in FileFrameworks(root, files[..n][j], contents);
        assert files[..n][j] == files[j];
      }
      if exists j :: 0 <= j < |files| && name in FileFrameworks(root, files[j], contents) {
        var j :| 0 <= j < |files| && name in FileFrameworks(root, files[j], contents);
        if j < n {
          assert files[..n][j] == files[j];
        }
      }
    }
  }

  /** Some file of the step mentions `name`. */
  predicate EntryMentions(entry: WalkEntry, contents: map<string, string>, name: string) {
    exists j :: 0 <= j < |entry.files| && name in FileFrameworks(entry.root, entry.files[j], contents)
  }

  lemma {:induction false} FrameworksIffEntries(walk: seq<WalkEntry>, contents: map<string, string>, name: string)
    requires name == "pytest" || name == "unittest"
    ensures name in Frameworks(walk, contents) <==> exists i :: 0 <= i < |walk| && EntryMentions(walk[i], contents, name)
  {
    if walk != [] {
      var n := |walk| - 1;
      FrameworksIffEntries(walk[..n], contents, name);
      FilesFrameworksIff(walk[n].root, walk[n].files, contents, name);
      if exists i :: 0 <= i < n && EntryMentions(walk[..n][i], contents, name) {
        var i :| 0 <= i < n && EntryMentions(walk[..n][i], contents, name);
        assert walk[..n][i] == walk[i];
      }
      if exists i :: 0 <= i < |walk| && EntryMentions(walk[i], contents, name) {
        var i :| 0 <= i < |walk| && EntryMentions(walk[i], contents, name);
        if i < n {
          assert walk[..n][i] == walk[i];
        }
      }
    }
  }

  lemma MentionsIff(walk: seq<WalkEntry>, contents: map<string, string>, i: int, j: int, name: string)
    requires name == "pytest" || name == "unittest"
    requires 0 <= i < |walk| && 0 <= j < |walk[i].files|
    ensures Mentions(walk, contents, i, j, name) <==> name in FileFrameworks(walk[i].root, walk[i].files[j], contents)
  {
  }

  /** A framework is reported exactly when some readable `.py` file of the
      walk mentions it, in any letter case. */
  lemma FrameworksIff(walk: seq<WalkEntry>, contents: map<string, string>, name: string)
    requires name == "pytest" || name == "unittest"
    ensures name in Frameworks(walk, contents) <==> exists i, j :: Mentions(walk, contents, i, j, name)
  {
    FrameworksIffEntries(walk, contents, name);
    if exists i, j :: Mentions(walk, contents, i, j, name) {
      var i, j :| Mentions(walk, contents, i, j, name);
      MentionsIff(walk, contents, i, j, name);
      assert EntryMentions(walk[i], contents, name);
    }
    if exists i :: 0 <= i < |walk| && EntryMentions(walk[i], contents, name) {
      var i :| 0 <= i < |walk| && EntryMentions(walk[i], contents, name);
      var j :| 0 <= j < |walk[i].files| && name in FileFrameworks(walk[i].root, walk[i].files[j], contents);
      MentionsIff(walk, contents, i, j, name);
    }
  }

  // ---- detect_coverage ----

  /** The exact, case-sensitive names of coverage artifacts. */
  predicate IsCoverageArtifact(name: string) {
    name == "coverage.xml" || name == ".coverage" || name == "htmlcov"
  }

  predicate EntryHasCoverage(entry: WalkEntry) {
    exists m :: 0 <= m < |entry.files + entry.dirs| && IsCoverageArtifact((entry.files + entry.dirs)[m])
  }

  method DetectCoverage(walk: seq<WalkEntry>) returns (found: bool)
    ensures found <==> exists k :: 0 <= k < |walk| && EntryHasCoverage(walk[k])
  {
    for i := 0 to |walk|
      invariant forall k :: 0 <= k < i ==> !EntryHasCoverage(walk[k])
    {
      var items := walk[i].files + walk[i].dirs;
      for j := 0 to |items|
        invariant forall m :: 0 <= m < j ==> !IsCoverageArtifact(items[m])
      {
        if items[j] == "coverage.xml" || items[j] == ".coverage" || items[j] == "htmlcov" {
          assert EntryHasCoverage(walk[i]);
          return true;
        }
      }
    }
    return false;
  }

  // ---- analyze_testing ----

  method AnalyzeTesting(walk: seq<WalkEntry>, contents: map<string, string>) returns (testing: TestingAnalysis)
    ensures testing.testDirectories == TestDirs(walk)
    ensures testing.hasTests <==> exists i :: 0 <= i < |walk| && HasTestDirIn(walk[i].dirs)
    ensures testing.testFilesCount == TestFileTotal(walk, TestDirs(walk))
    ensures !testing.hasTests ==> testing.testFilesCount == 0
    ensures testing.testFrameworks == Frameworks(walk, contents) && testing.testFrameworks <= {"pytest", "unittest"}
    ensures testing.hasCoverage <==> exists k :: 0 <= k < |walk| && EntryHasCoverage(walk[k])
  {
    var testDirs := FindTestDirectories(walk);
    var testFiles := CountTestFiles(walk, testDirs);
    var frameworks := DetectTestFrameworks(walk, contents);
    var hasCoverage := DetectCoverage(walk);
    TestDirsFoundIff(walk);
    testing := TestingAnalysis(|testDirs| > 0, testDirs, testFiles, frameworks, hasCoverage);
  }
}
