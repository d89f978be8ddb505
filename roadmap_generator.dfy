/** The rule-based roadmap: an ordered rule table, evaluated top to bottom,
    each firing rule appending one item at the next priority; a guaranteed
    fallback item when nothing fires; a stable sort by priority at the end. */
module RoadmapGenerator {
  import opened Common
  import opened AnalysisModels

  /** A rule's recommendation, before a priority is attached. */
  datatype Advice = Advice(category: string, action: string, expectedImpact: string)

  const IntroduceTests := Advice("Testing",
    "Introduce a test suite using pytest and add unit tests for core functionality.",
    "Improves reliability and confidence in code changes.")
  const ExpandTests := Advice("Testing",
    "Expand the existing test suite to cover more edge cases and modules.",
    "Improves test coverage and reduces regression risk.")
  const AddCoverage := Advice("Testing",
    "Add coverage reporting using coverage.py and enforce minimum coverage thresholds.",
    "Ensures critical code paths are tested.")
  const CreateReadme := Advice("Documentation",
    "Create a comprehensive README with overview, setup, and usage examples.",
    "Improves usability and recruiter perception.")
  const AddInstallation := Advice("Documentation",
    "Add clear installation instructions to the README.",
    "Makes the project easier to run.")
  const AddUsage := Advice("Documentation",
    "Add usage examples and command references.",
    "Helps users understand how to use the project.")
  const ResolveLint := Advice("Code Quality",
    "Resolve pylint warnings and improve coding standards.",
    "Improves readability and professional quality.")
  const Refactor := Advice("Code Quality",
    "Refactor high-complexity functions into smaller units.",
    "Improves maintainability and scalability.")
  const AddCi := Advice("DevOps",
    "Add a CI pipeline using GitHub Actions to run tests and linters.",
    "Prevents broken code from being merged.")
  const ImproveCommits := Advice("Git Practices",
    "Adopt meaningful commit messages describing intent.",
    "Improves collaboration and traceability.")
  const UsePullRequests := Advice("Git Practices",
    "Use feature branches and pull requests instead of direct commits to main.",
    "Encourages review and scalable collaboration.")
  const GeneralImprovement := Advice("General Improvement",
    "Improve testing, documentation, and code structure following industry best practices.",
    "Raises overall project maturity and maintainability.")

  function At(priority: int, a: Advice): RoadmapItem {
    RoadmapItem(priority, a.category, a.action, a.expectedImpact)
  }

  function AdviceOf(item: RoadmapItem): Advice {
    Advice(item.category, item.action, item.expectedImpact)
  }

  /** Some item of the roadmap carries exactly this recommendation. */
  predicate Recommends(items: seq<RoadmapItem>, a: Advice) {
    exists i :: 0 <= i < |items| && AdviceOf(items[i]) == a
  }

  // ---- the rule table, section by section ----

  function TestingAdvice(t: TestingAnalysis): seq<Advice> {
    (if !t.hasTests then [IntroduceTests] else if t.testFilesCount < 5 then [ExpandTests] else [])
    + (if t.hasTests && !t.hasCoverage then [AddCoverage] else [])
  }

  function DocumentationAdvice(d: DocumentationAnalysis): seq<Advice> {
    if !d.hasReadme then [CreateReadme]
    else (if !d.hasInstallation then [AddInstallation] else []) + (if !d.hasUsage then [AddUsage] else [])
  }

  function CodeQualityAdvice(c: CodeQualityAnalysis): seq<Advice> {
    (if c.pylintScore.Some? && c.pylintScore.value < 7.0 then [ResolveLint] else [])
    + (if c.averageComplexity > 5.0 then [Refactor] else [])
  }

  function DevOpsAdvice(s: StructureAnalysis): seq<Advice> {
    if !s.hasCi then [AddCi] else []
  }

  function GitAdvice(g: GitPracticesAnalysis): seq<Advice> {
    (if g.commitMessageQuality == "poor" then [ImproveCommits] else [])
    + (if !g.hasPullRequests then [UsePullRequests] else [])
  }

  /** The recommendations of the rules that fire, in rule-table order. */
  function FiredAdvice(s: StructureAnalysis, c: CodeQualityAnalysis, d: DocumentationAnalysis,
                       t: TestingAnalysis, g: GitPracticesAnalysis): seq<Advice> {
    TestingAdvice(t) + DocumentationAdvice(d) + CodeQualityAdvice(c) + DevOpsAdvice(s) + GitAdvice(g)
  }

  /** `advice` with priorities 1, 2, ... in order. */
  function Numbered(advice: seq<Advice>): (items: seq<RoadmapItem>)
    ensures |items| == |advice|
    ensures forall i :: 0 <= i < |items| ==> items[i] == At(i + 1, advice[i])
  {
    seq(|advice|, i requires 0 <= i < |advice| => At(i + 1, advice[i]))
  }

  lemma NumberedSnoc(advice: seq<Advice>, a: Advice)
    ensures Numbered(advice + [a]) == Numbered(advice) + [At(|advice| + 1, a)]
  {
  }

  /** The roadmap the rule table specifies: the fired rules numbered from 1,
      or the single fallback item when none fires. */
  function Roadmap(s: StructureAnalysis, c: CodeQualityAnalysis, d: DocumentationAnalysis,
                   t: TestingAnalysis, g: GitPracticesAnalysis): seq<RoadmapItem> {
    var fired := FiredAdvice(s, c, d, t, g);
    if fired == [] then [At(1, GeneralImprovement)] else Numbered(fired)
  }

  // ---- Python's stable `sorted(items, key=priority)` ----

  predicate SortedByPriority(items: seq<RoadmapItem>) {
    forall i, j :: 0 <= i < j < |items| ==> items[i].priority <= items[j].priority
  }

  /** Inserts `x` after every item whose priority is at most its own. */
  function InsertByPriority(x: RoadmapItem, items: seq<RoadmapItem>): (r: seq<RoadmapItem>)
    requires SortedByPriority(items)
    ensures SortedByPriority(r)
    ensures multiset(r) == multiset(items) + multiset{x}
  {
    if items == [] || x.priority < items[0].priority then [x] + items
    else
      var rest := InsertByPriority(x, items[1..]);
      InsertStep(x, items, rest);
      [items[0]] + rest
  }

  /** Putting the head back in front of the rest with `x` inserted. */
  lemma InsertStep(x: RoadmapItem, items: seq<RoadmapItem>, rest: seq<RoadmapItem>)
    requires SortedByPriority(items) && items != [] && items[0].priority <= x.priority
    requires SortedByPriority(rest) && multiset(rest) == multiset(items[1..]) + multiset{x}
    ensures SortedByPriority([items[0]] + rest)
    ensures multiset([items[0]] + rest) == multiset(items) + multiset{x}
  {
    forall k | 0 <= k < |rest| ensures items[0].priority <= rest[k].priority {
      assert rest[k] in multiset(rest);
      assert rest[k] == x || rest[k] in items[1..];
    }
    assert items == [items[0]] + items[1..];
  }

  /** Insertion sort that keeps equal priorities in their original order,
      which is what Python's stable `sorted` returns. */
  function SortByPriority(items: seq<RoadmapItem>): (r: seq<RoadmapItem>)
    ensures SortedByPriority(r)
    ensures multiset(r) == multiset(items)
  {
    if items == [] then []
    else
      var n := |items| - 1;
      assert items == items[..n] + [items[n]];
      InsertByPriority(items[n], SortByPriority(items[..n]))
  }

  lemma {:induction false} InsertAfterAll(x: RoadmapItem, items: seq<RoadmapItem>)
    requires SortedByPriority(items)
    requires forall k :: 0 <= k < |items| ==> items[k].priority <= x.priority
    ensures InsertByPriority(x, items) == items + [x]
  {
    if items != [] {
      InsertAfterAll(x, items[1..]);
    }
  }

  /** Sorting a list already sorted by priority leaves it unchanged. */
  lemma {:induction false} SortKeepsSorted(items: seq<RoadmapItem>)
    requires SortedByPriority(items)
    ensures SortByPriority(items) == items
  {
    if items != [] {
      var n := |items| - 1;
      SortKeepsSorted(items[..n]);
      InsertAfterAll(items[n], items[..n]);
      assert items[..n] + [items[n]] == items;
    }
  }

  // ---- generate_roadmap ----

  /** The loop-free state of `generate_roadmap` between rules: the items so
      far are the fired recommendations numbered from 1, and the priority
      counter is the next free number. */
  ghost predicate Tracks(items: seq<RoadmapItem>, priority: int, fired: seq<Advice>) {
    items == Numbered(fired) && priority == |fired| + 1
  }

  lemma AppendKeepsTrack(items: seq<RoadmapItem>, priority: int, fired: seq<Advice>, a: Advice)
    requires Tracks(items, priority, fired)
    ensures Tracks(items + [At(priority, a)], priority + 1, fired + [a])
  {
    NumberedSnoc(fired, a);
  }

  /** Appends one item at the current priority and advances the counter. */
  method Append(items: seq<RoadmapItem>, priority: int, ghost fired: seq<Advice>, a: Advice)
    returns (items': seq<RoadmapItem>, priority': int)
    requires Tracks(items, priority, fired)
    ensures items' == items + [At(priority, a)] && priority' == priority + 1
    ensures Tracks(items', priority', fired + [a])
  {
    NumberedSnoc(fired, a);
    items' := items + [At(priority, a)];
    priority' := priority + 1;
  }

  /** The testing rules: introduce or expand a suite, then coverage. */
  method AppendTestingItems(testing: TestingAnalysis, items: seq<RoadmapItem>, priority: int, ghost fired: seq<Advice>)
    returns (items': seq<RoadmapItem>, priority': int)
    requires Tracks(items, priority, fired)
    ensures Tracks(items', priority', fired + TestingAdvice(testing))
  {
    items', priority' := items, priority;
    ghost var now := fired;
    if !testing.hasTests {
      items', priority' := Append(items', priority', now, IntroduceTests);
      now := now + [IntroduceTests];
    } else if testing.testFilesCount < 5 {
      items', priority' := Append(items', priority', now, ExpandTests);
      now := now + [ExpandTests];
    }
    if testing.hasTests && !testing.hasCoverage {
      items', priority' := Append(items', priority', now, AddCoverage);
      now := now + [AddCoverage];
    }
    assert now == fired + TestingAdvice(testing);
  }

  /** The documentation rules: create a README, or add its missing sections. */
  method AppendDocumentationItems(doc: DocumentationAnalysis, items: seq<RoadmapItem>, priority: int, ghost fired: seq<Advice>)
    returns (items': seq<RoadmapItem>, priority': int)
    requires Tracks(items, priority, fired)
    ensures Tracks(items', priority', fired + DocumentationAdvice(doc))
  {
    items', priority' := items, priority;
    ghost var now := fired;
    if !doc.hasReadme {
      items', priority' := Append(items', priority', now, CreateReadme);
      now := now + [CreateReadme];
    } else {
      if !doc.hasInstallation {
        items', priority' := Append(items', priority', now, AddInstallation);
        now := now + [AddInstallation];
      }
      if !doc.hasUsage {
        items', priority' := Append(items', priority', now, AddUsage);
        now := now + [AddUsage];
      }
    }
    assert now == fired + DocumentationAdvice(doc);
  }

  /** The code-quality rules: lint warnings, then complexity. */
  method AppendCodeQualityItems(code: CodeQualityAnalysis, items: seq<RoadmapItem>, priority: int, ghost fired: seq<Advice>)
    returns (items': seq<RoadmapItem>, priority': int)
    requires Tracks(items, priority, fired)
    ensures Tracks(items', priority', fired + CodeQualityAdvice(code))
  {
    items', priority' := items, priority;
    ghost var now := fired;
    if code.pylintScore.Some? && code.pylintScore.value < 7.0 {
      items', priority' := Append(items', priority', now, ResolveLint);
      now := now + [ResolveLint];
    }
    if code.averageComplexity > 5.0 {
      items', priority' := Append(items', priority', now, Refactor);
      now := now + [Refactor];
    }
    assert now == fired + CodeQualityAdvice(code);
  }

  /** The CI rule. */
  method AppendDevOpsItems(structure: StructureAnalysis, items: seq<RoadmapItem>, priority: int, ghost fired: seq<Advice>)
    returns (items': seq<RoadmapItem>, priority': int)
    requires Tracks(items, priority, fired)
    ensures Tracks(items', priority', fired + DevOpsAdvice(structure))
  {
    items', priority' := items, priority;
    if !structure.hasCi {
      items', priority' := Append(items', priority', fired, AddCi);
    } else {
      assert fired + DevOpsAdvice(structure) == fired;
    }
  }

  /** The git rules: commit messages, then pull requests. */
  method AppendGitItems(git: GitPracticesAnalysis, items: seq<RoadmapItem>, priority: int, ghost fired: seq<Advice>)
    returns (items': seq<RoadmapItem>, priority': int)
    requires Tracks(items, priority, fired)
    ensures Tracks(items', priority', fired + GitAdvice(git))
  {
    items', priority' := items, priority;
    ghost var now := fired;
    if git.commitMessageQuality == "poor" {
      items', priority' := Append(items', priority', now, ImproveCommits);
      now := now + [ImproveCommits];
    }
    if !git.hasPullRequests {
      items', priority' := Append(items', priority', now, UsePullRequests);
      now := now + [UsePullRequests];
    }
    assert now == fired + GitAdvice(git);
  }

  /** The five sections in table order, sharing one item list and one
      priority counter that starts at 1. */
  method ApplyRules(structure: StructureAnalysis, code: CodeQualityAnalysis, doc: DocumentationAnalysis,
                    testing: TestingAnalysis, git: GitPracticesAnalysis)
    returns (items: seq<RoadmapItem>, priority: int)
    ensures Tracks(items, priority, FiredAdvice(structure, code, doc, testing, git))
  {
    items, priority := [], 1;
    ghost var T, D, C, V, G := TestingAdvice(testing), DocumentationAdvice(doc), CodeQualityAdvice(code),
                              DevOpsAdvice(structure), GitAdvice(git);
    items, priority := AppendTestingItems(testing, items, priority, []);
    assert [] + T == T;
    items, priority := AppendDocumentationItems(doc, items, priority, T);
    items, priority := AppendCodeQualityItems(code, items, priority, T + D);
    items, priority := AppendDevOpsItems(structure, items, priority, T + D + C);
    items, priority := AppendGitItems(git, items, priority, T + D + C + V);
  }

  /** `generate_roadmap`: the rules, the fallback item, then the sort. */
  method GenerateRoadmap(structure: StructureAnalysis, code: CodeQualityAnalysis, doc: DocumentationAnalysis,
                         testing: TestingAnalysis, git: GitPracticesAnalysis, score: ScoreBreakdown)
    returns (roadmap: ImprovementRoadmap)
    ensures roadmap.items == Roadmap(structure, code, doc, testing, git)
    ensures 1 <= |roadmap.items| <= 9
    ensures forall i :: 0 <= i < |roadmap.items| ==> roadmap.items[i].priority == i + 1
    ensures !testing.hasTests ==> roadmap.items[0] == At(1, IntroduceTests)
  {
    var items, priority := ApplyRules(structure, code, doc, testing, git);

    // guaranteed fallback
    if items == [] {
      items := items + [At(1, GeneralImprovement)];
    }
    assert items == Roadmap(structure, code, doc, testing, git);

    RoadmapShape(structure, code, doc, testing, git);
    SortKeepsSorted(items);
    items := SortByPriority(items);
    roadmap := ImprovementRoadmap(items);
    TestingComesFirst(structure, code, doc, testing, git);
  }

  // ---- properties of the rule table ----

  /** Never empty, at most nine items, priorities exactly 1..n in order. */
  lemma RoadmapShape(s: StructureAnalysis, c: CodeQualityAnalysis, d: DocumentationAnalysis,
                     t: TestingAnalysis, g: GitPracticesAnalysis)
    ensures var r := Roadmap(s, c, d, t, g);
      && 1 <= |r| <= 9
      && (forall i :: 0 <= i < |r| ==> r[i].priority == i + 1)
      && SortedByPriority(r)
  {
  }

  /** The single "General Improvement" item appears exactly when no rule fires. */
  lemma FallbackExactlyWhenNothingFires(s: StructureAnalysis, c: CodeQualityAnalysis, d: DocumentationAnalysis,
                                        t: TestingAnalysis, g: GitPracticesAnalysis)
    ensures FiredAdvice(s, c, d, t, g) == [] ==> Roadmap(s, c, d, t, g) == [RoadmapItem(1, "General Improvement",
      "Improve testing, documentation, and code structure following industry best practices.",
      "Raises overall project maturity and maintainability.")]
    ensures Recommends(Roadmap(s, c, d, t, g), GeneralImprovement) <==> FiredAdvice(s, c, d, t, g) == []
  {
    var fired := FiredAdvice(s, c, d, t, g);
    if fired != [] {
      var r := Roadmap(s, c, d, t, g);
      forall i | 0 <= i < |r| ensures AdviceOf(r[i]) != GeneralImprovement {
        assert AdviceOf(r[i]) == fired[i];
        assert fired[i].category != "General Improvement";
      }
    } else {
      assert AdviceOf(Roadmap(s, c, d, t, g)[0]) == GeneralImprovement;
    }
  }

  /** Without tests, the first item is the "introduce a test suite" item at priority 1. */
  lemma TestingComesFirst(s: StructureAnalysis, c: CodeQualityAnalysis, d: DocumentationAnalysis,
                          t: TestingAnalysis, g: GitPracticesAnalysis)
    ensures !t.hasTests ==> Roadmap(s, c, d, t, g)[0] == RoadmapItem(1, "Testing", IntroduceTests.action, IntroduceTests.expectedImpact)
  {
  }

  /** Apart from the fallback, a recommendation is in the roadmap exactly when its rule fired. */
  lemma RecommendsIffFired(s: StructureAnalysis, c: CodeQualityAnalysis, d: DocumentationAnalysis,
                           t: TestingAnalysis, g: GitPracticesAnalysis, a: Advice)
    requires a != GeneralImprovement
    ensures Recommends(Roadmap(s, c, d, t, g), a) <==> a in FiredAdvice(s, c, d, t, g)
  {
    var fired := FiredAdvice(s, c, d, t, g);
    var r := Roadmap(s, c, d, t, g);
    if fired == [] {
      assert AdviceOf(r[0]) == GeneralImprovement;
    } else {
      if a in fired {
        var i :| 0 <= i < |fired| && fired[i] == a;
        assert AdviceOf(r[i]) == a;
      }
    }
  }

  /** Every recommendation of a section carries that section's category. */
  lemma SectionCategories(s: StructureAnalysis, c: CodeQualityAnalysis, d: DocumentationAnalysis,
                          t: TestingAnalysis, g: GitPracticesAnalysis)
    ensures forall a :: a in TestingAdvice(t) ==> a.category == "Testing"
    ensures forall a :: a in DocumentationAdvice(d) ==> a.category == "Documentation"
    ensures forall a :: a in CodeQualityAdvice(c) ==> a.category == "Code Quality"
    ensures forall a :: a in DevOpsAdvice(s) ==> a.category == "DevOps"
    ensures forall a :: a in GitAdvice(g) ==> a.category == "Git Practices"
  {
    TestingSection(t);
    DocumentationSection(d);
    CodeQualitySection(c);
    DevOpsSection(s);
    GitSection(g);
  }

  lemma TestingSection(t: TestingAnalysis)
    ensures forall a :: a in TestingAdvice(t) ==> a.category == "Testing"
    ensures RankedWithin(TestingAdvice(t), 0, 0)
  {
    SingleRank(TestingAdvice(t), "Testing", 0);
  }

  lemma DocumentationSection(d: DocumentationAnalysis)
    ensures forall a :: a in DocumentationAdvice(d) ==> a.category == "Documentation"
    ensures RankedWithin(DocumentationAdvice(d), 1, 1)
  {
    SingleRank(DocumentationAdvice(d), "Documentation", 1);
  }

  lemma CodeQualitySection(c: CodeQualityAnalysis)
    ensures forall a :: a in CodeQualityAdvice(c) ==> a.category == "Code Quality"
    ensures RankedWithin(CodeQualityAdvice(c), 2, 2)
  {
    SingleRank(CodeQualityAdvice(c), "Code Quality", 2);
  }

  lemma DevOpsSection(s: StructureAnalysis)
    ensures forall a :: a in DevOpsAdvice(s) ==> a.category == "DevOps"
    ensures RankedWithin(DevOpsAdvice(s), 3, 3)
  {
    SingleRank(DevOpsAdvice(s), "DevOps", 3);
  }

  lemma GitSection(g: GitPracticesAnalysis)
    ensures forall a :: a in GitAdvice(g) ==> a.category == "Git Practices"
    ensures RankedWithin(GitAdvice(g), 4, 4)
  {
    SingleRank(GitAdvice(g), "Git Practices", 4);
  }

  /** The recommendations of the section a category names. */
  function SectionAdvice(category: string, s: StructureAnalysis, c: CodeQualityAnalysis, d: DocumentationAnalysis,
                         t: TestingAnalysis, g: GitPracticesAnalysis): seq<Advice> {
    if category == "Testing" then TestingAdvice(t)
    else if category == "Documentation" then DocumentationAdvice(d)
    else if category == "Code Quality" then CodeQualityAdvice(c)
    else if category == "DevOps" then DevOpsAdvice(s)
    else if category == "Git Practices" then GitAdvice(g)
    else []
  }

  /** A recommendation fired exactly when it is among its own section's. */
  lemma FiredInSection(s: StructureAnalysis, c: CodeQualityAnalysis, d: DocumentationAnalysis,
                       t: TestingAnalysis, g: GitPracticesAnalysis, a: Advice)
    ensures a in FiredAdvice(s, c, d, t, g) <==> a in SectionAdvice(a.category, s, c, d, t, g)
  {
    SectionCategories(s, c, d, t, g);
  }

  /** Apart from the fallback, the roadmap recommends exactly what its section's rules fired. */
  lemma RecommendsIffInSection(s: StructureAnalysis, c: CodeQualityAnalysis, d: DocumentationAnalysis,
                               t: TestingAnalysis, g: GitPracticesAnalysis, a: Advice)
    requires a != GeneralImprovement
    ensures Recommends(Roadmap(s, c, d, t, g), a) <==> a in SectionAdvice(a.category, s, c, d, t, g)
  {
    RecommendsIffFired(s, c, d, t, g, a);
    FiredInSection(s, c, d, t, g, a);
  }

  /** The suite item: "introduce" exactly without tests, "expand" exactly with
      tests and fewer than five test files, never both; the coverage item
      exactly with tests and no coverage artifact. */
  lemma TestingRules(s: StructureAnalysis, c: CodeQualityAnalysis, d: DocumentationAnalysis,
                     t: TestingAnalysis, g: GitPracticesAnalysis)
    ensures var r := Roadmap(s, c, d, t, g);
      && (Recommends(r, IntroduceTests) <==> !t.hasTests)
      && (Recommends(r, ExpandTests) <==> t.hasTests && t.testFilesCount < 5)
      && !(Recommends(r, IntroduceTests) && Recommends(r, ExpandTests))
      && (Recommends(r, AddCoverage) <==> t.hasTests && !t.hasCoverage)
  {
    RecommendsIffInSection(s, c, d, t, g, IntroduceTests);
    RecommendsIffInSection(s, c, d, t, g, ExpandTests);
    RecommendsIffInSection(s, c, d, t, g, AddCoverage);
  }

  /** The "create a README" item exactly without a README; with a README,
      one item per missing installation or usage section. */
  lemma DocumentationRules(s: StructureAnalysis, c: CodeQualityAnalysis, d: DocumentationAnalysis,
                           t: TestingAnalysis, g: GitPracticesAnalysis)
    ensures var r := Roadmap(s, c, d, t, g);
      && (Recommends(r, CreateReadme) <==> !d.hasReadme)
      && (Recommends(r, AddInstallation) <==> d.hasReadme && !d.hasInstallation)
      && (Recommends(r, AddUsage) <==> d.hasReadme && !d.hasUsage)
  {
    RecommendsIffInSection(s, c, d, t, g, CreateReadme);
    RecommendsIffInSection(s, c, d, t, g, AddInstallation);
    RecommendsIffInSection(s, c, d, t, g, AddUsage);
  }

  /** The roadmap holds one Documentation item per documentation rule that
      fired: exactly one when there is no README. */
  lemma DocumentationCount(s: StructureAnalysis, c: CodeQualityAnalysis, d: DocumentationAnalysis,
                           t: TestingAnalysis, g: GitPracticesAnalysis)
    ensures CountCategory(Roadmap(s, c, d, t, g), "Documentation") == |DocumentationAdvice(d)|
    ensures !d.hasReadme ==> CountCategory(Roadmap(s, c, d, t, g), "Documentation") == 1
  {
    var fired := FiredAdvice(s, c, d, t, g);
    if fired != [] {
      CountNumbered(fired, "Documentation");
      FiredDocumentationCount(s, c, d, t, g);
    } else {
      assert DocumentationAdvice(d) == [];
    }
  }

  lemma FiredDocumentationCount(s: StructureAnalysis, c: CodeQualityAnalysis, d: DocumentationAnalysis,
                                t: TestingAnalysis, g: GitPracticesAnalysis)
    ensures CountAdvice(FiredAdvice(s, c, d, t, g), "Documentation") == |DocumentationAdvice(d)|
  {
    var T, D, C, V, G := TestingAdvice(t), DocumentationAdvice(d), CodeQualityAdvice(c), DevOpsAdvice(s), GitAdvice(g);
    TestingSection(t);
    DocumentationSection(d);
    CodeQualitySection(c);
    DevOpsSection(s);
    GitSection(g);
    CountOneSection(T, D, C, V, G, "Documentation");
  }

  /** The lint item exactly when a pylint score is present and below 7; the
      refactor item exactly when the average complexity is above 5. */
  lemma CodeQualityRules(s: StructureAnalysis, c: CodeQualityAnalysis, d: DocumentationAnalysis,
                         t: TestingAnalysis, g: GitPracticesAnalysis)
    ensures var r := Roadmap(s, c, d, t, g);
      && (Recommends(r, ResolveLint) <==> c.pylintScore.Some? && c.pylintScore.value < 7.0)
      && (Recommends(r, Refactor) <==> c.averageComplexity > 5.0)
  {
    RecommendsIffInSection(s, c, d, t, g, ResolveLint);
    RecommendsIffInSection(s, c, d, t, g, Refactor);
  }

  /** The CI item exactly without CI; the commit-message item exactly for
      "poor" quality; the pull-request item exactly without pull requests. */
  lemma DevOpsAndGitRules(s: StructureAnalysis, c: CodeQualityAnalysis, d: DocumentationAnalysis,
                          t: TestingAnalysis, g: GitPracticesAnalysis)
    ensures var r := Roadmap(s, c, d, t, g);
      && (Recommends(r, AddCi) <==> !s.hasCi)
      && (Recommends(r, ImproveCommits) <==> g.commitMessageQuality == "poor")
      && (Recommends(r, UsePullRequests) <==> !g.hasPullRequests)
  {
    RecommendsIffInSection(s, c, d, t, g, AddCi);
    RecommendsIffInSection(s, c, d, t, g, ImproveCommits);
    RecommendsIffInSection(s, c, d, t, g, UsePullRequests);
  }

  /** Rank of a category in the rule table's fixed section order. */
  function CategoryRank(category: string): int {
    if category == "Testing" then 0
    else if category == "Documentation" then 1
    else if category == "Code Quality" then 2
    else if category == "DevOps" then 3
    else if category == "Git Practices" then 4
    else 5
  }

  predicate RankedWithin(advice: seq<Advice>, lo: int, hi: int) {
    && (forall i :: 0 <= i < |advice| ==> lo <= CategoryRank(advice[i].category) <= hi)
    && (forall i, j :: 0 <= i < j < |advice| ==> CategoryRank(advice[i].category) <= CategoryRank(advice[j].category))
  }

  lemma RankedConcat(a: seq<Advice>, b: seq<Advice>, lo: int, mid: int, hi: int)
    requires lo <= mid <= hi
    requires RankedWithin(a, lo, mid) && RankedWithin(b, mid, hi)
    ensures RankedWithin(a + b, lo, hi)
  {
    var ab := a + b;
    forall i | 0 <= i < |ab| ensures lo <= CategoryRank(ab[i].category) <= hi {
      if i < |a| { assert ab[i] == a[i]; } else { assert ab[i] == b[i - |a|]; }
    }
    forall i, j | 0 <= i < j < |ab|
      ensures CategoryRank(ab[i].category) <= CategoryRank(ab[j].category)
    {
      if j < |a| {
        assert ab[i] == a[i] && ab[j] == a[j];
      } else if i < |a| {
        assert ab[i] == a[i] && ab[j] == b[j - |a|];
      } else {
        assert ab[i] == b[i - |a|] && ab[j] == b[j - |a|];
      }
    }
  }

  lemma RankedFive(T: seq<Advice>, D: seq<Advice>, C: seq<Advice>, V: seq<Advice>, G: seq<Advice>)
    requires RankedWithin(T, 0, 0) && RankedWithin(D, 1, 1) && RankedWithin(C, 2, 2)
    requires RankedWithin(V, 3, 3) && RankedWithin(G, 4, 4)
    ensures RankedWithin(T + D + C + V + G, 0, 4)
  {
    RankedConcat(T, D, 0, 1, 1);
    RankedConcat(T + D, C, 0, 2, 2);
    RankedConcat(T + D + C, V, 0, 3, 3);
    RankedConcat(T + D + C + V, G, 0, 4, 4);
  }

  /** The fired recommendations are grouped by section in table order. */
  lemma FiredRanked(s: StructureAnalysis, c: CodeQualityAnalysis, d: DocumentationAnalysis,
                    t: TestingAnalysis, g: GitPracticesAnalysis)
    ensures RankedWithin(FiredAdvice(s, c, d, t, g), 0, 4)
  {
    var T, D, C, V, G := TestingAdvice(t), DocumentationAdvice(d), CodeQualityAdvice(c), DevOpsAdvice(s), GitAdvice(g);
    TestingSection(t);
    DocumentationSection(d);
    CodeQualitySection(c);
    DevOpsSection(s);
    GitSection(g);
    RankedFive(T, D, C, V, G);
  }

  /** Categories appear in the fixed order Testing, Documentation, Code Quality, DevOps, Git Practices. */
  lemma CategoryOrder(s: StructureAnalysis, c: CodeQualityAnalysis, d: DocumentationAnalysis,
                      t: TestingAnalysis, g: GitPracticesAnalysis)
    ensures var r := Roadmap(s, c, d, t, g);
      forall i, j :: 0 <= i < j < |r| ==> CategoryRank(r[i].category) <= CategoryRank(r[j].category)
  {
    var fired := FiredAdvice(s, c, d, t, g);
    FiredRanked(s, c, d, t, g);
    var r := Roadmap(s, c, d, t, g);
    if fired != [] {
      forall i, j | 0 <= i < j < |r| ensures CategoryRank(r[i].category) <= CategoryRank(r[j].category) {
        assert r[i].category == fired[i].category && r[j].category == fired[j].category;
      }
    }
  }

  lemma SingleRank(advice: seq<Advice>, category: string, rank: int)
    requires CategoryRank(category) == rank
    requires forall a :: a in advice ==> a.category == category
    ensures RankedWithin(advice, rank, rank)
  {
    forall i | 0 <= i < |advice| ensures CategoryRank(advice[i].category) == rank {
      assert advice[i] in advice;
    }
  }

  function CountCategory(items: seq<RoadmapItem>, category: string): nat {
    if items == [] then 0
    else CountCategory(items[..|items| - 1], category) + (if items[|items| - 1].category == category then 1 else 0)
  }

  function CountAdvice(advice: seq<Advice>, category: string): nat {
    if advice == [] then 0
    else CountAdvice(advice[..|advice| - 1], category) + (if advice[|advice| - 1].category == category then 1 else 0)
  }

  lemma {:induction false} CountNumbered(advice: seq<Advice>, category: string)
    ensures CountCategory(Numbered(advice), category) == CountAdvice(advice, category)
  {
    if advice != [] {
      var n := |advice| - 1;
      CountNumbered(advice[..n], category);
      assert Numbered(advice)[..n] == Numbered(advice[..n]);
    }
  }

  lemma {:induction false} CountAdviceConcat(a: seq<Advice>, b: seq<Advice>, category: string)
    ensures CountAdvice(a + b, category) == CountAdvice(a, category) + CountAdvice(b, category)
    decreases |b|
  {
    if b != [] {
      var n := |b| - 1;
      CountAdviceConcat(a, b[..n], category);
      assert (a + b)[..|a + b| - 1] == a + b[..n];
    } else {
      assert a + b == a;
    }
  }

  /** Counting a category over five concatenated sections of which only the
      second has it. */
  lemma CountOneSection(T: seq<Advice>, D: seq<Advice>, C: seq<Advice>, V: seq<Advice>, G: seq<Advice>, category: string)
    requires forall x :: x in T ==> x.category != category
    requires forall x :: x in D ==> x.category == category
    requires forall x :: x in C ==> x.category != category
    requires forall x :: x in V ==> x.category != category
    requires forall x :: x in G ==> x.category != category
    ensures CountAdvice(T + D + C + V + G, category) == |D|
  {
    CountAdviceConcat(T, D, category);
    CountAdviceConcat(T + D, C, category);
    CountAdviceConcat(T + D + C, V, category);
    CountAdviceConcat(T + D + C + V, G, category);
    CountAdviceNone(T, category);
    CountAdviceNone(C, category);
    CountAdviceNone(V, category);
    CountAdviceNone(G, category);
    CountAdviceAll(D, category);
  }

  lemma {:induction false} CountAdviceNone(a: seq<Advice>, category: string)
    requires forall x :: x in a ==> x.category != category
    ensures CountAdvice(a, category) == 0
  {
    if a != [] {
      CountAdviceNone(a[..|a| - 1], category);
    }
  }

  lemma {:induction false} CountAdviceAll(a: seq<Advice>, category: string)
    requires forall x :: x in a ==> x.category == category
    ensures CountAdvice(a, category) == |a|
  {
    if a != [] {
      CountAdviceAll(a[..|a| - 1], category);
    }
  }
}
