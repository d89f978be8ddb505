/** The rubric: six sub-scores, each a sum of fixed point values for the
    rules a repository meets, capped with `min`, then a total and a tier.
    `*Points` is the raw additive sum, `Score*` the capped value the source
    returns. */
module ScoringEngine {
  import opened Common
  import opened AnalysisModels

  const StructureCap := 15
  const CodeQualityCap := 25
  const DocumentationCap := 15
  const TestingCap := 15
  const GitPracticesCap := 15
  const MaintainabilityCap := 15

  function StructurePoints(s: StructureAnalysis): int {
    (if s.hasReadme then 4 else 0)
    + (if s.hasTests then 4 else 0)
    + (if s.hasCi then 3 else 0)
    + (if s.maxDepth <= 4 then 4 else 0)
  }

  function ScoreStructure(s: StructureAnalysis): (r: int)
    ensures 0 <= r <= StructureCap
  {
    Min(StructurePoints(s), StructureCap)
  }

  /** Python's `if code.pylint_score:` is false for None and for 0.0. */
  function PylintPoints(pylint: Option<real>): int {
    if pylint.None? || pylint.value == 0.0 then 0
    else if pylint.value >= 8.0 then 10
    else if pylint.value >= 6.0 then 6
    else 3
  }

  function ComplexityPoints(averageComplexity: real): int {
    if averageComplexity <= 3.0 then 10
    else if averageComplexity <= 5.0 then 6
    else 3
  }

  function CodeQualityPoints(c: CodeQualityAnalysis): int {
    PylintPoints(c.pylintScore)
    + ComplexityPoints(c.averageComplexity)
    + (if c.highComplexityFiles == [] then 5 else 0)
  }

  /** The complexity band alone always contributes at least 3 points. */
  function ScoreCodeQuality(c: CodeQualityAnalysis): (r: int)
    ensures 3 <= r <= CodeQualityCap
  {
    Min(CodeQualityPoints(c), CodeQualityCap)
  }

  function DocumentationPoints(d: DocumentationAnalysis): int {
    (if d.hasReadme then 5 else 0)
    + (if d.hasInstallation then 3 else 0)
    + (if d.hasUsage then 3 else 0)
    + (if d.docToCodeRatio >= 0.1 then 4 else 0)
  }

  function ScoreDocumentation(d: DocumentationAnalysis): (r: int)
    ensures 0 <= r <= DocumentationCap
  {
    Min(DocumentationPoints(d), DocumentationCap)
  }

  function TestingPoints(t: TestingAnalysis): int {
    (if t.hasTests then 5 else 0)
    + (if t.testFilesCount >= 5 then 5 else if t.testFilesCount >= 2 then 3 else 0)
    + (if t.hasCoverage then 5 else 0)
  }

  function ScoreTesting(t: TestingAnalysis): (r: int)
    ensures 0 <= r <= TestingCap
  {
    Min(TestingPoints(t), TestingCap)
  }

  function GitPracticesPoints(g: GitPracticesAnalysis): int {
    (if g.totalCommits >= 10 then 5 else if g.totalCommits >= 3 then 3 else 0)
    + (if g.commitMessageQuality == "good" then 5
       else if g.commitMessageQuality == "average" then 3 else 0)
    + (if g.hasMultipleBranches then 3 else 0)
    + (if g.hasPullRequests then 2 else 0)
  }

  function ScoreGitPractices(g: GitPracticesAnalysis): (r: int)
    ensures 0 <= r <= GitPracticesCap
  {
    Min(GitPracticesPoints(g), GitPracticesCap)
  }

  function MaintainabilityPoints(c: CodeQualityAnalysis, d: DocumentationAnalysis, t: TestingAnalysis): int {
    (if c.averageComplexity <= 3.0 then 5 else 0)
    + (if d.docToCodeRatio >= 0.1 then 5 else 0)
    + (if t.hasTests then 5 else 0)
  }

  function ScoreMaintainability(c: CodeQualityAnalysis, d: DocumentationAnalysis, t: TestingAnalysis): (r: int)
    ensures 0 <= r <= MaintainabilityCap
  {
    Min(MaintainabilityPoints(c, d, t), MaintainabilityCap)
  }

  /** The tier and badge for a total: Advanced/Gold from 75, Intermediate/Silver from 45, else Beginner/Bronze. */
  function Tier(total: int): (tier: (string, string))
    ensures total >= 75 <==> tier == ("Advanced", "Gold")
    ensures 45 <= total < 75 <==> tier == ("Intermediate", "Silver")
    ensures total < 45 <==> tier == ("Beginner", "Bronze")
  {
    if total >= 75 then ("Advanced", "Gold")
    else if total >= 45 then ("Intermediate", "Silver")
    else ("Beginner", "Bronze")
  }

  function CalculateFinalScore(
    structure: StructureAnalysis, code: CodeQualityAnalysis, doc: DocumentationAnalysis,
    testing: TestingAnalysis, git: GitPracticesAnalysis): (b: ScoreBreakdown)
    ensures b.structure == ScoreStructure(structure)
    ensures b.codeQuality == ScoreCodeQuality(code)
    ensures b.documentation == ScoreDocumentation(doc)
    ensures b.testing == ScoreTesting(testing)
    ensures b.gitPractices == ScoreGitPractices(git)
    ensures b.maintainability == ScoreMaintainability(code, doc, testing)
    ensures b.totalScore == b.structure + b.codeQuality + b.documentation + b.testing + b.gitPractices + b.maintainability
    ensures 3 <= b.totalScore <= 100
    ensures b.totalScore >= 75 <==> b.level == "Advanced"
    ensures 45 <= b.totalScore < 75 <==> b.level == "Intermediate"
    ensures b.totalScore < 45 <==> b.level == "Beginner"
    ensures (b.level == "Advanced" <==> b.badge == "Gold")
         && (b.level == "Intermediate" <==> b.badge == "Silver")
         && (b.level == "Beginner" <==> b.badge == "Bronze")
  {
    var sStructure := ScoreStructure(structure);
    var sCode := ScoreCodeQuality(code);
    var sDoc := ScoreDocumentation(doc);
    var sTest := ScoreTesting(testing);
    var sGit := ScoreGitPractices(git);
    var sMaintain := ScoreMaintainability(code, doc, testing);
    var total := sStructure + sCode + sDoc + sTest + sGit + sMaintain;
    var (level, badge) := Tier(total);
    ScoreBreakdown(sStructure, sCode, sDoc, sTest, sGit, sMaintain, total, level, badge)
  }

  /** No raw sum can exceed its cap, so every `min(score, cap)` returns the raw sum. */
  lemma CapsNeverBind(s: StructureAnalysis, c: CodeQualityAnalysis, d: DocumentationAnalysis,
                      t: TestingAnalysis, g: GitPracticesAnalysis)
    ensures ScoreStructure(s) == StructurePoints(s)
    ensures ScoreCodeQuality(c) == CodeQualityPoints(c)
    ensures ScoreDocumentation(d) == DocumentationPoints(d)
    ensures ScoreTesting(t) == TestingPoints(t)
    ensures ScoreGitPractices(g) == GitPracticesPoints(g)
    ensures ScoreMaintainability(c, d, t) == MaintainabilityPoints(c, d, t)
  {
  }

  /** The tier boundaries at 44/45 and 74/75, and the example total 80. */
  lemma TierBoundaries()
    ensures Tier(44) == ("Beginner", "Bronze")
    ensures Tier(45) == ("Intermediate", "Silver")
    ensures Tier(74) == ("Intermediate", "Silver")
    ensures Tier(75) == ("Advanced", "Gold")
    ensures Tier(80) == ("Advanced", "Gold")
  {
  }

  /** A pylint score that is absent or exactly 0.0 earns nothing; otherwise >= 8 earns 10, >= 6 earns 6, else 3. */
  lemma PylintBands(p: real)
    ensures PylintPoints(None) == 0 && PylintPoints(Some(0.0)) == 0
    ensures p != 0.0 && p >= 8.0 ==> PylintPoints(Some(p)) == 10
    ensures p != 0.0 && 6.0 <= p < 8.0 ==> PylintPoints(Some(p)) == 6
    ensures p != 0.0 && p < 6.0 ==> PylintPoints(Some(p)) == 3
  {
  }

  /** Five or more test files earn 5 testing points even when no test directory was found; 2 to 4 earn 3. */
  lemma TestFileBands(t: TestingAnalysis)
    ensures t.testFilesCount >= 5 ==> ScoreTesting(t) >= 5
    ensures !t.hasTests && !t.hasCoverage && t.testFilesCount >= 5 ==> ScoreTesting(t) == 5
    ensures !t.hasTests && !t.hasCoverage && 2 <= t.testFilesCount < 5 ==> ScoreTesting(t) == 3
  {
  }

  /** Turning presence flags on never lowers a sub-score: every flag rule only adds points. */
  lemma FlagsOnlyAdd(
    s: StructureAnalysis, d: DocumentationAnalysis, t: TestingAnalysis, g: GitPracticesAnalysis,
    c: CodeQualityAnalysis, readme: bool, tests: bool, ci: bool, install: bool, usage: bool,
    coverage: bool, branches: bool, prs: bool)
    ensures ScoreStructure(s) <= ScoreStructure(s.(hasReadme := s.hasReadme || readme,
                                                   hasTests := s.hasTests || tests,
                                                   hasCi := s.hasCi || ci))
    ensures ScoreDocumentation(d) <= ScoreDocumentation(d.(hasReadme := d.hasReadme || readme,
                                                           hasInstallation := d.hasInstallation || install,
                                                           hasUsage := d.hasUsage || usage))
    ensures ScoreTesting(t) <= ScoreTesting(t.(hasTests := t.hasTests || tests,
                                               hasCoverage := t.hasCoverage || coverage))
    ensures ScoreGitPractices(g) <= ScoreGitPractices(g.(hasMultipleBranches := g.hasMultipleBranches || branches,
                                                         hasPullRequests := g.hasPullRequests || prs))
    ensures ScoreMaintainability(c, d, t) <= ScoreMaintainability(c, d, t.(hasTests := t.hasTests || tests))
  {
  }
}
