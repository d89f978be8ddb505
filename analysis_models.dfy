/** The fact records each scanner produces, and the records the scoring
    engine and the roadmap generators return. Python ints that are lengths
    or counters are `nat`; the floats that are only compared against
    thresholds (average complexity, pylint score, documentation ratio) are
    exact `real`s. */
module AnalysisModels {
  import opened Common

  datatype StructureAnalysis = StructureAnalysis(
    totalFiles: nat,
    totalDirectories: nat,
    fileTypes: map<string, nat>,   // extension (or "no_ext") -> number of files
    hasReadme: bool,
    hasTests: bool,
    hasCi: bool,
    rootFiles: seq<string>,
    maxDepth: nat)

  datatype CodeQualityAnalysis = CodeQualityAnalysis(
    totalCodeFiles: nat,
    totalLinesOfCode: nat,
    averageComplexity: real,
    highComplexityFiles: seq<string>,
    pylintScore: Option<real>)

  datatype DocumentationAnalysis = DocumentationAnalysis(
    hasReadme: bool,
    readmeLength: nat,
    hasInstallation: bool,
    hasUsage: bool,
    hasContributing: bool,
    hasLicense: bool,
    docToCodeRatio: real)

  /** `testFrameworks` is kept as the set the scanner builds: the order of
      Python's `list(set)` is unspecified. */
  datatype TestingAnalysis = TestingAnalysis(
    hasTests: bool,
    testDirectories: seq<string>,
    testFilesCount: nat,
    testFrameworks: set<string>,
    hasCoverage: bool)

  datatype GitPracticesAnalysis = GitPracticesAnalysis(
    totalCommits: nat,
    recentActivityDays: Option<int>,
    commitMessageQuality: string,   // "poor", "average" or "good"
    hasMultipleBranches: bool,
    hasPullRequests: bool,
    isActivelyMaintained: bool)

  datatype ScoreBreakdown = ScoreBreakdown(
    structure: int,
    codeQuality: int,
    documentation: int,
    testing: int,
    gitPractices: int,
    maintainability: int,
    totalScore: int,
    level: string,
    badge: string)

  datatype RoadmapItem = RoadmapItem(
    priority: int,
    category: string,
    action: string,
    expectedImpact: string)

  datatype ImprovementRoadmap = ImprovementRoadmap(items: seq<RoadmapItem>)
}
