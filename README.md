# RepoAI assessment core, in Dafny

RepoAI's `/analyze` endpoint takes a GitHub repository URL and runs these steps:

1. Validates the URL and takes the owner and repository name from it.
2. Fetches the repository's metadata and shallow-clones it.
3. Runs the scanners:
   - structure (file counts, extension histogram, depth, README/tests/CI flags);
   - documentation (README sections, line count, documentation-to-code ratio);
   - testing (test directories, test files, frameworks, coverage artifacts);
   - git practices (commit count, recency, message quality, branches, pull requests).
4. Scores the result on a fixed rubric with a tier and badge.
5. Writes a summary, a roadmap and a project overview with the help of a language-model service. Each has a deterministic fallback.

This project models that deterministic logic in Dafny and proves what it promises.

Modules (one per source file):
- `Common`: Python string and path primitives.
- `AnalysisModels`: the records the scanners return.
- `ScoringEngine`, `RoadmapGenerator`, `AiRoadmapService`, `AiSummaryService`, `JsonExtractor`, `AiRepoExplainer`.
- `GitPracticesAnalyzer`, `DocumentationAnalyzer`, `TestingAnalyzer`, `StructureAnalyzer`.
- `Validators`, `GithubService`.
- `Analyze`: the endpoint.

Modelling conventions:
- **Code that loops over lists is modelled as methods with loop invariants.** This covers:
  - the roadmap rule table;
  - commit sampling;
  - directory walks;
  - the extension split.

  Each method is proved equal to a recursive specification function, and the properties are proved about that function.
- **Pure code becomes functions.** The scoring rubric, the fallbacks, the URL parsing and the JSON extraction are functions with lemmas.
- **The outside world is passed in as data.** A directory walk is a sequence of `WalkEntry` steps. A file system is a map from paths to contents. An HTTP answer is a status and a body. A call to the language-model service is a `Reply` (its text, or the exception it raised). Python's `eval` and `json.loads` are function parameters.

Two facts about the roadmap code:
- The AI roadmap is not capped. The prompt asks for at most six steps (`backend/app/services/ai_roadmap_service.py:39`), but the reply's items are kept as given.
- The roadmap's refactor rule fires when the average complexity is above 5 (`backend/app/core/roadmap_generator.py:77`). The scoring bands are at 3 and 5.

## Model

| member | source | states |
|---|---|---|
| ScoringEngine.ScoreStructure | backend/app/core/scoring_engine.py:1-13 | the structure sub-score lies between 0 and its cap 15 |
| ScoringEngine.ScoreCodeQuality | backend/app/core/scoring_engine.py:16-37 | the code-quality sub-score lies between 3 and 25: the complexity band alone always gives at least 3 |
| ScoringEngine.ScoreDocumentation | backend/app/core/scoring_engine.py:40-52 | the documentation sub-score lies between 0 and 15 |
| ScoringEngine.ScoreTesting | backend/app/core/scoring_engine.py:55-68 | the testing sub-score lies between 0 and 15 |
| ScoringEngine.ScoreGitPractices | backend/app/core/scoring_engine.py:71-89 | the git-practices sub-score lies between 0 and 15 |
| ScoringEngine.ScoreMaintainability | backend/app/core/scoring_engine.py:92-102 | the maintainability sub-score lies between 0 and 15 |
| ScoringEngine.Tier | backend/app/core/scoring_engine.py:124-132 | Advanced/Gold iff the total is at least 75, Intermediate/Silver iff it is in 45..74, Beginner/Bronze iff it is below 45 |
| ScoringEngine.CalculateFinalScore | backend/app/core/scoring_engine.py:107-144 | each field is its sub-score; the total is their sum and lies in 3..100; the level follows the tier bands in both directions; the badge matches the level |
| ScoringEngine.CapsNeverBind | backend/app/core/scoring_engine.py:1-102 | no raw point sum can exceed its cap, so every `min(score, cap)` returns the raw sum |
| ScoringEngine.TierBoundaries | backend/app/core/scoring_engine.py:124-132 | the tier changes between 44 and 45 and between 74 and 75 |
| ScoringEngine.PylintBands | backend/app/core/scoring_engine.py:19-25 | an absent pylint score, or exactly 0.0, earns nothing (Python truthiness); otherwise 8 or more earns 10, 6 or more earns 6, anything else earns 3 |
| ScoringEngine.TestFileBands | backend/app/core/scoring_engine.py:58-66 | five or more test files earn 5 points even when no test directory was found; two to four earn 3 |
| ScoringEngine.FlagsOnlyAdd | backend/app/core/scoring_engine.py:1-102 | turning presence flags on never lowers any sub-score |
| RoadmapGenerator.Numbered | backend/app/core/roadmap_generator.py:9-19 | the numbered items keep the recommendations in order, with priorities 1, 2, … |
| RoadmapGenerator.InsertByPriority | backend/app/core/roadmap_generator.py:125 | inserting into a priority-sorted list keeps it sorted, and the result is the old list plus the item, as multisets |
| RoadmapGenerator.SortByPriority | backend/app/core/roadmap_generator.py:125 | `sorted(items, key=priority)` is sorted by priority and is a permutation of its input |
| RoadmapGenerator.SortKeepsSorted | backend/app/core/roadmap_generator.py:125 | sorting a list that is already in priority order leaves it unchanged (stability) |
| RoadmapGenerator.Append | backend/app/core/roadmap_generator.py:13-19 | one `append` at the current priority followed by `priority += 1` keeps the items equal to the fired recommendations numbered from 1, with the counter at the next free number |
| RoadmapGenerator.AppendTestingItems | backend/app/core/roadmap_generator.py:11-37 | after the testing rules, the items are the fired recommendations so far plus the fired testing ones, numbered consecutively |
| RoadmapGenerator.AppendDocumentationItems | backend/app/core/roadmap_generator.py:39-65 | the same invariant, extended by the fired documentation rules |
| RoadmapGenerator.AppendCodeQualityItems | backend/app/core/roadmap_generator.py:67-84 | the same invariant, extended by the fired code-quality rules |
| RoadmapGenerator.AppendDevOpsItems | backend/app/core/roadmap_generator.py:86-94 | the same invariant, extended by the CI rule |
| RoadmapGenerator.AppendGitItems | backend/app/core/roadmap_generator.py:96-113 | the same invariant, extended by the git rules |
| RoadmapGenerator.ApplyRules | backend/app/core/roadmap_generator.py:8-113 | after the five rule blocks, the items are exactly the fired recommendations in table order numbered 1..n, and the counter stands at n+1 |
| RoadmapGenerator.GenerateRoadmap | backend/app/core/roadmap_generator.py:7-127 | the roadmap is the fired rules in table order numbered from 1, or the single fallback item; it has 1 to 9 items with priorities exactly 1..n; without tests, the first item is "introduce a test suite" |
| RoadmapGenerator.RoadmapShape | backend/app/core/roadmap_generator.py:7-127 | never empty, at most nine items, priorities 1..n in order |
| RoadmapGenerator.FallbackExactlyWhenNothingFires | backend/app/core/roadmap_generator.py:115-122 | the "General Improvement" item is present iff no rule fires, and it is then the only item, at priority 1 |
| RoadmapGenerator.TestingComesFirst | backend/app/core/roadmap_generator.py:12-19 | without tests, the first item is the test-suite item at priority 1 |
| RoadmapGenerator.RecommendsIffFired | backend/app/core/roadmap_generator.py:11-113 | apart from the fallback, a recommendation is in the roadmap iff its rule fired |
| RoadmapGenerator.SectionCategories | backend/app/core/roadmap_generator.py:11-113 | every recommendation of a section carries that section's category |
| RoadmapGenerator.TestingRules | backend/app/core/roadmap_generator.py:12-37 | "introduce" iff no tests; "expand" iff tests and fewer than 5 test files; never both; coverage iff tests and no coverage artifact |
| RoadmapGenerator.DocumentationRules | backend/app/core/roadmap_generator.py:40-65 | "create a README" iff there is none; with a README, the installation and usage items iff those sections are missing |
| RoadmapGenerator.DocumentationCount | backend/app/core/roadmap_generator.py:39-65 | one Documentation item per fired documentation rule, so exactly one when there is no README |
| RoadmapGenerator.CodeQualityRules | backend/app/core/roadmap_generator.py:68-84 | the lint item iff a pylint score is present and below 7; the refactor item iff the average complexity is above 5 |
| RoadmapGenerator.DevOpsAndGitRules | backend/app/core/roadmap_generator.py:87-113 | the CI item iff there is no CI; the commit item iff quality is "poor"; the pull-request item iff there are none |
| RoadmapGenerator.CategoryOrder | backend/app/core/roadmap_generator.py:11-113 | categories appear in the order Testing, Documentation, Code Quality, DevOps, Git Practices |
| AiRoadmapService.FallbackRoadmap | backend/app/services/ai_roadmap_service.py:96-123 | the fallback holds one or two items with strictly ascending priorities, as the fallback table says |
| AiRoadmapService.FallbackShape | backend/app/services/ai_roadmap_service.py:96-123 | the tests item iff no tests; the commit item iff quality is "poor", and at priority 2 even when alone; the general item iff neither, and then alone |
| AiRoadmapService.ConvertAll | backend/app/services/ai_roadmap_service.py:79-87 | the comprehension succeeds iff every element converts, and then keeps their number and order |
| AiRoadmapService.GenerateDynamicRoadmap | backend/app/services/ai_roadmap_service.py:54-93 | the service's converted items when the call, the evaluation and every conversion succeed; otherwise exactly the fallback roadmap |
| AiRoadmapService.AiItemsKeptAsGiven | backend/app/services/ai_roadmap_service.py:77-89 | a reply that evaluates to a list of well-formed dicts is returned element for element, unsorted and uncapped |
| AiRoadmapService.OneBadElementFallsBack | backend/app/services/ai_roadmap_service.py:79-93 | one malformed element anywhere discards the whole reply in favour of the fallback |
| AiRoadmapService.AiRoadmapUnchecked | backend/app/services/ai_roadmap_service.py:77-89 | the AI roadmap can be empty, or hold seven items with descending priorities |
| AiSummaryService.OpeningSentence | backend/app/services/ai_summary_service.py:92-97 | the Advanced sentence iff the level is "Advanced"; the Intermediate one iff "Intermediate"; the early-stage one for any other level |
| AiSummaryService.FallbackSummary | backend/app/services/ai_summary_service.py:89-108 | the summary is the fallback sentences, built one flag at a time, joined by single spaces |
| AiSummaryService.FallbackLinesShape | backend/app/services/ai_summary_service.py:89-108 | one to four sentences; each flag sentence is present iff its flag is false; the summary is never empty and starts with the opening sentence |
| AiSummaryService.FallbackAllMissing | backend/app/services/ai_summary_service.py:89-108 | with every flag false, the four sentences appear in order, joined by single spaces |
| AiSummaryService.GenerateRepoSummary | backend/app/services/ai_summary_service.py:54-86 | the stripped reply when the call returns; the fallback summary when it raises |
| AiSummaryService.EmptySummaryOnlyFromBlankReply | backend/app/services/ai_summary_service.py:65-86 | the summary is empty iff the service replied with whitespace only |
| JsonExtractor.RemoveFences | backend/app/utils/json_extractor.py:9 | deleting the fences never lengthens the text |
| JsonExtractor.NoFenceRemains | backend/app/utils/json_extractor.py:9 | no three backquotes remain after the substitution |
| JsonExtractor.FenceFreeUnchanged | backend/app/utils/json_extractor.py:9 | text without a fence is left as it is |
| JsonExtractor.ObjectBounds | backend/app/utils/json_extractor.py:11 | no match iff no `{` comes before a `}`; otherwise the first `{` and the last `}` |
| JsonExtractor.ObjectSpan | backend/app/utils/json_extractor.py:11-15 | the matched text starts with `{` and ends with `}` |
| JsonExtractor.ExtractJson | backend/app/utils/json_extractor.py:3-18 | the "no object" error iff the de-fenced text has no span; given a span, exactly the parser's value when it accepts the span and the "invalid JSON" error when it rejects it |
| JsonExtractor.CandidateHasNoFence | backend/app/utils/json_extractor.py:9-15 | the text handed to the parser holds no fence |
| JsonExtractor.FencedReply | backend/app/utils/json_extractor.py:9-15 | a reply fenced with "```Json" gives the parser the object inside |
| AiRepoExplainer.GenerateRepoExplanation | backend/app/services/ai_repo_explainer.py:59-100 | whitespace-only README: the "missing" record; a raised call or a failed extraction: the "unavailable" record; otherwise the parsed object |
| AiRepoExplainer.BlankReadmeNeverAsks | backend/app/services/ai_repo_explainer.py:60-100 | a whitespace-only README gives the same record whatever the service would say; the two placeholder records differ and both carry all five keys |
| AiRepoExplainer.NoObjectGivesUnavailable | backend/app/services/ai_repo_explainer.py:85-100 | a reply with no `{ … }` gives the "unavailable" record |
| AiRepoExplainer.FallbackRepoExplanation | backend/app/services/ai_repo_explainer.py:44-52 | the fallback explanation is a non-empty paragraph |
| AiRepoExplainer.FallbackIgnoresReadme | backend/app/services/ai_repo_explainer.py:44-52 | the fallback paragraph is the same whatever the README says |
| GitPracticesAnalyzer.Fetched | backend/app/services/git_practices_analyzer.py:14-21 | a non-200 answer gives the empty list; a 200 answer gives its body |
| GitPracticesAnalyzer.CalculateRecentActivity | backend/app/services/git_practices_analyzer.py:24-32 | None iff there are no commits; otherwise the whole days, rounded down, since the first (newest) commit |
| GitPracticesAnalyzer.MeaningfulCount | backend/app/services/git_practices_analyzer.py:42-45 | at most one meaningful message per commit |
| GitPracticesAnalyzer.QualityFor | backend/app/services/git_practices_analyzer.py:47-51 | "good" iff 7 or more, "average" iff 4..6, "poor" iff fewer |
| GitPracticesAnalyzer.Sample | backend/app/services/git_practices_analyzer.py:42 | the judged commits are the first min(10, n) |
| GitPracticesAnalyzer.EvaluateCommitMessages | backend/app/services/git_practices_analyzer.py:35-51 | the loop's band equals the band of the meaningful count of the first ten commits, and is one of the three values |
| GitPracticesAnalyzer.QualityMonotone | backend/app/services/git_practices_analyzer.py:47-51 | more meaningful messages never give a worse band |
| GitPracticesAnalyzer.OnlyFirstTenJudged | backend/app/services/git_practices_analyzer.py:42 | commits past the tenth never change the quality |
| GitPracticesAnalyzer.MeaningfulCountAppend | backend/app/services/git_practices_analyzer.py:42-45 | the meaningful count of two runs of commits is the sum of their counts |
| GitPracticesAnalyzer.KeywordInsideWord | backend/app/services/git_practices_analyzer.py:39-44 | a keyword inside another word ("prefix" holds "fix") disqualifies a message |
| GitPracticesAnalyzer.HasMultipleBranches | backend/app/services/git_practices_analyzer.py:54-62 | true iff the answer is 200 with more than one branch |
| GitPracticesAnalyzer.HasPullRequests | backend/app/services/git_practices_analyzer.py:65-73 | true iff the answer is 200 with at least one pull request |
| GitPracticesAnalyzer.AnalyzeGitPractices | backend/app/services/git_practices_analyzer.py:76-94 | each field comes from the fetched commits, branches and pulls; active iff the days are present and at most 180; no commits gives 0, None, "poor" and not active |
| DocumentationAnalyzer.FirstReadme | backend/app/services/documentation_analyzer.py:4-8 | the index of the first entry whose lowercase name starts with "readme" |
| DocumentationAnalyzer.FindReadme | backend/app/services/documentation_analyzer.py:4-8 | None iff no entry is a README name; otherwise the first such entry |
| DocumentationAnalyzer.DetectSections | backend/app/services/documentation_analyzer.py:19-27 | each flag holds iff one of its keywords occurs as a substring of the lowercased text |
| DocumentationAnalyzer.UsageInsideWord | backend/app/services/documentation_analyzer.py:24 | "Truncate" counts as a usage section and "INSTALL" as an installation section |
| DocumentationAnalyzer.CountLines | backend/app/services/documentation_analyzer.py:30-31 | zero lines iff the text is empty, and never more lines than characters |
| DocumentationAnalyzer.CountLinesExamples | backend/app/services/documentation_analyzer.py:30-31 | a final line break adds no line, "\r\n" is one break, and "\n\n" is two lines |
| DocumentationAnalyzer.RoundThousandths | backend/app/services/documentation_analyzer.py:37 | `round(x, 3)` is within half a thousandth of x |
| DocumentationAnalyzer.CalculateDocRatio | backend/app/services/documentation_analyzer.py:34-37 | 0.0 when there is no code; otherwise within half a thousandth of lines/loc; never negative |
| DocumentationAnalyzer.DocRatioThreshold | backend/app/services/documentation_analyzer.py:34-37 | the rounded ratio reaches the 0.1 scoring threshold iff lines/loc is at least 0.0995 |
| DocumentationAnalyzer.AnalyzeDocumentation | backend/app/services/documentation_analyzer.py:40-66 | without a README: every flag false, length 0, ratio 0.0; with one: present, and the other fields from its text |
| DocumentationAnalyzer.UnreadableReadme | backend/app/services/documentation_analyzer.py:11-66 | an unreadable README still counts as present, with no lines, no sections and ratio 0 |
| TestingAnalyzer.FindTestDirectories | backend/app/services/testing_analyzer.py:6-12 | the loop returns the joined paths of every test-named directory, in walk order |
| TestingAnalyzer.TestDirsFoundIff | backend/app/services/testing_analyzer.py:4-12 | a test directory is found iff some step of the walk, at any depth, lists a directory named tests, test or \_\_tests\_\_ (any case) |
| TestingAnalyzer.TestFilesIn | backend/app/services/testing_analyzer.py:18-20 | at most one count per file |
| TestingAnalyzer.SubWalk | backend/app/services/testing_analyzer.py:17 | `os.walk(d)` visits only the steps at or below d |
| TestingAnalyzer.CountTestFiles | backend/app/services/testing_analyzer.py:14-21 | the loop's count is the sum, over the test directories, of the test files below each one |
| TestingAnalyzer.NestedTestDirsCountTwice | backend/app/services/testing_analyzer.py:14-21 | a test file inside a test directory nested in another one is counted twice |
| TestingAnalyzer.DetectTestFrameworks | backend/app/services/testing_analyzer.py:23-39 | the frameworks are those of the walk's readable .py files, a subset of {pytest, unittest} |
| TestingAnalyzer.ScanFile | backend/app/services/testing_analyzer.py:28-37 | one file contributes only if it is a readable .py file, and then exactly the frameworks its lowercased text names, a subset of {pytest, unittest} |
| TestingAnalyzer.FrameworksIff | backend/app/services/testing_analyzer.py:26-37 | a framework is reported iff some readable .py file's lowercased text mentions it |
| TestingAnalyzer.DetectCoverage | backend/app/services/testing_analyzer.py:42-53 | true iff some file or directory is named exactly coverage.xml, .coverage or htmlcov |
| TestingAnalyzer.AnalyzeTesting | backend/app/services/testing_analyzer.py:56-68 | has_tests iff a test directory exists anywhere; without one the count is 0; the other fields come from the four scans |
| StructureAnalyzer.RemoveAll | backend/app/services/structure_analyzer.py:13 | `replace(repo_path, "")` never lengthens the path |
| StructureAnalyzer.CountChar | backend/app/services/structure_analyzer.py:13 | the count is zero iff the separator is absent |
| StructureAnalyzer.MaxDepth | backend/app/services/structure_analyzer.py:13-14 | the result bounds every step's depth and is 0 or reached by some step |
| StructureAnalyzer.DepthExamples | backend/app/services/structure_analyzer.py:13 | the repository itself is at depth 0, and a directory two levels down is at depth 2 |
| StructureAnalyzer.RepeatedPathUndercounts | backend/app/services/structure_analyzer.py:13 | a path that repeats the repository path loses the repetition too: "a/b/a/b" under "a/b" is at depth 1 |
| StructureAnalyzer.SplitExtShape | backend/app/services/structure_analyzer.py:19 | an extension is empty, or a suffix of the name that starts with its only dot and holds no separator |
| StructureAnalyzer.SplitExtension | backend/app/services/structure_analyzer.py:19 | the scan computes the extension the specification function defines |
| StructureAnalyzer.SplitExtExamples | backend/app/services/structure_analyzer.py:19 | "a.py" gives ".py"; "a.b.c" gives ".c" |
| StructureAnalyzer.NoExtensionExamples | backend/app/services/structure_analyzer.py:19 | "ab" and ".rc" have no extension |
| StructureAnalyzer.NoExtKey | backend/app/services/structure_analyzer.py:19-20 | "no\_ext" iff the file has no extension; any other key is the extension and starts with a dot |
| StructureAnalyzer.HistAddCounts | backend/app/services/structure_analyzer.py:17-20 | counting adds the files with that key, and no key is ever mapped to zero |
| StructureAnalyzer.HistogramCounts | backend/app/services/structure_analyzer.py:12-20 | each key's count is the number of walked files with that key, and keys are exactly those with a positive count |
| StructureAnalyzer.HistogramSum | backend/app/services/structure_analyzer.py:12-20 | the histogram's values add up to total_files |
| StructureAnalyzer.RootFilesOfFirstStep | backend/app/services/structure_analyzer.py:22-23 | when the walk visits the repository path once, first, the root files are that step's files |
| StructureAnalyzer.NestedTestsOnlyFoundByTestingScan | backend/app/services/structure_analyzer.py:30-34 | the structure scan looks only at the top level, so a nested tests directory found by the testing scan leaves its has_tests false |
| StructureAnalyzer.AnalyzeStructure | backend/app/services/structure_analyzer.py:5-49 | the totals, histogram (summing to total_files), root files and maximum depth of the walk; has_readme iff a root file's name starts with "readme"; has_tests iff a top-level directory is test-named; has_ci iff the workflows directory exists |
| StructureAnalyzer.CountFiles | backend/app/services/structure_analyzer.py:17-23 | the inner loop adds every file to the histogram and the total, and to the root files when the step is the repository path |
| StructureAnalyzer.CountFile | backend/app/services/structure_analyzer.py:19-20 | one file adds one to the count of its extension key, the extension or "no\_ext" |
| Validators.ValidateGithubRepoUrl | backend/app/utils/validators.py:5-6 | an accepted URL starts with "https://github.com/" followed by a non-empty owner, a slash and a non-empty repository; ValidatorMatchesRegex proves it accepts exactly what the regular expression matches |
| Validators.ValidatorMatchesRegex | backend/app/utils/validators.py:3-6 | the scanning check accepts exactly the URLs the regular expression matches |
| Validators.AcceptsOwnerRepo | backend/app/utils/validators.py:3-6 | the prefix, two non-empty slash-free segments and a tail of "", "/", "\n" or "/\n" are accepted, whatever else the segments hold |
| Validators.RejectsExtraSegment | backend/app/utils/validators.py:3-6 | a third segment is rejected |
| Validators.RejectsEmptySegments | backend/app/utils/validators.py:3-6 | an empty owner, an empty repository, or a double slash is rejected |
| Validators.RejectsOtherHosts | backend/app/utils/validators.py:3-6 | "http", "www." and capitals in the host are rejected |
| GithubService.RemoveUnsafe | backend/app/services/github_service.py:32 | deleting tab, CR and LF never lengthens the URL |
| GithubService.ExtractOwnerRepo | backend/app/services/github_service.py:28-34 | a failure is always the two-value unpacking error |
| GithubService.SplitHead | backend/app/services/github_service.py:33 | the first part of `split("/")` is the text before the first slash; there are more parts iff there is a slash |
| GithubService.ExtractTakesFirstTwoParts | backend/app/services/github_service.py:32-34 | the unpacking fails iff the stripped path has no slash; otherwise owner and repository are slash-free and the stripped path starts with owner/repo |
| GithubService.GithubUrlPath | backend/app/services/github_service.py:32 | on a github.com URL, the parser's path is computed with the scheme "https" after deleting tab, CR and LF |
| GithubService.GithubPlainPath | backend/app/services/github_service.py:32 | a path with no fragment, query or parameter mark is kept whole |
| GithubService.PathOfRepoUrl | backend/app/services/github_service.py:32 | the path of a well-formed repository URL is "/owner/repo" plus what is left of the tail |
| GithubService.ExtractInvertsValidUrl | backend/app/services/github_service.py:28-34 | for owner and repository names the URL parser passes through, every tail the validator allows gives a URL that validates and extracts back to (owner, repo) |
| GithubService.QueryCutsPath | backend/app/services/github_service.py:32 | the path of ".../owner?query/repo" is "/owner": the rest becomes the query |
| GithubService.QueryInOwnerFails | backend/app/services/github_service.py:28-34 | a "?" inside the owner passes the validator, but extraction then fails with the unpacking error |
| Common.Lower | backend/app/services/documentation_analyzer.py:20 | `str.lower` keeps the length and lowers each character |
| Common.Contains | backend/app/services/documentation_analyzer.py:25 | the substring test `k in s` holds iff k occurs at some index of s |
| Common.StripBy | backend/app/services/github_service.py:32 | `strip(chars)` leaves no stripped character at either end, and is empty iff every character is stripped |
| Common.SplitOn | backend/app/services/github_service.py:33 | `split(sep)` yields at least one part, and the whole text when sep is absent |
| Analyze.AnalyzeRepository | backend/app/api/analyze.py:28-124 | an invalid URL gives 400 "Invalid GitHub repository URL" before any outside call; a failed unpacking escapes as an error; a metadata failure gives 400 with the exception text and nothing is cloned; a clone failure gives 500 "Repository clone failed: …"; otherwise the steps after the clone; the endpoint's own statuses are only 400 and 500 |
| Analyze.AnalyzeOwnerRepo | backend/app/api/analyze.py:39-49 | the metadata fetch comes first; its failure is a 400 carrying its text; the clone comes second; its failure is a 500 prefixed "Repository clone failed: " |
| Analyze.Scans | backend/app/api/analyze.py:51-66 | the scans succeed iff every one returns, and then hold each scan's record; the first scan that raises (structure first, git practices last) supplies the exception |
| Analyze.RunScans | backend/app/api/analyze.py:51-66 | the scans run in the endpoint's order and stop at the first that raises; the overview is built from the README text; the git-practices call is made iff the other scans returned |
| Analyze.AnalyzeClone | backend/app/api/analyze.py:51-124 | a scan that raises escapes with its exception (a 500 from the framework), with the git-practices call made only if it was reached; otherwise the steps after the scans |
| Analyze.Conclude | backend/app/api/analyze.py:68-124 | the commit fetch, then the language fetch; either raising escapes after the scoring; otherwise status "completed", repository "owner/repo", the overview identical at top level and in the analysis, and the final score, summary and roadmap computed from the five fact records |
| Analyze.SuccessReport | backend/app/api/analyze.py:106-124 | the completed report: status "completed", repository "owner/repo", each scan's record, the same overview at top level and inside the analysis, and the score, summary and roadmap computed from the five fact records |

## Left out

- The network, git and the language-model service are outside the model. Each of their results is a parameter: HTTP answers, clone outcomes, model replies. So are the file system (a walk, a listing, a map of file contents) and the clock ("now" in seconds).
- The prompt builders are not modelled, because their text only reaches the language-model service. The diagnostic `print` calls of the services are not modelled either.
- Python's `eval` of the roadmap reply and `json.loads` are abstract function parameters, because parsing Python and JSON text is not modelled.
- AiRoadmapService.GenerateDynamicRoadmap: an `eval` that raises a `BaseException` outside `Exception` (such as `SystemExit` or `KeyboardInterrupt`) escapes the `except Exception` in the source; the model treats every failed evaluation as one that falls back.
- The scanners' own failures (an unguarded `requests.get`, a `.json()` of a body that is not JSON, a commit without the expected keys, a `subprocess.run` error) are not modelled inside the scanner modules, which take well-formed answers as inputs. The endpoint model covers them by letting each scan raise.
- Pydantic's coercion of the AI roadmap's fields is not modelled. A field of the wrong type makes the conversion fail, which falls back as any other exception does.
- `backend/app/services/code_quality_analyzer.py` (radon, pylint) is not part of this model. Its record is an input.
- `get_readme_content` is imported by the endpoint but not defined in `documentation_analyzer.py`. So the import in `analyze.py` raises `ImportError` when the module loads, and the endpoint as written cannot run; `main.py` does not mount its router either. The model describes the endpoint as if that function existed: the README text comes from a collaborator that may raise.
- `RepoAnalyzeRequest` is not part of this model. The URL is taken as the string the endpoint validates.
- `fetch_commit_stats` and `fetch_languages` are modelled only by whether they raise, because the endpoint discards their results.
- The `os.walk` order and symbolic links are not modelled. A walk is any sequence of steps.
- Unicode case folding is left out: lowercasing is ASCII only.
- Dates are integer seconds since an epoch. ISO-8601 parsing and time zones are not modelled.
- The GitHub API's pagination (30 items per page) is not modelled. A list answer is whatever the body holds.
- The URL parser is modelled for the parts the path depends on: leading control characters, deleted tab/CR/LF, the scheme, the network location, and the `#`, `?` and `;` delimiters. Network-location validation (IPv6 brackets, NFKC checks) is not modelled.
- `Common.SplitWords` (`str.split()`) has no contract of its own. Its use is covered by the commit-message lemmas.
- DocumentationAnalyzer.CalculateDocRatio: rounds the exact rational quotient half-to-even. The binary floating-point quotient `round` sees is not modelled, so results can differ in the last digit for ties that are not exact in binary.
