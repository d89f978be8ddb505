/** The `/analyze` endpoint: validate the URL, take owner and repository
    from it, fetch the metadata, clone, run the scanners, score, summarise,
    plan the roadmap, fetch the extra statistics and assemble the report.
    Every collaborator that touches the network, the disk or a language
    model is a parameter; the endpoint's own logic is the order of the
    steps, which failures become which HTTP status, and what the report
    holds. */
module Analyze {
  import opened Common
  import opened AnalysisModels
  import opened Validators
  import opened GithubService
  import opened ScoringEngine
  import opened AiSummaryService
  import opened AiRoadmapService
  import opened JsonExtractor
  import opened AiRepoExplainer

  /** What a collaborator that may raise gives back: its value, or the text
      of the exception it raised. */
  datatype Outcome<T> = Done(value: T) | Failed(message: string)

  /** The collaborators, each as the function of its arguments it is for one
      request. The scanners may raise, like the fetches: the endpoint
      catches nothing after the clone. The three replies are what the
      language model answered (or the error its client raised) for this
      repository's prompts. */
  datatype Collaborators = Collaborators(
    fetchRepoMetadata: (string, string) -> Outcome<()>,
    cloneRepository: (string, string) -> Outcome<string>,
    analyzeStructure: string -> Outcome<StructureAnalysis>,
    analyzeCodeQuality: string -> Outcome<CodeQualityAnalysis>,
    analyzeDocumentation: (string, nat) -> Outcome<DocumentationAnalysis>,
    readmeContent: string -> Outcome<string>,
    explainerReply: Reply,
    loads: string -> Option<Json>,
    analyzeTesting: string -> Outcome<TestingAnalysis>,
    analyzeGitPractices: (string, string) -> Outcome<GitPracticesAnalysis>,
    summaryReply: Reply,
    roadmapReply: Reply,
    evaluate: string -> Option<PyValue>,
    fetchCommitStats: (string, string) -> Outcome<()>,
    fetchLanguages: (string, string) -> Outcome<()>)

  /** What the scans of one clone found. */
  datatype Facts = Facts(
    structure: StructureAnalysis,
    codeQuality: CodeQualityAnalysis,
    documentation: DocumentationAnalysis,
    readmeText: string,
    testing: TestingAnalysis,
    git: GitPracticesAnalysis)

  /** The GitHub and git calls the endpoint makes, in the order it makes them.
      The language-model calls are not in the trace: their answers are the
      three replies among the collaborators. */
  datatype Call =
    | FetchRepoMetadata(owner: string, repo: string)
    | CloneRepository(url: string, name: string)
    | AnalyzeGitPractices(owner: string, repo: string)
    | FetchCommitStats(owner: string, repo: string)
    | FetchLanguages(owner: string, repo: string)

  /** The "analysis" object of the report. */
  datatype Analysis = Analysis(
    structure: StructureAnalysis,
    codeQuality: CodeQualityAnalysis,
    projectOverview: Json,
    documentation: DocumentationAnalysis,
    testing: TestingAnalysis,
    gitPractices: GitPracticesAnalysis)

  datatype Report = Report(
    status: string,
    repository: string,
    score: ScoreBreakdown,
    projectOverview: Json,
    summary: string,
    roadmap: ImprovementRoadmap,
    analysis: Analysis)

  /** An `HTTPException` the endpoint raises, an exception it lets escape
      (the framework answers it with status 500), or the report. */
  datatype Response =
    | HttpError(status: int, detail: string)
    | Uncaught(message: string)
    | Completed(report: Report)

  const InvalidUrlDetail := "Invalid GitHub repository URL"
  const CloneFailedPrefix := "Repository clone failed: "

  /** `analyze_repository`. */
  method AnalyzeRepository(repoUrl: string, env: Collaborators) returns (response: Response, calls: seq<Call>)
    // An invalid URL is refused before anything leaves the process.
    ensures !ValidateGithubRepoUrl(repoUrl) ==> response == HttpError(400, InvalidUrlDetail) && calls == []
    // A URL the validator accepts but the unpacking rejects escapes as an error.
    ensures ValidateGithubRepoUrl(repoUrl) && ExtractOwnerRepo(repoUrl).Err? ==>
      response == Uncaught(UnpackError) && calls == []
    ensures ValidateGithubRepoUrl(repoUrl) && ExtractOwnerRepo(repoUrl).Ok? ==>
      var owner := ExtractOwnerRepo(repoUrl).value.0;
      var repo := ExtractOwnerRepo(repoUrl).value.1;
      && |calls| >= 1 && calls[0] == FetchRepoMetadata(owner, repo)
      // A metadata failure is a 400 carrying the exception text, and nothing is cloned.
      && (env.fetchRepoMetadata(owner, repo).Failed? ==>
            response == HttpError(400, env.fetchRepoMetadata(owner, repo).message) && |calls| == 1)
      && (env.fetchRepoMetadata(owner, repo).Done? ==>
            && |calls| >= 2 && calls[1] == CloneRepository(repoUrl, repo)
            // A clone failure is a 500 whose detail names it.
            && (env.cloneRepository(repoUrl, repo).Failed? ==>
                  response == HttpError(500, CloneFailedPrefix + env.cloneRepository(repoUrl, repo).message)
                  && |calls| == 2)
            && (env.cloneRepository(repoUrl, repo).Done? ==>
                  ClonedOutcome(env, owner, repo, env.cloneRepository(repoUrl, repo).value, response, calls[2..])))
    // Status codes the endpoint chooses itself.
    ensures response.HttpError? ==> response.status == 400 || response.status == 500
  {
    calls := [];
    if !ValidateGithubRepoUrl(repoUrl) {
      response := HttpError(400, InvalidUrlDetail);
      return;
    }
    var extracted := ExtractOwnerRepo(repoUrl);
    if extracted.Err? {
      response := Uncaught(extracted.error);
      return;
    }
    response, calls := AnalyzeOwnerRepo(repoUrl, extracted.value.0, extracted.value.1, env);
  }

  /** The steps once the URL has given `owner` and `repo`. */
  method AnalyzeOwnerRepo(repoUrl: string, owner: string, repo: string, env: Collaborators)
    returns (response: Response, calls: seq<Call>)
    ensures |calls| >= 1 && calls[0] == FetchRepoMetadata(owner, repo)
    ensures env.fetchRepoMetadata(owner, repo).Failed? ==>
      response == HttpError(400, env.fetchRepoMetadata(owner, repo).message) && |calls| == 1
    ensures env.fetchRepoMetadata(owner, repo).Done? ==>
      && |calls| >= 2 && calls[1] == CloneRepository(repoUrl, repo)
      && (env.cloneRepository(repoUrl, repo).Failed? ==>
            response == HttpError(500, CloneFailedPrefix + env.cloneRepository(repoUrl, repo).message)
            && |calls| == 2)
      && (env.cloneRepository(repoUrl, repo).Done? ==>
            ClonedOutcome(env, owner, repo, env.cloneRepository(repoUrl, repo).value, response, calls[2..]))
    ensures response.HttpError? ==> response.status == 400 || response.status == 500
  {
    calls := [FetchRepoMetadata(owner, repo)];
    var metadata := env.fetchRepoMetadata(owner, repo);
    if metadata.Failed? {
      response := HttpError(400, metadata.message);
      return;
    }

    calls := calls + [CloneRepository(repoUrl, repo)];
    var cloned := env.cloneRepository(repoUrl, repo);
    if cloned.Failed? {
      response := HttpError(500, CloneFailedPrefix + cloned.message);
      return;
    }
    var rest;
    response, rest := AnalyzeClone(env, owner, repo, cloned.value);
    assert (calls + rest)[2..] == rest;
    calls := calls + rest;
  }

  /** The scans before the git-practices one all return: structure, code
      quality, documentation (given the code-quality line count), the README
      text and testing. */
  predicate ScansBeforeGitDone(env: Collaborators, path: string)
  {
    && env.analyzeStructure(path).Done?
    && env.analyzeCodeQuality(path).Done?
    && env.analyzeDocumentation(path, env.analyzeCodeQuality(path).value.totalLinesOfCode).Done?
    && env.readmeContent(path).Done?
    && env.analyzeTesting(path).Done?
  }

  /** The scans of a clone into `path`, in the endpoint's order; the first
      one that raises ends them with its exception. */
  function Scans(env: Collaborators, owner: string, repo: string, path: string): (r: Outcome<Facts>)
    ensures r.Done? <==> ScansBeforeGitDone(env, path) && env.analyzeGitPractices(owner, repo).Done?
    ensures r.Done? ==>
      && r.value.structure == env.analyzeStructure(path).value
      && r.value.codeQuality == env.analyzeCodeQuality(path).value
      && r.value.documentation == env.analyzeDocumentation(path, r.value.codeQuality.totalLinesOfCode).value
      && r.value.readmeText == env.readmeContent(path).value
      && r.value.testing == env.analyzeTesting(path).value
      && r.value.git == env.analyzeGitPractices(owner, repo).value
    // The structure scan runs first, so its exception is the one reported.
    ensures env.analyzeStructure(path).Failed? ==> r == Failed(env.analyzeStructure(path).message)
    // Each later scan's exception counts only when the scans before it returned.
    ensures && env.analyzeStructure(path).Done?
            && env.analyzeCodeQuality(path).Failed? ==>
      r == Failed(env.analyzeCodeQuality(path).message)
    ensures && env.analyzeStructure(path).Done? && env.analyzeCodeQuality(path).Done?
            && env.analyzeDocumentation(path, env.analyzeCodeQuality(path).value.totalLinesOfCode).Failed? ==>
      r == Failed(env.analyzeDocumentation(path, env.analyzeCodeQuality(path).value.totalLinesOfCode).message)
    ensures && env.analyzeStructure(path).Done? && env.analyzeCodeQuality(path).Done?
            && env.analyzeDocumentation(path, env.analyzeCodeQuality(path).value.totalLinesOfCode).Done?
            && env.readmeContent(path).Failed? ==>
      r == Failed(env.readmeContent(path).message)
    ensures && env.analyzeStructure(path).Done? && env.analyzeCodeQuality(path).Done?
            && env.analyzeDocumentation(path, env.analyzeCodeQuality(path).value.totalLinesOfCode).Done?
            && env.readmeContent(path).Done? && env.analyzeTesting(path).Failed? ==>
      r == Failed(env.analyzeTesting(path).message)
    // The git-practices scan runs last: its exception counts only when the others returned.
    ensures ScansBeforeGitDone(env, path) && env.analyzeGitPractices(owner, repo).Failed? ==>
      r == Failed(env.analyzeGitPractices(owner, repo).message)
  {
    match env.analyzeStructure(path)
    case Failed(m) => Failed(m)
    case Done(structure) =>
      match env.analyzeCodeQuality(path)
      case Failed(m) => Failed(m)
      case Done(codeQuality) =>
        match env.analyzeDocumentation(path, codeQuality.totalLinesOfCode)
        case Failed(m) => Failed(m)
        case Done(documentation) =>
          match env.readmeContent(path)
          case Failed(m) => Failed(m)
          case Done(readmeText) =>
            match env.analyzeTesting(path)
            case Failed(m) => Failed(m)
            case Done(testing) =>
              match env.analyzeGitPractices(owner, repo)
              case Failed(m) => Failed(m)
              case Done(git) => Done(Facts(structure, codeQuality, documentation, readmeText, testing, git))
  }

  /** The scans of a clone into `path`, made in the endpoint's order, with
      the project overview built from the README text between the README
      read and the testing scan. Of the scans only the git-practices one calls
      GitHub, so it is the only call recorded. */
  method RunScans(env: Collaborators, owner: string, repo: string, path: string)
    returns (scanned: Outcome<Facts>, explanation: Json, calls: seq<Call>)
    ensures scanned == Scans(env, owner, repo, path)
    ensures scanned.Done? ==> explanation == GenerateRepoExplanation(scanned.value.readmeText, env.explainerReply, env.loads)
    ensures calls == if ScansBeforeGitDone(env, path) then [AnalyzeGitPractices(owner, repo)] else []
  {
    calls := [];
    explanation := JNull;
    var structure := env.analyzeStructure(path);
    if structure.Failed? {
      return Failed(structure.message), explanation, calls;
    }
    var codeQuality := env.analyzeCodeQuality(path);
    if codeQuality.Failed? {
      return Failed(codeQuality.message), explanation, calls;
    }
    var documentation := env.analyzeDocumentation(path, codeQuality.value.totalLinesOfCode);
    if documentation.Failed? {
      return Failed(documentation.message), explanation, calls;
    }
    var readmeText := env.readmeContent(path);
    if readmeText.Failed? {
      return Failed(readmeText.message), explanation, calls;
    }
    explanation := GenerateRepoExplanation(readmeText.value, env.explainerReply, env.loads);
    var testing := env.analyzeTesting(path);
    if testing.Failed? {
      return Failed(testing.message), explanation, calls;
    }
    calls := [AnalyzeGitPractices(owner, repo)];
    var git := env.analyzeGitPractices(owner, repo);
    if git.Failed? {
      return Failed(git.message), explanation, calls;
    }
    scanned := Done(Facts(structure.value, codeQuality.value, documentation.value, readmeText.value,
                          testing.value, git.value));
  }

  /** The steps after a successful clone into `path`: the scans, then
      what follows them. A scan that raises escapes as an error, which the
      framework answers with status 500. */
  method AnalyzeClone(env: Collaborators, owner: string, repo: string, path: string)
    returns (response: Response, calls: seq<Call>)
    ensures ClonedOutcome(env, owner, repo, path, response, calls)
    ensures !response.HttpError?
  {
    var scanned, explanation, scanCalls := RunScans(env, owner, repo, path);
    if scanned.Failed? {
      response, calls := Uncaught(scanned.message), scanCalls;
      return;
    }
    var rest;
    response, rest := Conclude(env, owner, repo, scanned.value, explanation);
    calls := scanCalls + rest;
  }

  /** The steps after the scans found `facts`: the score, the summary and
      the roadmap; then the commit and language fetches, in that order. A
      fetch that raises escapes as an error after the scoring; otherwise
      the report. */
  method Conclude(env: Collaborators, owner: string, repo: string, facts: Facts, explanation: Json)
    returns (response: Response, calls: seq<Call>)
    requires explanation == GenerateRepoExplanation(facts.readmeText, env.explainerReply, env.loads)
    ensures Concluded(env, owner, repo, facts, response, calls)
  {
    var score := CalculateFinalScore(facts.structure, facts.codeQuality, facts.documentation, facts.testing, facts.git);
    var summary := GenerateRepoSummary(env.summaryReply, score, facts.documentation, facts.testing, facts.git);
    var roadmap := GenerateDynamicRoadmap(env.roadmapReply, env.evaluate, score, facts.testing,
                                          facts.documentation, facts.git);

    calls := [FetchCommitStats(owner, repo)];
    var commits := env.fetchCommitStats(owner, repo);
    if commits.Failed? {
      response := Uncaught(commits.message);
      return;
    }
    calls := calls + [FetchLanguages(owner, repo)];
    var languages := env.fetchLanguages(owner, repo);
    if languages.Failed? {
      response := Uncaught(languages.message);
      return;
    }

    var analysis := Analysis(facts.structure, facts.codeQuality, explanation, facts.documentation,
                             facts.testing, facts.git);
    response := Completed(Report("completed", owner + "/" + repo, score, explanation, summary, roadmap, analysis));
  }

  /** The report of a request that completes with the scans' `facts`: every
      fact record is the scan's, the overview appears identically at the top
      and in the analysis, the score is the final score of the five records,
      and the summary and roadmap come from that score and those records. */
  function SuccessReport(env: Collaborators, owner: string, repo: string, facts: Facts): (r: Report)
    ensures r.status == "completed" && r.repository == owner + "/" + repo
    ensures r.analysis.structure == facts.structure
      && r.analysis.codeQuality == facts.codeQuality
      && r.analysis.documentation == facts.documentation
      && r.analysis.testing == facts.testing
      && r.analysis.gitPractices == facts.git
    ensures r.projectOverview == r.analysis.projectOverview
      && r.projectOverview == GenerateRepoExplanation(facts.readmeText, env.explainerReply, env.loads)
    ensures r.score == CalculateFinalScore(r.analysis.structure, r.analysis.codeQuality, r.analysis.documentation,
                                           r.analysis.testing, r.analysis.gitPractices)
    ensures r.summary == GenerateRepoSummary(env.summaryReply, r.score, r.analysis.documentation,
                                             r.analysis.testing, r.analysis.gitPractices)
    ensures r.roadmap == GenerateDynamicRoadmap(env.roadmapReply, env.evaluate, r.score, r.analysis.testing,
                                                r.analysis.documentation, r.analysis.gitPractices)
  {
    var explanation := GenerateRepoExplanation(facts.readmeText, env.explainerReply, env.loads);
    var score := CalculateFinalScore(facts.structure, facts.codeQuality, facts.documentation, facts.testing, facts.git);
    Report("completed", owner + "/" + repo, score, explanation,
           GenerateRepoSummary(env.summaryReply, score, facts.documentation, facts.testing, facts.git),
           GenerateDynamicRoadmap(env.roadmapReply, env.evaluate, score, facts.testing, facts.documentation, facts.git),
           Analysis(facts.structure, facts.codeQuality, explanation, facts.documentation, facts.testing, facts.git))
  }

  /** What the steps after the scans answer, and the calls they make, as
      `Conclude` promises. */
  predicate Concluded(env: Collaborators, owner: string, repo: string, facts: Facts,
                      response: Response, calls: seq<Call>)
  {
    && |calls| >= 1 && calls[0] == FetchCommitStats(owner, repo)
    && (env.fetchCommitStats(owner, repo).Failed? ==>
          response == Uncaught(env.fetchCommitStats(owner, repo).message) && |calls| == 1)
    && (env.fetchCommitStats(owner, repo).Done? ==>
          && |calls| == 2 && calls[1] == FetchLanguages(owner, repo)
          && (env.fetchLanguages(owner, repo).Failed? ==>
                response == Uncaught(env.fetchLanguages(owner, repo).message))
          && (env.fetchLanguages(owner, repo).Done? ==>
                response == Completed(SuccessReport(env, owner, repo, facts))))
  }

  /** What the steps after a successful clone into `path` answer, and the
      calls they make, as `AnalyzeClone` promises: the git-practices scan is
      called once the other scans have returned; a scan that raises escapes
      with its exception; otherwise the steps after the scans. */
  predicate ClonedOutcome(env: Collaborators, owner: string, repo: string, path: string,
                          response: Response, calls: seq<Call>)
  {
    var scanned := Scans(env, owner, repo, path);
    && (|calls| >= 1 <==> ScansBeforeGitDone(env, path))
    && (|calls| >= 1 ==> calls[0] == AnalyzeGitPractices(owner, repo))
    && (scanned.Failed? ==> response == Uncaught(scanned.message) && |calls| <= 1)
    && (scanned.Done? ==> Concluded(env, owner, repo, scanned.value, response, calls[1..]))
  }
}
