/** The overview paragraph: the language-model service's stripped reply, or,
    when the call raises, a summary built from fixed sentences. The service
    call is an abstract `Reply`. */
module AiSummaryService {
  import opened Common
  import opened AnalysisModels

  const AdvancedSentence := "This repository demonstrates strong engineering practices and a mature structure."
  const IntermediateSentence := "This repository shows a reasonable level of organization and code quality."
  const EarlyStageSentence := "This repository reflects an early-stage or learning-focused project."
  const NoTestsSentence := "The absence of automated tests reduces confidence in long-term maintainability."
  const NoReadmeSentence := "Documentation is minimal, which makes onboarding and usage harder."
  const InactiveSentence := "The project does not appear to be actively maintained."

  /** The opening sentence, chosen by the level alone: any level other than
      "Advanced" or "Intermediate" reads as early-stage. */
  function OpeningSentence(level: string): (s: string)
    ensures level == "Advanced" <==> s == AdvancedSentence
    ensures level == "Intermediate" <==> s == IntermediateSentence
    ensures level != "Advanced" && level != "Intermediate" <==> s == EarlyStageSentence
  {
    if level == "Advanced" then AdvancedSentence
    else if level == "Intermediate" then IntermediateSentence
    else EarlyStageSentence
  }

  /** The fallback summary's sentences: the opening one, then one for each
      missing quality, in the order tests, README, maintenance. */
  function FallbackLines(level: string, hasTests: bool, hasReadme: bool, activelyMaintained: bool): seq<string> {
    [OpeningSentence(level)]
    + (if !hasTests then [NoTestsSentence] else [])
    + (if !hasReadme then [NoReadmeSentence] else [])
    + (if !activelyMaintained then [InactiveSentence] else [])
  }

  method FallbackSummary(score: ScoreBreakdown, doc: DocumentationAnalysis, testing: TestingAnalysis,
                         git: GitPracticesAnalysis)
    returns (summary: string)
    ensures summary == Join(FallbackLines(score.level, testing.hasTests, doc.hasReadme, git.isActivelyMaintained), " ")
  {
    var lines: seq<string> := [];
    if score.level == "Advanced" {
      lines := lines + [AdvancedSentence];
    } else if score.level == "Intermediate" {
      lines := lines + [IntermediateSentence];
    } else {
      lines := lines + [EarlyStageSentence];
    }
    assert lines == [OpeningSentence(score.level)];
    if !testing.hasTests {
      lines := lines + [NoTestsSentence];
    }
    if !doc.hasReadme {
      lines := lines + [NoReadmeSentence];
    }
    if !git.isActivelyMaintained {
      lines := lines + [InactiveSentence];
    }
    assert lines == FallbackLines(score.level, testing.hasTests, doc.hasReadme, git.isActivelyMaintained);
    summary := Join(lines, " ");
  }

  lemma JoinStartsWithFirst(parts: seq<string>, sep: string)
    requires |parts| >= 1
    ensures StartsWith(Join(parts, sep), parts[0])
  {
    if |parts| > 1 {
      assert Join(parts, sep) == parts[0] + (sep + Join(parts[1..], sep));
    }
  }

  /** One to four sentences, each present exactly when its flag is false,
      and never an empty summary. */
  lemma FallbackLinesShape(level: string, hasTests: bool, hasReadme: bool, activelyMaintained: bool)
    ensures var lines := FallbackLines(level, hasTests, hasReadme, activelyMaintained);
      && 1 <= |lines| <= 4
      && lines[0] == OpeningSentence(level)
      && |lines| == 1 + (if hasTests then 0 else 1) + (if hasReadme then 0 else 1) + (if activelyMaintained then 0 else 1)
      && (NoTestsSentence in lines <==> !hasTests)
      && (NoReadmeSentence in lines <==> !hasReadme)
      && (InactiveSentence in lines <==> !activelyMaintained)
      && Join(lines, " ") != []
      && StartsWith(Join(lines, " "), OpeningSentence(level))
  {
    var lines := FallbackLines(level, hasTests, hasReadme, activelyMaintained);
    JoinStartsWithFirst(lines, " ");
  }

  /** With every flag false, the four sentences in order, joined by single spaces. */
  lemma FallbackAllMissing(level: string)
    ensures Join(FallbackLines(level, false, false, false), " ")
      == OpeningSentence(level) + " " + NoTestsSentence + " " + NoReadmeSentence + " " + InactiveSentence
  {
    assert FallbackLines(level, false, false, false) == [OpeningSentence(level), NoTestsSentence, NoReadmeSentence, InactiveSentence];
    JoinFour(OpeningSentence(level), NoTestsSentence, NoReadmeSentence, InactiveSentence, " ");
  }

  lemma JoinFour(a: string, b: string, c: string, d: string, sep: string)
    ensures Join([a, b, c, d], sep) == a + sep + b + sep + c + sep + d
  {
    var parts := [a, b, c, d];
    assert parts[1..][1..][1..] == [d];
    assert Join(parts[1..][1..], sep) == c + sep + d;
    assert Join(parts[1..], sep) == b + sep + (c + sep + d);
  }

  /** `generate_repo_summary`: the stripped reply, or the fallback summary
      when the call raises. */
  function GenerateRepoSummary(reply: Reply, score: ScoreBreakdown, doc: DocumentationAnalysis,
                               testing: TestingAnalysis, git: GitPracticesAnalysis): (r: string)
    ensures reply.Raised? ==> r == Join(FallbackLines(score.level, testing.hasTests, doc.hasReadme, git.isActivelyMaintained), " ")
    ensures reply.Replied? ==> r == Strip(reply.content)
  {
    match reply
    case Replied(content) => Strip(content)
    case Raised(_) => Join(FallbackLines(score.level, testing.hasTests, doc.hasReadme, git.isActivelyMaintained), " ")
  }

  /** A failing call never yields an empty summary, but a reply of only
      whitespace does: it is returned stripped, not replaced by the fallback. */
  lemma EmptySummaryOnlyFromBlankReply(reply: Reply, score: ScoreBreakdown, doc: DocumentationAnalysis,
                                       testing: TestingAnalysis, git: GitPracticesAnalysis)
    ensures GenerateRepoSummary(reply, score, doc, testing, git) == [] <==>
      reply.Replied? && forall i :: 0 <= i < |reply.content| ==> IsSpace(reply.content[i])
  {
    FallbackLinesShape(score.level, testing.hasTests, doc.hasReadme, git.isActivelyMaintained);
  }
}
