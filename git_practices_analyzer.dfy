/** Git-practice facts from the hosting API's answers: commit-message
    quality over the newest ten commits, days since the newest commit, the
    branch and pull-request predicates, and the "actively maintained" rule.
    Each API answer is given as a status code and the decoded list; dates
    are whole seconds since the epoch, in UTC, and "now" is a parameter. */
module GitPracticesAnalyzer {
  import opened Common
  import opened AnalysisModels

  datatype Commit = Commit(message: string, authorDate: int)

  /** A list endpoint's answer: the HTTP status and the decoded JSON list. */
  datatype ApiResponse<T> = ApiResponse(status: int, body: seq<T>)

  /** `fetch_commits` and the list reads of the two predicates: the list on
      status 200, otherwise the empty list. */
  function Fetched<T>(response: ApiResponse<T>): (items: seq<T>)
    ensures response.status != 200 ==> items == []
    ensures response.status == 200 ==> items == response.body
  {
    if response.status != 200 then [] else response.body
  }

  const SecondsPerDay := 86400

  /** `(now - newest).days`: whole days, rounded down, measured from the
      first (newest) commit only; None for no commits. */
  function CalculateRecentActivity(commits: seq<Commit>, now: int): (days: Option<int>)
    ensures days.None? <==> commits == []
    ensures days.Some? ==>
      days.value * SecondsPerDay <= now - commits[0].authorDate < (days.value + 1) * SecondsPerDay
  {
    if commits == [] then None else Some((now - commits[0].authorDate) / SecondsPerDay)
  }

  const BadKeywords: seq<string> := ["update", "fix", "final", "changes", "test"]

  predicate HasBadKeyword(lowered: string) {
    exists k :: 0 <= k < |BadKeywords| && Contains(lowered, BadKeywords[k])
  }

  /** More than three whitespace-separated words, and none of the bad
      keywords anywhere in the lowercased message, even inside a word. */
  predicate IsMeaningful(message: string) {
    var lowered := Lower(message);
    |SplitWords(lowered)| > 3 && !HasBadKeyword(lowered)
  }

  function MeaningfulCount(commits: seq<Commit>): (n: nat)
    ensures n <= |commits|
  {
    if commits == [] then 0
    else MeaningfulCount(commits[..|commits| - 1]) + (if IsMeaningful(commits[|commits| - 1].message) then 1 else 0)
  }

  /** The band for a number of meaningful messages. */
  function QualityFor(meaningful: int): (quality: string)
    ensures quality == "good" <==> meaningful >= 7
    ensures quality == "average" <==> 4 <= meaningful < 7
    ensures quality == "poor" <==> meaningful < 4
  {
    if meaningful >= 7 then "good" else if meaningful >= 4 then "average" else "poor"
  }

  /** The commits that are judged: the first ten. */
  function Sample(commits: seq<Commit>): (sample: seq<Commit>)
    ensures |sample| == Min(10, |commits|) && sample == commits[..|sample|]
  {
    commits[..Min(10, |commits|)]
  }

  /** The quality `evaluate_commit_messages` returns. */
  function CommitQuality(commits: seq<Commit>): string {
    if commits == [] then "poor" else QualityFor(MeaningfulCount(Sample(commits)))
  }

  method EvaluateCommitMessages(commits: seq<Commit>) returns (quality: string)
    ensures quality == CommitQuality(commits)
    ensures quality == "good" || quality == "average" || quality == "poor"
  {
    if commits == [] {
      return "poor";
    }
    var sample := Sample(commits);
    var meaningful := 0;
    for i := 0 to |sample|
      invariant meaningful == MeaningfulCount(sample[..i])
    {
      assert sample[..i + 1][..i] == sample[..i];
      if IsMeaningful(sample[i].message) {
        meaningful := meaningful + 1;
      }
    }
    assert sample[..|sample|] == sample;
    if meaningful >= 7 {
      quality := "good";
    } else if meaningful >= 4 {
      quality := "average";
    } else {
      quality := "poor";
    }
  }

  function QualityRank(quality: string): int {
    if quality == "good" then 2 else if quality == "average" then 1 else 0
  }

  /** More meaningful messages never give a worse band. */
  lemma QualityMonotone(m: int, n: int)
    requires m <= n
    ensures QualityRank(QualityFor(m)) <= QualityRank(QualityFor(n))
  {
  }

  /** Commits past the tenth never change the quality. */
  lemma {:induction false} OnlyFirstTenJudged(commits: seq<Commit>, later: seq<Commit>)
    requires |commits| >= 10
    ensures CommitQuality(commits + later) == CommitQuality(commits)
  {
    assert Sample(commits + later) == (commits + later)[..10] == commits[..10] == Sample(commits);
  }

  /** The meaningful count of two runs of commits is the sum of their counts. */
  lemma {:induction false} MeaningfulCountAppend(a: seq<Commit>, b: seq<Commit>)
    ensures MeaningfulCount(a + b) == MeaningfulCount(a) + MeaningfulCount(b)
    decreases |b|
  {
    if b == [] {
      assert a + b == a;
    } else {
      var n := |b| - 1;
      MeaningfulCountAppend(a, b[..n]);
      assert (a + b)[..|a + b| - 1] == a + b[..n];
    }
  }

  /** A keyword inside another word disqualifies a message: "prefix" contains "fix". */
  lemma KeywordInsideWord(message: string)
    requires |message| >= 6 && Lower(message)[..6] == "prefix"
    ensures !IsMeaningful(message)
  {
    var lowered := Lower(message);
    assert OccursAt(lowered, "fix", 3);
    assert Contains(lowered, BadKeywords[1]);
  }

  /** The activity rule: a newest commit at most 180 days old. */
  predicate ActivelyMaintained(days: Option<int>) {
    days.Some? && days.value <= 180
  }

  function HasMultipleBranches(branches: ApiResponse<string>): (b: bool)
    ensures b <==> branches.status == 200 && |branches.body| > 1
  {
    |Fetched(branches)| > 1
  }

  function HasPullRequests(pulls: ApiResponse<string>): (b: bool)
    ensures b <==> pulls.status == 200 && |pulls.body| > 0
  {
    |Fetched(pulls)| > 0
  }

  method AnalyzeGitPractices(commitsResponse: ApiResponse<Commit>, branches: ApiResponse<string>,
                             pulls: ApiResponse<string>, now: int)
    returns (git: GitPracticesAnalysis)
    ensures var commits := Fetched(commitsResponse);
      && git.totalCommits == |commits|
      && git.recentActivityDays == CalculateRecentActivity(commits, now)
      && git.commitMessageQuality == CommitQuality(commits)
      && git.hasMultipleBranches == (branches.status == 200 && |branches.body| > 1)
      && git.hasPullRequests == (pulls.status == 200 && |pulls.body| > 0)
      && git.isActivelyMaintained == ActivelyMaintained(git.recentActivityDays)
    ensures git.isActivelyMaintained ==>
      commitsResponse.status == 200 && now - commitsResponse.body[0].authorDate < 181 * SecondsPerDay
    ensures Fetched(commitsResponse) == [] ==>
      git.totalCommits == 0 && git.recentActivityDays == None
      && git.commitMessageQuality == "poor" && !git.isActivelyMaintained
  {
    var commits := Fetched(commitsResponse);
    var recentDays := CalculateRecentActivity(commits, now);
    var commitQuality := EvaluateCommitMessages(commits);
    var multipleBranches := HasMultipleBranches(branches);
    var prs := HasPullRequests(pulls);
    var isActive := recentDays.Some? && recentDays.value <= 180;
    git := GitPracticesAnalysis(|commits|, recentDays, commitQuality, multipleBranches, prs, isActive);
  }
}
