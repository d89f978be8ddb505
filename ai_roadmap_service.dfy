/** The roadmap the endpoint returns: the language-model service is asked
    for a list of items, its text is evaluated as a Python literal and each
    element converted to a roadmap item; any failure along the way falls
    back to a short rule-built roadmap. The service call is an abstract
    `Reply`, and the evaluation of its text an abstract `evaluate`. */
module AiRoadmapService {
  import opened Common
  import opened AnalysisModels

  // ---- fallback_roadmap ----

  const TestsItem := RoadmapItem(1, "Testing",
    "Introduce automated tests for core functionality.",
    "Improves reliability and prevents regressions.")
  const CommitsItem := RoadmapItem(2, "Git Practices",
    "Improve commit message clarity and consistency.",
    "Improves maintainability and collaboration.")
  const GeneralItem := RoadmapItem(1, "General",
    "Gradually improve testing, structure, and code quality.",
    "Raises overall project maturity.")

  /** The fallback roadmap as a value: the tests item when there are no
      tests, the commit-message item when commit quality is "poor", and the
      general item when neither applies. */
  function FallbackItems(hasTests: bool, commitMessageQuality: string): seq<RoadmapItem> {
    var fired := (if !hasTests then [TestsItem] else []) + (if commitMessageQuality == "poor" then [CommitsItem] else []);
    if fired == [] then [GeneralItem] else fired
  }

  method FallbackRoadmap(score: ScoreBreakdown, testing: TestingAnalysis, doc: DocumentationAnalysis,
                         git: GitPracticesAnalysis)
    returns (roadmap: ImprovementRoadmap)
    ensures roadmap.items == FallbackItems(testing.hasTests, git.commitMessageQuality)
    ensures 1 <= |roadmap.items| <= 2
    ensures forall i, j :: 0 <= i < j < |roadmap.items| ==> roadmap.items[i].priority < roadmap.items[j].priority
  {
    var items: seq<RoadmapItem> := [];
    if !testing.hasTests {
      items := items + [TestsItem];
    }
    if git.commitMessageQuality == "poor" {
      items := items + [CommitsItem];
    }
    if items == [] {
      items := items + [GeneralItem];
    }
    roadmap := ImprovementRoadmap(items);
    FallbackShape(testing.hasTests, git.commitMessageQuality);
  }

  /** Never empty, at most two items, strictly ascending priorities; each
      item present exactly when its condition holds, the commit-message item
      at priority 2 even when it is the only one. */
  lemma FallbackShape(hasTests: bool, quality: string)
    ensures var r := FallbackItems(hasTests, quality);
      && 1 <= |r| <= 2
      && (forall i, j :: 0 <= i < j < |r| ==> r[i].priority < r[j].priority)
      && (TestsItem in r <==> !hasTests)
      && (CommitsItem in r <==> quality == "poor")
      && (GeneralItem in r <==> hasTests && quality != "poor")
      && (!hasTests ==> r[0] == TestsItem)
      && (hasTests && quality == "poor" ==> r == [CommitsItem])
      && (GeneralItem in r ==> r == [GeneralItem])
  {
  }

  // ---- generate_dynamic_roadmap ----

  /** The Python values the service's text can evaluate to, as far as the
      conversion below can tell them apart. `PList` stands for a list, a
      tuple or any other iterable that is not a string or a dict (a set, a
      range, bytes, ...), given by its elements in iteration order. */
  datatype PyValue =
    | PInt(i: int)
    | PStr(s: string)
    | PList(elems: seq<PyValue>)
    | PDict(entries: map<string, PyValue>)
    | POther                          // None, a float, or any other value that is not iterable

  /** `RoadmapItem(priority=item["priority"], ...)` for one element: it must
      be a dict with the four keys, an int priority and string fields. */
  function ConvertItem(v: PyValue): Option<RoadmapItem> {
    if !v.PDict? then None
    else
      var m := v.entries;
      if "priority" in m && "category" in m && "action" in m && "expected_impact" in m
         && m["priority"].PInt? && m["category"].PStr? && m["action"].PStr? && m["expected_impact"].PStr?
      then Some(RoadmapItem(m["priority"].i, m["category"].s, m["action"].s, m["expected_impact"].s))
      else None
  }

  /** The list comprehension over the elements: it fails as soon as one element fails. */
  function ConvertAll(vs: seq<PyValue>): (r: Option<seq<RoadmapItem>>)
    ensures r.Some? <==> forall i :: 0 <= i < |vs| ==> ConvertItem(vs[i]).Some?
    ensures r.Some? ==> |r.value| == |vs| && forall i :: 0 <= i < |vs| ==> r.value[i] == ConvertItem(vs[i]).value
  {
    if vs == [] then Some([])
    else
      match ConvertItem(vs[0])
      case None => None
      case Some(item) =>
        match ConvertAll(vs[1..])
        case None => None
        case Some(rest) => Some([item] + rest)
  }

  /** Iterating the evaluated value: a list (or any iterable given as one)
      yields its elements, so an empty one gives an empty roadmap; a string
      yields one-character strings and a dict its string keys, and indexing
      a string by "priority" raises, so only an empty one gets through;
      anything else is not iterable. */
  function ConvertValue(v: PyValue): Option<seq<RoadmapItem>> {
    match v
    case PList(es) => ConvertAll(es)
    case PStr(s) => if s == [] then Some([]) else None
    case PDict(m) => if |m| == 0 then Some([]) else None
    case _ => None
  }

  /** The service's items when the call, the evaluation and every conversion
      succeed; otherwise exactly the fallback roadmap. */
  function GenerateDynamicRoadmap(reply: Reply, evaluate: string -> Option<PyValue>,
                                  score: ScoreBreakdown, testing: TestingAnalysis,
                                  doc: DocumentationAnalysis, git: GitPracticesAnalysis): (r: ImprovementRoadmap)
    ensures reply.Raised? ==> r.items == FallbackItems(testing.hasTests, git.commitMessageQuality)
    ensures reply.Replied? && evaluate(reply.content).None? ==> r.items == FallbackItems(testing.hasTests, git.commitMessageQuality)
    ensures reply.Replied? && evaluate(reply.content).Some? ==>
      match ConvertValue(evaluate(reply.content).value)
      case Some(items) => r.items == items
      case None => r.items == FallbackItems(testing.hasTests, git.commitMessageQuality)
  {
    var converted :=
      if reply.Raised? then None
      else
        match evaluate(reply.content)
        case None => None
        case Some(v) => ConvertValue(v);
    match converted
    case Some(items) => ImprovementRoadmap(items)
    case None => ImprovementRoadmap(FallbackItems(testing.hasTests, git.commitMessageQuality))
  }

  /** A reply that evaluates to a list of well-formed dicts is returned
      element for element, in the service's order: no sorting, no cap on
      length, no check that priorities are distinct or ascending. */
  lemma AiItemsKeptAsGiven(content: string, evaluate: string -> Option<PyValue>, elems: seq<PyValue>,
                           score: ScoreBreakdown, testing: TestingAnalysis,
                           doc: DocumentationAnalysis, git: GitPracticesAnalysis)
    requires evaluate(content) == Some(PList(elems))
    requires forall i :: 0 <= i < |elems| ==> ConvertItem(elems[i]).Some?
    ensures var r := GenerateDynamicRoadmap(Replied(content), evaluate, score, testing, doc, git);
      && |r.items| == |elems|
      && forall i :: 0 <= i < |elems| ==> r.items[i] == ConvertItem(elems[i]).value
  {
  }

  /** One malformed element anywhere discards the whole reply. */
  lemma OneBadElementFallsBack(content: string, evaluate: string -> Option<PyValue>, elems: seq<PyValue>, k: nat,
                               score: ScoreBreakdown, testing: TestingAnalysis,
                               doc: DocumentationAnalysis, git: GitPracticesAnalysis)
    requires evaluate(content) == Some(PList(elems))
    requires k < |elems| && ConvertItem(elems[k]).None?
    ensures GenerateDynamicRoadmap(Replied(content), evaluate, score, testing, doc, git).items
      == FallbackItems(testing.hasTests, git.commitMessageQuality)
  {
  }

  function Dict(priority: PyValue, category: string): PyValue {
    PDict(map["priority" := priority, "category" := PStr(category), "action" := PStr("a"), "expected_impact" := PStr("e")])
  }

  /** Unlike the rule-based roadmap, this one can be empty (the reply "[]"),
      and can hold seven items with descending priorities. */
  lemma AiRoadmapUnchecked(evaluate: string -> Option<PyValue>, score: ScoreBreakdown, testing: TestingAnalysis,
                           doc: DocumentationAnalysis, git: GitPracticesAnalysis)
    requires evaluate("[]") == Some(PList([]))
    requires evaluate("seven") == Some(PList(seq(7, i => Dict(PInt(7 - i), "Testing"))))
    ensures GenerateDynamicRoadmap(Replied("[]"), evaluate, score, testing, doc, git).items == []
    ensures var r := GenerateDynamicRoadmap(Replied("seven"), evaluate, score, testing, doc, git).items;
      |r| == 7 && r[0].priority == 7 && r[6].priority == 1
  {
    var elems := seq(7, i => Dict(PInt(7 - i), "Testing"));
    forall i | 0 <= i < |elems| ensures ConvertItem(elems[i]).Some? {
      DictConverts(7 - i, "Testing");
    }
    AiItemsKeptAsGiven("seven", evaluate, elems, score, testing, doc, git);
    DictConverts(7, "Testing");
    DictConverts(1, "Testing");
  }

  lemma DictConverts(priority: int, category: string)
    ensures ConvertItem(Dict(PInt(priority), category)) == Some(RoadmapItem(priority, category, "a", "e"))
  {
  }
}
