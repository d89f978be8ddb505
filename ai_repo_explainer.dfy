/** The project overview: a placeholder record for a blank README, another
    when the language-model call or the extraction fails, and otherwise
    whatever object was extracted from the reply, unchecked. */
module AiRepoExplainer {
  import opened Common
  import opened JsonExtractor

  const ReadmeMissing := "README is empty or missing."
  const Unavailable := "Explanation unavailable."

  /** The five-key record with empty component and workflow lists. */
  function Placeholder(purpose: string, problem: string, useCase: string): Json {
    JObj(map["purpose" := JStr(purpose), "problem" := JStr(problem),
             "components" := JArr([]), "workflow" := JArr([]), "use_case" := JStr(useCase)])
  }

  const BlankReadmeExplanation := Placeholder(ReadmeMissing, ReadmeMissing, "Not specified.")
  const FailedExplanation := Placeholder(Unavailable, Unavailable, Unavailable)

  /** `generate_repo_explanation`: a README of only whitespace never reaches
      the service; a raised call, a reply without an object, or one the
      parser rejects all give the "unavailable" record. */
  function GenerateRepoExplanation(readmeText: string, reply: Reply, loads: string -> Option<Json>): (r: Json)
    ensures Strip(readmeText) == [] ==> r == BlankReadmeExplanation
    ensures Strip(readmeText) != [] && reply.Raised? ==> r == FailedExplanation
    ensures Strip(readmeText) != [] && reply.Replied? ==>
      match ExtractJson(reply.content, loads)
      case Ok(j) => r == j
      case Err(_) => r == FailedExplanation
  {
    if Strip(readmeText) == [] then BlankReadmeExplanation
    else
      match reply
      case Raised(_) => FailedExplanation
      case Replied(raw) =>
        match ExtractJson(raw, loads)
        case Ok(j) => j
        case Err(_) => FailedExplanation
  }

  /** The service is consulted only when the README has a non-whitespace
      character; the two placeholders are distinct and carry all five keys. */
  lemma BlankReadmeNeverAsks(readmeText: string, reply1: Reply, reply2: Reply, loads: string -> Option<Json>)
    ensures (forall i :: 0 <= i < |readmeText| ==> IsSpace(readmeText[i])) ==>
      GenerateRepoExplanation(readmeText, reply1, loads) == GenerateRepoExplanation(readmeText, reply2, loads)
        == BlankReadmeExplanation
    ensures BlankReadmeExplanation != FailedExplanation
    ensures forall k :: k in {"purpose", "problem", "components", "workflow", "use_case"} ==>
      k in BlankReadmeExplanation.fields && k in FailedExplanation.fields
  {
    assert BlankReadmeExplanation.fields["purpose"] != FailedExplanation.fields["purpose"];
  }

  /** A reply with no `{ ... }` in it gives the "unavailable" record. */
  lemma NoObjectGivesUnavailable(readmeText: string, raw: string, loads: string -> Option<Json>)
    requires Strip(readmeText) != []
    requires forall a, b :: 0 <= a < b < |RemoveFences(raw)| ==> RemoveFences(raw)[a] != '{' || RemoveFences(raw)[b] != '}'
    ensures GenerateRepoExplanation(readmeText, Replied(raw), loads) == FailedExplanation
  {
  }

  /** `fallback_repo_explanation`: one fixed paragraph, whatever the README says. */
  function FallbackRepoExplanation(readmeText: string): (r: string)
    ensures |r| > 0
  {
    FallbackParagraph
  }

  const FallbackParagraph :=
    "This repository appears to be a software project described in the README. "
    + "Based on the available documentation, it provides functionality related to the problem domain mentioned. "
    + "However, detailed explanation of its internal working is limited."

  lemma FallbackIgnoresReadme(a: string, b: string)
    ensures FallbackRepoExplanation(a) == FallbackRepoExplanation(b)
  {
  }
}
