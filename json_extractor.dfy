/** Pulling one JSON object out of a language-model reply: markdown fences
    are deleted, then the text from the first `{` to the last `}` is handed
    to the JSON parser, which is an abstract `loads`. */
module JsonExtractor {
  import opened Common

  datatype Json =
    | JNull
    | JBool(b: bool)
    | JNum(n: real)
    | JStr(s: string)
    | JArr(elems: seq<Json>)
    | JObj(fields: map<string, Json>)

  datatype ExtractError =
    | NoJsonObject   // "No JSON object found in LLM response"
    | InvalidJson    // the parser rejected the candidate text

  const Fence := "```"

  /** Case-insensitive match of one pattern character, as Python's
      `re.IGNORECASE` does on `str` patterns: `s` also matches U+017F. */
  predicate MatchesIgnoringCase(c: char, p: char) {
    LowerChar(c) == p || (p == 's' && c == 'ſ')
  }

  /** The text starts with "```json" in any letter case. */
  predicate StartsWithJsonFence(s: string) {
    && |s| >= 7 && s[..3] == Fence
    && MatchesIgnoringCase(s[3], 'j') && MatchesIgnoringCase(s[4], 's')
    && MatchesIgnoringCase(s[5], 'o') && MatchesIgnoringCase(s[6], 'n')
  }

  /** `re.sub(r"```json|```", "", text, flags=re.IGNORECASE)`: scanning left
      to right, the longer alternative is tried first at each position, a
      match is deleted and scanning resumes after it. */
  function RemoveFences(s: string): (r: string)
    ensures |r| <= |s|
    decreases |s|
  {
    if s == [] then []
    else if StartsWithJsonFence(s) then RemoveFences(s[7..])
    else if StartsWith(s, Fence) then RemoveFences(s[3..])
    else [s[0]] + RemoveFences(s[1..])
  }

  /** Where no fence starts, the first character is kept. */
  lemma Kept(s: string)
    requires s != [] && !StartsWithJsonFence(s) && !StartsWith(s, Fence)
    ensures RemoveFences(s) == [s[0]] + RemoveFences(s[1..])
  {
  }

  /** Two backquotes at the front of the result were two at the front of
      the input, stated the other way round. */
  lemma LeadingTicks(s: string)
    ensures (|s| < 2 || s[..2] != "``") ==> !(|RemoveFences(s)| >= 2 && RemoveFences(s)[..2] == "``")
  {
    if s != [] && !StartsWithJsonFence(s) && !StartsWith(s, Fence) {
      Kept(s);
      var t := s[1..];
      if t != [] && !StartsWithJsonFence(t) && !StartsWith(t, Fence) {
        Kept(t);
      }
    }
  }

  /** Putting one character in front of fence-free text makes a fence only
      when it is a backquote and the text starts with two. */
  lemma ConsNoFence(c: char, rest: string)
    requires forall i :: !OccursAt(rest, Fence, i)
    requires !(c == '`' && |rest| >= 2 && rest[..2] == "``")
    ensures forall i :: !OccursAt([c] + rest, Fence, i)
  {
    var r := [c] + rest;
    assert |Fence| == 3;
    forall i ensures !OccursAt(r, Fence, i) {
      if 0 < i && i + 3 <= |r| {
        assert r[i..i + 3] == rest[i - 1..i - 1 + 3];
        assert !OccursAt(rest, Fence, i - 1);
      } else if i == 0 && 3 <= |r| {
        if c == '`' {
          assert r[..3][1..] == rest[..2];
          assert Fence[1..] == "``";
        } else {
          assert r[..3][0] != Fence[0];
        }
      }
    }
  }

  /** No fence survives: the deletions never bring three backquotes together. */
  lemma {:induction false} NoFenceRemains(s: string)
    ensures forall i :: !OccursAt(RemoveFences(s), Fence, i)
    decreases |s|
  {
    if s == [] {
    } else if StartsWithJsonFence(s) {
      NoFenceRemains(s[7..]);
    } else if StartsWith(s, Fence) {
      NoFenceRemains(s[3..]);
    } else {
      Kept(s);
      NoFenceRemains(s[1..]);
      LeadingTicks(s[1..]);
      if |s| >= 3 {
        assert s[..3] == [s[0]] + s[1..][..2];
      }
      ConsNoFence(s[0], RemoveFences(s[1..]));
    }
  }

  /** Text without fences is left as it is. */
  lemma {:induction false} FenceFreeUnchanged(s: string)
    requires forall i :: 0 <= i ==> !OccursAt(s, Fence, i)
    ensures RemoveFences(s) == s
    decreases |s|
  {
    if s != [] {
      assert !OccursAt(s, Fence, 0);
      forall i | 0 <= i ensures !OccursAt(s[1..], Fence, i) {
        if OccursAt(s[1..], Fence, i) {
          assert s[1..][i..i + 3] == s[i + 1..i + 1 + 3];
          assert OccursAt(s, Fence, i + 1);
        }
      }
      FenceFreeUnchanged(s[1..]);
    }
  }

  /** `re.search(r"\{[\s\S]*\}", text)`: the leftmost `{` that has a `}`
      after it (which is the first `{` of all), greedily up to the last `}`;
      returned as the indices of the two braces. */
  function ObjectBounds(text: string): (r: Option<(nat, nat)>)
    ensures r.None? <==> forall a, b :: 0 <= a < b < |text| ==> text[a] != '{' || text[b] != '}'
    ensures r.Some? ==> var (i, j) := r.value;
      && i < j < |text| && text[i] == '{' && text[j] == '}'
      && '{' !in text[..i] && '}' !in text[j + 1..]
  {
    match (Find(text, '{'), RFind(text, '}'))
    case (Some(i), Some(j)) =>
      if i < j then Some((i, j))
      else
        assert forall a, b :: 0 <= a < b < |text| ==> text[a] != '{' || text[b] != '}' by {
          forall a, b | 0 <= a < b < |text| ensures text[a] != '{' || text[b] != '}' {
            if a < i {
              assert text[a] == text[..i][a];
            } else {
              assert text[b] == text[j + 1..][b - j - 1];
            }
          }
        }
        None
    case _ => None
  }

  /** The text the parser receives: from the first `{` to the last `}`. */
  function ObjectSpan(text: string): (r: Option<string>)
    ensures r.Some? ==> |r.value| >= 2 && r.value[0] == '{' && r.value[|r.value| - 1] == '}'
  {
    match ObjectBounds(text)
    case None => None
    case Some((i, j)) => Some(text[i..j + 1])
  }

  /** `extract_json`: fences removed, the object span taken, then parsed. */
  function ExtractJson(text: string, loads: string -> Option<Json>): (r: Result<Json, ExtractError>)
    ensures r == Err(NoJsonObject) <==> ObjectSpan(RemoveFences(text)).None?
    ensures r.Ok? ==> exists span :: ObjectSpan(RemoveFences(text)) == Some(span) && loads(span) == Some(r.value)
    // Once there is a span, the parser decides: its value, or its error.
    ensures ObjectSpan(RemoveFences(text)).Some? ==>
      var parsed := loads(ObjectSpan(RemoveFences(text)).value);
      && (parsed.Some? ==> r == Ok(parsed.value))
      && (parsed.None? ==> r == Err(InvalidJson))
  {
    match ObjectSpan(RemoveFences(text))
    case None => Err(NoJsonObject)
    case Some(span) =>
      match loads(span)
      case None => Err(InvalidJson)
      case Some(j) => Ok(j)
  }

  /** The text handed to the parser is a slice of the de-fenced reply
      holding no fence. */
  lemma CandidateHasNoFence(text: string)
    ensures ObjectSpan(RemoveFences(text)).Some? ==>
      forall k :: !OccursAt(ObjectSpan(RemoveFences(text)).value, Fence, k)
  {
    var cleaned := RemoveFences(text);
    if ObjectBounds(cleaned).Some? {
      var (i, j) := ObjectBounds(cleaned).value;
      NoFenceRemains(text);
      SliceKeepsAbsence(cleaned, Fence, i, j + 1);
    }
  }

  /** A slice of a text that nowhere holds `k` holds it nowhere either. */
  lemma SliceKeepsAbsence(s: string, k: string, lo: int, hi: int)
    requires 0 <= lo <= hi <= |s|
    requires forall n :: !OccursAt(s, k, n)
    ensures forall n :: !OccursAt(s[lo..hi], k, n)
  {
    var t := s[lo..hi];
    forall n ensures !OccursAt(t, k, n) {
      if 0 <= n && n + |k| <= |t| {
        var a, b := t[n..n + |k|], s[lo + n..lo + n + |k|];
        forall m | 0 <= m < |k| ensures a[m] == b[m] {
          assert t[n + m] == s[lo + n + m];
        }
        assert a == b;
        assert !OccursAt(s, k, lo + n);
      }
    }
  }

  /** A fenced reply gives the parser the object inside the fence. */
  lemma FencedReply()
    ensures RemoveFences("```Json{}```") == "{}"
    ensures ObjectSpan("{}") == Some("{}")
  {
    var s := "```Json{}```";
    assert StartsWithJsonFence(s);
    assert s[7..] == "{}```";
    assert "{}```"[..3] != Fence by { assert "{}```"[0] == '{'; }
    Kept("{}```");
    assert "{}```"[1..] == "}```";
    assert "}```"[..3] != Fence by { assert "}```"[0] == '}'; }
    Kept("}```");
    assert "}```"[1..] == Fence;
    assert RemoveFences(Fence) == RemoveFences([]);
    assert Find("{}", '{') == Some(0);
    assert RFind("{}", '}') == Some(1);
    assert ObjectBounds("{}") == Some((0, 1));
    assert "{}"[0..2] == "{}";
  }
}
