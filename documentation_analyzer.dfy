/** Documentation facts from the repository's top-level listing and the
    README's text: which README is used, which sections it mentions, its
    line count and its size relative to the code. The listing is given in
    the order `os.listdir` returned it, and file contents as a map from
    name to text, a missing entry standing for a file that could not be
    read. */
module DocumentationAnalyzer {
  import opened Common
  import opened AnalysisModels

  predicate IsReadmeName(name: string) {
    StartsWith(Lower(name), "readme")
  }

  /** Index of the first README entry of the listing, or its length. */
  function FirstReadme(listing: seq<string>): (n: nat)
    ensures n <= |listing|
    ensures forall i :: 0 <= i < n ==> !IsReadmeName(listing[i])
    ensures n < |listing| ==> IsReadmeName(listing[n])
  {
    if listing == [] || IsReadmeName(listing[0]) then 0 else 1 + FirstReadme(listing[1..])
  }

  /** `find_readme`: the first listed entry whose lowercase name starts
      with "readme", or None. */
  function FindReadme(listing: seq<string>): (r: Option<string>)
    ensures r.None? <==> forall i :: 0 <= i < |listing| ==> !IsReadmeName(listing[i])
    ensures r.Some? ==> exists i :: (0 <= i < |listing| && listing[i] == r.value && IsReadmeName(listing[i])
                                     && forall j :: 0 <= j < i ==> !IsReadmeName(listing[j]))
  {
    var n := FirstReadme(listing);
    if n < |listing| then Some(listing[n]) else None
  }

  /** `read_file_safe`: the text, or "" when the file cannot be read. */
  function ReadFileSafe(contents: map<string, string>, name: string): string {
    if name in contents then contents[name] else ""
  }

  datatype Sections = Sections(installation: bool, usage: bool, contributing: bool, license: bool)

  /** `detect_sections`: plain substring tests on the lowercased text, so a
      keyword inside a longer word counts. */
  function DetectSections(text: string): (s: Sections)
    ensures var t := Lower(text);
      && (s.installation <==> exists i :: OccursAt(t, "install", i) || OccursAt(t, "setup", i) || OccursAt(t, "requirements", i))
      && (s.usage <==> exists i :: OccursAt(t, "usage", i) || OccursAt(t, "how to use", i) || OccursAt(t, "run", i))
      && (s.contributing <==> exists i :: OccursAt(t, "contributing", i))
      && (s.license <==> exists i :: OccursAt(t, "license", i))
  {
    var t := Lower(text);
    Sections(
      Contains(t, "install") || Contains(t, "setup") || Contains(t, "requirements"),
      Contains(t, "usage") || Contains(t, "how to use") || Contains(t, "run"),
      Contains(t, "contributing"),
      Contains(t, "license"))
  }

  /** "truncate" mentions "run", so it counts as a usage section; case is ignored. */
  lemma UsageInsideWord()
    ensures DetectSections("Truncate").usage
    ensures DetectSections("INSTALL").installation
  {
    assert Lower("Truncate") == "truncate";
    assert OccursAt("truncate", "run", 1);
    assert Lower("INSTALL") == "install";
    assert OccursAt("install", "install", 0);
  }

  /** The line boundaries of Python's `str.splitlines`. */
  predicate IsLineBreak(c: char) {
    c == '\n' || c == '\r' || c == '\U{0B}' || c == '\U{0C}'
    || c == '\U{1C}' || c == '\U{1D}' || c == '\U{1E}'
    || c == '\U{85}' || c == '\U{2028}' || c == '\U{2029}'
  }

  /** `len(text.splitlines())`: one line per boundary, "\r\n" being a
      single boundary, plus one for a last line without a boundary. */
  function CountLines(text: string): (n: nat)
    ensures n == 0 <==> text == []
    ensures n <= |text|
    decreases |text|
  {
    if text == [] then 0
    else
      var k := IndexWhere(text, IsLineBreak);
      if k == |text| then 1
      else
        var next := if text[k] == '\r' && k + 1 < |text| && text[k + 1] == '\n' then k + 2 else k + 1;
        1 + CountLines(text[next..])
  }

  /** Text without a line boundary is one line; a final boundary does not
      start another line; "\r\n" counts once. */
  lemma CountLinesExamples()
    ensures CountLines("a") == 1
    ensures CountLines("a\n") == 1
    ensures CountLines("a\r\nb") == 2
    ensures CountLines("\n\n") == 2
  {
    assert IndexWhere("a\n", IsLineBreak) == 1;
    assert "a\n"[2..] == [];
    assert IndexWhere("a\r\nb", IsLineBreak) == 1;
    assert "a\r\nb"[3..] == "b";
    assert IndexWhere("\n\n", IsLineBreak) == 0;
    assert "\n\n"[1..] == "\n";
    assert "\n"[1..] == [];
  }

  /** Python's `round(x, 3)` on the exact quotient: to the nearest
      thousandth, halves going to the even thousandth. */
  function RoundThousandths(q: real): (r: real)
    ensures -1.0 / 2000.0 <= r - q <= 1.0 / 2000.0
  {
    var scaled := q * 1000.0;
    var n := scaled.Floor;
    var frac := scaled - n as real;
    var m := if frac > 0.5 then n + 1 else if frac < 0.5 then n else if n % 2 == 0 then n else n + 1;
    m as real / 1000.0
  }

  /** `calculate_doc_ratio`: 0 when there is no code, otherwise the README's
      line count over the lines of code, rounded to three places. */
  function CalculateDocRatio(readmeLines: nat, loc: nat): (r: real)
    ensures loc == 0 ==> r == 0.0
    ensures loc > 0 ==> -1.0 / 2000.0 <= r - readmeLines as real / loc as real <= 1.0 / 2000.0
    ensures r >= 0.0
  {
    if loc == 0 then 0.0 else RoundThousandths(readmeLines as real / loc as real)
  }

  /** The scoring threshold 0.1 is met exactly from a quotient of 0.0995
      upward, because 0.0995 rounds (half to even) to 0.100. */
  lemma DocRatioThreshold(readmeLines: nat, loc: nat)
    requires loc > 0
    ensures CalculateDocRatio(readmeLines, loc) >= 0.1 <==> readmeLines * 2000 >= loc * 199
  {
    RoundReachesTenth(readmeLines as real / loc as real);
    ScaledQuotient(readmeLines, loc);
  }

  /** A quotient rounds to 0.1 or more exactly when it is 0.0995 or more. */
  lemma RoundReachesTenth(q: real)
    ensures RoundThousandths(q) >= 0.1 <==> q * 1000.0 >= 99.5
  {
    var scaled := q * 1000.0;
    var n := scaled.Floor;
    assert n as real <= scaled < n as real + 1.0;
    if scaled >= 99.5 {
      assert n >= 99;
    } else {
      assert n <= 99;
    }
  }

  lemma ScaledQuotient(readmeLines: nat, loc: nat)
    requires loc > 0
    ensures (readmeLines as real / loc as real) * 1000.0 >= 99.5 <==> readmeLines * 2000 >= loc * 199
  {
    var q := readmeLines as real / loc as real;
    var l := loc as real;
    var p := (q * 1000.0) * l;
    assert p == readmeLines as real * 1000.0 by {
      DivTimes(readmeLines as real, l);
      assert (q * 1000.0) * l == (q * l) * 1000.0;
    }
    assert q * 1000.0 >= 99.5 <==> p >= 99.5 * l by {
      ScaleByPositive(q * 1000.0, 99.5, l);
    }
  }

  lemma DivTimes(r: real, l: real)
    requires l > 0.0
    ensures (r / l) * l == r
  {
  }

  lemma ScaleByPositive(a: real, b: real, l: real)
    requires l > 0.0
    ensures a >= b <==> a * l >= b * l
  {
    if a >= b {
      assert (a - b) * l >= 0.0;
    } else {
      assert (b - a) * l > 0.0;
    }
  }

  /** `analyze_documentation`: all facts false and zero without a README;
      otherwise the README counts as present even if reading it gave "". */
  function AnalyzeDocumentation(listing: seq<string>, contents: map<string, string>, totalLoc: nat): (d: DocumentationAnalysis)
    ensures FindReadme(listing).None? ==>
      d == DocumentationAnalysis(false, 0, false, false, false, false, 0.0)
    ensures FindReadme(listing).Some? ==>
      var text := ReadFileSafe(contents, FindReadme(listing).value);
      var s := DetectSections(text);
      && d.hasReadme
      && d.readmeLength == CountLines(text)
      && d.hasInstallation == s.installation && d.hasUsage == s.usage
      && d.hasContributing == s.contributing && d.hasLicense == s.license
      && d.docToCodeRatio == CalculateDocRatio(CountLines(text), totalLoc)
  {
    match FindReadme(listing)
    case None => DocumentationAnalysis(false, 0, false, false, false, false, 0.0)
    case Some(name) =>
      var content := ReadFileSafe(contents, name);
      var sections := DetectSections(content);
      var readmeLines := CountLines(content);
      DocumentationAnalysis(true, readmeLines, sections.installation, sections.usage,
                            sections.contributing, sections.license, CalculateDocRatio(readmeLines, totalLoc))
  }

  /** An unreadable README still counts as present, with no lines and no sections. */
  lemma UnreadableReadme(listing: seq<string>, contents: map<string, string>, totalLoc: nat)
    requires FindReadme(listing).Some? && FindReadme(listing).value !in contents
    ensures var d := AnalyzeDocumentation(listing, contents, totalLoc);
      d.hasReadme && d.readmeLength == 0 && !d.hasInstallation && !d.hasUsage && d.docToCodeRatio == 0.0
  {
  }
}
