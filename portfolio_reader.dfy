/**
 * The candidate's portfolio: the texts of the CV, research statement and
 * teaching statement combined into one cleaned text, and the keyword scan
 * that reads qualifications off that text. Finding the files and
 * extracting their text from PDF are not modelled: each document comes in
 * as the text extracted from it, `""` when the file is missing or nothing
 * could be extracted.
 */
module PortfolioReader {
  import opened Wrappers
  import opened StringUtil
  import opened Values
  import opened TextProcessor
  import LlmFitEvaluator

  /** The portfolio returned when the portfolio directory does not exist. */
  const NoPortfolio: Dict := map["cv" := Null, "research_statement" := Null, "teaching_statement" := Null]

  /** A document's entry: its text when extraction gave any, `None` otherwise. */
  function DocValue(text: string): Value {
    if text != "" then Str(text) else Null
  }

  /** The non-empty texts, in order. */
  function Present(texts: seq<string>): seq<string>
    decreases |texts|
  {
    if texts == [] then []
    else
      var last := texts[|texts| - 1];
      Present(texts[..|texts| - 1]) + (if last != "" then [last] else [])
  }

  /** `clean_text('\n\n'.join(all_text))` over the documents that gave text. */
  function Combined(texts: seq<string>): string {
    CleanText(Some(Join("\n\n", Present(texts))))
  }

  /** `load_portfolio()`: `dirExists` says whether the portfolio directory exists. */
  method LoadPortfolio(dirExists: bool, cv: string, research: string, teaching: string)
    returns (portfolio: Dict)
    ensures !dirExists ==> portfolio == NoPortfolio
    ensures dirExists ==> portfolio == map[
      "cv" := DocValue(cv),
      "research_statement" := DocValue(research),
      "teaching_statement" := DocValue(teaching),
      "combined_text" := Str(Combined([cv, research, teaching]))]
  {
    portfolio := NoPortfolio;
    if !dirExists {
      return;
    }
    if cv != "" {
      portfolio := portfolio["cv" := Str(cv)];
    }
    if research != "" {
      portfolio := portfolio["research_statement" := Str(research)];
    }
    if teaching != "" {
      portfolio := portfolio["teaching_statement" := Str(teaching)];
    }
    ghost var texts := [cv, research, teaching];
    assert portfolio == map["cv" := DocValue(cv), "research_statement" := DocValue(research),
                            "teaching_statement" := DocValue(teaching)];
    // `portfolio.items()`: the documents in the order the dict holds them.
    var items := [portfolio["cv"], portfolio["research_statement"], portfolio["teaching_statement"]];
    assert items == [DocValue(cv), DocValue(research), DocValue(teaching)];
    var all: seq<string> := [];
    var i := 0;
    while i < |items|
      invariant 0 <= i <= 3
      invariant all == Present(texts[..i])
    {
      var text := items[i];
      assert text == DocValue(texts[i]);
      assert texts[..i + 1][..i] == texts[..i];
      if Truthy(text) {
        all := all + [text.s];
      }
      i := i + 1;
    }
    assert texts[..3] == texts;
    portfolio := portfolio["combined_text" := Str(CleanText(Some(Join("\n\n", all))))];
  }

  /** `Present` drops the empty texts and keeps every other one, as often as it occurs. */
  lemma {:induction false} PresentKeepsText(texts: seq<string>)
    ensures forall t :: t in Present(texts) ==> t != ""
    ensures forall t :: t != "" ==> multiset(Present(texts))[t] == multiset(texts)[t]
    decreases |texts|
  {
    if texts != [] {
      var init, last := texts[..|texts| - 1], texts[|texts| - 1];
      PresentKeepsText(init);
      assert texts == init + [last];
    }
  }

  /** The texts joined are the non-empty ones in the order CV, research statement, teaching statement. */
  lemma PresentInOrder(cv: string, research: string, teaching: string)
    ensures Present([cv, research, teaching]) ==
      (if cv != "" then [cv] else []) + (if research != "" then [research] else [])
      + (if teaching != "" then [teaching] else [])
  {
    var texts := [cv, research, teaching];
    assert texts[..2] == [cv, research] && [cv, research][..1] == [cv] && [cv][..0] == [];
    assert Present([cv]) == (if cv != "" then [cv] else []);
    assert Present([cv, research]) == Present([cv]) + (if research != "" then [research] else []);
  }

  /** With no document text the combined text is empty. */
  lemma NothingCombined(cv: string, research: string, teaching: string)
    requires cv == "" && research == "" && teaching == ""
    ensures Combined([cv, research, teaching]) == ""
  {
    PresentInOrder(cv, research, teaching);
  }

  /** A single document's text is the combined text, cleaned. */
  lemma OneDocumentCombined(cv: string, research: string, teaching: string)
    requires research == "" && teaching == ""
    ensures Combined([cv, research, teaching]) == CleanText(Some(cv))
  {
    PresentInOrder(cv, research, teaching);
    if cv != "" {
      assert Present([cv, research, teaching]) == [cv];
      assert Join("\n\n", [cv]) == cv;
    } else {
      assert Present([cv, research, teaching]) == [];
    }
  }

  /**
   * The fit evaluator sees portfolio text exactly when the directory exists
   * and the documents hold some visible character.
   */
  lemma PortfolioTextIff(texts: seq<string>, dirExists: bool, portfolio: Dict)
    requires |texts| == 3
    requires !dirExists ==> portfolio == NoPortfolio
    requires dirExists ==> "combined_text" in portfolio && portfolio["combined_text"] == Str(Combined(texts))
    ensures LlmFitEvaluator.HasPortfolio(portfolio) <==>
      dirExists && Visible(Join("\n\n", Present(texts))) != ""
  {
    CleanTextEmpty(Some(Join("\n\n", Present(texts))));
  }

  /** What `extract_qualifications` returns. */
  datatype Qualifications = Qualifications(
    education: seq<string>,
    experience: seq<string>,
    researchAreas: seq<string>,
    publications: seq<string>,
    skills: seq<string>)

  /** The configured focal areas found, case-insensitively, in the lower-cased text, in configuration order. */
  function MatchedAreas(areas: seq<string>, text: string): seq<string>
    decreases |areas|
  {
    if areas == [] then []
    else
      var last := areas[|areas| - 1];
      MatchedAreas(areas[..|areas| - 1], text) + (if Contains(text, Lower(last)) then [last] else [])
  }

  predicate MentionsDoctorate(text: string) {
    Contains(text, "ph.d") || Contains(text, "phd") || Contains(text, "doctorate")
  }

  predicate MentionsPostdoc(text: string) {
    Contains(text, "postdoc") || Contains(text, "post-doc")
  }

  predicate MentionsHku(text: string) {
    Contains(text, "hku") || Contains(text, "hong kong")
  }

  /**
   * `extract_qualifications(portfolio)` with `RESEARCH_FOCAL_AREAS` as
   * `areas`; a `combined_text` that is not a string raises.
   */
  method ExtractQualifications(portfolio: Dict, areas: seq<string>) returns (r: Result<Qualifications>)
    ensures r.Ok? <==> GetOr(portfolio, "combined_text", Str("")).Str?
    ensures r.Ok? ==>
      var text := Lower(GetOr(portfolio, "combined_text", Str("")).s);
      && r.value.researchAreas == MatchedAreas(areas, text)
      && r.value.education == (if MentionsDoctorate(text) then ["Ph.D. in Economics"] else [])
      && r.value.experience == (if MentionsPostdoc(text) then ["Postdoc experience"] else [])
                               + (if MentionsHku(text) then ["Postdoc at HKU"] else [])
      && r.value.publications == [] && r.value.skills == []
  {
    var combined := GetOr(portfolio, "combined_text", Str(""));
    if !combined.Str? {
      return Err("AttributeError: object has no attribute 'lower'");
    }
    var text := Lower(combined.s);
    var found: seq<string> := [];
    var i := 0;
    while i < |areas|
      invariant 0 <= i <= |areas|
      invariant found == MatchedAreas(areas[..i], text)
    {
      assert areas[..i + 1][..i] == areas[..i];
      if Contains(text, Lower(areas[i])) {
        found := found + [areas[i]];
      }
      i := i + 1;
    }
    assert areas[..i] == areas;
    var education: seq<string> := [];
    if Contains(text, "ph.d") || Contains(text, "phd") || Contains(text, "doctorate") {
      education := education + ["Ph.D. in Economics"];
    }
    var experience: seq<string> := [];
    if Contains(text, "postdoc") || Contains(text, "post-doc") {
      experience := experience + ["Postdoc experience"];
    }
    if Contains(text, "hku") || Contains(text, "hong kong") {
      experience := experience + ["Postdoc at HKU"];
    }
    return Ok(Qualifications(education, experience, found, [], []));
  }

  /**
   * An area is listed exactly as often as it is configured when its
   * lower-cased form occurs in the text, and not at all otherwise.
   */
  lemma {:induction false} MatchedAreasIff(areas: seq<string>, text: string)
    ensures forall a :: (multiset(MatchedAreas(areas, text))[a]
      == if Contains(text, Lower(a)) then multiset(areas)[a] else 0)
    decreases |areas|
  {
    if areas != [] {
      var init, last := areas[..|areas| - 1], areas[|areas| - 1];
      MatchedAreasIff(init, text);
      assert areas == init + [last];
    }
  }

  /** A missing or empty combined text gives no qualification at all (areas being non-empty). */
  lemma {:induction false} EmptyTextMatchesNothing(areas: seq<string>)
    requires forall i :: 0 <= i < |areas| ==> areas[i] != ""
    ensures MatchedAreas(areas, "") == []
    ensures !MentionsDoctorate("") && !MentionsPostdoc("") && !MentionsHku("")
    decreases |areas|
  {
    if areas != [] {
      var last := areas[|areas| - 1];
      EmptyTextMatchesNothing(areas[..|areas| - 1]);
      if Contains("", Lower(last)) {
        ContainsLength("", Lower(last));
      }
    }
    NotInEmpty("ph.d");
    NotInEmpty("phd");
    NotInEmpty("doctorate");
    NotInEmpty("postdoc");
    NotInEmpty("post-doc");
    NotInEmpty("hku");
    NotInEmpty("hong kong");
  }

  lemma NotInEmpty(sub: string)
    requires sub != ""
    ensures !Contains("", sub)
  {
    if Contains("", sub) { ContainsLength("", sub); }
  }
}
