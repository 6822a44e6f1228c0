/**
 * Fit scoring by the language model: the reply to the fit prompt, or to
 * the joint fit-and-difficulty prompt, is unfenced, decoded and checked
 * before its scores are used. Building the prompts is not modelled; the
 * reply is an input.
 */
module LlmFitEvaluator {
  import opened Wrappers
  import opened StringUtil
  import opened Values
  import opened Truncation
  import opened LlmTasks
  import opened LlmParser
  import JobAssessor

  /**
   * The marker `_truncate_text` appends: a blank and the three characters
   * the UTF-8 bytes of a horizontal ellipsis read as in Windows-1252.
   */
  const Marker: string := " \U{e2}\U{20ac}\U{a6}"

  /** `_truncate_text(text, max_length)`. */
  function TruncateText(text: string, maxLength: nat): string {
    WordCut(text, maxLength, Marker)
  }

  /** Text that fits comes back stripped; longer text is a kept prefix and the marker. */
  lemma TruncateTextShape(text: string, maxLength: nat)
    ensures |Strip(text)| <= maxLength ==> TruncateText(text, maxLength) == Strip(text)
    ensures maxLength < |Strip(text)| ==>
      TruncateText(text, maxLength) == Kept(Strip(text), maxLength) + Marker
  {
    if |Strip(text)| <= maxLength {
      WordCutShort(text, maxLength, Marker);
    } else {
      WordCutLong(text, maxLength, Marker);
    }
  }

  /** The joint evaluation as `evaluate_fit_and_difficulty` returns it. */
  datatype JointResult = JointResult(
    fitScore: real,
    fitReasoning: Value,
    fitAlignment: Value,
    difficultyScore: real,
    difficultyReasoning: Value)

  /** The portfolio text is present: `portfolio.get('combined_text') or ""` is not empty. */
  predicate HasPortfolio(portfolio: Dict) {
    Truthy(Get(portfolio, "combined_text"))
  }

  /** Reading the decoded joint reply; a value that is not an object raises and gives `None`. */
  function JointAnswer(data: Value, parse: string -> Option<real>): (r: Option<JointResult>)
    ensures r.Some? ==> 0.0 <= r.value.fitScore <= 100.0 && 0.0 <= r.value.difficultyScore <= 100.0
  {
    match AsDict(data)
    case None => None
    case Some(d) =>
      var fit := Get(d, "fit_score");
      var difficulty := Get(d, "difficulty_score");
      if fit.Null? || difficulty.Null? then None
      else match (ToFloat(fit, parse), ToFloat(difficulty, parse))
        case (Some(f), Some(g)) =>
          Some(JointResult(
            JobAssessor.Clamp(f),
            GetOr(d, "fit_reasoning", Str("")),
            GetOr(d, "fit_alignment", Obj([])),
            JobAssessor.Clamp(g),
            GetOr(d, "difficulty_reasoning", Str(""))))
        case _ => None
  }

  /**
   * `evaluate_fit_and_difficulty(job, portfolio)`; `response` is the reply
   * to the joint prompt, `decode` stands for `json.loads` and `parse` for
   * `float()` on strings.
   */
  function EvaluateFitAndDifficulty(portfolio: Dict, response: Option<string>,
                                    decode: string -> Option<Value>, parse: string -> Option<real>)
    : (r: Option<JointResult>)
    ensures r.Some? ==> HasPortfolio(portfolio)
    ensures r.Some? ==> 0.0 <= r.value.fitScore <= 100.0 && 0.0 <= r.value.difficultyScore <= 100.0
  {
    if !HasPortfolio(portfolio) then None
    else if response.None? || response.value == "" then None
    else match decode(StripFence(response.value))
      case None => None
      case Some(data) => JointAnswer(data, parse)
  }

  /** A missing score, or one `float()` rejects, gives no result. */
  lemma JointNeedsBothScores(d: seq<(string, Value)>, parse: string -> Option<real>)
    requires var m := EntriesToMap(d);
      ToFloat(Get(m, "fit_score"), parse).None? || ToFloat(Get(m, "difficulty_score"), parse).None?
    ensures JointAnswer(Obj(d), parse) == None
  {
  }

  /**
   * Numeric scores are clamped into [0, 100], in-range ones kept; missing
   * reasonings default to `''` and a missing alignment to `{}`.
   */
  lemma JointScoresAndDefaults(d: seq<(string, Value)>, parse: string -> Option<real>, f: real, g: real)
    requires var m := EntriesToMap(d);
      ToFloat(Get(m, "fit_score"), parse) == Some(f) && ToFloat(Get(m, "difficulty_score"), parse) == Some(g)
    ensures var r := JointAnswer(Obj(d), parse);
      r.Some? && r.value.fitScore == JobAssessor.Clamp(f) && r.value.difficultyScore == JobAssessor.Clamp(g)
    ensures var r := JointAnswer(Obj(d), parse);
      (0.0 <= f <= 100.0 ==> r.value.fitScore == f) && (0.0 <= g <= 100.0 ==> r.value.difficultyScore == g)
    ensures var r := JointAnswer(Obj(d), parse); var m := EntriesToMap(d);
      ("fit_reasoning" !in m ==> r.value.fitReasoning == Str(""))
      && ("fit_alignment" !in m ==> r.value.fitAlignment == Obj([]))
      && ("difficulty_reasoning" !in m ==> r.value.difficultyReasoning == Str(""))
  {
  }

  /** Without portfolio text there is no evaluation, whatever the model would say. */
  lemma JointNeedsPortfolio(portfolio: Dict, response: Option<string>,
                            decode: string -> Option<Value>, parse: string -> Option<real>)
    requires !HasPortfolio(portfolio)
    ensures EvaluateFitAndDifficulty(portfolio, response, decode, parse) == None
  {
  }

  /** The score `evaluate_fit_with_llm` reads: `fit_score`, or else `score`. */
  function FitScoreField(d: Dict): Value {
    GetOr(d, "fit_score", Get(d, "score"))
  }

  /** Reading the decoded fit reply: the unclamped score and its metadata. */
  function FitAnswer(data: Value, parse: string -> Option<real>): Option<(real, Dict)> {
    match AsDict(data)
    case None => None
    case Some(d) =>
      var score := FitScoreField(d);
      if score.Null? then None
      else match ToFloat(score, parse)
        case None => None
        case Some(x) =>
          Some((x, map[
            "reasoning" := GetOr(d, "fit_reasoning", GetOr(d, "reasoning", Str(""))),
            "alignment" := GetOr(d, "fit_alignment", GetOr(d, "alignment", Obj([])))]))
  }

  /** `evaluate_fit_with_llm(job, portfolio)`, with the reply to the fit prompt as input. */
  function EvaluateFitWithLlm(portfolio: Dict, response: Option<string>,
                              decode: string -> Option<Value>, parse: string -> Option<real>)
    : (r: Option<(real, Dict)>)
    ensures r.Some? ==> HasPortfolio(portfolio) && r.value.1.Keys == {"reasoning", "alignment"}
  {
    if !HasPortfolio(portfolio) then None
    else if response.None? || response.value == "" then None
    else match decode(StripFence(response.value))
      case None => None
      case Some(data) => FitAnswer(data, parse)
  }

  /**
   * The score is read from `fit_score`, from `score` when `fit_score` is
   * absent, and is used as `float()` reads it, without clamping.
   */
  lemma FitScoreFallback(d: seq<(string, Value)>, parse: string -> Option<real>)
    ensures var m := EntriesToMap(d);
      "fit_score" !in m ==> FitScoreField(m) == Get(m, "score")
    ensures var m := EntriesToMap(d); var x := ToFloat(FitScoreField(m), parse);
      x.Some? ==> FitAnswer(Obj(d), parse).Some? && FitAnswer(Obj(d), parse).value.0 == x.value
    ensures ToFloat(FitScoreField(EntriesToMap(d)), parse).None? ==> FitAnswer(Obj(d), parse) == None
  {
  }

  /** A score above 100 is passed on as it is. */
  lemma FitScoreNotClamped(parse: string -> Option<real>)
    ensures FitAnswer(Obj([("score", Num(150.0, "150"))]), parse).value.0 == 150.0
  {
    var m := EntriesToMap([("score", Num(150.0, "150"))]);
    assert m == map["score" := Num(150.0, "150")];
  }

  /**
   * Both `*_batch` functions: nothing without jobs or portfolio text, nothing
   * when no job has an id, otherwise the results the runner produced.
   */
  method EvaluateBatch<T>(jobs: seq<Dict>, portfolio: Dict, taskResults: map<Value, Option<T>>)
    returns (results: map<Value, T>)
    ensures results == PortfolioBatch(jobs, portfolio, taskResults)
  {
    if jobs == [] {
      return map[];
    }
    if !HasPortfolio(portfolio) {
      return map[];
    }
    if TaskIds(jobs) == {} {
      return map[];
    }
    results := CollectResults(taskResults);
  }
}
