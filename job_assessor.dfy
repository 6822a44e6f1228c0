/**
 * The language-model assessment of a posting: which career track it belongs
 * to and how hard it would be to obtain. The model receives a text
 * snapshot of the job; its answers are checked before they are used.
 */
module JobAssessor {
  import opened Wrappers
  import opened StringUtil
  import opened Values
  import opened Truncation
  import opened LlmTasks

  /** The career tracks an answer may name. */
  const TrackOptions: seq<string> := [
    "junior tenure-track",
    "senior tenure-track",
    "teaching",
    "industry",
    "non-tenure track",
    "other academia"
  ]

  /** Blank and horizontal ellipsis, appended to a shortened text. */
  const Ellipsis: string := " …"

  /** `_truncate(text, max_len)`. */
  function Truncate(text: string, maxLen: nat): string {
    WordCut(text, maxLen, Ellipsis)
  }

  /** `x or 'fallback'` inside an f-string. */
  function Shown(v: Value, fallback: Value): string {
    PyStr(Or(v, fallback))
  }

  /** A truncated section, or "Not specified." when nothing is left of it. */
  function Section(text: string): string {
    if text == "" then "Not specified." else text
  }

  /** One `Label: value` line of the snapshot. */
  function Line(name: string, v: Value, fallback: Value): string {
    name + ": " + Shown(v, fallback)
  }

  /** One multi-line section of the snapshot, truncated to `maxLen` characters. */
  function SectionLine(name: string, v: Value, maxLen: nat): string {
    name + ":\n" + Section(Truncate(Shown(v, Str("")), maxLen))
  }

  function PositionTypeLine(job: Dict): string {
    Line("Position Type", Get(job, "position_type"), Or(Get(job, "level"), Str("N/A")))
  }

  function LocationLine(job: Dict): string {
    Line("Location", Get(job, "location"), Or(Get(job, "country"), Str("N/A")))
  }

  /** The lines of `_build_job_snapshot`, joined with newlines by `BuildJobSnapshot`. */
  function SnapshotLines(job: Dict): (lines: seq<string>) {
    [
      Line("Title", Get(job, "title"), Str("Unknown")),
      Line("Institution", Get(job, "institution"), Str("Unknown")),
      PositionTypeLine(job),
      Line("Field", Get(job, "field"), Str("N/A")),
      LocationLine(job),
      Line("Status", Get(job, "application_status"), Str("N/A")),
      SectionLine("Requirements", Get(job, "requirements"), 1500),
      SectionLine("Description", Get(job, "description"), 2000)
    ]
  }

  function BuildJobSnapshot(job: Dict): string {
    Join("\n", SnapshotLines(job))
  }

  /** A line shows its value when that is truthy, and its fallback otherwise. */
  lemma LineFallback(name: string, v: Value, fallback: Value)
    ensures Truthy(v) ==> Line(name, v, fallback) == name + ": " + PyStr(v)
    ensures !Truthy(v) ==> Line(name, v, fallback) == name + ": " + PyStr(fallback)
  {
  }

  /** The position type falls back to the level, then to "N/A". */
  lemma PositionTypeFallback(job: Dict)
    ensures Truthy(Get(job, "position_type")) ==>
      PositionTypeLine(job) == "Position Type: " + PyStr(Get(job, "position_type"))
    ensures !Truthy(Get(job, "position_type")) && Truthy(Get(job, "level")) ==>
      PositionTypeLine(job) == "Position Type: " + PyStr(Get(job, "level"))
    ensures !Truthy(Get(job, "position_type")) && !Truthy(Get(job, "level")) ==>
      PositionTypeLine(job) == "Position Type: N/A"
  {
  }

  /** The location falls back to the country, then to "N/A". */
  lemma LocationFallback(job: Dict)
    ensures !Truthy(Get(job, "location")) && Truthy(Get(job, "country")) ==>
      LocationLine(job) == "Location: " + PyStr(Get(job, "country"))
    ensures !Truthy(Get(job, "location")) && !Truthy(Get(job, "country")) ==>
      LocationLine(job) == "Location: N/A"
  {
  }

  /** A section that is empty after stripping is shown as "Not specified.". */
  lemma SectionFallback(name: string, v: Value, maxLen: nat)
    requires Strip(Shown(v, Str(""))) == ""
    ensures SectionLine(name, v, maxLen) == name + ":\nNot specified."
  {
    var text := Shown(v, Str(""));
    if text != "" { WordCutShort(text, maxLen, Ellipsis); }
    assert Truncate(text, maxLen) == "";
  }

  /** The answer to the track question, as read from the decoded reply. */
  function TrackAnswer(data: Value): (r: Result<Option<(string, string)>>)
    ensures r.Ok? && r.value.Some? ==> r.value.value.0 in TrackOptions
  {
    if !Truthy(data) then Ok(None)
    else match AsDict(data)
      case None => Err("AttributeError: object has no attribute 'get'")
      case Some(d) =>
        match TextOr(Get(d, "track_label"), "")
        case Err(e) => Err(e)
        case Ok(name) =>
          var track := Lower(Strip(name));
          if track !in TrackOptions then Ok(None)
          else match TextOr(Get(d, "reasoning"), "")
            case Err(e) => Err(e)
            case Ok(why) => Ok(Some((track, Strip(why))))
  }

  /**
   * `_evaluate_position_track(job)`: the model is asked about the snapshot;
   * `llm` stands for the provider call and `clean` for the JSON clean-up.
   */
  function EvaluatePositionTrack(job: Dict, llm: string -> Option<string>, clean: string -> Value)
    : (r: Result<Option<(string, string)>>)
    ensures r.Ok? && r.value.Some? ==> r.value.value.0 in TrackOptions
  {
    var response := llm(BuildJobSnapshot(job));
    if response.None? || response.value == "" then Ok(None)
    else TrackAnswer(clean(response.value))
  }

  /** No reply, an empty reply or an empty decoded answer gives no track. */
  lemma NoTrackWithoutAnswer(job: Dict, llm: string -> Option<string>, clean: string -> Value)
    requires var response := llm(BuildJobSnapshot(job));
      response.None? || response.value == "" || !Truthy(clean(response.value))
    ensures EvaluatePositionTrack(job, llm, clean) == Ok(None)
  {
  }

  /**
   * For an answer that names a label, a track comes back exactly when the
   * label, stripped and lower-cased, is one of the options.
   */
  lemma TrackAcceptedIff(data: Value, name: string, reasoning: string)
    requires data.Obj? && data.entries != []
    requires Get(EntriesToMap(data.entries), "track_label") == Str(name)
    requires TextOr(Get(EntriesToMap(data.entries), "reasoning"), "") == Ok(reasoning)
    ensures TrackAnswer(data) == (if Lower(Strip(name)) in TrackOptions
      then Ok(Some((Lower(Strip(name)), Strip(reasoning)))) else Ok(None))
  {
  }

  /** A label in another letter case is accepted in lower case. */
  lemma MixedCaseTrackAccepted()
    ensures TrackAnswer(Obj([("track_label", Str(" Senior Tenure-Track "))]))
      == Ok(Some(("senior tenure-track", "")))
  {
    var text := " Senior Tenure-Track ";
    var data := Obj([("track_label", Str(text))]);
    var m := EntriesToMap(data.entries);
    assert m == map["track_label" := Str(text)];
    assert Get(m, "reasoning") == Null;
    TrackAcceptedIff(data, text, "");
    StripSenior();
    LowerSenior();
    assert "senior tenure-track" == TrackOptions[1];
  }

  lemma StripSenior()
    ensures Strip(" Senior Tenure-Track ") == "Senior Tenure-Track"
  {
    var s := " Senior Tenure-Track ";
    assert TrimLeft(s) == s[1..];
    var l := s[1..];
    assert TrimRight(l) == l[..|l| - 1];
    assert l[..|l| - 1] == "Senior Tenure-Track";
  }

  lemma LowerSenior()
    ensures Lower("Senior Tenure-Track") == "senior tenure-track"
  {
    var s := "Senior Tenure-Track";
    assert LowerChar('S') == 's';
    assert LowerChar('T') == 't';
    assert forall i :: 0 <= i < |s| ==> Lower(s)[i] == "senior tenure-track"[i];
  }

  /** `max(0.0, min(score, 100.0))`. */
  function Clamp(x: real): (r: real)
    ensures 0.0 <= r <= 100.0
    ensures 0.0 <= x <= 100.0 ==> r == x
    ensures x < 0.0 ==> r == 0.0
    ensures x > 100.0 ==> r == 100.0
  {
    var m := if 100.0 < x then 100.0 else x;
    if 0.0 > m then 0.0 else m
  }

  /** The prompt of `_evaluate_difficulty`. */
  function DifficultyPrompt(job: Dict, portfolioSummary: string): string {
    var snippet := Truncate(portfolioSummary, 2000);
    "Candidate Portfolio Summary:\n" + (if snippet == "" then "Not provided." else snippet)
    + "\n\nJob Snapshot:\n" + BuildJobSnapshot(job) + "\n\nEstimate the feasibility for THIS candidate."
  }

  /** The answer to the difficulty question, as read from the decoded reply. */
  function DifficultyAnswer(data: Value, parse: string -> Option<real>): (r: Result<Option<(real, string)>>)
    ensures r.Ok? && r.value.Some? ==> 0.0 <= r.value.value.0 <= 100.0
  {
    if !Truthy(data) then Ok(None)
    else match AsDict(data)
      case None => Err("AttributeError: object has no attribute 'get'")
      case Some(d) =>
        match ToFloat(Get(d, "difficulty_score"), parse)
        case None => Ok(None)
        case Some(x) =>
          match TextOr(Get(d, "reasoning"), "")
          case Err(e) => Err(e)
          case Ok(why) => Ok(Some((Clamp(x), Strip(why))))
  }

  /** `_evaluate_difficulty(job, portfolio_summary)`. */
  function EvaluateDifficulty(job: Dict, portfolioSummary: string, llm: string -> Option<string>,
                              clean: string -> Value, parse: string -> Option<real>)
    : (r: Result<Option<(real, string)>>)
    ensures r.Ok? && r.value.Some? ==> 0.0 <= r.value.value.0 <= 100.0
  {
    var response := llm(DifficultyPrompt(job, portfolioSummary));
    if response.None? || response.value == "" then Ok(None)
    else DifficultyAnswer(clean(response.value), parse)
  }

  /** A missing score, or one `float()` rejects, gives no assessment. */
  lemma NoDifficultyWithoutScore(data: Value, parse: string -> Option<real>)
    requires data.Obj? && data.entries != []
    requires ToFloat(Get(EntriesToMap(data.entries), "difficulty_score"), parse).None?
    ensures DifficultyAnswer(data, parse) == Ok(None)
  {
  }

  /** A numeric score is clamped into [0, 100]; one already in range is kept. */
  lemma DifficultyClamped(data: Value, parse: string -> Option<real>, x: real)
    requires data.Obj? && data.entries != []
    requires ToFloat(Get(EntriesToMap(data.entries), "difficulty_score"), parse) == Some(x)
    requires TextOr(Get(EntriesToMap(data.entries), "reasoning"), "").Ok?
    ensures DifficultyAnswer(data, parse).Ok? && DifficultyAnswer(data, parse).value.Some?
    ensures DifficultyAnswer(data, parse).value.value.0 == Clamp(x)
    ensures 0.0 <= x <= 100.0 ==> DifficultyAnswer(data, parse).value.value.0 == x
  {
  }

  /** `evaluate_position_track_batch`, given what the task runner returned. */
  function TrackBatch(jobs: seq<Dict>, results: map<Value, Option<(string, string)>>)
    : map<Value, (string, string)>
  {
    IdBatch(jobs, results)
  }

  /** `evaluate_difficulty_batch`, given what the task runner returned. */
  function DifficultyBatch(jobs: seq<Dict>, portfolio: Dict, results: map<Value, Option<(real, string)>>)
    : map<Value, (real, string)>
  {
    PortfolioBatch(jobs, portfolio, results)
  }
}
