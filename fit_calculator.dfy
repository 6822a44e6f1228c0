/**
 * The rule-based fit score: four keyword scores (research alignment,
 * qualifications, position level, institution type) combined with fixed
 * weights, and the ranking of jobs by their stored score.
 */
module FitCalculator {
  import opened Wrappers
  import opened StringUtil
  import opened Values

  // ------------------------------------------------------ research alignment

  /** Per-area bonus: ten points per mention, at most thirty. */
  function MentionBonus(count: nat): (b: real)
    ensures 0.0 <= b <= 30.0
    ensures count > 0 ==> b >= 10.0
  {
    if count * 10 < 30 then (count * 10) as real else 30.0
  }

  /** The mention bonuses of `areas` found in `text`. */
  function AreaBonus(text: string, areas: seq<string>): (b: real)
    ensures b >= 0.0
  {
    if areas == [] then 0.0
    else
      var c := Count(text, Lower(areas[|areas| - 1]));
      AreaBonus(text, areas[..|areas| - 1]) + (if c > 0 then MentionBonus(c) else 0.0)
  }

  /** How many of `areas` occur in `text`. */
  function AreaMatches(text: string, areas: seq<string>): (m: nat)
    ensures m <= |areas|
  {
    if areas == [] then 0
    else
      var c := Count(text, Lower(areas[|areas| - 1]));
      AreaMatches(text, areas[..|areas| - 1]) + (if c > 0 then 1 else 0)
  }

  /** The related-keyword table, in its declaration order. */
  const RelatedKeywords: seq<(string, seq<string>)> := [
    ("public economics", ["public policy", "government", "tax", "fiscal", "welfare"]),
    ("development economics", ["development", "poverty", "inequality", "growth", "emerging markets"]),
    ("microeconomics", ["micro", "individual", "consumer", "firm", "market structure"])]

  predicate AnyIn(text: string, words: seq<string>) {
    exists k :: 0 <= k < |words| && Contains(text, words[k])
  }

  /** Five points for each listed area that occurs with one of its keywords. */
  function RelatedBonus(text: string, table: seq<(string, seq<string>)>): (b: real)
    ensures 0.0 <= b <= 5.0 * |table| as real
  {
    if table == [] then 0.0
    else
      var e := table[|table| - 1];
      RelatedBonus(text, table[..|table| - 1])
        + (if Contains(text, e.0) && AnyIn(text, e.1) then 5.0 else 0.0)
  }

  /** The text the research score reads: description, a blank, the field, lower-cased. */
  function ResearchText(description: string, field: string): string {
    Lower(description + " " + field)
  }

  /** `calculate_research_alignment`, with the configured focal areas as `areas`. */
  function Alignment(description: string, field: string, areas: seq<string>): (r: real)
    ensures 0.0 <= r <= 100.0
  {
    var text := ResearchText(description, field);
    var m := AreaMatches(text, areas);
    var raw := AreaBonus(text, areas)
      + (if m > 0 then (m as real / |areas| as real) * 40.0 else 0.0)
      + RelatedBonus(text, RelatedKeywords);
    if raw < 100.0 then raw else 100.0
  }

  /** `for keyword in keywords: if keyword in text: ... break`. */
  method FirstContained(text: string, words: seq<string>) returns (found: bool)
    ensures found <==> AnyIn(text, words)
  {
    found := false;
    var k := 0;
    while k < |words|
      invariant 0 <= k <= |words|
      invariant !(exists j :: 0 <= j < k && Contains(text, words[j]))
    {
      if Contains(text, words[k]) {
        found := true;
        return;
      }
      k := k + 1;
    }
  }

  method ResearchAlignment(description: string, field: string, areas: seq<string>)
    returns (score: real)
    ensures score == Alignment(description, field, areas)
  {
    score := 0.0;
    var text := ResearchText(description, field);
    var areaMatches := 0;
    for i := 0 to |areas|
      invariant score == AreaBonus(text, areas[..i])
      invariant areaMatches == AreaMatches(text, areas[..i])
    {
      assert areas[..i + 1][..i] == areas[..i];
      var count := Count(text, Lower(areas[i]));
      if count > 0 {
        areaMatches := areaMatches + 1;
        score := score + MentionBonus(count);
      }
    }
    assert areas[..|areas|] == areas;
    if areaMatches > 0 {
      score := score + (areaMatches as real / |areas| as real) * 40.0;
    }
    for e := 0 to |RelatedKeywords|
      invariant score == AreaBonus(text, areas)
        + (if areaMatches > 0 then (areaMatches as real / |areas| as real) * 40.0 else 0.0)
        + RelatedBonus(text, RelatedKeywords[..e])
    {
      assert RelatedKeywords[..e + 1][..e] == RelatedKeywords[..e];
      var (area, keywords) := RelatedKeywords[e];
      if Contains(text, area) {
        var hit := FirstContained(text, keywords);
        if hit {
          score := score + 5.0;
        }
      }
    }
    assert RelatedKeywords[..|RelatedKeywords|] == RelatedKeywords;
    if score > 100.0 {
      score := 100.0;
    }
  }

  lemma {:induction false} AreaBonusZero(text: string, areas: seq<string>)
    requires forall i :: 0 <= i < |areas| ==> !Contains(text, Lower(areas[i]))
    ensures AreaBonus(text, areas) == 0.0 && AreaMatches(text, areas) == 0
  {
    if areas != [] {
      CountPositive(text, Lower(areas[|areas| - 1]));
      AreaBonusZero(text, areas[..|areas| - 1]);
    }
  }

  lemma {:induction false} AreaBonusHit(text: string, areas: seq<string>, i: nat)
    requires i < |areas| && Contains(text, Lower(areas[i]))
    ensures AreaBonus(text, areas) >= 10.0 && AreaMatches(text, areas) >= 1
  {
    CountPositive(text, Lower(areas[|areas| - 1]));
    if i < |areas| - 1 {
      AreaBonusHit(text, areas[..|areas| - 1], i);
    }
  }

  lemma {:induction false} RelatedBonusZero(text: string, table: seq<(string, seq<string>)>)
    requires forall e :: 0 <= e < |table| ==> !Contains(text, table[e].0)
    ensures RelatedBonus(text, table) == 0.0
  {
    if table != [] { RelatedBonusZero(text, table[..|table| - 1]); }
  }

  /** A text mentioning no focal area and no related area scores zero. */
  lemma AlignmentZero(description: string, field: string, areas: seq<string>)
    requires forall i :: 0 <= i < |areas| ==>
      !Contains(ResearchText(description, field), Lower(areas[i]))
    requires forall e :: 0 <= e < |RelatedKeywords| ==>
      !Contains(ResearchText(description, field), RelatedKeywords[e].0)
    ensures Alignment(description, field, areas) == 0.0
  {
    var text := ResearchText(description, field);
    AreaBonusZero(text, areas);
    RelatedBonusZero(text, RelatedKeywords);
  }

  /** One mentioned focal area earns at least its ten-point bonus plus its share of forty. */
  lemma AlignmentHit(description: string, field: string, areas: seq<string>, i: nat)
    requires i < |areas| && Contains(ResearchText(description, field), Lower(areas[i]))
    ensures Alignment(description, field, areas) >= 10.0 + 40.0 / |areas| as real
  {
    var text := ResearchText(description, field);
    AreaBonusHit(text, areas, i);
    var m := AreaMatches(text, areas);
    ShareAtLeastOne(m, |areas|);
  }

  lemma ShareAtLeastOne(m: nat, n: nat)
    requires 1 <= m && 0 < n
    ensures (m as real / n as real) * 40.0 >= 40.0 / n as real
  {
    assert m as real / n as real >= 1.0 / n as real;
  }

  // --------------------------------------------------- qualification match

  /** The skill keywords compared between requirements and portfolio. */
  const SkillKeywords: seq<string> := ["econometrics", "statistics", "stata", "r", "python", "data"]

  /** `sum(1 for keyword in keywords if keyword in req and keyword in portfolio)`. */
  function SharedSkills(req: string, portfolio: string, words: seq<string>): (n: nat)
    ensures n <= |words|
  {
    if words == [] then 0
    else
      SharedSkills(req, portfolio, words[..|words| - 1])
        + (if Contains(req, words[|words| - 1]) && Contains(portfolio, words[|words| - 1]) then 1 else 0)
  }

  function Bonus(demanded: bool, offered: bool, points: real): real {
    if demanded && offered then points else 0.0
  }

  /** `calculate_qualification_match`. */
  function QualificationMatch(requirements: string, portfolioText: string): (r: real) {
    if requirements == "" || portfolioText == "" then 50.0
    else
      var req := Lower(requirements);
      var pf := Lower(portfolioText);
      var skills := SharedSkills(req, pf, SkillKeywords) * 5;
      var raw := 50.0
        + Bonus(Contains(req, "ph.d") || Contains(req, "phd") || Contains(req, "doctorate"),
                Contains(pf, "ph.d") || Contains(pf, "phd"), 20.0)
        + Bonus(Contains(req, "postdoc") || Contains(req, "post-doc"),
                Contains(pf, "postdoc") || Contains(pf, "hku"), 15.0)
        + Bonus(Contains(req, "teaching"), Contains(pf, "teaching"), 10.0)
        + Bonus(Contains(req, "publication") || Contains(req, "research"),
                Contains(pf, "publication") || Contains(pf, "paper"), 10.0)
        + (if skills < 15 then skills as real else 15.0);
      if raw < 100.0 then raw else 100.0
  }

  /** Neutral fifty when either text is missing, otherwise between fifty and one hundred. */
  lemma QualificationMatchRange(requirements: string, portfolioText: string)
    ensures requirements == "" || portfolioText == "" ==> QualificationMatch(requirements, portfolioText) == 50.0
    ensures 50.0 <= QualificationMatch(requirements, portfolioText) <= 100.0
  {
  }

  /** A Ph.D. asked for and shown earns its twenty points. */
  lemma QualificationPhd(requirements: string, portfolioText: string)
    requires Contains(Lower(requirements), "phd") && Contains(Lower(portfolioText), "phd")
    ensures QualificationMatch(requirements, portfolioText) >= 70.0
  {
    ContainsLength(Lower(requirements), "phd");
    ContainsLength(Lower(portfolioText), "phd");
  }

  // ------------------------------------------------------- position level

  /** `calculate_position_level_match`: the first matching rule decides. */
  function PositionLevelMatch(jobLevel: string, jobTitle: string): (r: real)
    ensures r in {90.0, 85.0, 30.0, 80.0, 60.0, 50.0}
  {
    var text := Lower(jobLevel + " " + jobTitle);
    if Contains(text, "assistant") && Contains(text, "professor") then 90.0
    else if Contains(text, "postdoc") || Contains(text, "post-doc") then 85.0
    else if Contains(text, "associate") || Contains(text, "full professor") then 30.0
    else if Contains(text, "tenure-track") || Contains(text, "tenure track") then 80.0
    else if Contains(text, "non-tenure") || Contains(text, "lecturer") then 60.0
    else 50.0
  }

  /**
   * Each score belongs to exactly one rule: ninety exactly when "assistant"
   * and "professor" both occur, thirty for associate or full only when the
   * two earlier rules do not apply, and fifty when no keyword occurs.
   */
  lemma PositionLevelRules(jobLevel: string, jobTitle: string)
    ensures var text := Lower(jobLevel + " " + jobTitle);
      var r := PositionLevelMatch(jobLevel, jobTitle);
      && (r == 90.0 <==> Contains(text, "assistant") && Contains(text, "professor"))
      && (r == 30.0 <==>
            !(Contains(text, "assistant") && Contains(text, "professor"))
            && !Contains(text, "postdoc") && !Contains(text, "post-doc")
            && (Contains(text, "associate") || Contains(text, "full professor")))
      && (r == 50.0 <==>
            !(Contains(text, "assistant") && Contains(text, "professor"))
            && !Contains(text, "postdoc") && !Contains(text, "post-doc")
            && !Contains(text, "associate") && !Contains(text, "full professor")
            && !Contains(text, "tenure-track") && !Contains(text, "tenure track")
            && !Contains(text, "non-tenure") && !Contains(text, "lecturer"))
  {
  }

  // ---------------------------------------------------- institution match

  /** `calculate_institution_match`. */
  function InstitutionMatch(institution: string, location: string): (r: real)
    ensures r in {40.0, 50.0, 70.0}
  {
    var text := Lower(institution + " " + location);
    var score := if Contains(text, "university") || Contains(text, "college") || Contains(text, "institute")
      then 70.0 else 50.0;
    if Contains(text, "community college") || Contains(text, "teaching college") then 40.0 else score
  }

  lemma {:induction false} ContainsShorter(s: string, sub: string, part: string, k: nat)
    requires k + |part| <= |sub| && sub[k..k + |part|] == part
    requires Contains(s, sub)
    ensures Contains(s, part)
    decreases |s|
  {
    if sub <= s {
      assert s[k..k + |part|] == part;
      ContainsAt(s, part, k);
    } else {
      ContainsShorter(s[1..], sub, part, k);
      ContainsInfix([s[0]], s[1..], [], part);
      assert [s[0]] + s[1..] + [] == s;
    }
  }

  /**
   * Forty exactly for a community or teaching college (which also mentions
   * "college"), seventy for any other university, college or institute,
   * fifty otherwise.
   */
  lemma InstitutionRules(institution: string, location: string)
    ensures var text := Lower(institution + " " + location);
      var r := InstitutionMatch(institution, location);
      var teaching := Contains(text, "community college") || Contains(text, "teaching college");
      var research := Contains(text, "university") || Contains(text, "college") || Contains(text, "institute");
      && (r == 40.0 <==> teaching)
      && (teaching ==> research)
      && (r == 70.0 <==> research && !teaching)
      && (r == 50.0 <==> !research)
  {
    var text := Lower(institution + " " + location);
    if Contains(text, "community college") {
      ContainsShorter(text, "community college", "college", 10);
    }
    if Contains(text, "teaching college") {
      ContainsShorter(text, "teaching college", "college", 9);
    }
  }

  // ------------------------------------------------------------- fit score

  /** `str(job.get(key, ''))`: a stored `NULL` reads as the text "None". */
  function Field(job: Dict, key: string): string {
    PyStr(GetOr(job, key, Str("")))
  }

  /** `calculate_fit_score` before its final rounding to two decimals. */
  function FitScore(job: Dict, portfolio: map<string, string>, areas: seq<string>): (r: real) {
    var portfolioText := if "combined_text" in portfolio then portfolio["combined_text"] else "";
    Alignment(Field(job, "description"), Field(job, "field"), areas) * 0.40
      + QualificationMatch(Field(job, "requirements"), portfolioText) * 0.30
      + PositionLevelMatch(Field(job, "level"), Field(job, "title")) * 0.20
      + InstitutionMatch(Field(job, "institution"), Field(job, "location")) * 0.10
  }

  /**
   * The weighted score never leaves [25, 95], inside the documented [0, 100]:
   * the qualification, position and institution scores have floors of 50, 30
   * and 40 and ceilings of 100, 90 and 70.
   */
  lemma FitScoreRange(job: Dict, portfolio: map<string, string>, areas: seq<string>)
    ensures 25.0 <= FitScore(job, portfolio, areas) <= 95.0
  {
    var portfolioText := if "combined_text" in portfolio then portfolio["combined_text"] else "";
    QualificationMatchRange(Field(job, "requirements"), portfolioText);
  }

  // --------------------------------------------------------------- ranking

  /** The sort key `job.get('fit_score', 0.0)`, when it is a number. */
  function KeyOf(job: Dict): Option<real> {
    if "fit_score" !in job then Some(0.0)
    else match job["fit_score"]
      case Num(x, _) => Some(x)
      case Bool(b) => Some(if b then 1.0 else 0.0)
      case _ => None
  }

  predicate Keyed(jobs: seq<Dict>) {
    forall i :: 0 <= i < |jobs| ==> KeyOf(jobs[i]).Some?
  }

  function Key(job: Dict): real
    requires KeyOf(job).Some?
  {
    KeyOf(job).value
  }

  /** `a` goes strictly before `b` in the requested direction. */
  predicate Before(a: real, b: real, reverse: bool) {
    if reverse then a > b else a < b
  }

  predicate SortedBy(jobs: seq<Dict>, reverse: bool)
    requires Keyed(jobs)
  {
    forall i, j :: 0 <= i < j < |jobs| ==> !Before(Key(jobs[j]), Key(jobs[i]), reverse)
  }

  /** The jobs whose key is `k`, in order. */
  function WithKey(jobs: seq<Dict>, k: real): seq<Dict>
    requires Keyed(jobs)
  {
    if jobs == [] then []
    else
      var last := jobs[|jobs| - 1];
      WithKey(jobs[..|jobs| - 1], k) + (if Key(last) == k then [last] else [])
  }

  /** Insert `x` after every job it does not go strictly before. */
  function Insert(x: Dict, jobs: seq<Dict>, reverse: bool): (r: seq<Dict>)
    requires KeyOf(x).Some? && Keyed(jobs)
    ensures Keyed(r) && multiset(r) == multiset(jobs) + multiset{x}
  {
    if jobs == [] then [x]
    else if Before(Key(x), Key(jobs[0]), reverse) then [x] + jobs
    else
      var rest := Insert(x, jobs[1..], reverse);
      HeadRest(jobs);
      [jobs[0]] + rest
  }

  /** A stable insertion sort, standing in for `sorted(jobs, key=..., reverse=...)`. */
  function SortJobs(jobs: seq<Dict>, reverse: bool): (r: seq<Dict>)
    requires Keyed(jobs)
    ensures Keyed(r) && multiset(r) == multiset(jobs)
  {
    if jobs == [] then []
    else
      assert jobs == jobs[..|jobs| - 1] + [jobs[|jobs| - 1]];
      Insert(jobs[|jobs| - 1], SortJobs(jobs[..|jobs| - 1], reverse), reverse)
  }

  /**
   * `rank_jobs`: sorting compares every key once there are two jobs, and a
   * key that is not a number (a `NULL` score) makes the comparison raise.
   */
  function RankJobs(jobs: seq<Dict>, reverse: bool): Result<seq<Dict>> {
    if |jobs| <= 1 then Ok(jobs)
    else if Keyed(jobs) then Ok(SortJobs(jobs, reverse))
    else Err("TypeError: '<' not supported")
  }

  lemma {:induction false} InsertSorted(x: Dict, jobs: seq<Dict>, reverse: bool)
    requires KeyOf(x).Some? && Keyed(jobs) && SortedBy(jobs, reverse)
    ensures SortedBy(Insert(x, jobs, reverse), reverse)
    decreases |jobs|
  {
    if jobs != [] && !Before(Key(x), Key(jobs[0]), reverse) {
      InsertSorted(x, jobs[1..], reverse);
      var rest := Insert(x, jobs[1..], reverse);
      var r := [jobs[0]] + rest;
      forall j | 0 < j < |r| ensures !Before(Key(r[j]), Key(r[0]), reverse) {
        assert r[j] in multiset(rest);
        assert r[j] in multiset(jobs[1..]) + multiset{x};
        if r[j] != x {
          assert r[j] in jobs[1..];
        }
      }
    }
  }

  lemma {:induction false} SortJobsSorted(jobs: seq<Dict>, reverse: bool)
    requires Keyed(jobs)
    ensures SortedBy(SortJobs(jobs, reverse), reverse)
    decreases |jobs|
  {
    if jobs != [] {
      SortJobsSorted(jobs[..|jobs| - 1], reverse);
      InsertSorted(jobs[|jobs| - 1], SortJobs(jobs[..|jobs| - 1], reverse), reverse);
    }
  }

  lemma {:induction false} WithKeyConcat(a: seq<Dict>, b: seq<Dict>, k: real)
    requires Keyed(a) && Keyed(b)
    ensures Keyed(a + b) && WithKey(a + b, k) == WithKey(a, k) + WithKey(b, k)
    decreases |b|
  {
    if b != [] {
      var b' := b[..|b| - 1];
      assert (a + b)[..|a + b| - 1] == a + b';
      WithKeyConcat(a, b', k);
    } else {
      assert a + b == a;
    }
  }

  lemma {:induction false} WithKeyCons(x: Dict, b: seq<Dict>, k: real)
    requires KeyOf(x).Some? && Keyed(b)
    ensures Keyed([x] + b)
    ensures WithKey([x] + b, k) == (if Key(x) == k then [x] else []) + WithKey(b, k)
  {
    WithKeyConcat([x], b, k);
    assert [x][..0] == [];
  }

  lemma {:induction false} WithKeyNone(jobs: seq<Dict>, k: real)
    requires Keyed(jobs)
    requires forall i :: 0 <= i < |jobs| ==> Key(jobs[i]) != k
    ensures WithKey(jobs, k) == []
    decreases |jobs|
  {
    if jobs != [] { WithKeyNone(jobs[..|jobs| - 1], k); }
  }

  lemma SortedTail(jobs: seq<Dict>, reverse: bool)
    requires jobs != [] && Keyed(jobs) && SortedBy(jobs, reverse)
    ensures Keyed(jobs[1..]) && SortedBy(jobs[1..], reverse)
  {
    var rest := jobs[1..];
    forall i, j | 0 <= i < j < |rest|
      ensures !Before(Key(rest[j]), Key(rest[i]), reverse)
    {
      assert rest[i] == jobs[i + 1] && rest[j] == jobs[j + 1];
    }
  }

  /** A job going strictly before the head of a sorted list shares its key with none of it. */
  lemma FrontKeyAlone(x: Dict, jobs: seq<Dict>, reverse: bool)
    requires KeyOf(x).Some? && Keyed(jobs) && SortedBy(jobs, reverse)
    requires jobs != [] && Before(Key(x), Key(jobs[0]), reverse)
    ensures WithKey(jobs, Key(x)) == []
  {
    forall i | 0 <= i < |jobs| ensures Key(jobs[i]) != Key(x) {
      assert i == 0 || !Before(Key(jobs[i]), Key(jobs[0]), reverse);
    }
    WithKeyNone(jobs, Key(x));
  }

  /** Inserting into a sorted list puts `x` after the jobs sharing its key. */
  lemma {:induction false} InsertStable(x: Dict, jobs: seq<Dict>, reverse: bool, k: real)
    requires KeyOf(x).Some? && Keyed(jobs) && SortedBy(jobs, reverse)
    ensures WithKey(Insert(x, jobs, reverse), k)
      == WithKey(jobs, k) + (if Key(x) == k then [x] else [])
    decreases |jobs|, 1
  {
    if jobs == [] {
      assert [x][..0] == [];
    } else if Before(Key(x), Key(jobs[0]), reverse) {
      WithKeyCons(x, jobs, k);
      if Key(x) == k {
        FrontKeyAlone(x, jobs, reverse);
      }
    } else {
      InsertStableStep(x, jobs, reverse, k);
    }
  }

  lemma {:induction false} InsertStableStep(x: Dict, jobs: seq<Dict>, reverse: bool, k: real)
    requires KeyOf(x).Some? && Keyed(jobs) && SortedBy(jobs, reverse)
    requires jobs != [] && !Before(Key(x), Key(jobs[0]), reverse)
    ensures WithKey(Insert(x, jobs, reverse), k)
      == WithKey(jobs, k) + (if Key(x) == k then [x] else [])
    decreases |jobs|, 0
  {
    var rest := jobs[1..];
    var head := if Key(jobs[0]) == k then [jobs[0]] else [];
    var tail := if Key(x) == k then [x] else [];
    SortedTail(jobs, reverse);
    InsertStable(x, rest, reverse, k);
    var ins := Insert(x, rest, reverse);
    InsertPast(x, jobs, reverse);
    WithKeyCons(jobs[0], ins, k);
    WithKeyCons(jobs[0], rest, k);
    HeadRest(jobs);
    calc {
      WithKey(Insert(x, jobs, reverse), k);
      WithKey([jobs[0]] + ins, k);
      head + WithKey(ins, k);
      head + (WithKey(rest, k) + tail);
      { ConcatAssoc(head, WithKey(rest, k), tail); }
      (head + WithKey(rest, k)) + tail;
      WithKey(jobs, k) + tail;
    }
  }

  lemma InsertPast(x: Dict, jobs: seq<Dict>, reverse: bool)
    requires KeyOf(x).Some? && Keyed(jobs)
    requires jobs != [] && !Before(Key(x), Key(jobs[0]), reverse)
    ensures Insert(x, jobs, reverse) == [jobs[0]] + Insert(x, jobs[1..], reverse)
  {
  }

  lemma HeadRest(jobs: seq<Dict>)
    requires jobs != []
    ensures [jobs[0]] + jobs[1..] == jobs
  {
  }

  lemma ConcatAssoc(a: seq<Dict>, b: seq<Dict>, c: seq<Dict>)
    ensures a + (b + c) == (a + b) + c
  {
  }

  /** Stability: the jobs sharing a key keep their input order. */
  lemma {:induction false} SortJobsStable(jobs: seq<Dict>, reverse: bool, k: real)
    requires Keyed(jobs)
    ensures WithKey(SortJobs(jobs, reverse), k) == WithKey(jobs, k)
    decreases |jobs|
  {
    if jobs != [] {
      var init := jobs[..|jobs| - 1];
      SortJobsStable(init, reverse, k);
      SortJobsSorted(init, reverse);
      InsertStable(jobs[|jobs| - 1], SortJobs(init, reverse), reverse, k);
    }
  }

  /**
   * A ranking that succeeds is a permutation of the input, ordered by score
   * (non-increasing when `reverse`), with ties in input order.
   */
  lemma RankJobsSpec(jobs: seq<Dict>, reverse: bool)
    ensures RankJobs(jobs, reverse).Ok? <==> |jobs| <= 1 || Keyed(jobs)
    ensures RankJobs(jobs, reverse).Ok? ==>
      var r := RankJobs(jobs, reverse).value;
      && multiset(r) == multiset(jobs)
      && (Keyed(jobs) ==>
            Keyed(r) && SortedBy(r, reverse) && forall k :: WithKey(r, k) == WithKey(jobs, k))
  {
    if Keyed(jobs) {
      SortJobsSorted(jobs, reverse);
      forall k ensures WithKey(SortJobs(jobs, reverse), k) == WithKey(jobs, k) {
        SortJobsStable(jobs, reverse, k);
      }
      if |jobs| <= 1 {
        assert SortJobs(jobs, reverse) == jobs by {
          if |jobs| == 1 { assert jobs[..0] == []; }
        }
      }
    }
  }
}
