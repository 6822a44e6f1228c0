/**
 * The score fold of the web interface's matching endpoint for one batch:
 * which jobs are rescored, how each finished evaluation is folded into its
 * job (the model's scores, or the heuristic fallback with the default
 * difficulty), the timestamp and portfolio hash stamped on every job, the
 * save of each job as soon as its evaluation finishes, and the saved,
 * error, sample and fallback counts.
 *
 * The evaluations run concurrently. They come in as the sequence in which
 * they finish, each with the id it was submitted under and its result;
 * the rule-based fit score, `round(x, 2)` and `repr` of a float are
 * parameters.
 */
module WebMatching {
  import opened Wrappers
  import opened Values
  import opened JobDb
  import opened Folds
  import Cli
  import IP = IncrementalProcessing
  import LlmFitEvaluator

  type JointResult = LlmFitEvaluator.JointResult

  /** One finished evaluation: the id its task was submitted under, and its result (`None` when it failed or raised). */
  type Completion = (Value, Option<JointResult>)

  /** `round(x, 2)`, `_calculate_fit_score_rule_based(job, portfolio)` for the batch's portfolio, and `repr` of a float. */
  datatype Scoring = Scoring(round2: real -> real, heuristic: Dict -> real, repr: real -> string)

  const HeuristicReasoning := "Heuristic fit score used (LLM unavailable)."
  const FallbackReasoning := "LLM difficulty estimation unavailable; heuristic default applied."
  const DefaultDifficulty: Value := Num(50.0, "50.0")
  const Unhashable := "TypeError: unhashable type"

  /** The five job fields an evaluation may write. */
  const ScoreKeys: set<string> := {"fit_score", "fit_reasoning", "fit_alignment", "difficulty_score", "difficulty_reasoning"}

  /** A float as Python holds it. */
  function Number(s: Scoring, x: real): Value {
    Num(x, s.repr(x))
  }

  // -------------------------------------------------------------- selection

  /** A job is rescored when it has an id and `force` is set or one of its two scores is missing. */
  predicate NeedsScore(job: Dict, force: bool) {
    Truthy(Get(job, "job_id"))
    && (force || Get(job, "fit_score") == Null || Get(job, "difficulty_score") == Null)
  }

  /** `jobs_to_score`: the jobs of the batch that need a score, in batch order. */
  function Selected(batch: seq<Dict>, force: bool): seq<Dict>
    decreases |batch|
  {
    if batch == [] then []
    else
      var last := batch[|batch| - 1];
      Selected(batch[..|batch| - 1], force) + (if NeedsScore(last, force) then [last] else [])
  }

  /** The selection loop. */
  method SelectJobs(batch: seq<Dict>, force: bool) returns (selected: seq<Dict>)
    ensures selected == Selected(batch, force)
  {
    selected := [];
    var i := 0;
    while i < |batch|
      invariant 0 <= i <= |batch|
      invariant selected == Selected(batch[..i], force)
    {
      assert batch[..i + 1][..i] == batch[..i];
      var job := batch[i];
      if Truthy(Get(job, "job_id")) {
        if force || Get(job, "fit_score") == Null || Get(job, "difficulty_score") == Null {
          selected := selected + [job];
        }
      }
      i := i + 1;
    }
    assert batch[..i] == batch;
  }

  /** Only a value that is neither a list nor a dict can be a key of `job_map`. */
  predicate Hashable(v: Value) {
    !v.List? && !v.Obj?
  }

  /**
   * `job_map`: every selected job under its id, a later job replacing an
   * earlier one with the same id; an id that cannot be hashed raises.
   */
  function JobMap(jobs: seq<Dict>): Result<map<Value, Dict>>
    decreases |jobs|
  {
    if jobs == [] then Ok(map[])
    else
      var last := jobs[|jobs| - 1];
      var id := Get(last, "job_id");
      match JobMap(jobs[..|jobs| - 1])
      case Err(e) => Err(e)
      case Ok(m) =>
        if !Truthy(id) then Ok(m)
        else if !Hashable(id) then Err(Unhashable)
        else Ok(m[id := last])
  }

  /** The ids the evaluation tasks are submitted under, in submission order. */
  function TaskIds(jobs: seq<Dict>): seq<Value>
    decreases |jobs|
  {
    if jobs == [] then []
    else
      var id := Get(jobs[|jobs| - 1], "job_id");
      TaskIds(jobs[..|jobs| - 1]) + (if Truthy(id) then [id] else [])
  }

  /** The ids of the completions, in the order they finished. */
  function Ids(cs: seq<Completion>): (r: seq<Value>)
    ensures |r| == |cs| && forall i :: 0 <= i < |cs| ==> r[i] == cs[i].0
  {
    seq(|cs|, i requires 0 <= i < |cs| => cs[i].0)
  }

  // ------------------------------------------------------- one evaluation

  /** The job after a failed evaluation, with `fit` the rule-based score. */
  function Fallback(job: Dict, fit: Value, force: bool): Dict {
    var j1 := job["fit_score" := fit];
    var j2 := if "fit_reasoning" in j1 then j1 else j1["fit_reasoning" := Str(HeuristicReasoning)];
    var j3 := if force || Get(j2, "difficulty_score") == Null
      then j2["difficulty_score" := Or(Get(j2, "difficulty_score"), DefaultDifficulty)]
      else j2;
    if force || !Truthy(Get(j3, "difficulty_reasoning"))
    then j3["difficulty_reasoning" := GetOr(j3, "difficulty_reasoning", Str(FallbackReasoning))]
    else j3
  }

  /** The job after its evaluation: the model's scores when it gave a result, the fallback otherwise. */
  function Scored(job: Dict, result: Option<JointResult>, s: Scoring, force: bool): Dict {
    match result
    case Some(r) =>
      job["fit_score" := Number(s, s.round2(r.fitScore))]
         ["fit_reasoning" := r.fitReasoning]
         ["fit_alignment" := r.fitAlignment]
         ["difficulty_score" := Number(s, s.round2(r.difficultyScore))]
         ["difficulty_reasoning" := r.difficultyReasoning]
    case None => Fallback(job, Number(s, s.heuristic(job)), force)
  }

  /** The stamps every evaluated job receives. */
  function Stamped(job: Dict, timestamp: string, hash: string): Dict {
    job["fit_updated_at" := Str(timestamp)]["fit_portfolio_hash" := Str(hash)]
  }

  /** The keys of `update_payload`. */
  const PayloadKeys: set<string> := {"fit_score", "difficulty_score", "difficulty_reasoning", "fit_updated_at", "fit_portfolio_hash"}

  /** `update_payload`: the two scores and the difficulty reasoning of the job, and the two stamps. */
  function Payload(job: Dict, timestamp: string, hash: string): Dict {
    map k | k in PayloadKeys ::
      if k == "fit_updated_at" then Str(timestamp)
      else if k == "fit_portfolio_hash" then Str(hash)
      else Get(job, k)
  }

  /** The keys of `response_sample`; `reasoning` holds the fit reasoning. */
  const SampleKeys: set<string> := {"job_id", "title", "fit_score", "position_track", "difficulty_score", "reasoning", "difficulty_reasoning"}

  /** `response_sample`. */
  function Sample(job: Dict): Dict {
    map k | k in SampleKeys :: Get(job, if k == "reasoning" then "fit_reasoning" else k)
  }

  /** A sample is kept while fewer than five are held. */
  function Kept(samples: seq<Dict>, sample: Dict): seq<Dict> {
    if |samples| < 5 then samples + [sample] else samples
  }

  /** `update_job(job_id, payload)`: only a string id can match a row. */
  function Written(s: Cli.Table, id: Value, payload: Dict, now: string): (Cli.Table, bool) {
    if id.Str? then Update(s, id.s, payload, now) else (s, false)
  }

  /**
   * The log line after a save raises into the `try`: only the title slice
   * is evaluated there. The scores are formatted by the logging handler,
   * which reports a format error itself and does not raise.
   */
  predicate LogFails(job: Dict) {
    !Loggable(job)
  }

  /** The jobs under their ids and the four running results. */
  datatype Tally = Tally(jobs: map<Value, Dict>, saved: nat, errors: nat, samples: seq<Dict>, fallbacks: nat)

  datatype MatchState = MatchState(store: Cli.Table, tally: Tally)

  /**
   * One finished evaluation: a completion whose id holds no job is
   * skipped; otherwise the job is scored, stamped and committed as the
   * source commits it, log line included.
   */
  function Step(s: Scoring, force: bool, hash: string, timestamp: string, now: string,
                acc: MatchState, c: Completion): MatchState
  {
    var t := acc.tally;
    var id := c.0;
    if id !in t.jobs || t.jobs[id] == map[] then acc
    else
      var job := Stamped(Scored(t.jobs[id], c.1, s, force), timestamp, hash);
      CommitAsWritten(acc, id, job, Payload(job, timestamp, hash), t.fallbacks + if c.1.None? then 1 else 0, now)
  }

  /**
   * The evaluated `job` under `id`, with the fallback count, and its
   * `payload` saved: a save counts the job as saved (keeping its sample
   * while fewer than five are held), a refused save counts an error. This
   * is the corrected commit of the sixth finding, which leaves the log line
   * out of the count.
   */
  function Commit(acc: MatchState, id: Value, job: Dict, payload: Dict, fallbacks: nat, now: string): MatchState {
    var w := Written(acc.store, id, payload, now);
    MatchState(w.0, Tallied(acc.tally, id, job, fallbacks, w.1))
  }

  /** The counts after the save of `job`: `saved` tells whether `update_job` reported success. */
  function Tallied(t: Tally, id: Value, job: Dict, fallbacks: nat, saved: bool): Tally {
    if saved then Tally(t.jobs[id := job], t.saved + 1, t.errors, Kept(t.samples, Sample(job)), fallbacks)
    else Tally(t.jobs[id := job], t.saved, t.errors + 1, t.samples, fallbacks)
  }

  /**
   * The commit as the source has it: the log line after a save sits
   * inside the same `try`, so when it raises, a job already counted as
   * saved is counted as an error too.
   */
  function CommitAsWritten(acc: MatchState, id: Value, job: Dict, payload: Dict, fallbacks: nat, now: string)
    : MatchState
  {
    var w := Written(acc.store, id, payload, now);
    MatchState(w.0, TalliedAsWritten(acc.tally, id, job, fallbacks, w.1))
  }

  /** The counts after the save of `job` as the source keeps them, the log line's error included. */
  function TalliedAsWritten(t: Tally, id: Value, job: Dict, fallbacks: nat, saved: bool): Tally {
    var n := Tallied(t, id, job, fallbacks, saved);
    if saved && LogFails(job) then n.(errors := n.errors + 1) else n
  }

  function StepFn(s: Scoring, force: bool, hash: string, timestamp: string, now: string)
    : (MatchState, Completion) -> MatchState
  {
    (acc: MatchState, c: Completion) => Step(s, force, hash, timestamp, now, acc, c)
  }

  /** What `_match_job_batch_web` returns. */
  datatype Outcome = Outcome(saved: nat, errors: nat, samples: seq<Dict>, fallbacks: nat)

  /** The whole batch: the store afterwards and the outcome, or the exception `job_map` raises. */
  function MatchBatch(store: Cli.Table, batch: seq<Dict>, force: bool, s: Scoring, hash: string,
                      timestamp: string, now: string, completions: seq<Completion>): (Cli.Table, Result<Outcome>)
  {
    var selected := Selected(batch, force);
    if selected == [] then (store, Ok(Outcome(0, 0, [], 0)))
    else match JobMap(selected)
      case Err(e) => (store, Err(e))
      case Ok(m) =>
        var end := Fold(StepFn(s, force, hash, timestamp, now), MatchState(store, Tally(m, 0, 0, [], 0)), completions);
        (end.store, Ok(Outcome(end.tally.saved, end.tally.errors, end.tally.samples, end.tally.fallbacks)))
  }

  // ---------------------------------------------------------------- methods

  /** `_match_job_batch_web(job_batch, portfolio, portfolio_hash, force)`. */
  method MatchJobBatchWeb(table: JobTable, batch: seq<Dict>, force: bool, s: Scoring, hash: string,
                          timestamp: string, now: string, completions: seq<Completion>)
    returns (r: Result<Outcome>)
    requires table.Valid()
    modifies table
    ensures table.Valid()
    ensures (table.State(), r) == MatchBatch(old(table.State()), batch, force, s, hash, timestamp, now, completions)
  {
    var selected := SelectJobs(batch, force);
    if selected == [] {
      return Ok(Outcome(0, 0, [], 0));
    }
    var jobMap := BuildJobMap(selected);
    if jobMap.Err? {
      return Err(jobMap.error);
    }
    var t := ScoreCompletions(table, Tally(jobMap.value, 0, 0, [], 0), completions, s, force, hash, timestamp, now);
    return Ok(Outcome(t.saved, t.errors, t.samples, t.fallbacks));
  }

  /** The loop building `job_map`. */
  method BuildJobMap(selected: seq<Dict>) returns (r: Result<map<Value, Dict>>)
    ensures r == JobMap(selected)
  {
    var jobMap: map<Value, Dict> := map[];
    var i := 0;
    while i < |selected|
      invariant 0 <= i <= |selected|
      invariant JobMap(selected[..i]) == Ok(jobMap)
    {
      assert selected[..i + 1][..i] == selected[..i];
      var id := Get(selected[i], "job_id");
      if Truthy(id) {
        if !Hashable(id) {
          JobMapFails(selected, i + 1);
          return Err(Unhashable);
        }
        jobMap := jobMap[id := selected[i]];
      }
      i := i + 1;
    }
    assert selected[..i] == selected;
    return Ok(jobMap);
  }

  /** The completion loop. */
  method ScoreCompletions(table: JobTable, start: Tally, completions: seq<Completion>, s: Scoring, force: bool,
                          hash: string, timestamp: string, now: string)
    returns (t: Tally)
    requires table.Valid()
    modifies table
    ensures table.Valid()
    ensures MatchState(table.State(), t)
      == Fold(StepFn(s, force, hash, timestamp, now), MatchState(old(table.State()), start), completions)
  {
    ghost var step := StepFn(s, force, hash, timestamp, now);
    ghost var goal := Fold(step, MatchState(table.State(), start), completions);
    t := start;
    var i := 0;
    while i < |completions|
      invariant 0 <= i <= |completions|
      invariant table.Valid()
      invariant Fold(step, MatchState(table.State(), t), completions[i..]) == goal
    {
      FoldStep(step, MatchState(table.State(), t), completions, i);
      t := CompleteOne(table, t, completions[i], s, force, hash, timestamp, now);
      i := i + 1;
    }
    FoldDone(step, MatchState(table.State(), t), completions);
  }

  /** One iteration of the completion loop. */
  method CompleteOne(table: JobTable, t: Tally, c: Completion, s: Scoring, force: bool,
                     hash: string, timestamp: string, now: string)
    returns (t': Tally)
    requires table.Valid()
    modifies table
    ensures table.Valid()
    ensures MatchState(table.State(), t') == Step(s, force, hash, timestamp, now, MatchState(old(table.State()), t), c)
  {
    var id := c.0;
    if id !in t.jobs || t.jobs[id] == map[] {
      return t;
    }
    var scored := ScoreJob(t.jobs[id], c.1, s, force);
    var fallbacks := t.fallbacks;
    if c.1.None? {
      fallbacks := fallbacks + 1;
    }
    var job := scored["fit_updated_at" := Str(timestamp)];
    job := job["fit_portfolio_hash" := Str(hash)];
    t' := CommitJob(table, t, c, s, force, job, fallbacks, timestamp, hash, now);
  }

  /**
   * The `try` around the save of the evaluated `job`: `update_job`, the
   * counts, the sample and the log line.
   */
  method CommitJob(table: JobTable, t: Tally, c: Completion, s: Scoring, force: bool, job: Dict, fallbacks: nat,
                   timestamp: string, hash: string, now: string)
    returns (t': Tally)
    requires table.Valid()
    requires c.0 in t.jobs && t.jobs[c.0] != map[]
    requires job == Stamped(Scored(t.jobs[c.0], c.1, s, force), timestamp, hash)
    requires fallbacks == t.fallbacks + if c.1.None? then 1 else 0
    modifies table
    ensures table.Valid()
    ensures MatchState(table.State(), t') == Step(s, force, hash, timestamp, now, MatchState(old(table.State()), t), c)
  {
    ghost var acc := MatchState(table.State(), t);
    StepIsCommit(s, force, hash, timestamp, now, acc, c, job, fallbacks);
    var payload := Payload(job, timestamp, hash);
    ghost var w := Written(acc.store, c.0, payload, now);
    assert CommitAsWritten(acc, c.0, job, payload, fallbacks, now) == MatchState(w.0, TalliedAsWritten(t, c.0, job, fallbacks, w.1));
    var ok := SaveJob(table, c.0, payload, now);
    t' := TallyJob(t, c.0, job, fallbacks, ok);
  }

  /** The counts that follow the save of one evaluated job, and the log line after a save. */
  method TallyJob(t: Tally, id: Value, job: Dict, fallbacks: nat, ok: bool) returns (t': Tally)
    ensures t' == TalliedAsWritten(t, id, job, fallbacks, ok)
  {
    if ok {
      var samples := t.samples;
      if |samples| < 5 {
        samples := samples + [Sample(job)];
      }
      var errors := t.errors;
      if LogFails(job) {
        errors := errors + 1;
      }
      return Tally(t.jobs[id := job], t.saved + 1, errors, samples, fallbacks);
    }
    return Tally(t.jobs[id := job], t.saved, t.errors + 1, t.samples, fallbacks);
  }

  /** `update_job(job_id, update_payload)`. */
  method SaveJob(table: JobTable, id: Value, payload: Dict, now: string) returns (ok: bool)
    requires table.Valid()
    modifies table
    ensures table.Valid()
    ensures (table.State(), ok) == Written(old(table.State()), id, payload, now)
  {
    ok := false;
    if id.Str? {
      ok := table.UpdateJob(id.s, payload, now);
    }
  }

  /** The job dict updated in place with the evaluation's result. */
  method ScoreJob(job: Dict, result: Option<JointResult>, s: Scoring, force: bool) returns (scored: Dict)
    ensures scored == Scored(job, result, s, force)
  {
    scored := job;
    match result {
      case Some(r) =>
        scored := scored["fit_score" := Number(s, s.round2(r.fitScore))];
        scored := scored["fit_reasoning" := r.fitReasoning];
        scored := scored["fit_alignment" := r.fitAlignment];
        scored := scored["difficulty_score" := Number(s, s.round2(r.difficultyScore))];
        scored := scored["difficulty_reasoning" := r.difficultyReasoning];
      case None =>
        scored := ApplyFallback(job, Number(s, s.heuristic(job)), force);
    }
  }

  /** The heuristic branch, updating the job in place. */
  method ApplyFallback(job: Dict, fit: Value, force: bool) returns (j: Dict)
    ensures j == Fallback(job, fit, force)
  {
    j := job["fit_score" := fit];
    if "fit_reasoning" !in j {
      j := j["fit_reasoning" := Str(HeuristicReasoning)];
    }
    if force || Get(j, "difficulty_score") == Null {
      j := j["difficulty_score" := Or(Get(j, "difficulty_score"), DefaultDifficulty)];
    }
    if force || !Truthy(Get(j, "difficulty_reasoning")) {
      j := j["difficulty_reasoning" := GetOr(j, "difficulty_reasoning", Str(FallbackReasoning))];
    }
  }

  // ------------------------------------------------------------- properties

  /** A job is selected, as often as the batch holds it, exactly when it needs a score. */
  lemma {:induction false} SelectedIff(batch: seq<Dict>, force: bool)
    ensures forall j :: multiset(Selected(batch, force))[j] == if NeedsScore(j, force) then multiset(batch)[j] else 0
    decreases |batch|
  {
    if batch != [] {
      var init, last := batch[..|batch| - 1], batch[|batch| - 1];
      SelectedIff(init, force);
      assert batch == init + [last];
    }
  }

  /** A batch in which no job needs a score changes nothing and reports nothing. */
  lemma UpToDateBatch(store: Cli.Table, batch: seq<Dict>, force: bool, s: Scoring, hash: string,
                      timestamp: string, now: string, completions: seq<Completion>)
    requires forall i :: 0 <= i < |batch| ==> !NeedsScore(batch[i], force)
    ensures MatchBatch(store, batch, force, s, hash, timestamp, now, completions) == (store, Ok(Outcome(0, 0, [], 0)))
  {
    SelectedIff(batch, force);
  }

  /** An earlier unhashable id makes the whole map raise. */
  lemma {:induction false} JobMapFails(jobs: seq<Dict>, n: nat)
    requires n <= |jobs| && JobMap(jobs[..n]) == Err(Unhashable)
    ensures JobMap(jobs) == Err(Unhashable)
    decreases |jobs| - n
  {
    if n < |jobs| {
      assert jobs[..n + 1][..n] == jobs[..n];
      JobMapFails(jobs, n + 1);
    } else {
      assert jobs[..n] == jobs;
    }
  }

  /** The job of the last position holding an id. */
  predicate LastWithId(jobs: seq<Dict>, k: int) {
    0 <= k < |jobs| && forall k' :: k < k' < |jobs| ==> Get(jobs[k'], "job_id") != Get(jobs[k], "job_id")
  }

  /**
   * `job_map` is built exactly when every id is hashable; it holds the
   * submitted ids, each job under its own id, and the last job with an id.
   */
  lemma {:induction false} JobMapIff(jobs: seq<Dict>)
    ensures JobMap(jobs).Ok? <==>
      (forall k :: 0 <= k < |jobs| && Truthy(Get(jobs[k], "job_id")) ==> Hashable(Get(jobs[k], "job_id")))
    ensures JobMap(jobs).Ok? ==> forall id :: id in JobMap(jobs).value <==> id in TaskIds(jobs)
    ensures JobMap(jobs).Ok? ==> forall id :: id in JobMap(jobs).value ==> Get(JobMap(jobs).value[id], "job_id") == id
    ensures JobMap(jobs).Ok? ==> forall k :: LastWithId(jobs, k) && Truthy(Get(jobs[k], "job_id")) ==>
      Get(jobs[k], "job_id") in JobMap(jobs).value && JobMap(jobs).value[Get(jobs[k], "job_id")] == jobs[k]
    decreases |jobs|
  {
    if jobs != [] {
      var init, last := jobs[..|jobs| - 1], jobs[|jobs| - 1];
      JobMapIff(init);
      assert forall k :: 0 <= k < |init| ==> init[k] == jobs[k];
      forall k | LastWithId(jobs, k) && k < |init|
        ensures LastWithId(init, k)
      {
      }
    }
  }

  /** Only truthy ids are submitted. */
  lemma {:induction false} TaskIdsTruthy(jobs: seq<Dict>)
    ensures forall i :: 0 <= i < |TaskIds(jobs)| ==> Truthy(TaskIds(jobs)[i])
    decreases |jobs|
  {
    if jobs != [] {
      TaskIdsTruthy(jobs[..|jobs| - 1]);
    }
  }

  /** A selection of jobs that all have ids submits one task each. */
  lemma {:induction false} TaskIdsCount(jobs: seq<Dict>)
    requires forall i :: 0 <= i < |jobs| ==> Truthy(Get(jobs[i], "job_id"))
    ensures |TaskIds(jobs)| == |jobs|
    decreases |jobs|
  {
    if jobs != [] {
      TaskIdsCount(jobs[..|jobs| - 1]);
    }
  }

  /** The model's scores are rounded to two decimals and its reasoning copied; no other field changes. */
  lemma LlmScoresWritten(job: Dict, r: JointResult, s: Scoring, force: bool)
    ensures var j := Scored(job, Some(r), s, force);
      && j.Keys == job.Keys + ScoreKeys
      && j["fit_score"] == Number(s, s.round2(r.fitScore))
      && j["difficulty_score"] == Number(s, s.round2(r.difficultyScore))
      && j["fit_reasoning"] == r.fitReasoning && j["fit_alignment"] == r.fitAlignment
      && j["difficulty_reasoning"] == r.difficultyReasoning
      && forall k :: k in job && k !in ScoreKeys ==> j[k] == job[k]
  {
  }

  /**
   * A failed evaluation takes the rule-based fit score, keeps a stored fit
   * reasoning and a stored difficulty reasoning (even under force), uses
   * the default texts only for keys that are absent, and changes no other
   * field.
   */
  lemma FallbackText(job: Dict, s: Scoring, force: bool)
    ensures var j := Scored(job, None, s, force);
      && j["fit_score"] == Number(s, s.heuristic(job))
      && j["fit_reasoning"] == GetOr(job, "fit_reasoning", Str(HeuristicReasoning))
      && Get(j, "difficulty_reasoning") == GetOr(job, "difficulty_reasoning", Str(FallbackReasoning))
      && ("fit_alignment" !in job ==> "fit_alignment" !in j)
      && forall k :: k in job && k !in ScoreKeys ==> j[k] == job[k]
  {
  }

  /**
   * After a failed evaluation a missing difficulty becomes 50.0; without
   * force a stored one is kept; with force a falsy stored one (such as 0)
   * becomes 50.0 too, and a truthy one is kept.
   */
  lemma FallbackDifficulty(job: Dict, s: Scoring, force: bool)
    ensures var stored := Get(job, "difficulty_score");
      var d := Get(Scored(job, None, s, force), "difficulty_score");
      && (stored == Null ==> d == DefaultDifficulty)
      && (!force && stored != Null ==> d == stored)
      && (Truthy(stored) ==> d == stored)
      && (force ==> Truthy(d))
  {
  }

  /**
   * Whatever the result, the evaluated job carries the batch's timestamp
   * and portfolio hash, and a saved row carries the payload: both stamps
   * and each score that is not `None`.
   */
  lemma StampsWritten(s: Scoring, force: bool, hash: string, timestamp: string, now: string,
                      acc: MatchState, c: Completion)
    requires c.0 in acc.tally.jobs && acc.tally.jobs[c.0] != map[]
    requires "fit_updated_at" in acc.store.columns && "fit_portfolio_hash" in acc.store.columns
    ensures var next := Step(s, force, hash, timestamp, now, acc, c);
      var job := next.tally.jobs[c.0];
      && job["fit_updated_at"] == Str(timestamp) && job["fit_portfolio_hash"] == Str(hash)
      && (next.tally.saved > acc.tally.saved ==>
            c.0.Str? && c.0.s in next.store.rows
            && next.store.rows[c.0.s]["fit_updated_at"] == Str(timestamp)
            && next.store.rows[c.0.s]["fit_portfolio_hash"] == Str(hash)
            && (Get(job, "fit_score") != Null && "fit_score" in acc.store.columns ==>
                  next.store.rows[c.0.s]["fit_score"] == Get(job, "fit_score")))
  {
    var job := Stamped(Scored(acc.tally.jobs[c.0], c.1, s, force), timestamp, hash);
    var p := Payload(job, timestamp, hash);
    var fallbacks := acc.tally.fallbacks + if c.1.None? then 1 else 0;
    var next := Step(s, force, hash, timestamp, now, acc, c);
    assert next == CommitAsWritten(acc, c.0, job, p, fallbacks, now);
    CommitAsWrittenHolds(acc, c.0, job, p, fallbacks, now);
    PayloadValues(job, timestamp, hash);
    if Written(acc.store, c.0, p, now).1 {
      WrittenRow(acc.store, c.0, p, now, "fit_updated_at");
      WrittenRow(acc.store, c.0, p, now, "fit_portfolio_hash");
      if Get(job, "fit_score") != Null && "fit_score" in acc.store.columns {
        WrittenRow(acc.store, c.0, p, now, "fit_score");
      }
    }
  }

  /** A completion whose id holds a job commits that job, scored and stamped. */
  lemma StepIsCommit(s: Scoring, force: bool, hash: string, timestamp: string, now: string,
                     acc: MatchState, c: Completion, job: Dict, fallbacks: nat)
    requires c.0 in acc.tally.jobs && acc.tally.jobs[c.0] != map[]
    requires job == Stamped(Scored(acc.tally.jobs[c.0], c.1, s, force), timestamp, hash)
    requires fallbacks == acc.tally.fallbacks + if c.1.None? then 1 else 0
    ensures Step(s, force, hash, timestamp, now, acc, c)
      == CommitAsWritten(acc, c.0, job, Payload(job, timestamp, hash), fallbacks, now)
  {
  }

  /** What a commit leaves: the job under its id, and the store and the saved count as the save decides. */
  lemma CommitHolds(acc: MatchState, id: Value, job: Dict, payload: Dict, fallbacks: nat, now: string)
    ensures var next := Commit(acc, id, job, payload, fallbacks, now);
      var w := Written(acc.store, id, payload, now);
      && id in next.tally.jobs && next.tally.jobs[id] == job
      && next.store == w.0
      && (next.tally.saved > acc.tally.saved <==> w.1)
      && next.tally.saved + next.tally.errors == acc.tally.saved + acc.tally.errors + 1
  {
  }

  /**
   * What the source's commit leaves: the same job, store and saved count
   * as `Commit`, and one error more exactly when the save succeeded and the
   * log line raised.
   */
  lemma CommitAsWrittenHolds(acc: MatchState, id: Value, job: Dict, payload: Dict, fallbacks: nat, now: string)
    ensures var next := CommitAsWritten(acc, id, job, payload, fallbacks, now);
      var w := Written(acc.store, id, payload, now);
      && id in next.tally.jobs && next.tally.jobs[id] == job
      && next.store == w.0
      && (next.tally.saved > acc.tally.saved <==> w.1)
      && next.tally.saved + next.tally.errors
         == acc.tally.saved + acc.tally.errors + 1 + (if w.1 && LogFails(job) then 1 else 0)
      && next.tally.samples == Commit(acc, id, job, payload, fallbacks, now).tally.samples
  {
  }

  /** The payload holds the stamps and the job's two scores and difficulty reasoning. */
  lemma PayloadValues(job: Dict, timestamp: string, hash: string)
    ensures var p := Payload(job, timestamp, hash);
      && p.Keys == PayloadKeys
      && p["fit_updated_at"] == Str(timestamp) && p["fit_portfolio_hash"] == Str(hash)
      && p["fit_score"] == Get(job, "fit_score") && p["difficulty_score"] == Get(job, "difficulty_score")
      && p["difficulty_reasoning"] == Get(job, "difficulty_reasoning")
  {
  }

  /** A save writes each payload value that is not `None` into the row's column of that name. */
  lemma WrittenRow(s: Cli.Table, id: Value, payload: Dict, now: string, column: string)
    requires Written(s, id, payload, now).1
    requires column in s.columns && column in payload && payload[column] != Null
    requires column != "last_updated" && column != "job_id"
    ensures id.Str? && id.s in Written(s, id, payload, now).0.rows
    ensures Written(s, id, payload, now).0.rows[id.s][column] == payload[column]
  {
  }

  /** A job whose log line cannot raise: its title (or the `'Unknown'` it defaults to) can be sliced. */
  predicate Loggable(job: Dict) {
    IP.Sliceable(GetOr(job, "title", Str("Unknown")))
  }

  /** Every job of the tally is loggable. */
  predicate AllLoggable(t: Tally) {
    forall id :: id in t.jobs ==> Loggable(t.jobs[id])
  }

  /** Scoring and stamping keep the title. */
  lemma ScoredLoggable(job: Dict, r: Option<JointResult>, s: Scoring, force: bool, timestamp: string, hash: string)
    requires Loggable(job)
    ensures Loggable(Stamped(Scored(job, r, s, force), timestamp, hash))
    ensures !LogFails(Stamped(Scored(job, r, s, force), timestamp, hash))
  {
    var j := Stamped(Scored(job, r, s, force), timestamp, hash);
    assert GetOr(j, "title", Str("Unknown")) == GetOr(job, "title", Str("Unknown"));
  }

  /**
   * A completion whose id holds a job counts it as saved or as an error,
   * and once more as an error when it was saved and its log line raised.
   */
  lemma StepCounted(s: Scoring, force: bool, hash: string, timestamp: string, now: string,
                    acc: MatchState, c: Completion)
    requires c.0 in acc.tally.jobs && acc.tally.jobs[c.0] != map[]
    ensures var next := Step(s, force, hash, timestamp, now, acc, c);
      && c.0 in next.tally.jobs
      && next.tally.saved + next.tally.errors
         == acc.tally.saved + acc.tally.errors + 1
            + (if next.tally.saved > acc.tally.saved && LogFails(next.tally.jobs[c.0]) then 1 else 0)
  {
    var job := Stamped(Scored(acc.tally.jobs[c.0], c.1, s, force), timestamp, hash);
    var fallbacks := acc.tally.fallbacks + if c.1.None? then 1 else 0;
    StepIsCommit(s, force, hash, timestamp, now, acc, c, job, fallbacks);
    CommitAsWrittenHolds(acc, c.0, job, Payload(job, timestamp, hash), fallbacks, now);
  }

  /** A step leaves every job in place, so the completions still to come still find theirs. */
  lemma StepCovers(s: Scoring, force: bool, hash: string, timestamp: string, now: string,
                   acc: MatchState, c: Completion, rest: seq<Completion>)
    requires c.0 in acc.tally.jobs && acc.tally.jobs[c.0] != map[]
    requires Covers(acc.tally, rest)
    ensures Covers(Step(s, force, hash, timestamp, now, acc, c).tally, rest)
  {
    var job := Stamped(Scored(acc.tally.jobs[c.0], c.1, s, force), timestamp, hash);
    var fallbacks := acc.tally.fallbacks + if c.1.None? then 1 else 0;
    StepIsCommit(s, force, hash, timestamp, now, acc, c, job, fallbacks);
    var next := CommitAsWritten(acc, c.0, job, Payload(job, timestamp, hash), fallbacks, now);
    assert "fit_updated_at" in job;
    assert next.tally.jobs == acc.tally.jobs || next.tally.jobs == acc.tally.jobs[c.0 := job];
  }

  /** From a state whose jobs are all loggable, a step keeps them so, and its own log line does not raise. */
  lemma StepLoggable(s: Scoring, force: bool, hash: string, timestamp: string, now: string,
                     acc: MatchState, c: Completion)
    requires c.0 in acc.tally.jobs && acc.tally.jobs[c.0] != map[]
    requires AllLoggable(acc.tally)
    ensures var next := Step(s, force, hash, timestamp, now, acc, c);
      AllLoggable(next.tally) && c.0 in next.tally.jobs && !LogFails(next.tally.jobs[c.0])
  {
    var job := Stamped(Scored(acc.tally.jobs[c.0], c.1, s, force), timestamp, hash);
    var fallbacks := acc.tally.fallbacks + if c.1.None? then 1 else 0;
    StepIsCommit(s, force, hash, timestamp, now, acc, c, job, fallbacks);
    CommitAsWrittenHolds(acc, c.0, job, Payload(job, timestamp, hash), fallbacks, now);
    ScoredLoggable(acc.tally.jobs[c.0], c.1, s, force, timestamp, hash);
    var next := CommitAsWritten(acc, c.0, job, Payload(job, timestamp, hash), fallbacks, now);
    assert next.tally.jobs == acc.tally.jobs || next.tally.jobs == acc.tally.jobs[c.0 := job];
  }

  /** Every completion finds its job when the ids finished are the ids submitted. */
  predicate Covers(t: Tally, cs: seq<Completion>) {
    forall i :: 0 <= i < |cs| ==> cs[i].0 in t.jobs && t.jobs[cs[i].0] != map[]
  }

  /** Every selected job has an id. */
  lemma SelectedHaveIds(batch: seq<Dict>, force: bool)
    ensures forall i :: 0 <= i < |Selected(batch, force)| ==> Truthy(Get(Selected(batch, force)[i], "job_id"))
  {
    var selected := Selected(batch, force);
    SelectedIff(batch, force);
    forall i | 0 <= i < |selected|
      ensures Truthy(Get(selected[i], "job_id"))
    {
      assert multiset(selected)[selected[i]] > 0;
    }
  }

  /** When the ids finished are the ids submitted, every completion finds a job that has an id. */
  lemma CompletionsFindJobs(jobs: seq<Dict>, completions: seq<Completion>)
    requires JobMap(jobs).Ok?
    requires multiset(Ids(completions)) == multiset(TaskIds(jobs))
    ensures Covers(Tally(JobMap(jobs).value, 0, 0, [], 0), completions)
  {
    var m := JobMap(jobs).value;
    JobMapIff(jobs);
    TaskIdsTruthy(jobs);
    forall i | 0 <= i < |completions|
      ensures completions[i].0 in m && m[completions[i].0] != map[]
    {
      var id := completions[i].0;
      assert Ids(completions)[i] == id;
      assert multiset(TaskIds(jobs))[id] > 0;
      assert Truthy(Get(m[id], "job_id"));
      assert "job_id" in m[id];
    }
  }

  /**
   * From a state where every completion finds its job, each completion
   * adds at least one to saved plus errors.
   */
  lemma CountedFold(s: Scoring, force: bool, hash: string, timestamp: string, now: string,
                    start: MatchState, completions: seq<Completion>)
    requires Covers(start.tally, completions)
    ensures var end := Fold(StepFn(s, force, hash, timestamp, now), start, completions);
      end.tally.saved + end.tally.errors >= start.tally.saved + start.tally.errors + |completions|
  {
    var step := StepFn(s, force, hash, timestamp, now);
    var inv := (a: MatchState) => Covers(a.tally, completions);
    var f := (a: MatchState) => a.tally.saved + a.tally.errors;
    forall a, i | 0 <= i < |completions| && inv(a)
      ensures inv(step(a, completions[i])) && f(step(a, completions[i])) >= f(a) + 1
    {
      var c := completions[i];
      assert c.0 in a.tally.jobs && a.tally.jobs[c.0] != map[];
      StepCounted(s, force, hash, timestamp, now, a, c);
      StepCovers(s, force, hash, timestamp, now, a, c, completions);
    }
    FoldAtLeastWhile(step, f, inv, start, completions);
  }

  /**
   * From a state where every completion finds its job and every job is
   * loggable, each completion adds exactly one to saved plus errors.
   */
  lemma CountedFoldLoggable(s: Scoring, force: bool, hash: string, timestamp: string, now: string,
                            start: MatchState, completions: seq<Completion>)
    requires Covers(start.tally, completions)
    requires AllLoggable(start.tally)
    ensures var end := Fold(StepFn(s, force, hash, timestamp, now), start, completions);
      end.tally.saved + end.tally.errors == start.tally.saved + start.tally.errors + |completions|
  {
    var step := StepFn(s, force, hash, timestamp, now);
    var inv := (a: MatchState) => Covers(a.tally, completions) && AllLoggable(a.tally);
    var f := (a: MatchState) => a.tally.saved + a.tally.errors;
    forall a, i | 0 <= i < |completions| && inv(a)
      ensures inv(step(a, completions[i])) && f(step(a, completions[i])) == f(a) + 1
    {
      var c := completions[i];
      assert c.0 in a.tally.jobs && a.tally.jobs[c.0] != map[];
      StepCounted(s, force, hash, timestamp, now, a, c);
      StepCovers(s, force, hash, timestamp, now, a, c, completions);
      StepLoggable(s, force, hash, timestamp, now, a, c);
    }
    FoldCountWhile(step, f, inv, start, completions);
  }

  /**
   * When every submitted task finishes once, each selected job is counted
   * at least once, as saved or as an error; it is counted exactly once when
   * every selected job is loggable. A saved job whose title is `None` is
   * counted twice (`SavedJobCountedTwice`).
   */
  lemma EverySelectedJobCounted(store: Cli.Table, batch: seq<Dict>, force: bool, s: Scoring, hash: string,
                                timestamp: string, now: string, completions: seq<Completion>)
    requires JobMap(Selected(batch, force)).Ok?
    requires multiset(Ids(completions)) == multiset(TaskIds(Selected(batch, force)))
    ensures var r := MatchBatch(store, batch, force, s, hash, timestamp, now, completions).1;
      r.Ok? && r.value.saved + r.value.errors >= |Selected(batch, force)|
    ensures (forall i :: 0 <= i < |Selected(batch, force)| ==> Loggable(Selected(batch, force)[i])) ==>
      var r := MatchBatch(store, batch, force, s, hash, timestamp, now, completions).1;
      r.Ok? && r.value.saved + r.value.errors == |Selected(batch, force)|
  {
    var selected := Selected(batch, force);
    SelectedHaveIds(batch, force);
    TaskIdsCount(selected);
    assert |completions| == |Ids(completions)| == |multiset(Ids(completions))| == |selected|;
    if selected != [] {
      var m := JobMap(selected).value;
      CompletionsFindJobs(selected, completions);
      JobMapValues(selected);
      if forall i :: 0 <= i < |selected| ==> Loggable(selected[i]) {
        forall id | id in m
          ensures Loggable(m[id])
        {
          var k :| 0 <= k < |selected| && selected[k] == m[id];
        }
        CountedFoldLoggable(s, force, hash, timestamp, now, MatchState(store, Tally(m, 0, 0, [], 0)), completions);
      }
      CountedFold(s, force, hash, timestamp, now, MatchState(store, Tally(m, 0, 0, [], 0)), completions);
    }
  }

  /** Every job of `job_map` is one of the jobs it was built from. */
  lemma {:induction false} JobMapValues(jobs: seq<Dict>)
    requires JobMap(jobs).Ok?
    ensures forall id :: id in JobMap(jobs).value ==> exists k :: 0 <= k < |jobs| && jobs[k] == JobMap(jobs).value[id]
    decreases |jobs|
  {
    if jobs != [] {
      var init := jobs[..|jobs| - 1];
      JobMapValues(init);
      assert forall k :: 0 <= k < |init| ==> init[k] == jobs[k];
    }
  }

  /** The batch keeps at most five samples, and only samples of saved jobs. */
  lemma SamplesBounded(store: Cli.Table, batch: seq<Dict>, force: bool, s: Scoring, hash: string,
                       timestamp: string, now: string, completions: seq<Completion>)
    ensures var r := MatchBatch(store, batch, force, s, hash, timestamp, now, completions).1;
      r.Ok? ==> |r.value.samples| <= 5 && |r.value.samples| <= r.value.saved
  {
    var selected := Selected(batch, force);
    if selected != [] && JobMap(selected).Ok? {
      var step := StepFn(s, force, hash, timestamp, now);
      var inv := (a: MatchState) => |a.tally.samples| <= 5 && |a.tally.samples| <= a.tally.saved;
      forall a, c | inv(a)
        ensures inv(step(a, c))
      {
        StepSamples(s, force, hash, timestamp, now, a, c);
      }
      FoldKeeps(step, inv, MatchState(store, Tally(JobMap(selected).value, 0, 0, [], 0)), completions);
    }
  }

  /** One step keeps at most five samples, and no more than the jobs saved. */
  lemma StepSamples(s: Scoring, force: bool, hash: string, timestamp: string, now: string,
                    acc: MatchState, c: Completion)
    requires |acc.tally.samples| <= 5 && |acc.tally.samples| <= acc.tally.saved
    ensures var next := Step(s, force, hash, timestamp, now, acc, c);
      |next.tally.samples| <= 5 && |next.tally.samples| <= next.tally.saved
  {
    if c.0 in acc.tally.jobs && acc.tally.jobs[c.0] != map[] {
      var job := Stamped(Scored(acc.tally.jobs[c.0], c.1, s, force), timestamp, hash);
      var fallbacks := acc.tally.fallbacks + if c.1.None? then 1 else 0;
      StepIsCommit(s, force, hash, timestamp, now, acc, c, job, fallbacks);
      CommitAsWrittenHolds(acc, c.0, job, Payload(job, timestamp, hash), fallbacks, now);
    }
  }

  /** At most one fallback per finished evaluation. */
  lemma FallbacksBounded(store: Cli.Table, batch: seq<Dict>, force: bool, s: Scoring, hash: string,
                         timestamp: string, now: string, completions: seq<Completion>)
    ensures var r := MatchBatch(store, batch, force, s, hash, timestamp, now, completions).1;
      r.Ok? ==> r.value.fallbacks <= |completions|
  {
    var selected := Selected(batch, force);
    if selected != [] && JobMap(selected).Ok? {
      var step := StepFn(s, force, hash, timestamp, now);
      FoldGrowth(step, (a: MatchState) => a.tally.fallbacks,
                 MatchState(store, Tally(JobMap(selected).value, 0, 0, [], 0)), completions);
    }
  }

  /**
   * As written, a saved job whose log line raises (a `None` title, say) is
   * counted both as saved and as an error, so saved plus errors exceeds
   * the number of jobs; the corrected `Commit` counts it once (`CommitHolds`).
   */
  lemma SavedJobCountedTwice(acc: MatchState, id: Value, job: Dict, payload: Dict, fallbacks: nat, now: string)
    requires Written(acc.store, id, payload, now).1
    requires "title" in job && job["title"] == Null
    ensures var next := CommitAsWritten(acc, id, job, payload, fallbacks, now);
      next.tally.saved == acc.tally.saved + 1 && next.tally.errors == acc.tally.errors + 1
  {
    assert LogFails(job);
  }
}
