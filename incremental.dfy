/**
 * `process_jobs_incrementally`: stored jobs that still lack the fields the
 * language model fills in are sent to it one at a time, and what comes
 * back is written to the table straight away. The model's replies are
 * inputs: `ask` gives, for a job, what the model answers to the three
 * prompts built from it.
 */
module IncrementalProcessing {
  import opened Wrappers
  import opened StringUtil
  import opened Values
  import opened JobDb
  import opened Folds
  import opened LlmParser
  import opened Cli

  /** The model's answers for one job: details, deadline, classification. */
  datatype Replies = Replies(details: Option<string>, deadline: Option<string>, classification: Option<string>)

  // ------------------------------------------------------------- selection

  /** `[j for j in all_jobs if _needs_llm_processing(j)]`. */
  function Pending(jobs: seq<Dict>): (r: seq<Dict>)
    ensures |r| <= |jobs|
  {
    if jobs == [] then []
    else (if NeedsLlmProcessing(jobs[0]) then [jobs[0]] else []) + Pending(jobs[1..])
  }

  /** A job is selected exactly when it is listed and still needs processing. */
  lemma {:induction false} PendingIff(jobs: seq<Dict>, j: Dict)
    ensures j in Pending(jobs) <==> j in jobs && NeedsLlmProcessing(j)
    decreases |jobs|
  {
    if jobs != [] {
      PendingIff(jobs[1..], j);
      assert jobs == [jobs[0]] + jobs[1..];
    }
  }

  /** A job that needs processing is selected, and the ones before it keep their order. */
  lemma {:induction false} PendingKeepsNeeding(jobs: seq<Dict>)
    requires forall i :: 0 <= i < |jobs| ==> NeedsLlmProcessing(jobs[i])
    ensures Pending(jobs) == jobs
    decreases |jobs|
  {
    if jobs != [] {
      PendingKeepsNeeding(jobs[1..]);
    }
  }

  /** `jobs[:limit]` when `limit` is truthy: a negative limit drops that many from the end. */
  function Limited(jobs: seq<Dict>, limit: Option<int>): (r: seq<Dict>)
    ensures |r| <= |jobs| && r == jobs[..|r|]
    ensures limit.None? || limit.value == 0 ==> r == jobs
    ensures limit.Some? && limit.value > 0 ==> |r| == Min(limit.value, |jobs|)
    ensures limit.Some? && limit.value < 0 ==> |r| == Max(0, |jobs| + limit.value)
  {
    if limit.None? || limit.value == 0 then jobs
    else if limit.value > 0 then jobs[..Min(limit.value, |jobs|)]
    else jobs[..Max(0, |jobs| + limit.value)]
  }

  function Min(a: int, b: int): int { if a < b then a else b }
  function Max(a: int, b: int): int { if a < b then b else a }

  /** The jobs the loop goes through. */
  function Selection(jobs: seq<Dict>, limit: Option<int>, skipProcessed: bool): seq<Dict> {
    Limited(if skipProcessed then Pending(jobs) else jobs, limit)
  }

  /** With `skip_processed`, no job that already carries enrichment is processed again. */
  lemma SelectionNeedsProcessing(jobs: seq<Dict>, limit: Option<int>, j: Dict)
    requires j in Selection(jobs, limit, true)
    ensures j in jobs && NeedsLlmProcessing(j)
  {
    var p := Pending(jobs);
    assert j in p by {
      var r := Selection(jobs, limit, true);
      var i :| 0 <= i < |r| && r[i] == j;
      assert r == p[..|r|];
      assert p[i] == j;
    }
    PendingIff(jobs, j);
  }

  /** `limit=-1` leaves out the last selected job. */
  lemma NegativeLimitDropsLast(jobs: seq<Dict>)
    requires jobs != []
    ensures Limited(jobs, Some(-1)) == jobs[..|jobs| - 1]
  {
  }

  // ------------------------------------------------------------- one job

  /** The keys kept from the extracted details (`valid_fields`). */
  const DetailFields: set<string> := {
    "position_type", "field", "level", "requirements",
    "extracted_deadline", "application_portal_url", "requires_separate_application",
    "country", "application_materials", "references_separate_email"}

  /** The columns an update may name (`valid_db_fields`). */
  const DbFields: set<string> := {
    "title", "institution", "position_type", "field", "level",
    "deadline", "extracted_deadline", "location", "country", "description", "requirements",
    "contact_info", "posted_date", "fit_score", "application_status",
    "application_portal_url", "requires_separate_application",
    "application_materials", "references_separate_email"}

  /** The detail fields turned into booleans with `bool()`. */
  const FlagFields: seq<string> := ["requires_separate_application", "references_separate_email"]

  /** `x[:n]` succeeds on strings and lists; on anything else it raises `TypeError`. */
  predicate Sliceable(v: Value) {
    v.Str? || v.List?
  }

  /** The research areas as text: a list joined with ", ", anything else through `str()`. */
  function AreasText(v: Value): Result<string> {
    if v.List? then JoinValues(", ", v.items) else Ok(PyStr(v))
  }

  /** The research areas, when given, appended to the requirements or standing in for them. */
  function WithResearchAreas(filtered: Dict, d: Dict): Result<Dict> {
    if "research_areas" in d && Truthy(d["research_areas"]) then
      match AreasText(d["research_areas"])
      case Err(e) => Err(e)
      case Ok(areas) =>
        if "requirements" in filtered then
          match AppendText(filtered["requirements"], "\nResearch Areas: " + areas)
          case Err(e) => Err(e)
          case Ok(v) => Ok(filtered["requirements" := v])
        else Ok(filtered["requirements" := Str("Research Areas: " + areas)])
    else Ok(filtered)
  }

  /** `d[k] = bool(d[k])` when `k` is present. */
  function AsBool(d: Dict, k: string): (r: Dict)
    ensures r.Keys == d.Keys
  {
    if k in d then d[k := Bool(Truthy(d[k]))] else d
  }

  /** A list of application materials joined with ", ". */
  function WithMaterials(d: Dict): (r: Result<Dict>)
    ensures r.Ok? ==> r.value.Keys == d.Keys
  {
    if "application_materials" in d && d["application_materials"].List? then
      match JoinValues(", ", d["application_materials"].items)
      case Err(e) => Err(e)
      case Ok(s) => Ok(d["application_materials" := Str(s)])
    else Ok(d)
  }

  /** The detail fields of the model's answer, converted for the table. */
  function FilteredDetails(d: Dict): (r: Dict)
    ensures r.Keys <= DetailFields
  {
    map k | k in d && k in DetailFields :: d[k]
  }

  /**
   * What the details answer contributes: nothing when it is empty,
   * `AttributeError` when it is not an object, else its detail fields with
   * the research areas folded into the requirements, the flags as booleans
   * and the materials as one string.
   */
  function DetailsUpdate(details: Value): Result<Dict> {
    if !Truthy(details) then Ok(map[])
    else match AsDict(details)
      case None => Err("AttributeError: object has no attribute 'items'")
      case Some(d) => DetailsFrom(d)
  }

  /** The contribution of a details answer that is an object. */
  function DetailsFrom(d: Dict): Result<Dict> {
    match WithResearchAreas(FilteredDetails(d), d)
    case Err(e) => Err(e)
    case Ok(f) => WithMaterials(AsBool(AsBool(f, FlagFields[0]), FlagFields[1]))
  }

  /**
   * The deadline step: a truthy deadline text is parsed, and the result is
   * kept when it is not empty and differs from the text. Only a string has
   * a length; any other truthy value raises `TypeError`.
   */
  function WithDeadline(update: Dict, text: Value, reply: Option<string>): Result<Dict> {
    if !Truthy(text) then Ok(update)
    else if !text.Str? then Err("TypeError: object has no len()")
    else match Deadline(text.s, reply)
      case Some(p) => if p != "" && p != text.s then Ok(update["deadline" := Str(p)]) else Ok(update)
      case None => Ok(update)
  }

  /**
   * `if key in c [and guard]: update[column] = c.get(key, '')`; the
   * membership test and the `.get` raise on values that do not support them.
   */
  function FromClassification(update: Dict, c: Value, key: string, column: string, guard: bool): Result<Dict> {
    match KeyIn(key, c)
    case Err(e) => Err(e)
    case Ok(present) =>
      if !present || !guard then Ok(update)
      else match AsDict(c)
        case None => Err("AttributeError: object has no attribute 'get'")
        case Some(cd) => Ok(update[column := GetOr(cd, key, Str(""))])
  }

  /** The classification step: `field_focus` only where no field is set yet, then level and type. */
  function WithClassification(update: Dict, c: Value): Result<Dict> {
    if !Truthy(c) then Ok(update)
    else match FromClassification(update, c, "field_focus", "field", !Truthy(Get(update, "field")))
      case Err(e) => Err(e)
      case Ok(u) =>
        match FromClassification(u, c, "level", "level", true)
        case Err(e) => Err(e)
        case Ok(u') => FromClassification(u', c, "type", "position_type", true)
  }

  /** The update gathered for one job before the column filter, or the error that skips it. */
  function Gathered(job: Dict, r: Replies, decode: string -> Option<Value>): Result<Dict> {
    if !Sliceable(GetOr(job, "title", Str("Unknown"))) then Err("TypeError: object is not subscriptable")
    else
      var description := GetOr(job, "description", Str(""));
      var details := if Truthy(description) then DetailsUpdate(ExtractJobDetails(r.details, decode)) else Ok(map[]);
      match details
      case Err(e) => Err(e)
      case Ok(u) =>
        match WithDeadline(u, GetOr(job, "deadline", Str("")), r.deadline)
        case Err(e) => Err(e)
        case Ok(u') =>
          if Truthy(GetOr(job, "title", Str(""))) && Truthy(description) then
            if !Sliceable(description) then Err("TypeError: object is not subscriptable")
            else WithClassification(u', ClassifyPosition(r.classification, decode))
          else Ok(u')
  }

  /** `filtered_update`: the gathered update restricted to the table's editable columns. */
  function JobUpdate(job: Dict, r: Replies, decode: string -> Option<Value>): (u: Result<Dict>)
    ensures u.Ok? ==> u.value.Keys <= DbFields
  {
    match Gathered(job, r, decode)
    case Err(e) => Err(e)
    case Ok(g) => Ok(map k | k in g && k in DbFields :: g[k])
  }

  // ------------------------------------------------------------- the loop

  /** The table and the number of jobs saved so far. */
  datatype Progress = Progress(store: Table, processed: nat)

  /** `update_job(job_id, update)`: only a string key can match a row. */
  function Saved(s: Table, id: Value, update: Dict, now: string): Table {
    if id.Str? then Update(s, id.s, update, now).0 else s
  }

  /**
   * One job of the loop: an error skips it; a non-empty update is saved
   * and counted, whether or not `update_job` reports a changed row.
   */
  function ProcessStep(ask: Dict -> Replies, decode: string -> Option<Value>, now: string,
                       acc: Progress, job: Dict): Progress
  {
    match JobUpdate(job, ask(job), decode)
    case Err(_) => acc
    case Ok(u) =>
      if u == map[] then acc
      else Progress(Saved(acc.store, Get(job, "job_id"), u, now), acc.processed + 1)
  }

  function ProcessStepFn(ask: Dict -> Replies, decode: string -> Option<Value>, now: string)
    : (Progress, Dict) -> Progress
  {
    (acc: Progress, job: Dict) => ProcessStep(ask, decode, now, acc, job)
  }

  /** The loop over the selected jobs. */
  function ProcessAll(s: Table, jobs: seq<Dict>, ask: Dict -> Replies, decode: string -> Option<Value>,
                      now: string): Progress
  {
    Fold(ProcessStepFn(ask, decode, now), Progress(s, 0), jobs)
  }

  /**
   * `process_jobs_incrementally(limit, skip_processed)`. The order in which
   * `get_all_jobs` lists the rows is not modelled: `listed` is that list,
   * holding every stored row once.
   */
  method ProcessJobsIncrementally(table: JobTable, limit: Option<int>, skipProcessed: bool,
                                  ask: Dict -> Replies, decode: string -> Option<Value>, now: string)
    returns (count: nat, ghost listed: seq<Dict>)
    requires table.Valid()
    modifies table
    ensures table.Valid()
    ensures |listed| == |old(table.rows)| + |old(table.orphans)|
    ensures forall k :: k in old(table.rows) ==> old(table.rows)[k] in listed
    ensures listed[|old(table.rows)|..] == old(table.orphans)
    ensures Progress(table.State(), count)
      == ProcessAll(old(table.State()), Selection(listed, limit, skipProcessed), ask, decode, now)
  {
    var all := table.GetAllJobs(None, None);
    EveryRowSelected(table.State());
    listed := all;
    var jobs := if skipProcessed then Pending(all) else all;
    jobs := Limited(jobs, limit);
    count := ProcessJobs(table, jobs, ask, decode, now);
  }

  /** Without filters, `get_all_jobs` lists every row. */
  lemma EveryRowSelected(s: Store)
    ensures SelectedKeys(s.rows, None, None) == s.rows.Keys
    ensures SelectedOrphans(s.orphans, None, None) == s.orphans
  {
    AllOrphansSelected(s.orphans);
  }

  lemma {:induction false} AllOrphansSelected(orphans: seq<Dict>)
    ensures SelectedOrphans(orphans, None, None) == orphans
    decreases |orphans|
  {
    if orphans != [] {
      AllOrphansSelected(orphans[1..]);
      assert orphans == [orphans[0]] + orphans[1..];
    }
  }

  /** The loop of `process_jobs_incrementally` over the selected jobs. */
  method ProcessJobs(table: JobTable, jobs: seq<Dict>, ask: Dict -> Replies,
                     decode: string -> Option<Value>, now: string)
    returns (count: nat)
    requires table.Valid()
    modifies table
    ensures table.Valid()
    ensures Progress(table.State(), count) == ProcessAll(old(table.State()), jobs, ask, decode, now)
  {
    ghost var step := ProcessStepFn(ask, decode, now);
    ghost var start := Progress(table.State(), 0);
    count := 0;
    var i := 0;
    while i < |jobs|
      invariant table.Valid() && 0 <= i <= |jobs|
      invariant Fold(step, Progress(table.State(), count), jobs[i..]) == Fold(step, start, jobs)
    {
      ghost var before := Progress(table.State(), count);
      FoldStep(step, before, jobs, i);
      count := ProcessOne(table, jobs[i], ask, decode, now, count);
      assert step(before, jobs[i]) == Progress(table.State(), count);
      i := i + 1;
    }
    FoldDone(step, Progress(table.State(), count), jobs);
  }

  /** The body of the loop for one job, on the live table. */
  method ProcessOne(table: JobTable, job: Dict, ask: Dict -> Replies, decode: string -> Option<Value>,
                    now: string, count: nat)
    returns (count': nat)
    requires table.Valid()
    modifies table
    ensures table.Valid()
    ensures Progress(table.State(), count') == ProcessStep(ask, decode, now, Progress(old(table.State()), count), job)
  {
    var update := JobUpdate(job, ask(job), decode);
    if update.Err? || update.value == map[] {
      return count;
    }
    var id := Get(job, "job_id");
    if id.Str? {
      var ok := table.UpdateJob(id.s, update.value, now);
    }
    return count + 1;
  }

  // ------------------------------------------------------------- properties

  /** The column filter drops nothing: every key gathered is an editable column. */
  lemma GatheredKeysAreColumns(job: Dict, r: Replies, decode: string -> Option<Value>)
    ensures Gathered(job, r, decode).Ok? ==> Gathered(job, r, decode).value.Keys <= DbFields
    ensures Gathered(job, r, decode).Ok? ==> JobUpdate(job, r, decode) == Gathered(job, r, decode)
  {
    var g := Gathered(job, r, decode);
    if g.Ok? {
      GatheredKeys(job, r, decode);
      FieldsListed();
      assert (map k | k in g.value && k in DbFields :: g.value[k]) == g.value;
    }
  }

  /** The keys the steps may write. */
  lemma GatheredKeys(job: Dict, r: Replies, decode: string -> Option<Value>)
    requires Gathered(job, r, decode).Ok?
    ensures Gathered(job, r, decode).value.Keys <= DetailFields + {"deadline", "field", "level", "position_type"}
  {
    var description := GetOr(job, "description", Str(""));
    var details := if Truthy(description) then DetailsUpdate(ExtractJobDetails(r.details, decode)) else Ok(map[]);
    DetailsKeys(ExtractJobDetails(r.details, decode));
    var u := details.value;
    var u' := WithDeadline(u, GetOr(job, "deadline", Str("")), r.deadline).value;
    assert u'.Keys <= u.Keys + {"deadline"};
    if Truthy(GetOr(job, "title", Str(""))) && Truthy(description) {
      ClassificationKeys(u', ClassifyPosition(r.classification, decode));
    }
  }

  /** Every key the steps may write is an editable column. */
  lemma FieldsListed()
    ensures DetailFields + {"deadline", "field", "level", "position_type"} <= DbFields
  {
  }

  /** The classification writes at most the field, the level and the position type. */
  lemma ClassificationKeys(update: Dict, c: Value)
    requires WithClassification(update, c).Ok?
    ensures WithClassification(update, c).value.Keys <= update.Keys + {"field", "level", "position_type"}
  {
  }

  /** The details answer yields only detail fields. */
  lemma DetailsKeys(details: Value)
    ensures DetailsUpdate(details).Ok? ==> DetailsUpdate(details).value.Keys <= DetailFields
  {
  }

  /** Folding in the research areas touches only the requirements. */
  lemma ResearchAreasTouchOnlyRequirements(filtered: Dict, d: Dict, k: string)
    requires WithResearchAreas(filtered, d).Ok? && k != "requirements"
    ensures var f := WithResearchAreas(filtered, d).value; (k in f <==> k in filtered) && (k in f ==> f[k] == filtered[k])
  {
  }

  /** Joining the materials touches only the materials. */
  lemma MaterialsTouchOnlyMaterials(d: Dict, k: string)
    requires WithMaterials(d).Ok? && k != "application_materials"
    ensures k in WithMaterials(d).value ==> WithMaterials(d).value[k] == d[k]
  {
  }

  /** Both flags, when the model gave them, are stored as `bool()` of its answer. */
  lemma FlagsAreBooleans(d: Dict, k: string)
    requires k in FlagFields && DetailsFrom(d).Ok?
    ensures var u := DetailsFrom(d).value; (k in u <==> k in d) && (k in d ==> u[k] == Bool(Truthy(d[k])))
  {
    var filtered := FilteredDetails(d);
    assert k in DetailFields;
    assert k in filtered <==> k in d;
    ResearchAreasTouchOnlyRequirements(filtered, d, k);
    var f := WithResearchAreas(filtered, d).value;
    var b := AsBool(AsBool(f, FlagFields[0]), FlagFields[1]);
    assert k in b ==> b[k] == Bool(Truthy(f[k]));
    MaterialsTouchOnlyMaterials(b, k);
  }

  /**
   * Research areas given as a list of strings are appended to string
   * requirements after a newline, or become the requirements when the
   * model gave none.
   */
  lemma ResearchAreasFolded(d: Dict, areas: seq<Value>)
    requires "research_areas" in d && d["research_areas"] == List(areas)
    requires areas != [] && AllStr(areas) && DetailsFrom(d).Ok?
    ensures var u := DetailsFrom(d).value; var text := Join(", ", StrItems(areas));
      "requirements" in u
      && ("requirements" !in d ==> u["requirements"] == Str("Research Areas: " + text))
      && ("requirements" in d && d["requirements"].Str? ==>
            u["requirements"] == Str(d["requirements"].s + "\nResearch Areas: " + text))
  {
    var filtered := FilteredDetails(d);
    assert "requirements" in DetailFields && FlagFields[0] != "requirements" && FlagFields[1] != "requirements";
    assert "requirements" in filtered <==> "requirements" in d;
    var f := WithResearchAreas(filtered, d).value;
    var b := AsBool(AsBool(f, FlagFields[0]), FlagFields[1]);
    assert "requirements" in b && b["requirements"] == f["requirements"];
    MaterialsTouchOnlyMaterials(b, "requirements");
  }

  /** A deadline is written only when the parsed text is new and not empty. */
  lemma DeadlineOnlyWhenChanged(update: Dict, t: string, reply: Option<string>)
    requires "deadline" !in update && WithDeadline(update, Str(t), reply).Ok?
    ensures var u := WithDeadline(update, Str(t), reply).value;
      "deadline" in u <==> (Deadline(t, reply).Some? && Deadline(t, reply).value != "" && Deadline(t, reply).value != t)
    ensures var u := WithDeadline(update, Str(t), reply).value;
      "deadline" in u ==> u["deadline"] == Str(Deadline(t, reply).value)
  {
  }

  /** A field already taken from the details is not replaced by the classification's focus. */
  lemma FieldKeptOverFocus(update: Dict, c: Value)
    requires Truthy(Get(update, "field")) && WithClassification(update, c).Ok?
    ensures WithClassification(update, c).value["field"] == update["field"]
  {
  }

  /** A job whose processing raises changes nothing and is not counted. */
  lemma FailedJobSkipped(ask: Dict -> Replies, decode: string -> Option<Value>, now: string, acc: Progress, job: Dict)
    requires JobUpdate(job, ask(job), decode).Err?
    ensures ProcessStep(ask, decode, now, acc, job) == acc
  {
  }

  /**
   * A job is counted once its update is non-empty, even when `update_job`
   * changes nothing, as for a row stored without a key.
   */
  lemma CountedWithoutKey(ask: Dict -> Replies, decode: string -> Option<Value>, now: string, acc: Progress, job: Dict)
    requires Get(job, "job_id") == Null
    requires JobUpdate(job, ask(job), decode).Ok? && JobUpdate(job, ask(job), decode).value != map[]
    ensures ProcessStep(ask, decode, now, acc, job) == Progress(acc.store, acc.processed + 1)
  {
  }

  /** At most one count per selected job. */
  lemma ProcessedBounded(s: Table, jobs: seq<Dict>, ask: Dict -> Replies, decode: string -> Option<Value>, now: string)
    ensures ProcessAll(s, jobs, ask, decode, now).processed <= |jobs|
  {
    FoldGrowth(ProcessStepFn(ask, decode, now), (p: Progress) => p.processed, Progress(s, 0), jobs);
  }
}
