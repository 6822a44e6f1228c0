/**
 * `_process_job_batch_web`: the batch of jobs the web application sends to
 * the language model. The batch calls run first and their results come in
 * as `Batch`. The scan that picks the deadline texts for the batch parse
 * runs outside any `try`, so a job that raises there ends the whole batch
 * before anything is written. Then each job's answers are merged with what the table
 * already holds, and the merged fields are written back at once, so a
 * later job of the batch reads the table as the earlier ones left it.
 * The single calls the loop makes for a job the batch calls missed are
 * the `Calls` oracles.
 */
module WebEnrichment {
  import opened Wrappers
  import opened StringUtil
  import opened Values
  import opened JobDb
  import opened Folds
  import opened LlmParser
  import LevelNormalizer
  import Cli
  import IP = IncrementalProcessing

  /** What the four batch calls returned, keyed by job id. */
  datatype Batch = Batch(
    details: map<Value, Value>,
    deadlines: map<Value, Value>,
    classes: map<Value, Value>,
    tracks: map<Value, (string, string)>)

  /**
   * The calls made inside the loop: the model's answer when `parse_deadlines`
   * asks about a deadline text, its answer to `classify_position` for a job,
   * and the JSON reader.
   */
  datatype Calls = Calls(
    deadlineReply: string -> Option<string>,
    classifyReply: Dict -> Option<string>,
    decode: string -> Option<Value>)

  /** The columns a web update may name (`valid_db_fields`). */
  const WebDbFields: set<string> := IP.DbFields + {"position_track", "difficulty_score", "difficulty_reasoning"}

  const NoRow := "AttributeError: 'NoneType' object has no attribute 'get'"
  const BadDetail := "TypeError: unsupported detail value"

  // ------------------------------------------------------------- lookups

  /** `results.get(job_id) if job_id else None`; a list or dict id cannot be hashed. */
  function Looked<T>(m: map<Value, T>, id: Value): Result<Option<T>> {
    if !Truthy(id) then Ok(None)
    else if id.List? || id.Obj? then Err("TypeError: unhashable type")
    else Ok(if id in m then Some(m[id]) else None)
  }

  /**
   * `get_job(job_id) if job_id else {}`. `get_job` gives `None` for a key
   * without a row and when its query fails.
   */
  function Existing(s: Cli.Table, id: Value): Option<Dict> {
    if !Truthy(id) then Some(map[])
    else if id.Str? then Lookup(s, id.s)
    else None
  }

  /** `existing_job.get(key)`: raises when `get_job` found nothing. */
  function Stored(existing: Option<Dict>, key: string): Result<Value> {
    if existing.Some? then Ok(Get(existing.value, key)) else Err(NoRow)
  }

  // ------------------------------------------------------------- the details answer

  /** `filtered_details`: the detail fields of the answer whose value is meaningful. */
  function Meaningful(d: Dict): (r: Dict)
    ensures r.Keys <= IP.DetailFields
    ensures forall k :: k in r ==> k in d && r[k] == d[k] && HasMeaningfulValue(r[k])
    ensures forall k :: k in d && k in IP.DetailFields && HasMeaningfulValue(d[k]) ==> k in r
  {
    map k | k in d && k in IP.DetailFields && HasMeaningfulValue(d[k]) :: d[k]
  }

  /** `normalize_level_labels(raw, job_title=title, job_description=description)`, joined with " / ". */
  function LevelText(raw: Value, title: Value, description: Value): Result<string> {
    match LevelNormalizer.RawLevels(raw)
    case Err(e) => Err(e)
    case Ok(levels) =>
      match TextOr(title, "")
      case Err(e) => Err(e)
      case Ok(t) =>
        match TextOr(description, "")
        case Err(e) => Err(e)
        case Ok(d) => Ok(Join(" / ", LevelNormalizer.NormalizeLevels(levels, t, d)))
  }

  /** The level of the details, when given, replaced by its normalized labels. */
  function WithLevels(filtered: Dict, title: Value, description: Value): (r: Result<Dict>)
    ensures r.Ok? ==> r.value.Keys == filtered.Keys
    ensures r.Ok? ==> forall k :: k in filtered && k != "level" ==> r.value[k] == filtered[k]
  {
    if "level" in filtered then
      match LevelText(filtered["level"], title, description)
      case Err(e) => Err(e)
      case Ok(t) => Ok(filtered["level" := Str(t)])
    else Ok(filtered)
  }

  /** `new_value in existing_value` for the requirements; only a string is searched for a string. */
  function PyIn(x: Value, container: Value): Result<bool> {
    if x.Str? then KeyIn(x.s, container)
    else if container.List? then Ok(x in container.items)
    else if container.Obj? && !x.List? && !x.Obj? then Ok(false)
    else Err("TypeError: 'in <string>' requires string as left operand")
  }

  /** The two fields whose new value is taken even when the table already has one. */
  const Accumulating: set<string> := {"requirements", "application_materials"}

  /**
   * What the loop over `filtered_details` writes for one key when the table
   * holds `held`: `None` when it writes nothing.
   */
  function MergeValue(key: string, given: Value, held: Value, force: bool): Result<Option<Value>> {
    if force then
      if key == "application_materials" && given.List? then
        match JoinValues(", ", given.items)
        case Err(e) => Err(e)
        case Ok(s) => Ok(Some(Str(s)))
      else Ok(Some(given))
    else if !HasMeaningfulValue(held) || (key in Accumulating && HasMeaningfulValue(given)) then
      if key == "requirements" && Truthy(held) && HasMeaningfulValue(given) then
        match PyIn(given, held)
        case Err(e) => Err(e)
        case Ok(contained) => Ok(if contained then None else Some(Str(PyStr(held) + "\n" + PyStr(given))))
      else Ok(Some(given))
    else Ok(None)
  }

  /** One key of the loop: the stored value is read first, for every key. */
  function MergeDetail(key: string, given: Value, existing: Option<Dict>, force: bool): Result<Option<Value>> {
    match Stored(existing, key)
    case Err(e) => Err(e)
    case Ok(held) => MergeValue(key, given, held, force)
  }

  /** The writes of the keys in `keys`, that all merged without error. */
  function MergedOn(filtered: Dict, existing: Option<Dict>, force: bool, keys: set<string>): Dict
    requires keys <= filtered.Keys
    requires forall k :: k in keys ==> MergeDetail(k, filtered[k], existing, force).Ok?
  {
    map k | k in keys && MergeDetail(k, filtered[k], existing, force).value.Some?
      :: MergeDetail(k, filtered[k], existing, force).value.value
  }

  /** The loop over `filtered_details`: the first key that raises ends the job. */
  function Merged(filtered: Dict, existing: Option<Dict>, force: bool): Result<Dict> {
    if exists k :: k in filtered && MergeDetail(k, filtered[k], existing, force).Err? then Err(BadDetail)
    else Ok(MergedOn(filtered, existing, force, filtered.Keys))
  }

  /** The loop itself, over the keys in some order. */
  method MergeDetails(filtered: Dict, existing: Option<Dict>, force: bool) returns (r: Result<Dict>)
    ensures r == Merged(filtered, existing, force)
  {
    var update: Dict := map[];
    var pending := filtered.Keys;
    ghost var done: set<string> := {};
    while pending != {}
      invariant pending <= filtered.Keys && done == filtered.Keys - pending
      invariant forall k :: k in done ==> MergeDetail(k, filtered[k], existing, force).Ok?
      invariant update == MergedOn(filtered, existing, force, done)
      decreases |pending|
    {
      var key :| key in pending;
      var m := MergeDetail(key, filtered[key], existing, force);
      if m.Err? {
        return Err(BadDetail);
      }
      if m.value.Some? {
        update := update[key := m.value.value];
      }
      MergedOnStep(filtered, existing, force, done, key);
      pending := pending - {key};
      done := done + {key};
    }
    assert done == filtered.Keys;
    return Ok(update);
  }

  /** Merging one more key adds its write, if any, to the writes so far. */
  lemma MergedOnStep(filtered: Dict, existing: Option<Dict>, force: bool, done: set<string>, key: string)
    requires done <= filtered.Keys && key in filtered && key !in done
    requires forall k :: k in done + {key} ==> MergeDetail(k, filtered[k], existing, force).Ok?
    ensures var m := MergeDetail(key, filtered[key], existing, force).value;
      MergedOn(filtered, existing, force, done + {key})
        == if m.Some? then MergedOn(filtered, existing, force, done)[key := m.value]
           else MergedOn(filtered, existing, force, done)
  {
  }

  /** `' / '.join(str(l) for l in levels)` for a level the steps left as a list. */
  function LevelJoined(u: Dict): (r: Dict)
    ensures r.Keys == u.Keys && forall k :: k in u && k != "level" ==> r[k] == u[k]
  {
    if "level" in u && u["level"].List? then
      var items := u["level"].items;
      u["level" := Str(Join(" / ", seq(|items|, i requires 0 <= i < |items| => PyStr(items[i]))))]
    else u
  }

  /** The research areas appended to the requirements, or standing in for requirements not yet stored. */
  function WithAreas(u: Dict, d: Dict, existing: Option<Dict>, force: bool): Result<Dict> {
    if "research_areas" in d && Truthy(d["research_areas"]) then
      match IP.AreasText(d["research_areas"])
      case Err(e) => Err(e)
      case Ok(areas) =>
        if "requirements" in u then
          match AppendText(u["requirements"], "\nResearch Areas: " + areas)
          case Err(e) => Err(e)
          case Ok(v) => Ok(u["requirements" := v])
        else if force then Ok(u["requirements" := Str("Research Areas: " + areas)])
        else
          match Stored(existing, "requirements")
          case Err(e) => Err(e)
          case Ok(held) => Ok(if Truthy(held) then u else u["requirements" := Str("Research Areas: " + areas)])
    else Ok(u)
  }

  /** The two flags the answer gave, as `bool()` of the answer, whatever the loop wrote. */
  function WithFlags(u: Dict, filtered: Dict): Dict {
    var u1 := if IP.FlagFields[0] in filtered then u[IP.FlagFields[0] := Bool(Truthy(filtered[IP.FlagFields[0]]))] else u;
    if IP.FlagFields[1] in filtered then u1[IP.FlagFields[1] := Bool(Truthy(filtered[IP.FlagFields[1]]))] else u1
  }

  /** Without force, a list of materials from the answer is joined with ", " over what the loop wrote. */
  function WithMaterialsJoined(u: Dict, filtered: Dict, force: bool): Result<Dict> {
    var m := "application_materials";
    if !force && m in filtered && filtered[m].List? then
      match JoinValues(", ", filtered[m].items)
      case Err(e) => Err(e)
      case Ok(s) => Ok(u[m := Str(s)])
    else Ok(u)
  }

  /** The details answer for the job and the filtered detail fields, before the loop. */
  function Prepared(job: Dict, b: Batch): Result<Option<(Dict, Dict)>> {
    match Looked(b.details, Get(job, "job_id"))
    case Err(e) => Err(e)
    case Ok(found) =>
      var details := if found.Some? then found.value else Obj([]);
      if !Truthy(details) then Ok(None)
      else match AsDict(details)
        case None => Err("AttributeError: object has no attribute 'items'")
        case Some(d) =>
          match WithLevels(Meaningful(d), GetOr(job, "title", Str("")), GetOr(job, "description", Str("")))
          case Err(e) => Err(e)
          case Ok(filtered) => Ok(Some((d, filtered)))
  }

  /** What follows the loop over the details: level lists, research areas, flags, materials. */
  function Finished(u: Dict, d: Dict, filtered: Dict, existing: Option<Dict>, force: bool): Result<Dict> {
    match WithAreas(LevelJoined(u), d, existing, force)
    case Err(e) => Err(e)
    case Ok(u') => WithMaterialsJoined(WithFlags(u', filtered), filtered, force)
  }

  /** The update the details answer contributes. */
  function DetailsPart(job: Dict, existing: Option<Dict>, b: Batch, force: bool): Result<Dict> {
    match Prepared(job, b)
    case Err(e) => Err(e)
    case Ok(None) => Ok(map[])
    case Ok(Some((d, filtered))) =>
      match Merged(filtered, existing, force)
      case Err(e) => Err(e)
      case Ok(u) => Finished(u, d, filtered, existing, force)
  }

  // ------------------------------------------------------------- deadline, classification, track

  /** `parse_deadlines(text)` as a value: the parsed date, or `None`. */
  function ParsedDeadline(text: Value, calls: Calls): Result<Value> {
    if !text.Str? then Err("TypeError: object has no len()")
    else match Deadline(text.s, calls.deadlineReply(text.s))
      case Some(p) => Ok(Str(p))
      case None => Ok(Null)
  }

  /** The deadline: the batch's parse, or else a parse of a truthy deadline text, kept when it is new. */
  function DeadlinePart(u: Dict, job: Dict, b: Batch, calls: Calls): Result<Dict> {
    var text := GetOr(job, "deadline", Str(""));
    match Looked(b.deadlines, Get(job, "job_id"))
    case Err(e) => Err(e)
    case Ok(found) =>
      var parsed := if found.Some? then Ok(found.value) else if Truthy(text) then ParsedDeadline(text, calls) else Ok(Null);
      match parsed
      case Err(e) => Err(e)
      case Ok(p) => Ok(if Truthy(p) && p != text && HasMeaningfulValue(p) then u["deadline" := p] else u)
  }

  /**
   * One classification key: written under force, or else only when the table
   * holds nothing meaningful in the column and the update has not set it.
   */
  function Classified(u: Dict, c: Value, key: string, column: string, existing: Option<Dict>, force: bool)
    : Result<Dict>
  {
    match KeyIn(key, c)
    case Err(e) => Err(e)
    case Ok(present) =>
      if !present then Ok(u)
      else match AsDict(c)
        case None => Err("AttributeError: object has no attribute 'get'")
        case Some(cd) =>
          if !HasMeaningfulValue(Get(cd, key)) then Ok(u)
          else if force then Ok(u[column := GetOr(cd, key, Str(""))])
          else match Stored(existing, column)
            case Err(e) => Err(e)
            case Ok(held) =>
              var unset := if column == "field" then !Truthy(Get(u, "field")) else column !in u;
              Ok(if !HasMeaningfulValue(held) && unset then u[column := GetOr(cd, key, Str(""))] else u)
  }

  /** The classification: the batch's, or a call for a job with a title and a description. */
  function ClassificationPart(u: Dict, job: Dict, existing: Option<Dict>, b: Batch, calls: Calls, force: bool)
    : Result<Dict>
  {
    var description := GetOr(job, "description", Str(""));
    match Looked(b.classes, Get(job, "job_id"))
    case Err(e) => Err(e)
    case Ok(found) =>
      var first := if found.Some? then found.value else Null;
      var c :=
        if !Truthy(first) && Truthy(Get(job, "title")) && Truthy(description) then
          if IP.Sliceable(description) then Ok(ClassifyPosition(calls.classifyReply(job), calls.decode))
          else Err("TypeError: object is not subscriptable")
        else Ok(first);
      match c
      case Err(e) => Err(e)
      case Ok(cv) =>
        if !Truthy(cv) then Ok(u)
        else match Classified(u, cv, "field_focus", "field", existing, force)
          case Err(e) => Err(e)
          case Ok(u1) =>
            match Classified(u1, cv, "level", "level", existing, force)
            case Err(e) => Err(e)
            case Ok(u2) => Classified(u2, cv, "type", "position_type", existing, force)
  }

  const OtherAcademia := "other academia"

  /**
   * The position track. `normalize` stands for the title-based
   * normalization the loop imports; `None` is the module as it is, which
   * does not define that function, so the import raises.
   */
  function TrackPart(u: Dict, job: Dict, b: Batch, normalize: Option<(Dict, string) -> string>): Result<Dict> {
    match Looked(b.tracks, Get(job, "job_id"))
    case Err(e) => Err(e)
    case Ok(found) =>
      if found.Some? then
        if normalize.None? then Err("ImportError: cannot import name from matcher.job_assessor")
        else Ok(u["position_track" := Str(normalize.value(job, found.value.0))])
      else if !Truthy(Get(job, "position_track")) then
        Ok(if "position_track" in u then u else u["position_track" := Str(OtherAcademia)])
      else Ok(u)
  }

  /** `filtered_update`: the web columns with a meaningful value. */
  function Payload(u: Dict): (p: Dict)
    ensures p.Keys <= WebDbFields && p.Keys <= u.Keys
    ensures forall k :: k in p ==> p[k] == u[k] && HasMeaningfulValue(p[k])
    ensures forall k :: k in u && k in WebDbFields && HasMeaningfulValue(u[k]) ==> k in p
  {
    map k | k in u && k in WebDbFields && HasMeaningfulValue(u[k]) :: u[k]
  }

  /** The steps after the details, in the loop's order. */
  function Rest(u: Dict, job: Dict, existing: Option<Dict>, b: Batch, calls: Calls,
                normalize: Option<(Dict, string) -> string>, force: bool): Result<Dict>
  {
    match DeadlinePart(u, job, b, calls)
    case Err(e) => Err(e)
    case Ok(u1) =>
      match ClassificationPart(u1, job, existing, b, calls, force)
      case Err(e) => Err(e)
      case Ok(u2) =>
        match TrackPart(u2, job, b, normalize)
        case Err(e) => Err(e)
        case Ok(u3) => Ok(Payload(LevelJoined(u3)))
  }

  /** The payload for one job, given what `get_job` returned for it. */
  function PayloadFrom(job: Dict, existing: Option<Dict>, b: Batch, calls: Calls,
                       normalize: Option<(Dict, string) -> string>, force: bool): Result<Dict>
  {
    match DetailsPart(job, existing, b, force)
    case Err(e) => Err(e)
    case Ok(u) => Rest(u, job, existing, b, calls, normalize, force)
  }

  /** The payload written for one job, given the table as the loop reaches it. */
  function JobPayload(s: Cli.Table, job: Dict, b: Batch, calls: Calls,
                      normalize: Option<(Dict, string) -> string>, force: bool): Result<Dict>
  {
    PayloadFrom(job, Existing(s, Get(job, "job_id")), b, calls, normalize, force)
  }

  /** The body of the `try` up to the write: the loop over the details runs here. */
  method BuildPayload(job: Dict, existing: Option<Dict>, b: Batch, calls: Calls,
                      normalize: (Dict, string) -> string, force: bool)
    returns (r: Result<Dict>)
    ensures r == PayloadFrom(job, existing, b, calls, Some(normalize), force)
  {
    var update: Dict := map[];
    var prepared := Prepared(job, b);
    if prepared.Err? {
      return Err(prepared.error);
    }
    if prepared.value.Some? {
      var (d, filtered) := prepared.value.value;
      var merged := MergeDetails(filtered, existing, force);
      if merged.Err? {
        return Err(merged.error);
      }
      var finished := Finished(merged.value, d, filtered, existing, force);
      if finished.Err? {
        return Err(finished.error);
      }
      update := finished.value;
    }
    assert DetailsPart(job, existing, b, force) == Ok(update);
    r := Rest(update, job, existing, b, calls, Some(normalize), force);
  }

  // ------------------------------------------------------------- the deadline texts for the batch parse

  /** The words that send a short deadline text to the batch parse. */
  const DeadlineWords: seq<string> := ["until", "by", "before", "extended"]

  /** `len(v)`: text, lists and objects have one; `None`, numbers and booleans do not. */
  function PyLen(v: Value): Option<nat> {
    match v
    case Str(s) => Some(|s|)
    case List(items) => Some(|items|)
    case Obj(entries) => Some(|EntriesToMap(entries)|)
    case _ => None
  }

  /** One of `DeadlineWords` occurs in the lower-cased text. */
  predicate HasDeadlineWord(text: string) {
    exists w :: w in DeadlineWords && Contains(Lower(text), w)
  }

  /**
   * One job of the scan that builds `deadline_inputs`, before the loop and
   * outside its `try`: the pair it sends to the batch parse, nothing, or the
   * exception that ends the whole batch. A truthy deadline without `len`
   * raises `TypeError`; one of at most 50 items that is not text has no
   * `lower` and raises `AttributeError`; a chosen job without a `job_id`
   * key raises `KeyError`.
   */
  function DeadlineInput(job: Dict): Result<Option<(Value, Value)>> {
    var text := Get(job, "deadline");
    if !Truthy(text) then Ok(None)
    else match PyLen(text)
      case None => Err("TypeError: object has no len()")
      case Some(n) =>
        if n <= 50 && !text.Str? then Err("AttributeError: object has no attribute 'lower'")
        else if n > 50 || HasDeadlineWord(text.s) then
          if "job_id" in job then Ok(Some((job["job_id"], text))) else Err("KeyError: 'job_id'")
        else Ok(None)
  }

  /** The scan so far, after one more job: the first exception is kept. */
  function ScanStep(acc: Result<seq<(Value, Value)>>, job: Dict): Result<seq<(Value, Value)>> {
    match acc
    case Err(_) => acc
    case Ok(inputs) =>
      match DeadlineInput(job)
      case Err(e) => Err(e)
      case Ok(p) => Ok(if p.Some? then inputs + [p.value] else inputs)
  }

  /** `deadline_inputs` for the batch, or the exception of its first job that raises. */
  function DeadlineInputs(jobs: seq<Dict>): Result<seq<(Value, Value)>> {
    Fold(ScanStep, Ok([]), jobs)
  }

  /** The loop that builds `deadline_inputs`; it stops at the first job that raises. */
  method CollectDeadlineInputs(jobs: seq<Dict>) returns (r: Result<seq<(Value, Value)>>)
    ensures r == DeadlineInputs(jobs)
  {
    var inputs := [];
    var i := 0;
    while i < |jobs|
      invariant 0 <= i <= |jobs|
      invariant Fold(ScanStep, Ok(inputs), jobs[i..]) == DeadlineInputs(jobs)
    {
      FoldStep(ScanStep, Ok(inputs), jobs, i);
      var p := DeadlineInput(jobs[i]);
      if p.Err? {
        FoldAbsorbing(ScanStep, Err(p.error), jobs[i + 1..]);
        return Err(p.error);
      }
      if p.value.Some? {
        inputs := inputs + [p.value.value];
      }
      i := i + 1;
    }
    FoldDone(ScanStep, Ok(inputs), jobs);
    return Ok(inputs);
  }

  /** The scan fails exactly when one of the batch's jobs raises in it. */
  lemma {:induction false} ScanFails(acc: Result<seq<(Value, Value)>>, jobs: seq<Dict>)
    ensures Fold(ScanStep, acc, jobs).Err? <==> acc.Err? || exists i :: 0 <= i < |jobs| && DeadlineInput(jobs[i]).Err?
    decreases |jobs|
  {
    if jobs != [] {
      ScanFails(ScanStep(acc, jobs[0]), jobs[1..]);
      assert forall i :: 0 < i < |jobs| ==> jobs[1..][i - 1] == jobs[i];
    }
  }

  /** Every pair the scan sends has a chosen deadline: longer than 50, or text holding a deadline word. */
  lemma {:induction false} ScanChosen(acc: Result<seq<(Value, Value)>>, jobs: seq<Dict>)
    requires acc.Ok? ==> forall k :: 0 <= k < |acc.value| ==> Chosen(acc.value[k].1)
    ensures var r := Fold(ScanStep, acc, jobs); r.Ok? ==> forall k :: 0 <= k < |r.value| ==> Chosen(r.value[k].1)
    decreases |jobs|
  {
    if jobs != [] {
      ScanChosen(ScanStep(acc, jobs[0]), jobs[1..]);
    }
  }

  /** A deadline the scan sends to the batch parse. */
  predicate Chosen(text: Value) {
    Truthy(text) && PyLen(text).Some? && (PyLen(text).value > 50 || (text.Str? && HasDeadlineWord(text.s)))
  }

  /**
   * The scan fails exactly when some job raises in it, and otherwise sends
   * only chosen deadlines, at most one per job.
   */
  lemma DeadlineInputsHold(jobs: seq<Dict>)
    ensures DeadlineInputs(jobs).Err? <==> exists i :: 0 <= i < |jobs| && DeadlineInput(jobs[i]).Err?
    ensures var r := DeadlineInputs(jobs); r.Ok? ==> forall k :: 0 <= k < |r.value| ==> Chosen(r.value[k].1)
    ensures var r := DeadlineInputs(jobs); r.Ok? ==> |r.value| <= |jobs|
  {
    ScanFails(Ok([]), jobs);
    ScanChosen(Ok([]), jobs);
    FoldGrowth(ScanStep, ScanSize, Ok([]), jobs);
  }

  /** The number of pairs the scan has sent; zero once it has failed. */
  function ScanSize(acc: Result<seq<(Value, Value)>>): int {
    if acc.Ok? then |acc.value| else 0
  }

  // ------------------------------------------------------------- the loop

  /** The table and the two counters `_process_job_batch_web` returns. */
  datatype Counts = Counts(store: Cli.Table, processed: nat, errors: nat)

  /** One job: a non-empty payload is written and counted; an empty one or a raise is an error. */
  function BatchStep(b: Batch, calls: Calls, normalize: Option<(Dict, string) -> string>, force: bool,
                     now: string, acc: Counts, job: Dict): Counts
  {
    Counted(acc, Get(job, "job_id"), JobPayload(acc.store, job, b, calls, normalize, force), now)
  }

  /** The write and the count that follow the payload of the job with `id`. */
  function Counted(acc: Counts, id: Value, payload: Result<Dict>, now: string): Counts {
    match payload
    case Err(_) => acc.(errors := acc.errors + 1)
    case Ok(p) =>
      if p == map[] then acc.(errors := acc.errors + 1)
      else Counts(IP.Saved(acc.store, id, p, now), acc.processed + 1, acc.errors)
  }

  function BatchStepFn(b: Batch, calls: Calls, normalize: Option<(Dict, string) -> string>, force: bool,
                       now: string): (Counts, Dict) -> Counts
  {
    (acc: Counts, job: Dict) => BatchStep(b, calls, normalize, force, now, acc, job)
  }

  /** The whole batch from a table and zero counters. */
  function BatchAll(s: Cli.Table, jobs: seq<Dict>, b: Batch, calls: Calls,
                    normalize: Option<(Dict, string) -> string>, force: bool, now: string): Counts
  {
    Fold(BatchStepFn(b, calls, normalize, force, now), Counts(s, 0, 0), jobs)
  }

  /**
   * `_process_job_batch_web` from a table: the exception of the deadline
   * scan, which ends the batch before any job is written, or the loop.
   */
  function BatchRun(s: Cli.Table, jobs: seq<Dict>, b: Batch, calls: Calls,
                    normalize: Option<(Dict, string) -> string>, force: bool, now: string): Result<Counts>
  {
    match DeadlineInputs(jobs)
    case Err(e) => Err(e)
    case Ok(_) => Ok(BatchAll(s, jobs, b, calls, normalize, force, now))
  }

  /**
   * `_process_job_batch_web(job_batch, force)`, with the title normalization
   * it imports as `normalize`: the two counters, or the exception of the
   * deadline scan, which leaves the table as it was.
   */
  method ProcessJobBatchWeb(table: JobTable, jobs: seq<Dict>, b: Batch, calls: Calls,
                            normalize: (Dict, string) -> string, force: bool, now: string)
    returns (r: Result<(nat, nat)>)
    requires table.Valid()
    modifies table
    ensures table.Valid()
    ensures r.Err? <==> BatchRun(old(table.State()), jobs, b, calls, Some(normalize), force, now).Err?
    ensures r.Err? ==> r.error == BatchRun(old(table.State()), jobs, b, calls, Some(normalize), force, now).error
                       && table.State() == old(table.State())
    ensures r.Ok? ==> BatchRun(old(table.State()), jobs, b, calls, Some(normalize), force, now)
                      == Ok(Counts(table.State(), r.value.0, r.value.1))
  {
    var inputs := CollectDeadlineInputs(jobs);
    if inputs.Err? {
      return Err(inputs.error);
    }
    var processed, errors := ProcessJobsWeb(table, jobs, b, calls, normalize, force, now);
    return Ok((processed, errors));
  }

  /** The loop of `_process_job_batch_web` over the jobs of the batch. */
  method ProcessJobsWeb(table: JobTable, jobs: seq<Dict>, b: Batch, calls: Calls,
                        normalize: (Dict, string) -> string, force: bool, now: string)
    returns (processed: nat, errors: nat)
    requires table.Valid()
    modifies table
    ensures table.Valid()
    ensures Counts(table.State(), processed, errors)
      == BatchAll(old(table.State()), jobs, b, calls, Some(normalize), force, now)
  {
    ghost var step := BatchStepFn(b, calls, Some(normalize), force, now);
    ghost var start := Counts(table.State(), 0, 0);
    processed, errors := 0, 0;
    var i := 0;
    while i < |jobs|
      invariant table.Valid() && 0 <= i <= |jobs|
      invariant Fold(step, Counts(table.State(), processed, errors), jobs[i..]) == Fold(step, start, jobs)
    {
      ghost var before := Counts(table.State(), processed, errors);
      FoldStep(step, before, jobs, i);
      processed, errors := ProcessJobWeb(table, jobs[i], b, calls, normalize, force, now, processed, errors);
      assert step(before, jobs[i]) == Counts(table.State(), processed, errors);
      i := i + 1;
    }
    FoldDone(step, Counts(table.State(), processed, errors), jobs);
  }

  /** The body of the loop for one job, on the live table. */
  method ProcessJobWeb(table: JobTable, job: Dict, b: Batch, calls: Calls, normalize: (Dict, string) -> string,
                       force: bool, now: string, processed: nat, errors: nat)
    returns (processed': nat, errors': nat)
    requires table.Valid()
    modifies table
    ensures table.Valid()
    ensures Counts(table.State(), processed', errors')
      == BatchStep(b, calls, Some(normalize), force, now, Counts(old(table.State()), processed, errors), job)
  {
    var id := Get(job, "job_id");
    var existing: Option<Dict>;
    if !Truthy(id) {
      existing := Some(map[]);
    } else if id.Str? {
      existing := table.GetJob(id.s);
    } else {
      existing := None;
    }
    assert existing == Existing(table.State(), id);
    var payload := BuildPayload(job, existing, b, calls, normalize, force);
    processed', errors' := WriteJob(table, id, payload, now, processed, errors);
  }

  /** The end of the `try`: a non-empty payload is written and the job counted; otherwise an error. */
  method WriteJob(table: JobTable, id: Value, payload: Result<Dict>, now: string, processed: nat, errors: nat)
    returns (processed': nat, errors': nat)
    requires table.Valid()
    modifies table
    ensures table.Valid()
    ensures Counts(table.State(), processed', errors') == Counted(Counts(old(table.State()), processed, errors), id, payload, now)
  {
    if payload.Err? || payload.value == map[] {
      return processed, errors + 1;
    }
    if id.Str? {
      var ok := table.UpdateJob(id.s, payload.value, now);
    }
    return processed + 1, errors;
  }

  // ------------------------------------------------------------- properties

  /** The fields other than the two accumulating ones and the two flags. */
  predicate Guarded(key: string) {
    key !in Accumulating && key !in IP.FlagFields
  }

  /**
   * Without force the details never replace a meaningful stored value,
   * except for the requirements, the materials and the two flags.
   */
  lemma DetailsKeepStored(job: Dict, e: Dict, b: Batch, key: string)
    requires DetailsPart(job, Some(e), b, false).Ok?
    requires HasMeaningfulValue(Get(e, key)) && Guarded(key)
    ensures key !in DetailsPart(job, Some(e), b, false).value
  {
    var p := Prepared(job, b).value;
    if p.Some? {
      var (d, filtered) := p.value;
      MergedKeepsStored(filtered, e, key);
      FinishedKeepsOut(Merged(filtered, Some(e), false).value, d, filtered, e, key);
    }
  }

  /** The loop over the details leaves out a guarded key the table already holds. */
  lemma MergedKeepsStored(filtered: Dict, e: Dict, key: string)
    requires Merged(filtered, Some(e), false).Ok?
    requires HasMeaningfulValue(Get(e, key)) && key !in Accumulating
    ensures key !in Merged(filtered, Some(e), false).value
  {
    if key in filtered {
      assert MergeDetail(key, filtered[key], Some(e), false) == Ok(None);
    }
  }

  /** The steps after the loop add no guarded key. */
  lemma FinishedKeepsOut(u: Dict, d: Dict, filtered: Dict, e: Dict, key: string)
    requires Finished(u, d, filtered, Some(e), false).Ok?
    requires key !in u && Guarded(key)
    ensures key !in Finished(u, d, filtered, Some(e), false).value
  {
    assert IP.FlagFields == ["requires_separate_application", "references_separate_email"];
    assert key != "requirements" && key != "application_materials";
    var u1 := WithAreas(LevelJoined(u), d, Some(e), false).value;
    assert key !in u1;
    assert key !in WithFlags(u1, filtered);
  }

  /** Under force every meaningful detail field is written, a list of materials joined with ", ". */
  lemma ForceWritesEvery(filtered: Dict, existing: Option<Dict>, key: string)
    requires Merged(filtered, existing, true).Ok? && key in filtered
    ensures var u := Merged(filtered, existing, true).value; var v := filtered[key];
      key in u && u[key] == if key == "application_materials" && v.List? then Str(JoinValues(", ", v.items).value) else v
  {
    assert MergeDetail(key, filtered[key], existing, true).Ok?;
  }

  /**
   * Without force, new requirements text is appended to stored
   * requirements after a newline, unless the stored text already contains it.
   */
  lemma RequirementsAppended(filtered: Dict, e: Dict, t: string, n: string)
    requires Merged(filtered, Some(e), false).Ok?
    requires "requirements" in filtered && filtered["requirements"] == Str(n) && Strip(n) != ""
    requires Get(e, "requirements") == Str(t) && t != ""
    ensures var u := Merged(filtered, Some(e), false).value;
      if Contains(t, n) then "requirements" !in u else "requirements" in u && u["requirements"] == Str(t + "\n" + n)
  {
    assert MergeDetail("requirements", Str(n), Some(e), false).Ok?;
  }

  /** Without force, meaningful materials from the model replace whatever the table holds. */
  lemma MaterialsReplaced(filtered: Dict, e: Dict)
    requires Merged(filtered, Some(e), false).Ok? && "application_materials" in filtered
    requires HasMeaningfulValue(filtered["application_materials"])
    ensures var u := Merged(filtered, Some(e), false).value;
      "application_materials" in u && u["application_materials"] == filtered["application_materials"]
  {
    assert MergeDetail("application_materials", filtered["application_materials"], Some(e), false).Ok?;
  }

  /** A job whose row is gone cannot merge any detail: reading the stored value raises. */
  lemma NoRowNoDetails(filtered: Dict)
    requires filtered != map[]
    ensures Merged(filtered, None, false).Err? && Merged(filtered, None, true).Err?
  {
    var k :| k in filtered;
    assert MergeDetail(k, filtered[k], None, false).Err?;
    assert MergeDetail(k, filtered[k], None, true).Err?;
  }

  /**
   * Without force the classification fills a column only when the table
   * holds nothing meaningful there and the update has not set it already.
   */
  lemma ClassificationFillsOnlyEmpty(u: Dict, c: Value, key: string, column: string, e: Dict)
    requires Classified(u, c, key, column, Some(e), false).Ok?
    requires HasMeaningfulValue(Get(e, column)) || (column == "field" && Truthy(Get(u, "field")))
      || (column != "field" && column in u)
    ensures Classified(u, c, key, column, Some(e), false) == Ok(u)
  {
  }

  /** Under force a meaningful classification value always lands in its column. */
  lemma ForceClassification(u: Dict, entries: seq<(string, Value)>, key: string, column: string, existing: Option<Dict>)
    requires key in EntriesToMap(entries) && HasMeaningfulValue(EntriesToMap(entries)[key])
    ensures Classified(u, Obj(entries), key, column, existing, true) == Ok(u[column := EntriesToMap(entries)[key]])
  {
  }

  /** A job without a track from the model and without a stored track is put in "other academia". */
  lemma DefaultTrack(u: Dict, job: Dict, b: Batch, normalize: Option<(Dict, string) -> string>)
    requires Looked(b.tracks, Get(job, "job_id")) == Ok(None)
    requires !Truthy(Get(job, "position_track")) && "position_track" !in u
    ensures TrackPart(u, job, b, normalize) == Ok(u["position_track" := Str(OtherAcademia)])
  {
  }

  /** A deadline is written exactly when the parse is truthy, meaningful and differs from the text. */
  lemma DeadlineWrittenIff(u: Dict, job: Dict, b: Batch, calls: Calls)
    requires "deadline" !in u && DeadlinePart(u, job, b, calls).Ok?
    ensures var text := GetOr(job, "deadline", Str(""));
      var found := Looked(b.deadlines, Get(job, "job_id")).value;
      var p := if found.Some? then found.value else if Truthy(text) then ParsedDeadline(text, calls).value else Null;
      var r := DeadlinePart(u, job, b, calls).value;
      ("deadline" in r <==> Truthy(p) && HasMeaningfulValue(p) && p != text) && ("deadline" in r ==> r["deadline"] == p)
  {
  }

  /**
   * As written, the title normalization the loop imports does not exist:
   * every job the track evaluator answered for ends in `ImportError`, so it
   * is counted as an error and nothing of its update is saved.
   */
  lemma TrackedJobLost(b: Batch, calls: Calls, force: bool, now: string, acc: Counts, job: Dict)
    requires Looked(b.tracks, Get(job, "job_id")).Ok? && Looked(b.tracks, Get(job, "job_id")).value.Some?
    ensures BatchStep(b, calls, None, force, now, acc, job) == acc.(errors := acc.errors + 1)
  {
    var existing := Existing(acc.store, Get(job, "job_id"));
    var d := DetailsPart(job, existing, b, force);
    if d.Ok? {
      TrackedRestFails(d.value, job, existing, b, calls, force);
    }
    assert JobPayload(acc.store, job, b, calls, None, force).Err?;
  }

  /** The steps after the details end in `ImportError` for a job the track evaluator answered for. */
  lemma TrackedRestFails(u: Dict, job: Dict, existing: Option<Dict>, b: Batch, calls: Calls, force: bool)
    requires Looked(b.tracks, Get(job, "job_id")).Ok? && Looked(b.tracks, Get(job, "job_id")).value.Some?
    ensures Rest(u, job, existing, b, calls, None, force).Err?
  {
    forall v: Dict
      ensures TrackPart(v, job, b, None).Err?
    {
    }
  }

  /** With the normalization in place, the normalized track is saved whenever it is meaningful. */
  lemma TrackedJobSaved(s: Cli.Table, job: Dict, b: Batch, calls: Calls, normalize: (Dict, string) -> string, force: bool)
    requires Looked(b.tracks, Get(job, "job_id")).Ok? && Looked(b.tracks, Get(job, "job_id")).value.Some?
    requires JobPayload(s, job, b, calls, Some(normalize), force).Ok?
    requires Strip(normalize(job, Looked(b.tracks, Get(job, "job_id")).value.value.0)) != ""
    ensures var p := JobPayload(s, job, b, calls, Some(normalize), force).value;
      "position_track" in p
      && p["position_track"] == Str(normalize(job, Looked(b.tracks, Get(job, "job_id")).value.value.0))
  {
    var existing := Existing(s, Get(job, "job_id"));
    var u := DetailsPart(job, existing, b, force).value;
    var u1 := DeadlinePart(u, job, b, calls).value;
    var u2 := ClassificationPart(u1, job, existing, b, calls, force).value;
    var u3 := TrackPart(u2, job, b, Some(normalize)).value;
    assert "position_track" in WebDbFields;
    assert LevelJoined(u3)["position_track"] == u3["position_track"];
  }

  /**
   * A job without an id, deadline, title or stored track still counts as
   * processed, for its "other academia" track, though nothing is saved.
   */
  lemma CountedWithoutId(b: Batch, calls: Calls, normalize: Option<(Dict, string) -> string>, force: bool,
                         now: string, acc: Counts, job: Dict)
    requires Get(job, "job_id") == Null && !Truthy(GetOr(job, "deadline", Str("")))
    requires !Truthy(Get(job, "title")) && !Truthy(Get(job, "position_track"))
    ensures BatchStep(b, calls, normalize, force, now, acc, job) == acc.(processed := acc.processed + 1)
  {
    NoIdPayload(acc.store, job, b, calls, normalize, force);
  }

  /** Such a job's payload is its default track alone. */
  lemma NoIdPayload(s: Cli.Table, job: Dict, b: Batch, calls: Calls,
                    normalize: Option<(Dict, string) -> string>, force: bool)
    requires Get(job, "job_id") == Null && !Truthy(GetOr(job, "deadline", Str("")))
    requires !Truthy(Get(job, "title")) && !Truthy(Get(job, "position_track"))
    ensures JobPayload(s, job, b, calls, normalize, force) == Ok(map["position_track" := Str(OtherAcademia)])
  {
    NoIdFrom(job, b, calls, normalize, force);
    assert Existing(s, Get(job, "job_id")) == Some(map[]);
  }

  lemma NoIdFrom(job: Dict, b: Batch, calls: Calls, normalize: Option<(Dict, string) -> string>, force: bool)
    requires Get(job, "job_id") == Null && !Truthy(GetOr(job, "deadline", Str("")))
    requires !Truthy(Get(job, "title")) && !Truthy(Get(job, "position_track"))
    ensures PayloadFrom(job, Some(map[]), b, calls, normalize, force) == Ok(map["position_track" := Str(OtherAcademia)])
  {
    NoIdDetails(job, b, force);
    NoIdRest(job, b, calls, normalize, force);
  }

  lemma NoIdDetails(job: Dict, b: Batch, force: bool)
    requires Get(job, "job_id") == Null
    ensures DetailsPart(job, Some(map[]), b, force) == Ok(map[])
  {
    assert Prepared(job, b) == Ok(None);
  }

  lemma NoIdRest(job: Dict, b: Batch, calls: Calls, normalize: Option<(Dict, string) -> string>, force: bool)
    requires Get(job, "job_id") == Null && !Truthy(GetOr(job, "deadline", Str("")))
    requires !Truthy(Get(job, "title")) && !Truthy(Get(job, "position_track"))
    ensures Rest(map[], job, Some(map[]), b, calls, normalize, force) == Ok(map["position_track" := Str(OtherAcademia)])
  {
    var none: Dict := map[];
    var u3: Dict := map["position_track" := Str(OtherAcademia)];
    assert DeadlinePart(none, job, b, calls) == Ok(none);
    assert ClassificationPart(none, job, Some(none), b, calls, force) == Ok(none);
    assert TrackPart(none, job, b, normalize) == Ok(u3);
    TrackOnlyPayload();
  }

  lemma TrackOnlyPayload()
    ensures Payload(LevelJoined(map["position_track" := Str(OtherAcademia)])) == map["position_track" := Str(OtherAcademia)]
  {
    assert "position_track" in WebDbFields;
  }

  /**
   * The batch fails exactly when some job raises in the deadline scan;
   * otherwise every job of the batch is counted once, as processed or as an
   * error.
   */
  lemma EveryJobCounted(s: Cli.Table, jobs: seq<Dict>, b: Batch, calls: Calls,
                        normalize: Option<(Dict, string) -> string>, force: bool, now: string)
    ensures var c := BatchAll(s, jobs, b, calls, normalize, force, now); c.processed + c.errors == |jobs|
    ensures BatchRun(s, jobs, b, calls, normalize, force, now).Err?
            <==> exists i :: 0 <= i < |jobs| && DeadlineInput(jobs[i]).Err?
    ensures var r := BatchRun(s, jobs, b, calls, normalize, force, now);
      r.Ok? ==> r.value.processed + r.value.errors == |jobs|
  {
    FoldCount(BatchStepFn(b, calls, normalize, force, now), (c: Counts) => c.processed + c.errors, Counts(s, 0, 0), jobs);
    DeadlineInputsHold(jobs);
  }

  /**
   * A job whose stored deadline is a non-zero number (the `deadline` column
   * has numeric affinity) makes the whole batch fail, so no job of it is
   * written.
   */
  lemma NumericDeadlineEndsBatch(s: Cli.Table, jobs: seq<Dict>, b: Batch, calls: Calls,
                                 normalize: Option<(Dict, string) -> string>, force: bool, now: string,
                                 i: nat, x: real, text: string)
    requires i < |jobs| && "deadline" in jobs[i] && jobs[i]["deadline"] == Num(x, text) && x != 0.0
    ensures BatchRun(s, jobs, b, calls, normalize, force, now).Err?
  {
    assert DeadlineInput(jobs[i]).Err?;
    DeadlineInputsHold(jobs);
  }
}
