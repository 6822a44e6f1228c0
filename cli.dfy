/**
 * The command-line workflow's database rules: when a stored job still
 * needs enrichment by the language model, how scraped jobs are merged into
 * the table, and how an edited CSV export is read back.
 */
module Cli {
  import opened Wrappers
  import opened StringUtil
  import opened Values
  import opened JobDb
  import opened Folds

  // ------------------------------------------------------ _needs_llm_processing

  /** The text fields the language model fills in. */
  const EnrichedText: seq<string> :=
    ["extracted_deadline", "application_portal_url", "country", "application_materials"]

  /** The boolean fields the language model fills in. */
  const EnrichedFlags: seq<string> := ["requires_separate_application", "references_separate_email"]

  /** `any(has_text(job.get(k)) for k in keys)`. */
  predicate AnyText(job: Dict, keys: seq<string>)
    decreases |keys|
  {
    keys != [] && (HasMeaningfulValue(Get(job, keys[0])) || AnyText(job, keys[1..]))
  }

  /** `any(bool(job.get(k)) for k in keys)`. */
  predicate AnyFlag(job: Dict, keys: seq<string>)
    decreases |keys|
  {
    keys != [] && (Truthy(Get(job, keys[0])) || AnyFlag(job, keys[1..]))
  }

  /** `_needs_llm_processing(job)`: none of the enriched fields holds anything. */
  predicate NeedsLlmProcessing(job: Dict) {
    !(AnyText(job, EnrichedText) || AnyFlag(job, EnrichedFlags))
  }

  lemma {:induction false} AnyTextIff(job: Dict, keys: seq<string>)
    ensures AnyText(job, keys) <==> exists k :: k in keys && HasMeaningfulValue(Get(job, k))
    decreases |keys|
  {
    if keys != [] {
      AnyTextIff(job, keys[1..]);
      assert forall k :: k in keys <==> k == keys[0] || k in keys[1..];
    }
  }

  lemma {:induction false} AnyFlagIff(job: Dict, keys: seq<string>)
    ensures AnyFlag(job, keys) <==> exists k :: k in keys && Truthy(Get(job, k))
    decreases |keys|
  {
    if keys != [] {
      AnyFlagIff(job, keys[1..]);
      assert forall k :: k in keys <==> k == keys[0] || k in keys[1..];
    }
  }

  /**
   * A job needs processing exactly when each enriched text field is absent,
   * `None` or blank and each enriched flag is falsy.
   */
  lemma NeedsIff(job: Dict)
    ensures NeedsLlmProcessing(job) <==>
      (forall k :: k in EnrichedText ==> !HasMeaningfulValue(Get(job, k)))
      && (forall k :: k in EnrichedFlags ==> !Truthy(Get(job, k)))
  {
    AnyTextIff(job, EnrichedText);
    AnyFlagIff(job, EnrichedFlags);
  }

  /**
   * A flag stored as `False` or 0 leaves the job unprocessed, although such
   * a value counts as meaningful for `has_meaningful_value`.
   */
  lemma FalseFlagStillNeeds(job: Dict, k: string, v: Value)
    requires k in EnrichedFlags && (v == Bool(false) || v == Num(0.0, "0"))
    requires NeedsLlmProcessing(job)
    ensures NeedsLlmProcessing(job[k := v]) && HasMeaningfulValue(v)
  {
    NeedsIff(job);
    NeedsIff(job[k := v]);
  }

  /** Any meaningful enriched text, or any truthy enriched flag, marks the job processed. */
  lemma EnrichedValueMarksProcessed(job: Dict, k: string, v: Value)
    requires (k in EnrichedText && HasMeaningfulValue(v)) || (k in EnrichedFlags && Truthy(v))
    ensures !NeedsLlmProcessing(job[k := v])
  {
    NeedsIff(job[k := v]);
  }

  /** Fields other than the six enriched ones have no say. */
  lemma OtherKeysIrrelevant(job: Dict, k: string, v: Value)
    requires k !in EnrichedText && k !in EnrichedFlags
    ensures NeedsLlmProcessing(job[k := v]) == NeedsLlmProcessing(job)
  {
    NeedsIff(job);
    NeedsIff(job[k := v]);
    assert forall c :: c in EnrichedText ==> Get(job[k := v], c) == Get(job, c);
    assert forall c :: c in EnrichedFlags ==> Get(job[k := v], c) == Get(job, c);
  }

  // ------------------------------------------------------------ update_database

  /** The keys of `db_job`. */
  const DbJobKeys: seq<string> := [
    "job_id", "title", "institution", "position_type", "field", "level",
    "deadline", "extracted_deadline", "location", "country", "description",
    "requirements", "contact_info", "posted_date", "fit_score", "application_status",
    "application_portal_url", "requires_separate_application",
    "application_materials", "references_separate_email"]

  /** Where the keys `update_database` treats specially sit in `DbJobKeys`. */
  lemma DbJobKeysListed()
    ensures "application_status" in DbJobKeys && "fit_score" in DbJobKeys
    ensures forall k :: k in EnrichedFlags ==> k in DbJobKeys
    ensures forall k :: k in EnrichedText ==> k in DbJobKeys
  {
    assert DbJobKeys[15] == "application_status" && DbJobKeys[14] == "fit_score";
    assert DbJobKeys[17] == EnrichedFlags[0] && DbJobKeys[19] == EnrichedFlags[1];
    assert DbJobKeys[7] == EnrichedText[0] && DbJobKeys[16] == EnrichedText[1];
    assert DbJobKeys[9] == EnrichedText[2] && DbJobKeys[18] == EnrichedText[3];
  }

  /** `db_job[k]` as the code builds it: the status defaults to 'new', both flags to `False`. */
  function DbValueAsWritten(job: Dict, k: string): Value {
    if k == "application_status" then GetOr(job, k, Str("new"))
    else if k in EnrichedFlags then GetOr(job, k, Bool(false))
    else Get(job, k)
  }

  /** `db_job` as the code builds it. */
  function DbJobAsWritten(job: Dict): Dict {
    map k | k in DbJobKeys :: DbValueAsWritten(job, k)
  }

  /** `db_job[k]` with no default for the flags, so that a job without them leaves them alone. */
  function DbValue(job: Dict, k: string): Value {
    if k == "application_status" then GetOr(job, k, Str("new")) else Get(job, k)
  }

  /** `db_job` without the flag defaults. */
  function DbJob(job: Dict): Dict {
    map k | k in DbJobKeys :: DbValue(job, k)
  }

  /**
   * The keys dropped from the payload of a known job: a status that is set
   * and not 'new', and a stored score when the incoming one is `None`.
   */
  function Preserved(existing: Dict, db: Dict): (p: set<string>)
    ensures p <= {"application_status", "fit_score"}
  {
    (if Truthy(Get(existing, "application_status")) && Get(existing, "application_status") != Str("new")
     then {"application_status"} else {})
    + (if Get(existing, "fit_score") != Null && Get(db, "fit_score") == Null then {"fit_score"} else {})
  }

  /** A table in a consistent state. */
  type Table = s: Store | WellFormed(s) witness Initial()

  /** The table and the two counters after some jobs; `aborted` once an id could not be hashed. */
  datatype Tally = Tally(store: Table, added: nat, updated: nat, aborted: bool)

  /**
   * One job of the loop. `known` is the table as it was read at the start;
   * `build` makes `db_job`. A falsy id is skipped; a list or dict id makes
   * `job_id in existing_ids` raise, which ends the whole update.
   */
  function SyncStep(known: map<string, Dict>, s: Table, job: Dict, now: string, build: Dict -> Dict)
    : (r: Tally)
    ensures r.store.columns == s.columns && r.added + r.updated <= 1
    ensures r.aborted ==> r.store == s
  {
    var id := Get(job, "job_id");
    if !Truthy(id) then Tally(s, 0, 0, false)
    else if id.List? || id.Obj? then Tally(s, 0, 0, true)
    else
      var db := build(job);
      if id.Str? && id.s in known then
        var r := Update(s, id.s, db - Preserved(known[id.s], db), now);
        Tally(r.0, 0, if r.1 then 1 else 0, false)
      else
        var r := Add(s, db, now);
        Tally(r.0, if r.1 then 1 else 0, 0, false)
  }

  /** The counters after a step: the step's table and abort flag, the sums of the counts. */
  function Combine(acc: Tally, t: Tally): Tally {
    Tally(t.store, acc.added + t.added, acc.updated + t.updated, t.aborted)
  }

  /** The tally after one more job; nothing moves once the loop has been aborted. */
  function Advance(known: map<string, Dict>, now: string, build: Dict -> Dict, acc: Tally, job: Dict): Tally {
    if acc.aborted then acc else Combine(acc, SyncStep(known, acc.store, job, now, build))
  }

  function SyncStepFn(known: map<string, Dict>, now: string, build: Dict -> Dict): (Tally, Dict) -> Tally {
    (acc: Tally, job: Dict) => Advance(known, now, build, acc, job)
  }

  /** The merge loop over `jobs`, from an initial tally. */
  function Sync(known: map<string, Dict>, acc: Tally, jobs: seq<Dict>, now: string, build: Dict -> Dict): Tally {
    Fold(SyncStepFn(known, now, build), acc, jobs)
  }

  /**
   * `update_database(jobs)`: the merge loop, then `mark_expired()`; a raised
   * error returns (0, 0) and keeps what was already written.
   */
  function DatabaseUpdated(s: Table, jobs: seq<Dict>, now: string, today: string, build: Dict -> Dict)
    : (r: (Table, nat, nat))
  {
    var t := Sync(s.rows, Tally(s, 0, 0, false), jobs, now, build);
    if t.aborted then (t.store, 0, 0)
    else (Expire(t.store, Threshold(None, today)).0, t.added, t.updated)
  }

  /**
   * What the loop of `update_database` needs of its step: before an abort it
   * is `SyncStep` with the counts added up, after one it does nothing.
   */
  ghost predicate StepSpec(step: (Tally, Dict) -> Tally, known: map<string, Dict>, now: string) {
    (forall a: Tally, j: Dict {:trigger SyncStep(known, a.store, j, now, DbJob)} ::
      !a.aborted ==> step(a, j) == Combine(a, SyncStep(known, a.store, j, now, DbJob)))
    && (forall a: Tally, j: Dict :: a.aborted ==> step(a, j) == a)
  }

  lemma SyncStepFnSpec(known: map<string, Dict>, now: string)
    ensures StepSpec(SyncStepFn(known, now, DbJob), known, now)
  {
  }

  /** `update_database(jobs)` on the live table. */
  method UpdateDatabase(table: JobTable, jobs: seq<Dict>, now: string, today: string)
    returns (newCount: nat, updatedCount: nat)
    requires table.Valid()
    modifies table
    ensures table.Valid()
    ensures (table.State(), newCount, updatedCount) == DatabaseUpdated(old(table.State()), jobs, now, today, DbJob)
  {
    // `existing_jobs`: `get_all_jobs()` lists every row; only keyed rows can match a truthy id.
    var known := table.rows;
    SyncStepFnSpec(known, now);
    var aborted;
    newCount, updatedCount, aborted := MergeJobs(table, known, jobs, now, SyncStepFn(known, now, DbJob));
    if aborted {
      return 0, 0;
    }
    var expired := table.MarkExpired(None, today);
  }

  /**
   * The loop of `update_database`. `step` is the specification of one pass
   * of its body, so the loop is shown to be that fold.
   */
  method MergeJobs(table: JobTable, known: map<string, Dict>, jobs: seq<Dict>, now: string,
                   ghost step: (Tally, Dict) -> Tally)
    returns (newCount: nat, updatedCount: nat, aborted: bool)
    requires table.Valid() && StepSpec(step, known, now)
    modifies table
    ensures table.Valid()
    ensures Tally(table.State(), newCount, updatedCount, aborted) == Fold(step, Tally(old(table.State()), 0, 0, false), jobs)
  {
    ghost var start := Tally(table.State(), 0, 0, false);
    newCount, updatedCount := 0, 0;
    var i := 0;
    while i < |jobs|
      invariant table.Valid() && 0 <= i <= |jobs|
      invariant Fold(step, Tally(table.State(), newCount, updatedCount, false), jobs[i..]) == Fold(step, start, jobs)
    {
      ghost var before := Tally(table.State(), newCount, updatedCount, false);
      FoldStep(step, before, jobs, i);
      var added, updated, stop := MergeJob(table, known, jobs[i], now, step, before);
      newCount, updatedCount := newCount + added, updatedCount + updated;
      if stop {
        FoldAbsorbing(step, Tally(table.State(), newCount, updatedCount, true), jobs[i + 1..]);
        return newCount, updatedCount, true;
      }
      i := i + 1;
    }
    FoldDone(step, Tally(table.State(), newCount, updatedCount, false), jobs);
    aborted := false;
  }

  /** One pass of the loop body of `update_database`, on the live table. */
  method MergeJob(table: JobTable, known: map<string, Dict>, job: Dict, now: string,
                  ghost step: (Tally, Dict) -> Tally, ghost before: Tally)
    returns (added: nat, updated: nat, aborted: bool)
    requires table.Valid() && StepSpec(step, known, now)
    requires before.store == table.State() && !before.aborted
    modifies table
    ensures table.Valid()
    ensures step(before, job) == Tally(table.State(), before.added + added, before.updated + updated, aborted)
  {
    var id := Get(job, "job_id");
    ghost var t := SyncStep(known, before.store, job, now, DbJob);
    assert step(before, job) == Combine(before, t);
    if !Truthy(id) {
      return 0, 0, false;
    }
    if id.List? || id.Obj? {
      return 0, 0, true;
    }
    var db := DbJob(job);
    if id.Str? && id.s in known {
      var payload := db - Preserved(known[id.s], db);
      ghost var u := Update(before.store, id.s, payload, now);
      assert t == Tally(u.0, 0, if u.1 then 1 else 0, false);
      var ok := table.UpdateJob(id.s, payload, now);
      return 0, if ok then 1 else 0, false;
    }
    ghost var a := Add(before.store, db, now);
    assert t == Tally(a.0, if a.1 then 1 else 0, 0, false);
    var ok := table.AddJob(db, now);
    return if ok then 1 else 0, 0, false;
  }

  /** Jobs without an id change nothing and count nothing. */
  lemma IdlessJobsSkipped(known: map<string, Dict>, acc: Tally, jobs: seq<Dict>, now: string, build: Dict -> Dict)
    requires forall i :: 0 <= i < |jobs| ==> !Truthy(Get(jobs[i], "job_id"))
    ensures Sync(known, acc, jobs, now, build) == acc
  {
    FoldFixed(SyncStepFn(known, now, build), acc, jobs);
  }

  /** Each job counts at most once, as new or as updated, and counts only grow. */
  lemma CountsBounded(known: map<string, Dict>, acc: Tally, jobs: seq<Dict>, now: string, build: Dict -> Dict)
    ensures var r := Sync(known, acc, jobs, now, build);
      acc.added <= r.added && acc.updated <= r.updated
      && r.added + r.updated <= acc.added + acc.updated + |jobs|
  {
    var step := SyncStepFn(known, now, build);
    FoldMonotone(step, (t: Tally) => t.added, acc, jobs);
    FoldMonotone(step, (t: Tally) => t.updated, acc, jobs);
    FoldGrowth(step, (t: Tally) => t.added + t.updated, acc, jobs);
  }

  /**
   * A job whose id was in the table at the start is updated, never added:
   * no row appears or disappears and the other rows are untouched.
   */
  lemma KnownIdUpdated(known: map<string, Dict>, s: Table, job: Dict, k: string, now: string, build: Dict -> Dict)
    requires Get(job, "job_id") == Str(k) && k != "" && k in known
    ensures var r := SyncStep(known, s, job, now, build);
      r.added == 0 && !r.aborted && r.store.rows.Keys == s.rows.Keys && r.store.orphans == s.orphans
      && forall j :: j in s.rows && j != k ==> r.store.rows[j] == s.rows[j]
  {
    KnownStep(known, s, job, k, now, build);
  }

  /** A job whose id the table held at the start goes through `update_job` with the merged row. */
  lemma KnownStep(known: map<string, Dict>, s: Table, job: Dict, k: string, now: string, build: Dict -> Dict)
    requires Get(job, "job_id") == Str(k) && k != "" && k in known
    ensures var db := build(job);
      var u := Update(s, k, db - Preserved(known[k], db), now);
      && SyncStep(known, s, job, now, build) == Tally(u.0, 0, if u.1 then 1 else 0, false)
      && (forall j :: j in s.rows && j != k ==> u.0.rows[j] == s.rows[j])
      && (u.1 ==> forall c :: c in s.columns ==>
            u.0.rows[k][c] == if c == "last_updated" then Str(now)
                              else if c in db - Preserved(known[k], db) && c != "job_id" && db[c] != Null then db[c]
                              else s.rows[k][c])
  {
    var db := build(job);
    UpdatedRows(s, k, db - Preserved(known[k], db), now);
  }

  /** A job with an id the table did not hold at the start is added, never updated; stored rows stay. */
  lemma UnknownIdAdded(known: map<string, Dict>, s: Table, job: Dict, now: string, build: Dict -> Dict)
    requires var id := Get(job, "job_id"); Truthy(id) && !id.List? && !id.Obj? && !(id.Str? && id.s in known)
    ensures var r := SyncStep(known, s, job, now, build);
      r.updated == 0 && !r.aborted && forall j :: j in s.rows ==> j in r.store.rows && r.store.rows[j] == s.rows[j]
  {
    AddKeepsRows(s, build(job), now);
  }

  /** A status the user set (anything truthy but 'new') survives the merge. */
  lemma UserStatusPreserved(known: map<string, Dict>, s: Table, job: Dict, k: string, now: string, build: Dict -> Dict)
    requires Get(job, "job_id") == Str(k) && k != "" && k in known && k in s.rows
    requires var st := Get(known[k], "application_status"); Truthy(st) && st != Str("new")
    ensures SyncStep(known, s, job, now, build).store.rows[k]["application_status"]
      == s.rows[k]["application_status"]
  {
    KnownStep(known, s, job, k, now, build);
  }

  /** A stored score survives when the incoming job has none. */
  lemma ScorePreserved(known: map<string, Dict>, s: Table, job: Dict, k: string, now: string)
    requires Get(job, "job_id") == Str(k) && k != "" && k in known && k in s.rows
    requires Get(job, "fit_score") == Null
    ensures SyncStep(known, s, job, now, DbJob).store.rows[k]["fit_score"] == s.rows[k]["fit_score"]
  {
    DbJobKeysListed();
    KnownStep(known, s, job, k, now, DbJob);
  }

  /**
   * As written, merging a scraped job that carries no flags into a known
   * row sets both flags to `False`, whatever enrichment had stored there.
   */
  lemma FlagsResetAsWritten(known: map<string, Dict>, s: Table, job: Dict, k: string, flag: string, now: string)
    requires Get(job, "job_id") == Str(k) && k != "" && k in known
    requires flag in EnrichedFlags && flag !in job
    requires SyncStep(known, s, job, now, DbJobAsWritten).updated == 1
    ensures k in s.rows && flag in s.columns
    ensures SyncStep(known, s, job, now, DbJobAsWritten).store.rows[k][flag] == Bool(false)
  {
    DbJobKeysListed();
    KnownStep(known, s, job, k, now, DbJobAsWritten);
    FlagDefaulted(job, flag);
    var db := DbJobAsWritten(job);
    assert flag in db - Preserved(known[k], db);
    assert flag in Fields(db - Preserved(known[k], db));
  }

  /** As written, `db_job` gives a flag the job does not carry the value `False`. */
  lemma FlagDefaulted(job: Dict, flag: string)
    requires flag in EnrichedFlags && flag !in job
    ensures flag in DbJobAsWritten(job) && DbJobAsWritten(job)[flag] == Bool(false)
  {
    DbJobKeysListed();
    assert flag != "application_status";
  }

  /** Without the defaults, enriched fields the scraped job does not carry keep their stored values. */
  lemma EnrichedFieldsKept(known: map<string, Dict>, s: Table, job: Dict, k: string, c: string, now: string)
    requires Get(job, "job_id") == Str(k) && k != "" && k in known && k in s.rows
    requires (c in EnrichedFlags || c in EnrichedText) && c !in job && c in s.columns
    ensures SyncStep(known, s, job, now, DbJob).store.rows[k][c] == s.rows[k][c]
  {
    DbJobKeysListed();
    KnownStep(known, s, job, k, now, DbJob);
    var db := DbJob(job);
    assert c != "application_status" && c != "last_updated";
    assert db[c] == Null;
  }

  // ------------------------------------------------------------- import_from_csv

  /** A CSV row as `csv.DictReader` reads it; a missing trailing cell is `None`. */
  type CsvRow = map<string, Option<string>>

  /** Cell `k` goes into the update: not the id, not blank, and a score that `float()` reads. */
  predicate Imported(row: CsvRow, k: string, parse: string -> Option<real>) {
    k in row && k != "job_id" && row[k].Some? && Strip(row[k].value) != ""
    && (k == "fit_score" ==> parse(row[k].value).Some?)
  }

  /**
   * The update a row gives: stripped cells, the score as a float.
   * `parse` stands for `float()` on a string and `repr` for the text of the
   * float it returns.
   */
  function RowUpdate(row: CsvRow, parse: string -> Option<real>, repr: real -> string): Dict {
    map k | k in row && Imported(row, k, parse) ::
      if k == "fit_score" then
        var x := parse(row[k].value).value; Num(x, repr(x))
      else Str(Strip(row[k].value))
  }

  /** The loop over `row.items()`. */
  method CollectRowUpdate(row: CsvRow, parse: string -> Option<real>, repr: real -> string)
    returns (update: Dict)
    ensures update == RowUpdate(row, parse, repr)
  {
    update := map[];
    var pending := row.Keys;
    while pending != {}
      invariant pending <= row.Keys
      invariant forall k :: k in update <==> k in row && k !in pending && Imported(row, k, parse)
      invariant forall k :: k in update ==> update[k] == RowUpdate(row, parse, repr)[k]
      decreases pending
    {
      var k :| k in pending;
      var value := row[k];
      if k != "job_id" && value.Some? && Strip(value.value) != "" {
        if k == "fit_score" {
          var x := parse(value.value);
          if x.Some? {
            update := update[k := Num(x.value, repr(x.value))];
          }
        } else {
          update := update[k := Str(Strip(value.value))];
        }
      }
      pending := pending - {k};
    }
  }

  /** The id of a row: the stripped cell, or `None` where `.strip()` on a missing cell raises. */
  function RowId(row: CsvRow): Option<string> {
    if "job_id" !in row then Some("")
    else if row["job_id"].None? then None
    else Some(Strip(row["job_id"].value))
  }

  /** The table and the two counters of the import after some rows. */
  datatype ImportTally = ImportTally(store: Table, updated: nat, errors: nat)

  /** One row: it counts as updated, as an error, or not at all. */
  function ImportRow(parse: string -> Option<real>, repr: real -> string, now: string, acc: ImportTally, row: CsvRow)
    : (r: ImportTally)
    ensures r.store.columns == acc.store.columns
    ensures acc.updated <= r.updated && acc.errors <= r.errors && r.updated + r.errors <= acc.updated + acc.errors + 1
  {
    var s := acc.store;
    match RowId(row)
    case None => acc.(errors := acc.errors + 1)
    case Some(id) =>
      if id == "" || Lookup(s, id).None? then acc.(errors := acc.errors + 1)
      else
        var data := RowUpdate(row, parse, repr);
        if data == map[] then acc
        else
          var r := Update(s, id, data, now);
          if r.1 then ImportTally(r.0, acc.updated + 1, acc.errors) else acc.(errors := acc.errors + 1)
  }

  function ImportRowFn(parse: string -> Option<real>, repr: real -> string, now: string)
    : (ImportTally, CsvRow) -> ImportTally
  {
    (acc: ImportTally, row: CsvRow) => ImportRow(parse, repr, now, acc, row)
  }

  /** The loop over the rows of the file. */
  function ImportAll(s: Table, rows: seq<CsvRow>, parse: string -> Option<real>, repr: real -> string, now: string)
    : ImportTally
  {
    Fold(ImportRowFn(parse, repr, now), ImportTally(s, 0, 0), rows)
  }

  /** `import_from_csv(path)`; `file` is `None` when the path does not exist. */
  method ImportFromCsv(table: JobTable, file: Option<seq<CsvRow>>, parse: string -> Option<real>,
                       repr: real -> string, now: string)
    returns (updatedCount: nat, errorCount: nat)
    requires table.Valid()
    modifies table
    ensures table.Valid()
    ensures file.None? ==> updatedCount == 0 && errorCount == 0 && table.State() == old(table.State())
    ensures file.Some? ==>
      ImportTally(table.State(), updatedCount, errorCount) == ImportAll(old(table.State()), file.value, parse, repr, now)
  {
    if file.None? {
      return 0, 0;
    }
    var rows := file.value;
    ghost var step := ImportRowFn(parse, repr, now);
    ghost var start := ImportTally(table.State(), 0, 0);
    updatedCount, errorCount := 0, 0;
    var i := 0;
    while i < |rows|
      invariant table.Valid() && 0 <= i <= |rows|
      invariant Fold(step, ImportTally(table.State(), updatedCount, errorCount), rows[i..]) == Fold(step, start, rows)
    {
      ghost var before := ImportTally(table.State(), updatedCount, errorCount);
      FoldStep(step, before, rows, i);
      updatedCount, errorCount := ImportOne(table, rows[i], parse, repr, now, updatedCount, errorCount);
      assert step(before, rows[i]) == ImportTally(table.State(), updatedCount, errorCount);
      i := i + 1;
    }
    FoldDone(step, ImportTally(table.State(), updatedCount, errorCount), rows);
  }

  /** The body of the row loop of `import_from_csv`, on the live table. */
  method ImportOne(table: JobTable, row: CsvRow, parse: string -> Option<real>, repr: real -> string, now: string,
                   updated: nat, errors: nat)
    returns (updated': nat, errors': nat)
    requires table.Valid()
    modifies table
    ensures table.Valid()
    ensures ImportTally(table.State(), updated', errors')
      == ImportRow(parse, repr, now, ImportTally(old(table.State()), updated, errors), row)
  {
    var id := RowId(row);
    if id.None? || id.value == "" || table.GetJob(id.value).None? {
      return updated, errors + 1;
    }
    var data := CollectRowUpdate(row, parse, repr);
    if data == map[] {
      return updated, errors;
    }
    ImportRowApplies(ImportTally(table.State(), updated, errors), row, parse, repr, now);
    updated', errors' := ApplyRowUpdate(table, id.value, data, now, updated, errors);
  }

  /** The `UPDATE` of one imported row and the counter it moves. */
  method ApplyRowUpdate(table: JobTable, id: string, data: Dict, now: string, updated: nat, errors: nat)
    returns (updated': nat, errors': nat)
    requires table.Valid()
    modifies table
    ensures table.Valid()
    ensures var r := Update(old(table.State()), id, data, now);
      ImportTally(table.State(), updated', errors')
      == if r.1 then ImportTally(r.0, updated + 1, errors) else ImportTally(old(table.State()), updated, errors + 1)
  {
    var ok := table.UpdateJob(id, data, now);
    if ok {
      return updated + 1, errors;
    }
    return updated, errors + 1;
  }

  /** A row with a stored id and something to import is an `UPDATE` of that row. */
  lemma ImportRowApplies(acc: ImportTally, row: CsvRow, parse: string -> Option<real>, repr: real -> string, now: string)
    requires RowId(row).Some? && RowId(row).value != "" && RowId(row).value in acc.store.rows
    requires RowUpdate(row, parse, repr) != map[]
    ensures var r := Update(acc.store, RowId(row).value, RowUpdate(row, parse, repr), now);
      ImportRow(parse, repr, now, acc, row)
      == if r.1 then ImportTally(r.0, acc.updated + 1, acc.errors) else acc.(errors := acc.errors + 1)
  {
  }

  /** A row without an id, or with one the table does not hold, is an error and changes nothing. */
  lemma RowWithoutKnownId(acc: ImportTally, row: CsvRow, parse: string -> Option<real>, repr: real -> string, now: string)
    requires RowId(row).None? || RowId(row).value == "" || RowId(row).value !in acc.store.rows
    ensures ImportRow(parse, repr, now, acc, row) == acc.(errors := acc.errors + 1)
  {
  }

  /** Every row counts at most once, as updated or as an error, and counts only grow. */
  lemma ImportCounted(s: Table, rows: seq<CsvRow>, parse: string -> Option<real>, repr: real -> string, now: string)
    ensures var r := ImportAll(s, rows, parse, repr, now); r.updated + r.errors <= |rows|
  {
    FoldGrowth(ImportRowFn(parse, repr, now), (t: ImportTally) => t.updated + t.errors, ImportTally(s, 0, 0), rows);
  }

  /** A row that counts as updated is an `UPDATE` of a stored row that took effect. */
  lemma ImportedRowApplied(acc: ImportTally, row: CsvRow, parse: string -> Option<real>, repr: real -> string,
                           now: string)
    requires ImportRow(parse, repr, now, acc, row).updated == acc.updated + 1
    ensures RowId(row).Some? && RowId(row).value in acc.store.rows
    ensures var r := Update(acc.store, RowId(row).value, RowUpdate(row, parse, repr), now);
      r.1 && ImportRow(parse, repr, now, acc, row).store == r.0
  {
  }

  /** The cells a row imports are exactly those `Imported` picks, stripped, the score as a float. */
  lemma RowUpdateCell(row: CsvRow, parse: string -> Option<real>, repr: real -> string, c: string)
    ensures c in RowUpdate(row, parse, repr) <==> Imported(row, c, parse)
    ensures Imported(row, c, parse) && c != "fit_score" ==> RowUpdate(row, parse, repr)[c] == Str(Strip(row[c].value))
    ensures Imported(row, c, parse) && c == "fit_score" ==>
      var v := RowUpdate(row, parse, repr)[c]; v.Num? && v.x == parse(row[c].value).value
  {
  }

  /**
   * After an imported row, each non-blank cell is stored stripped (the score
   * as a float), and the other columns keep their values.
   */
  lemma ImportedCellsStored(acc: ImportTally, row: CsvRow, parse: string -> Option<real>, repr: real -> string,
                            now: string, c: string)
    requires ImportRow(parse, repr, now, acc, row).updated == acc.updated + 1 && c in acc.store.columns
    ensures RowId(row).Some? && RowId(row).value in acc.store.rows
    ensures var id := RowId(row).value; var t := ImportRow(parse, repr, now, acc, row).store;
      id in t.rows
      && (Imported(row, c, parse) && c != "fit_score" && c != "last_updated" ==>
            t.rows[id][c] == Str(Strip(row[c].value)))
      && (c == "fit_score" && Imported(row, c, parse) ==>
            t.rows[id][c].Num? && t.rows[id][c].x == parse(row[c].value).value)
      && (!Imported(row, c, parse) && c != "last_updated" ==> t.rows[id][c] == acc.store.rows[id][c])
  {
    ImportedRowApplied(acc, row, parse, repr, now);
    RowUpdateCell(row, parse, repr, c);
  }

  /** A score cell `float()` rejects is left out; the rest of the row is still imported. */
  lemma BadScoreSkipped(row: CsvRow, parse: string -> Option<real>, repr: real -> string, c: string)
    requires "fit_score" in row && row["fit_score"].Some? && parse(row["fit_score"].value).None?
    ensures "fit_score" !in RowUpdate(row, parse, repr)
    ensures c != "fit_score" ==> (c in RowUpdate(row, parse, repr) <==> Imported(row, c, parse))
  {
  }
}
