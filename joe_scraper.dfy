/**
 * The scraper's deterministic part: the fallback job id built from a
 * posting's institution and title, turning the rows of the AEA JOE export
 * into job dictionaries, and sorting scraped jobs into new and already
 * known ones. Downloading and reading the spreadsheet are not modelled;
 * the rows come in as cells, and MD5 is a parameter.
 */
module JoeScraper {
  import opened Wrappers
  import opened StringUtil
  import opened Values

  /** The text hashed by `generate_job_id`: `institution|title`, then `|extra` when it is not empty. */
  function Key(institution: string, title: string, extra: Option<string>): string {
    institution + "|" + title + ExtraPart(extra)
  }

  function ExtraPart(extra: Option<string>): string {
    if extra.Some? && extra.value != "" then "|" + extra.value else ""
  }

  /** `generate_job_id(institution, title, additional_data)`; `md5` stands for the hex digest. */
  function GenerateJobId(institution: string, title: string, extra: Option<string>,
                         md5: string -> string): string {
    md5(Key(institution, title, extra))
  }

  /** The bar opening `b` sits inside a longer `c`. */
  lemma BarInside(a: string, b: string, c: string, d: string)
    requires a + b == c + d && b != [] && b[0] == '|' && |a| < |c|
    ensures c[|a|] == '|'
  {
    assert (a + b)[|a|] == b[0];
    assert (c + d)[|a|] == c[|a|];
  }

  /** `a + b == c + d` with no bar in `a` or `c`, each tail empty or starting with a bar. */
  lemma FirstBar(a: string, b: string, c: string, d: string)
    requires '|' !in a && '|' !in c && a + b == c + d
    requires b == [] || b[0] == '|'
    requires d == [] || d[0] == '|'
    ensures a == c && b == d
  {
    var s := a + b;
    if |a| < |c| {
      if b == [] { assert false; } else { BarInside(a, b, c, d); assert false; }
    }
    if |c| < |a| {
      if d == [] { assert false; } else { BarInside(c, d, a, b); assert false; }
    }
    assert a == s[..|a|] && c == s[..|c|];
    assert b == s[|a|..] && d == s[|c|..];
  }

  /**
   * When neither institution nor title contains a bar, the hashed text
   * determines the institution, the title and the extra data (an empty
   * extra counting as none).
   */
  lemma KeyInjective(i1: string, t1: string, e1: Option<string>, i2: string, t2: string, e2: Option<string>)
    requires '|' !in i1 && '|' !in t1 && '|' !in i2 && '|' !in t2
    requires Key(i1, t1, e1) == Key(i2, t2, e2)
    ensures i1 == i2 && t1 == t2 && ExtraPart(e1) == ExtraPart(e2)
  {
    var x1, x2 := ExtraPart(e1), ExtraPart(e2);
    assert x1 == [] || x1[0] == '|';
    assert x2 == [] || x2[0] == '|';
    var r1, r2 := "|" + (t1 + x1), "|" + (t2 + x2);
    assert Key(i1, t1, e1) == i1 + r1;
    assert Key(i2, t2, e2) == i2 + r2;
    FirstBar(i1, r1, i2, r2);
    assert t1 + x1 == r1[1..] == r2[1..] == t2 + x2;
    FirstBar(t1, x1, t2, x2);
  }

  /** Without that restriction two different postings share a key. */
  lemma BarsCollide()
    ensures Key("A|B", "C", None) == Key("A", "B|C", None)
  {
  }

  /**
   * One spreadsheet cell as pandas yields it: `Blank` for an empty cell,
   * which pandas reads as NaN, and otherwise the text `str()` gives for it.
   */
  datatype Cell = Blank | Rendered(text: string)

  /** A row of the export, by column name. */
  type Row = map<string, Cell>

  /** `str(row.get(col, ''))` as written: `str()` of NaN is `"nan"`. */
  function CellTextAsWritten(row: Row, col: string): string {
    if col !in row then ""
    else match row[col]
      case Blank => "nan"
      case Rendered(s) => s
  }

  /** The cell's text with an empty cell read as empty, as the fallback id requires. */
  function CellText(row: Row, col: string): string {
    if col !in row then ""
    else match row[col]
      case Blank => ""
      case Rendered(s) => s
  }

  /** A stripped field of the row. */
  function Field(row: Row, col: string): (r: string)
    ensures Trimmed(r)
  {
    Strip(CellText(row, col))
  }

  /** The choice of `job_id` in `parse_job_listings`, as written. */
  function JobIdAsWritten(row: Row, md5: string -> string): string {
    var jpId := Strip(CellTextAsWritten(row, "jp_id"));
    if jpId != "" then jpId
    else GenerateJobId(Strip(CellTextAsWritten(row, "jp_institution")),
                       Strip(CellTextAsWritten(row, "jp_title")),
                       Some(Strip(CellTextAsWritten(row, "Date_Active"))), md5)
  }

  /** An empty `jp_id` cell gives the id `"nan"`, so every such posting gets the same id. */
  lemma BlankIdsCollide(r1: Row, r2: Row, md5: string -> string)
    requires "jp_id" in r1 && r1["jp_id"] == Blank
    requires "jp_id" in r2 && r2["jp_id"] == Blank
    ensures JobIdAsWritten(r1, md5) == "nan" && JobIdAsWritten(r2, md5) == "nan"
  {
    assert Strip("nan") == "nan" by { StripOfTrimmed("nan"); }
  }

  /** The choice of `job_id`: the stripped `jp_id` when there is one, the generated id otherwise. */
  function JobId(row: Row, md5: string -> string): string {
    var jpId := Field(row, "jp_id");
    if jpId != "" then jpId
    else GenerateJobId(Field(row, "jp_institution"), Field(row, "jp_title"),
                       Some(Field(row, "Date_Active")), md5)
  }

  /**
   * An empty or blank `jp_id` falls back to the hash of institution, title
   * and posting date; so postings without one get ids as distinct as those.
   */
  lemma BlankIdGenerated(row: Row, md5: string -> string)
    requires "jp_id" !in row || row["jp_id"] == Blank || AllSpace(row["jp_id"].text)
    ensures JobId(row, md5) == md5(Key(Field(row, "jp_institution"), Field(row, "jp_title"),
                                       Some(Field(row, "Date_Active"))))
  {
    if "jp_id" in row && row["jp_id"].Rendered? {
      StripAllSpace(row["jp_id"].text);
    }
  }

  lemma StripAllSpace(s: string)
    requires AllSpace(s)
    ensures Strip(s) == ""
  {
    TrimLeftSuffix(s);
  }

  /** A non-blank `jp_id` is the job id, stripped. */
  lemma PresentIdKept(row: Row, md5: string -> string)
    requires Field(row, "jp_id") != ""
    ensures JobId(row, md5) == Strip(row["jp_id"].text)
  {
  }

  /** The keys of a parsed job (before `raw_data`) that copy a column, and that column. */
  const FieldColumns: map<string, string> := map[
    "title" := "jp_title",
    "institution" := "jp_institution",
    "location" := "locations",
    "description" := "jp_full_text",
    "posted_date" := "Date_Active",
    "deadline" := "Application_deadline",
    "section" := "jp_section",
    "keywords" := "jp_keywords",
    "jel_classifications" := "JEL_Classifications",
    "salary_range" := "jp_salary_range"
  ]

  /** One row of `parse_job_listings`. */
  function ParseRow(row: Row, md5: string -> string): (job: Dict)
    ensures job.Keys == FieldColumns.Keys + {"job_id", "contact_info"}
  {
    var fields := map k | k in FieldColumns :: Str(Field(row, FieldColumns[k]));
    fields["job_id" := Str(JobId(row, md5))]["contact_info" := Str("")]
  }

  /**
   * Every field of a parsed job is a string; each one but the id and
   * `contact_info` is the stripped text of its column (so `Trimmed`), and
   * `contact_info` is always empty.
   */
  lemma ParsedFieldsStripped(row: Row, md5: string -> string)
    ensures var job := ParseRow(row, md5);
      (forall k :: k in job ==> job[k].Str?)
      && (forall k :: k in FieldColumns ==> job[k] == Str(Field(row, FieldColumns[k])))
      && job["contact_info"] == Str("")
      && job["job_id"] == Str(JobId(row, md5))
  {
    ParsedColumns(row, md5);
  }

  lemma ParsedColumns(row: Row, md5: string -> string)
    ensures forall k :: k in FieldColumns ==> ParseRow(row, md5)[k] == Str(Field(row, FieldColumns[k]))
  {
    var fields := map k | k in FieldColumns :: Str(Field(row, FieldColumns[k]));
    ReservedKeysUnmapped();
    forall k | k in FieldColumns
      ensures ParseRow(row, md5)[k] == Str(Field(row, FieldColumns[k]))
    {
      assert ParseRow(row, md5)[k] == fields[k];
    }
  }

  /** The id and `contact_info` are not among the columns read from the sheet. */
  lemma ReservedKeysUnmapped()
    ensures "job_id" !in FieldColumns && "contact_info" !in FieldColumns
  {
  }

  /** The job loop of `parse_job_listings`: one job per row, in row order. */
  method ParseJobListings(rows: seq<Row>, md5: string -> string) returns (jobs: seq<Dict>)
    ensures |jobs| == |rows|
    ensures forall i :: 0 <= i < |rows| ==> jobs[i] == ParseRow(rows[i], md5)
  {
    jobs := [];
    var i := 0;
    while i < |rows|
      invariant 0 <= i <= |rows|
      invariant |jobs| == i
      invariant forall j :: 0 <= j < i ==> jobs[j] == ParseRow(rows[j], md5)
    {
      jobs := jobs + [ParseRow(rows[i], md5)];
      i := i + 1;
    }
  }

  /** A value `set()` and `in` reject: lists and dicts are unhashable. */
  predicate Unhashable(v: Value) {
    v.List? || v.Obj?
  }

  /** A job goes to the new list when its id is truthy and not among the known ids. */
  predicate IsNew(job: Dict, existing: set<Value>) {
    Truthy(Get(job, "job_id")) && Get(job, "job_id") !in existing
  }

  /** The new jobs, in scraped order. */
  function NewJobs(jobs: seq<Dict>, existing: set<Value>): seq<Dict>
    decreases |jobs|
  {
    if jobs == [] then []
    else
      var last := jobs[|jobs| - 1];
      NewJobs(jobs[..|jobs| - 1], existing) + (if IsNew(last, existing) then [last] else [])
  }

  /** The other jobs, in scraped order. */
  function KnownJobs(jobs: seq<Dict>, existing: set<Value>): seq<Dict>
    decreases |jobs|
  {
    if jobs == [] then []
    else
      var last := jobs[|jobs| - 1];
      KnownJobs(jobs[..|jobs| - 1], existing) + (if IsNew(last, existing) then [] else [last])
  }

  /** Building the set, or testing a truthy id against it, raises for an unhashable value. */
  predicate Rejected(jobs: seq<Dict>, existingIds: seq<Value>) {
    (exists i :: 0 <= i < |existingIds| && Unhashable(existingIds[i]))
    || (exists i :: 0 <= i < |jobs| && Truthy(Get(jobs[i], "job_id")) && Unhashable(Get(jobs[i], "job_id")))
  }

  /** `set(existing_job_ids)`. */
  function IdSet(ids: seq<Value>): set<Value> {
    set v | v in ids
  }

  /** What `identify_new_postings` returns, or the error it raises. */
  function Partition(jobs: seq<Dict>, existingIds: seq<Value>): Result<(seq<Dict>, seq<Dict>)> {
    if Rejected(jobs, existingIds) then Err("TypeError: unhashable type")
    else Ok((NewJobs(jobs, IdSet(existingIds)), KnownJobs(jobs, IdSet(existingIds))))
  }

  /** `identify_new_postings(scraped_jobs, existing_job_ids)`. */
  method IdentifyNewPostings(jobs: seq<Dict>, existingIds: seq<Value>)
    returns (r: Result<(seq<Dict>, seq<Dict>)>)
    ensures r == Partition(jobs, existingIds)
  {
    var existing: set<Value> := {};
    var k := 0;
    while k < |existingIds|
      invariant 0 <= k <= |existingIds|
      invariant existing == IdSet(existingIds[..k])
      invariant forall j :: 0 <= j < k ==> !Unhashable(existingIds[j])
    {
      if Unhashable(existingIds[k]) {
        return Err("TypeError: unhashable type");
      }
      assert existingIds[..k + 1] == existingIds[..k] + [existingIds[k]];
      existing := existing + {existingIds[k]};
      k := k + 1;
    }
    assert existingIds[..k] == existingIds;
    var found: seq<Dict> := [];
    var known: seq<Dict> := [];
    var i := 0;
    while i < |jobs|
      invariant 0 <= i <= |jobs|
      invariant found == NewJobs(jobs[..i], existing)
      invariant known == KnownJobs(jobs[..i], existing)
      invariant forall j :: 0 <= j < i ==> !(Truthy(Get(jobs[j], "job_id")) && Unhashable(Get(jobs[j], "job_id")))
    {
      var id := Get(jobs[i], "job_id");
      if Truthy(id) && Unhashable(id) {
        return Err("TypeError: unhashable type");
      }
      assert jobs[..i + 1][..i] == jobs[..i];
      if Truthy(id) && id !in existing {
        found := found + [jobs[i]];
      } else {
        known := known + [jobs[i]];
      }
      i := i + 1;
    }
    assert jobs[..i] == jobs;
    return Ok((found, known));
  }

  /** Every scraped job lands in exactly one of the two lists: together they are a rearrangement of the input. */
  lemma {:induction false} PartitionComplete(jobs: seq<Dict>, existing: set<Value>)
    ensures multiset(NewJobs(jobs, existing)) + multiset(KnownJobs(jobs, existing)) == multiset(jobs)
    ensures |NewJobs(jobs, existing)| + |KnownJobs(jobs, existing)| == |jobs|
    decreases |jobs|
  {
    if jobs != [] {
      var init, last := jobs[..|jobs| - 1], jobs[|jobs| - 1];
      PartitionComplete(init, existing);
      assert jobs == init + [last];
      assert multiset(jobs) == multiset(init) + multiset{last};
      if IsNew(last, existing) {
        assert NewJobs(jobs, existing) == NewJobs(init, existing) + [last];
        assert KnownJobs(jobs, existing) == KnownJobs(init, existing);
      } else {
        assert NewJobs(jobs, existing) == NewJobs(init, existing);
        assert KnownJobs(jobs, existing) == KnownJobs(init, existing) + [last];
      }
    }
  }

  /** A job is in the new list only if it is new, and in the other list only if it is not. */
  lemma {:induction false} PartitionSorted(jobs: seq<Dict>, existing: set<Value>)
    ensures forall j :: j in NewJobs(jobs, existing) ==> IsNew(j, existing)
    ensures forall j :: j in KnownJobs(jobs, existing) ==> !IsNew(j, existing)
    decreases |jobs|
  {
    if jobs != [] {
      PartitionSorted(jobs[..|jobs| - 1], existing);
    }
  }

  /** A scraped job is in the new list exactly when it is new. */
  lemma NewIff(jobs: seq<Dict>, existing: set<Value>, i: nat)
    requires i < |jobs|
    ensures jobs[i] in NewJobs(jobs, existing) <==> IsNew(jobs[i], existing)
    ensures jobs[i] in KnownJobs(jobs, existing) <==> !IsNew(jobs[i], existing)
  {
    PartitionSorted(jobs, existing);
    PartitionComplete(jobs, existing);
    assert jobs[i] in multiset(jobs);
  }

  /** A job without an id is never new. */
  lemma IdlessJobKnown(jobs: seq<Dict>, existingIds: seq<Value>, i: nat)
    requires i < |jobs| && !Truthy(Get(jobs[i], "job_id"))
    requires Partition(jobs, existingIds).Ok?
    ensures jobs[i] !in Partition(jobs, existingIds).value.0
    ensures jobs[i] in Partition(jobs, existingIds).value.1
  {
    NewIff(jobs, IdSet(existingIds), i);
  }
}
