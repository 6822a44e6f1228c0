/**
 * The `job_postings` table as an in-memory store.  A row is a dictionary
 * from column name to value; keyed rows are found by their `job_id` text,
 * and rows inserted with a NULL `job_id` (which SQLite allows in a TEXT
 * primary key) are kept apart, since no `WHERE job_id = ?` ever finds them.
 */
module JobDb {
  import opened Wrappers
  import opened StringUtil
  import opened Values

  /** The columns `add_job` writes, in the order of its INSERT. */
  const InsertColumns: seq<string> := [
    "job_id", "title", "institution", "position_type", "field", "level",
    "deadline", "location", "description", "requirements", "contact_info",
    "posted_date", "last_updated", "fit_score", "application_status"]

  /** The statuses `update_status` accepts. */
  const ValidStatuses: seq<string> := ["new", "applied", "expired", "rejected", "accepted"]

  /**
   * The table as first created: the fifteen base columns with their
   * defaults (`application_status` defaults to 'new'; the
   * CURRENT_TIMESTAMP default of `last_updated` is never used, since every
   * insert supplies it).
   */
  function BaseColumns(): (c: map<string, Value>)
    ensures forall i :: 0 <= i < |InsertColumns| ==> InsertColumns[i] in c
    ensures "job_id" in c && "last_updated" in c && "fit_score" in c && "application_status" in c
  {
    var c := map name | name in InsertColumns :: if name == "application_status" then Str("new") else Null;
    assert forall i :: 0 <= i < |InsertColumns| ==> InsertColumns[i] in InsertColumns;
    assert InsertColumns[0] == "job_id" && InsertColumns[12] == "last_updated";
    assert InsertColumns[13] == "fit_score" && InsertColumns[14] == "application_status";
    c
  }

  /** Column defaults, keyed rows and rows without a `job_id`. */
  datatype Store = Store(columns: map<string, Value>, rows: map<string, Dict>, orphans: seq<Dict>)

  /** Every row has exactly the table's columns, and a keyed row holds its own key. */
  predicate WellFormed(s: Store) {
    "job_id" in s.columns && "last_updated" in s.columns
    && "fit_score" in s.columns && "application_status" in s.columns
    && (forall i :: 0 <= i < |InsertColumns| ==> InsertColumns[i] in s.columns)
    && (forall k :: k in s.rows ==> s.rows[k].Keys == s.columns.Keys && s.rows[k]["job_id"] == Str(k))
    && (forall i :: 0 <= i < |s.orphans| ==> s.orphans[i].Keys == s.columns.Keys && s.orphans[i]["job_id"] == Null)
  }

  /** `init_database` on a fresh file. */
  function Initial(): (s: Store)
    ensures WellFormed(s) && s.rows == map[] && s.orphans == []
  {
    Store(BaseColumns(), map[], [])
  }

  /** Values the sqlite3 module can bind; lists and dicts raise `InterfaceError`. */
  predicate Bindable(v: Value) {
    !v.List? && !v.Obj?
  }

  /**
   * The text a bound value becomes in the TEXT `job_id` column: strings as
   * they are, numbers as their text, booleans as 1 or 0; `None` stays NULL.
   */
  function StoredKey(v: Value): Option<string> {
    match v
    case Str(s) => Some(s)
    case Num(_, t) => Some(t)
    case Bool(b) => Some(if b then "1" else "0")
    case _ => None
  }

  function KeyValue(v: Value): Value {
    if StoredKey(v).Some? then Str(StoredKey(v).value) else Null
  }

  // ------------------------------------------------------------------ add_job

  /** The value `add_job` binds for column `c`. */
  function InsertedValue(job: Dict, c: string, now: string): Value {
    if c == "last_updated" then Str(now)
    else if c == "application_status" then GetOr(job, c, Str("new"))
    else Get(job, c)
  }

  predicate InsertBindable(job: Dict, now: string) {
    forall c :: c in InsertColumns ==> Bindable(InsertedValue(job, c, now))
  }

  /** The row `add_job` inserts: the fifteen bound values, the defaults elsewhere. */
  function NewRow(columns: map<string, Value>, job: Dict, now: string): (r: Dict)
    ensures r.Keys == columns.Keys
  {
    map c | c in columns ::
      if c == "job_id" then KeyValue(Get(job, "job_id"))
      else if c in InsertColumns then InsertedValue(job, c, now)
      else columns[c]
  }

  /**
   * `add_job`: INSERT OR IGNORE.  It fails when a value cannot be bound or
   * the key is taken; existing rows are never touched.
   */
  function Add(s: Store, job: Dict, now: string): (r: (Store, bool))
    requires WellFormed(s)
    ensures WellFormed(r.0) && r.0.columns == s.columns
  {
    if !InsertBindable(job, now) then (s, false)
    else Insert(s, StoredKey(Get(job, "job_id")), NewRow(s.columns, job, now))
  }

  /** INSERT OR IGNORE of a bound row: under its key unless taken, or apart when the key is NULL. */
  function Insert(s: Store, key: Option<string>, row: Dict): (r: (Store, bool))
    requires WellFormed(s) && row.Keys == s.columns.Keys && row["job_id"] == (if key.Some? then Str(key.value) else Null)
    ensures WellFormed(r.0) && r.0.columns == s.columns
  {
    match key
    case None =>
      AppendOrphan(s, row);
      (s.(orphans := s.orphans + [row]), true)
    case Some(k) =>
      if k in s.rows then (s, false)
      else
        InsertKeyed(s, k, row);
        (s.(rows := s.rows[k := row]), true)
  }

  lemma AppendOrphan(s: Store, row: Dict)
    requires WellFormed(s) && row.Keys == s.columns.Keys && row["job_id"] == Null
    ensures WellFormed(s.(orphans := s.orphans + [row]))
  {
  }

  lemma InsertKeyed(s: Store, k: string, row: Dict)
    requires WellFormed(s) && k !in s.rows && row.Keys == s.columns.Keys && row["job_id"] == Str(k)
    ensures WellFormed(s.(rows := s.rows[k := row]))
  {
  }

  /** Existing rows are never touched, and a successful insert adds exactly one row. */
  lemma InsertKeepsRows(s: Store, key: Option<string>, row: Dict)
    requires WellFormed(s) && row.Keys == s.columns.Keys && row["job_id"] == (if key.Some? then Str(key.value) else Null)
    ensures var r := Insert(s, key, row);
      forall k :: k in s.rows ==> k in r.0.rows && r.0.rows[k] == s.rows[k]
  {
  }

  lemma InsertAddsOne(s: Store, key: Option<string>, row: Dict)
    requires WellFormed(s) && row.Keys == s.columns.Keys && row["job_id"] == (if key.Some? then Str(key.value) else Null)
    ensures var r := Insert(s, key, row);
      r.1 ==> |r.0.rows| + |r.0.orphans| == |s.rows| + |s.orphans| + 1
  {
  }

  lemma InsertOutcome(s: Store, key: Option<string>, row: Dict)
    requires WellFormed(s) && row.Keys == s.columns.Keys && row["job_id"] == (if key.Some? then Str(key.value) else Null)
    ensures var r := Insert(s, key, row);
      (r.1 <==> key.None? || key.value !in s.rows) && (!r.1 ==> r.0 == s)
  {
  }

  /** It fails exactly when a value cannot be bound or the key is taken, and then nothing changes. */
  lemma AddOutcome(s: Store, job: Dict, now: string)
    requires WellFormed(s)
    ensures var r := Add(s, job, now);
      (r.1 <==> (InsertBindable(job, now)
        && (StoredKey(Get(job, "job_id")).None? || StoredKey(Get(job, "job_id")).value !in s.rows)))
      && (!r.1 ==> r.0 == s)
  {
    if InsertBindable(job, now) {
      InsertOutcome(s, StoredKey(Get(job, "job_id")), NewRow(s.columns, job, now));
    }
  }

  /** Existing rows are never touched, and a successful insert adds exactly one row. */
  lemma AddKeepsRows(s: Store, job: Dict, now: string)
    requires WellFormed(s)
    ensures var r := Add(s, job, now);
      (forall k :: k in s.rows ==> k in r.0.rows && r.0.rows[k] == s.rows[k])
      && (r.1 ==> |r.0.rows| + |r.0.orphans| == |s.rows| + |s.orphans| + 1)
  {
    if InsertBindable(job, now) {
      InsertKeepsRows(s, StoredKey(Get(job, "job_id")), NewRow(s.columns, job, now));
      InsertAddsOne(s, StoredKey(Get(job, "job_id")), NewRow(s.columns, job, now));
    }
  }

  // -------------------------------------------------------------- update_job

  /** The assignments `update_job` builds: every key but `job_id` whose value is not `None`. */
  function Fields(data: Dict): Dict {
    map k | k in data && k != "job_id" && data[k] != Null :: data[k]
  }

  /** The UPDATE runs: there is something to set, every key is a column, every value binds. */
  predicate Applicable(columns: map<string, Value>, f: Dict) {
    f != map[] && forall k :: k in f ==> k in columns && Bindable(f[k])
  }

  /**
   * `update_job`: the supplied fields and `last_updated` change on the row
   * with that key, and nothing else changes.  SQLite keeps the rightmost of
   * two assignments to one column, so a `last_updated` in the data loses
   * to the timestamp.
   */
  function Update(s: Store, jobId: string, data: Dict, now: string): (r: (Store, bool))
    requires WellFormed(s)
    ensures WellFormed(r.0) && r.0.columns == s.columns && r.0.orphans == s.orphans
    ensures r.1 <==> Applicable(s.columns, Fields(data)) && jobId in s.rows
    ensures !r.1 ==> r.0 == s
    ensures r.0.rows.Keys == s.rows.Keys
  {
    var f := Fields(data);
    if Applicable(s.columns, f) && jobId in s.rows then
      var row := UpdatedRow(s.rows[jobId], data, now);
      ReplaceRow(s, jobId, row);
      (s.(rows := s.rows[jobId := row]), true)
    else (s, false)
  }

  /**
   * What `update_job` leaves in the rows: every other row as it was, and
   * on the updated one each column set from the data, from the timestamp,
   * or kept.
   */
  lemma UpdatedRows(s: Store, jobId: string, data: Dict, now: string)
    requires WellFormed(s)
    ensures var r := Update(s, jobId, data, now);
      && (forall k :: k in s.rows && k != jobId ==> r.0.rows[k] == s.rows[k])
      && (r.1 ==> forall c :: c in s.columns ==>
            r.0.rows[jobId][c] == if c == "last_updated" then Str(now)
                                  else if c in data && c != "job_id" && data[c] != Null then data[c]
                                  else s.rows[jobId][c])
  {
    if Applicable(s.columns, Fields(data)) && jobId in s.rows {
      ReplaceRow(s, jobId, UpdatedRow(s.rows[jobId], data, now));
    }
  }

  /** Writing back a keyed row with the table's columns and its own key keeps the store well formed. */
  lemma ReplaceRow(s: Store, k: string, row: Dict)
    requires WellFormed(s) && k in s.rows && row.Keys == s.columns.Keys && row["job_id"] == Str(k)
    ensures WellFormed(s.(rows := s.rows[k := row]))
    ensures s.rows[k := row].Keys == s.rows.Keys
    ensures forall j :: j in s.rows && j != k ==> s.rows[k := row][j] == s.rows[j]
  {
  }

  /** The row `update_job` writes back: the supplied fields over the old row, then the timestamp. */
  function UpdatedRow(row: Dict, data: Dict, now: string): (r: Dict)
    requires "job_id" in row && "last_updated" in row && forall k :: k in Fields(data) ==> k in row
    ensures r.Keys == row.Keys && r["job_id"] == row["job_id"]
    ensures forall c :: c in row ==>
      r[c] == if c == "last_updated" then Str(now)
              else if c in data && c != "job_id" && data[c] != Null then data[c]
              else row[c]
  {
    row + Fields(data) + map["last_updated" := Str(now)]
  }

  /** `update_job` never looks at a `job_id` key in the data. */
  lemma UpdateIgnoresJobId(s: Store, jobId: string, data: Dict, now: string, v: Value)
    requires WellFormed(s)
    ensures Update(s, jobId, data["job_id" := v], now) == Update(s, jobId, data, now)
  {
    assert Fields(data["job_id" := v]) == Fields(data);
  }

  /** A key mapped to `None` is the same as a key left out. */
  lemma UpdateIgnoresNone(s: Store, jobId: string, data: Dict, now: string, key: string)
    requires WellFormed(s)
    ensures Update(s, jobId, data[key := Null], now) == Update(s, jobId, data - {key}, now)
  {
    var f1, f2 := Fields(data[key := Null]), Fields(data - {key});
    assert forall k :: k in f1 <==> k in f2;
    assert f1 == f2;
  }

  /** `get_job`. */
  function Lookup(s: Store, jobId: string): (r: Option<Dict>)
    requires WellFormed(s)
    ensures r.Some? <==> jobId in s.rows
    ensures r.Some? ==> "job_id" in r.value && r.value["job_id"] == Str(jobId)
  {
    if jobId in s.rows then Some(s.rows[jobId]) else None
  }

  /** A row `add_job` inserted under a free key reads back as inserted, defaults and all. */
  lemma AddThenGet(s: Store, job: Dict, now: string, k: string)
    requires WellFormed(s) && Add(s, job, now).1 && StoredKey(Get(job, "job_id")) == Some(k)
    ensures Lookup(Add(s, job, now).0, k) == Some(NewRow(s.columns, job, now))
    ensures var row := NewRow(s.columns, job, now);
      row["last_updated"] == Str(now)
      && row["application_status"] == (if "application_status" in job then job["application_status"] else Str("new"))
      && forall c :: c in s.columns && c !in InsertColumns ==> row[c] == s.columns[c]
  {
  }

  /** Keys outside the fifteen inserted columns make no difference to `add_job`. */
  lemma AddIgnoresOtherKeys(s: Store, job: Dict, now: string, key: string, v: Value)
    requires WellFormed(s) && key !in InsertColumns
    ensures Add(s, job[key := v], now) == Add(s, job, now)
  {
    var job' := job[key := v];
    assert forall c :: c in InsertColumns ==> InsertedValue(job', c, now) == InsertedValue(job, c, now);
    NewRowIgnores(s.columns, job, now, key, v);
    assert "job_id" in InsertColumns;
    assert Get(job', "job_id") == Get(job, "job_id");
  }

  lemma NewRowIgnores(columns: map<string, Value>, job: Dict, now: string, key: string, v: Value)
    requires key !in InsertColumns
    ensures NewRow(columns, job[key := v], now) == NewRow(columns, job, now)
  {
    assert "job_id" in InsertColumns;
    forall c | c in columns
      ensures NewRow(columns, job[key := v], now)[c] == NewRow(columns, job, now)[c]
    {
      if c in InsertColumns {
        assert InsertedValue(job[key := v], c, now) == InsertedValue(job, c, now);
      }
    }
  }

  /** Adding the same keyed job twice: the second insert is ignored. */
  lemma AddTwice(s: Store, job: Dict, now: string, later: string)
    requires WellFormed(s) && StoredKey(Get(job, "job_id")).Some?
    ensures var t := Add(s, job, now).0;
      !Add(t, job, later).1 && Add(t, job, later).0 == t
  {
    var t := Add(s, job, now).0;
    if Add(s, job, now).1 {
      assert StoredKey(Get(job, "job_id")).value in t.rows;
    } else {
      assert t == s;
      if InsertBindable(job, later) {
        assert forall c :: c in InsertColumns ==> c != "last_updated" ==>
          InsertedValue(job, c, later) == InsertedValue(job, c, now);
        assert InsertBindable(job, now);
      }
    }
  }

  // ---------------------------------------------- update_fit_score, update_status

  /** `update_fit_score`. */
  function FitScoreUpdated(s: Store, jobId: string, score: Value, now: string): (r: (Store, bool))
    requires WellFormed(s)
    ensures WellFormed(r.0)
  {
    Update(s, jobId, map["fit_score" := score], now)
  }

  /** Only `fit_score` and `last_updated` change, and only on a row that exists. */
  lemma FitScoreOnly(s: Store, jobId: string, score: Value, now: string)
    requires WellFormed(s)
    ensures var r := FitScoreUpdated(s, jobId, score, now);
      (r.1 <==> jobId in s.rows && score != Null && Bindable(score))
      && (r.1 ==> r.0.rows[jobId]["fit_score"] == score && r.0.rows[jobId]["last_updated"] == Str(now))
      && (r.1 ==> forall c :: c in s.columns && c != "fit_score" && c != "last_updated" ==>
            r.0.rows[jobId][c] == s.rows[jobId][c])
  {
    var f := Fields(map["fit_score" := score]);
    assert "fit_score" in InsertColumns;
    assert "fit_score" in map["fit_score" := score];
    if score != Null {
      assert f == map["fit_score" := score];
    } else {
      assert f == map[];
    }
  }

  /** The status `update_status` stores. */
  function CheckedStatus(status: string): (r: string)
    ensures r in ValidStatuses
    ensures r == status || r == "new"
    ensures r == status <==> status in ValidStatuses
  {
    if status in ValidStatuses then status else "new"
  }

  /** `update_status`. */
  function StatusUpdated(s: Store, jobId: string, status: string, now: string): (r: (Store, bool))
    requires WellFormed(s)
    ensures WellFormed(r.0)
  {
    Update(s, jobId, map["application_status" := Str(CheckedStatus(status))], now)
  }

  /** It succeeds exactly when the row exists, and the stored status is always a valid one. */
  lemma StatusAlwaysValid(s: Store, jobId: string, status: string, now: string)
    requires WellFormed(s)
    ensures var r := StatusUpdated(s, jobId, status, now);
      (r.1 <==> jobId in s.rows)
      && (r.1 ==> (r.0.rows[jobId]["application_status"] == Str(CheckedStatus(status))
                && CheckedStatus(status) in ValidStatuses))
  {
    var f := Fields(map["application_status" := Str(CheckedStatus(status))]);
    assert "application_status" in InsertColumns;
    assert "application_status" in map["application_status" := Str(CheckedStatus(status))];
    assert f == map["application_status" := Str(CheckedStatus(status))];
  }

  // ------------------------------------------------------------ get_all_jobs

  /** `if status:` filters on equality; `None` and '' do not filter. */
  predicate StatusMatches(row: Dict, status: Option<string>) {
    status.None? || status.value == "" || Get(row, "application_status") == Str(status.value)
  }

  /**
   * `fit_score >= ?` in SQLite: NULL never passes, numbers compare by
   * value, and text sorts after every number.
   */
  predicate SqlAtLeast(v: Value, m: real) {
    match v
    case Num(x, _) => x >= m
    case Bool(b) => (if b then 1.0 else 0.0) >= m
    case Str(_) => true
    case _ => false
  }

  predicate Selected(row: Dict, status: Option<string>, minFit: Option<real>) {
    StatusMatches(row, status) && (minFit.None? || SqlAtLeast(Get(row, "fit_score"), minFit.value))
  }

  /** The keys of the keyed rows `get_all_jobs` returns. */
  function SelectedKeys(rows: map<string, Dict>, status: Option<string>, minFit: Option<real>): set<string> {
    set k | k in rows && Selected(rows[k], status, minFit)
  }

  /** The rows without a key `get_all_jobs` returns, in stored order. */
  function SelectedOrphans(orphans: seq<Dict>, status: Option<string>, minFit: Option<real>): (r: seq<Dict>)
    ensures |r| <= |orphans|
    ensures forall x :: x in r <==> x in orphans && Selected(x, status, minFit)
  {
    if orphans == [] then []
    else
      var rest := SelectedOrphans(orphans[1..], status, minFit);
      assert forall x :: x in orphans <==> x == orphans[0] || x in orphans[1..];
      if Selected(orphans[0], status, minFit) then [orphans[0]] + rest else rest
  }

  /** Without filters every row comes back. */
  lemma {:induction false} NoFilterSelectsAll(orphans: seq<Dict>)
    ensures SelectedOrphans(orphans, None, None) == orphans
  {
    if orphans != [] {
      NoFilterSelectsAll(orphans[1..]);
    }
  }

  /** A minimum score excludes every row whose score is NULL, whatever the status filter. */
  lemma NullScoreExcluded(s: Store, status: Option<string>, m: real, x: Dict)
    requires WellFormed(s)
    requires (exists k :: k in SelectedKeys(s.rows, status, Some(m)) && s.rows[k] == x)
      || x in SelectedOrphans(s.orphans, status, Some(m))
    ensures Get(x, "fit_score") != Null
    ensures status.Some? && status.value != "" ==> Get(x, "application_status") == Str(status.value)
  {
  }

  // ------------------------------------------------------------ mark_expired

  /** The threshold used: the one given when it is non-empty, else today's date. */
  function Threshold(threshold: Option<string>, today: string): string {
    if threshold.Some? && threshold.value != "" then threshold.value else today
  }

  /**
   * `deadline < ?` in SQLite: NULL never passes, numbers sort before every
   * text, and text compares by code point.
   */
  predicate SqlBefore(v: Value, th: string) {
    match v
    case Str(t) => LexLess(t, th)
    case Num(_, _) => true
    case Bool(_) => true
    case _ => false
  }

  /** `application_status != 'expired'`: NULL never passes. */
  predicate NotExpired(v: Value) {
    match v
    case Null => false
    case Str(t) => t != "expired"
    case _ => true
  }

  predicate Eligible(row: Dict, th: string) {
    SqlBefore(Get(row, "deadline"), th) && NotExpired(Get(row, "application_status"))
  }

  /**
   * One row under `mark_expired`: afterwards it is no longer eligible, only
   * its status may have changed, and a row whose deadline is before the
   * threshold ends up 'expired' unless its status is NULL.
   */
  function ExpireRow(row: Dict, th: string): (r: Dict)
    ensures r.Keys == row.Keys && !Eligible(r, th)
    ensures forall c :: c in row && c != "application_status" ==> r[c] == row[c]
    ensures SqlBefore(Get(row, "deadline"), th) ==> Get(r, "application_status") in {Str("expired"), Null}
    ensures !Eligible(row, th) ==> r == row
  {
    if Eligible(row, th) then row["application_status" := Str("expired")] else row
  }

  function ExpireAll(orphans: seq<Dict>, th: string): (r: seq<Dict>)
    ensures |r| == |orphans| && forall i :: 0 <= i < |r| ==> r[i] == ExpireRow(orphans[i], th)
  {
    seq(|orphans|, i requires 0 <= i < |orphans| => ExpireRow(orphans[i], th))
  }

  function ExpireRows(rows: map<string, Dict>, th: string): (r: map<string, Dict>)
    ensures r.Keys == rows.Keys && forall k :: k in r ==> r[k] == ExpireRow(rows[k], th)
  {
    map k | k in rows :: ExpireRow(rows[k], th)
  }

  function EligibleCount(orphans: seq<Dict>, th: string): nat {
    if orphans == [] then 0
    else (if Eligible(orphans[0], th) then 1 else 0) + EligibleCount(orphans[1..], th)
  }

  function EligibleKeys(rows: map<string, Dict>, th: string): set<string> {
    set k | k in rows && Eligible(rows[k], th)
  }

  /**
   * `mark_expired`: every eligible row becomes 'expired' (see `ExpireRow`),
   * and the count is the number of eligible rows.
   */
  function Expire(s: Store, th: string): (r: (Store, nat))
    requires WellFormed(s)
    ensures WellFormed(r.0) && r.0.columns == s.columns
    ensures r.0.rows == ExpireRows(s.rows, th) && r.0.orphans == ExpireAll(s.orphans, th)
    ensures r.1 == |EligibleKeys(s.rows, th)| + EligibleCount(s.orphans, th)
  {
    (Store(s.columns, ExpireRows(s.rows, th), ExpireAll(s.orphans, th)),
     |EligibleKeys(s.rows, th)| + EligibleCount(s.orphans, th))
  }

  lemma {:induction false} NoneEligibleAfterExpire(orphans: seq<Dict>, th: string)
    ensures EligibleCount(ExpireAll(orphans, th), th) == 0
  {
    if orphans != [] {
      NoneEligibleAfterExpire(orphans[1..], th);
      assert ExpireAll(orphans, th)[1..] == ExpireAll(orphans[1..], th);
    }
  }

  /** A second `mark_expired` with the same threshold changes nothing and returns 0. */
  lemma ExpireTwice(s: Store, th: string)
    requires WellFormed(s)
    ensures var t := Expire(s, th).0; Expire(t, th).1 == 0 && Expire(t, th).0 == t
  {
    var t := Expire(s, th).0;
    NoneEligibleAfterExpire(s.orphans, th);
    NoKeysEligibleAfterExpire(s.rows, th);
    ExpireAllSettles(s.orphans, th);
    ExpireRowsSettles(s.rows, th);
  }

  lemma NoKeysEligibleAfterExpire(rows: map<string, Dict>, th: string)
    ensures EligibleKeys(ExpireRows(rows, th), th) == {}
  {
  }

  lemma ExpireAllSettles(orphans: seq<Dict>, th: string)
    ensures ExpireAll(ExpireAll(orphans, th), th) == ExpireAll(orphans, th)
  {
  }

  lemma ExpireRowsSettles(rows: map<string, Dict>, th: string)
    ensures ExpireRows(ExpireRows(rows, th), th) == ExpireRows(rows, th)
  {
  }

  // ------------------------------------------------------------ the loops

  /** The `for key, value in job_data.items()` loop of `update_job`. */
  method CollectFields(data: Dict) returns (fields: Dict)
    ensures fields == Fields(data)
  {
    fields := map[];
    var pending := data.Keys;
    while pending != {}
      invariant pending <= data.Keys
      invariant forall k :: k in fields <==> k in data && k !in pending && k != "job_id" && data[k] != Null
      invariant forall k :: k in fields ==> fields[k] == data[k]
      decreases |pending|
    {
      var key :| key in pending;
      if key != "job_id" && data[key] != Null {
        fields := fields[key := data[key]];
      }
      pending := pending - {key};
    }
    assert forall k :: k in fields <==> k in Fields(data);
  }

  /** Each keyed row holds its own key in `job_id`. */
  predicate KeyedRows(rows: map<string, Dict>) {
    forall k :: k in rows ==> "job_id" in rows[k] && rows[k]["job_id"] == Str(k)
  }

  lemma WellFormedKeyed(s: Store)
    requires WellFormed(s)
    ensures KeyedRows(s.rows)
  {
    assert "job_id" in InsertColumns;
  }

  /** The keys of the selected rows, each once, in the order the loop meets them. */
  method SelectedKeyList(rows: map<string, Dict>, status: Option<string>, minFit: Option<real>)
    returns (ks: seq<string>)
    ensures |ks| == |SelectedKeys(rows, status, minFit)|
    ensures forall k :: k in ks <==> k in SelectedKeys(rows, status, minFit)
    ensures forall i :: 0 <= i < |ks| ==> ks[i] in SelectedKeys(rows, status, minFit)
  {
    var pending := rows.Keys;
    ghost var taken: set<string> := {};
    ks := [];
    while pending != {}
      invariant pending <= rows.Keys && taken == SelectedKeys(rows, status, minFit) - pending
      invariant |ks| == |taken| && forall k :: k in ks <==> k in taken
      decreases |pending|
    {
      var key :| key in pending;
      ghost var sel := SelectedKeys(rows, status, minFit);
      var selected := Selected(rows[key], status, minFit);
      TakeStep(sel, taken, pending, key, selected);
      if selected {
        AppendStep(ks, taken, key);
        ks := ks + [key];
        taken := taken + {key};
      }
      pending := pending - {key};
    }
    assert forall i :: 0 <= i < |ks| ==> ks[i] in ks;
  }

  /** Appending a key not yet listed keeps the list and the set in step. */
  lemma AppendStep(ks: seq<string>, taken: set<string>, key: string)
    requires |ks| == |taken| && (forall k :: k in ks <==> k in taken) && key !in taken
    ensures |ks + [key]| == |taken + {key}| && forall k :: k in ks + [key] <==> k in taken + {key}
  {
  }

  /** One key moves out of `pending`, and into `taken` when it is selected. */
  lemma TakeStep(sel: set<string>, taken: set<string>, pending: set<string>, key: string, selected: bool)
    requires taken == sel - pending && key in pending && (key in sel <==> selected)
    ensures selected ==> key !in taken
    ensures (if selected then taken + {key} else taken) == sel - (pending - {key})
  {
  }

  /**
   * The keyed half of `get_all_jobs`: each selected row exactly once, in
   * some order.
   */
  method SelectKeyed(rows: map<string, Dict>, status: Option<string>, minFit: Option<real>)
    returns (jobs: seq<Dict>)
    requires KeyedRows(rows)
    ensures |jobs| == |SelectedKeys(rows, status, minFit)|
    ensures forall i :: 0 <= i < |jobs| ==> ("job_id" in jobs[i] && jobs[i]["job_id"].Str?
      && jobs[i]["job_id"].s in SelectedKeys(rows, status, minFit) && jobs[i] == rows[jobs[i]["job_id"].s])
    ensures forall k :: k in SelectedKeys(rows, status, minFit) ==> rows[k] in jobs
  {
    var ks := SelectedKeyList(rows, status, minFit);
    jobs := seq(|ks|, i requires 0 <= i < |ks| => rows[ks[i]]);
    forall k | k in SelectedKeys(rows, status, minFit)
      ensures rows[k] in jobs
    {
      var i :| 0 <= i < |ks| && ks[i] == k;
      assert jobs[i] == rows[k];
    }
  }

  // ------------------------------------------------------------ the table

  /** The live table: `init_database` creates it, the operations above change it in place. */
  class JobTable {
    var columns: map<string, Value>
    var rows: map<string, Dict>
    var orphans: seq<Dict>

    function State(): Store
      reads this
    {
      Store(columns, rows, orphans)
    }

    predicate Valid()
      reads this
    {
      WellFormed(State())
    }

    /** Replace the whole table by a well-formed store. */
    method Commit(r: Store)
      requires WellFormed(r)
      modifies this
      ensures Valid() && State() == r
    {
      columns, rows, orphans := r.columns, r.rows, r.orphans;
    }

    /** `init_database`. */
    constructor ()
      ensures Valid() && State() == Initial()
    {
      var s := Initial();
      columns, rows, orphans := s.columns, s.rows, s.orphans;
    }

    /** `add_job`. */
    method AddJob(job: Dict, now: string) returns (ok: bool)
      requires Valid()
      modifies this
      ensures Valid()
      ensures (State(), ok) == Add(old(State()), job, now)
    {
      if !InsertBindable(job, now) {
        return false;
      }
      var row := NewRow(columns, job, now);
      assert "job_id" in InsertColumns;
      match StoredKey(Get(job, "job_id")) {
        case None =>
          AppendOrphan(State(), row);
          Commit(State().(orphans := orphans + [row]));
          ok := true;
        case Some(k) =>
          if k in rows {
            ok := false;
          } else {
            InsertKeyed(State(), k, row);
            Commit(State().(rows := rows[k := row]));
            ok := true;
          }
      }
    }

    /** `update_job`: the loop over the data collects the assignments, then one UPDATE runs. */
    method UpdateJob(jobId: string, data: Dict, now: string) returns (ok: bool)
      requires Valid()
      modifies this
      ensures Valid()
      ensures (State(), ok) == Update(old(State()), jobId, data, now)
    {
      var fields := CollectFields(data);
      if fields == map[] || !Applicable(columns, fields) || jobId !in rows {
        return false;
      }
      var row := UpdatedRow(rows[jobId], data, now);
      ReplaceRow(State(), jobId, row);
      Commit(State().(rows := rows[jobId := row]));
      ok := true;
    }

    /** `get_job`. */
    function GetJob(jobId: string): (r: Option<Dict>)
      reads this
      requires Valid()
      ensures r == Lookup(State(), jobId)
    {
      if jobId in rows then Some(rows[jobId]) else None
    }

    /**
     * `get_all_jobs`: the matching keyed rows, then the matching rows
     * without a key.  The ORDER BY is not modelled.
     */
    method GetAllJobs(status: Option<string>, minFit: Option<real>) returns (jobs: seq<Dict>)
      requires Valid()
      ensures |jobs| == |SelectedKeys(rows, status, minFit)| + |SelectedOrphans(orphans, status, minFit)|
      ensures forall i :: 0 <= i < |SelectedKeys(rows, status, minFit)| ==> ("job_id" in jobs[i] && jobs[i]["job_id"].Str?
        && jobs[i]["job_id"].s in SelectedKeys(rows, status, minFit) && jobs[i] == rows[jobs[i]["job_id"].s])
      ensures jobs[|SelectedKeys(rows, status, minFit)|..] == SelectedOrphans(orphans, status, minFit)
      ensures forall k :: k in SelectedKeys(rows, status, minFit) ==> rows[k] in jobs
    {
      WellFormedKeyed(State());
      jobs := SelectKeyed(rows, status, minFit);
      var unkeyed := SelectedOrphans(orphans, status, minFit);
      jobs := jobs + unkeyed;
    }

    /** `mark_expired`: one UPDATE over the whole table. */
    method MarkExpired(threshold: Option<string>, today: string) returns (count: nat)
      requires Valid()
      modifies this
      ensures Valid()
      ensures (State(), count) == Expire(old(State()), Threshold(threshold, today))
    {
      var r := Expire(State(), Threshold(threshold, today));
      columns, rows, orphans := r.0.columns, r.0.rows, r.0.orphans;
      count := r.1;
    }

    /** `update_fit_score`. */
    method UpdateFitScore(jobId: string, score: Value, now: string) returns (ok: bool)
      requires Valid()
      modifies this
      ensures Valid()
      ensures (State(), ok) == FitScoreUpdated(old(State()), jobId, score, now)
    {
      ok := UpdateJob(jobId, map["fit_score" := score], now);
    }

    /** `update_status`: an unknown status is stored as 'new'. */
    method UpdateStatus(jobId: string, status: string, now: string) returns (ok: bool)
      requires Valid()
      modifies this
      ensures Valid()
      ensures (State(), ok) == StatusUpdated(old(State()), jobId, status, now)
    {
      var checked := status;
      if status !in ValidStatuses {
        checked := "new";
      }
      ok := UpdateJob(jobId, map["application_status" := Str(checked)], now);
    }
  }
}
