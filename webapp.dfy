/**
 * The deterministic parts of the web application's views: which uploaded
 * file names are accepted, the filters of the job list, and the list of
 * position tracks offered for filtering. Routing, JSON responses and the
 * sort of the job list are not modelled.
 */
module Webapp {
  import opened Wrappers
  import opened StringUtil
  import opened Values

  // ------------------------------------------------------------- uploads

  const AllowedExtensions: set<string> := {"pdf", "doc", "docx", "txt"}

  /** `filename.rsplit('.', 1)[1]`: what follows the last dot. */
  function Extension(filename: string): string
    requires '.' in filename
  {
    filename[RFind(filename, '.') + 1..]
  }

  /** `allowed_file(filename)`. */
  predicate AllowedFile(filename: string) {
    '.' in filename && Lower(Extension(filename)) in AllowedExtensions
  }

  /** Position `i` holds the last dot of the name. */
  predicate LastDot(filename: string, i: int) {
    0 <= i < |filename| && filename[i] == '.'
    && forall j :: i < j < |filename| ==> filename[j] != '.'
  }

  /** The last dot is where `rsplit` cuts. */
  lemma LastDotCut(filename: string, i: int)
    requires LastDot(filename, i)
    ensures '.' in filename && RFind(filename, '.') == i
  {
    assert filename[i] in filename;
  }

  /**
   * A name is accepted exactly when the tail after its last dot,
   * lower-cased, is one of the allowed extensions.
   */
  lemma AllowedFileIff(filename: string)
    ensures AllowedFile(filename) <==>
      exists i :: LastDot(filename, i) && Lower(filename[i + 1..]) in AllowedExtensions
  {
    if AllowedFile(filename) {
      var k := RFind(filename, '.');
      assert LastDot(filename, k);
      assert filename[k + 1..] == Extension(filename);
    }
    if exists i :: LastDot(filename, i) && Lower(filename[i + 1..]) in AllowedExtensions {
      var i :| LastDot(filename, i) && Lower(filename[i + 1..]) in AllowedExtensions;
      LastDotCut(filename, i);
      assert filename[i + 1..] == Extension(filename);
    }
  }

  /** Names without a dot are refused, whatever they end with. */
  lemma NoDotRefused(filename: string)
    requires '.' !in filename
    ensures !AllowedFile(filename)
  {
  }

  // ------------------------------------------------------------- job list filters

  /** `(v or '').lower()`: a truthy value that is not a string raises. */
  function LowerText(v: Value): Result<string> {
    if !Truthy(v) then Ok("")
    else if v.Str? then Ok(Lower(v.s))
    else Err("AttributeError: object has no attribute 'lower'")
  }

  /** `[j for j in jobs if test(j)]`: the first test that raises aborts the request. */
  function FilterJobs(jobs: seq<Dict>, test: Dict -> Result<bool>): (r: Result<seq<Dict>>)
    ensures r.Ok? ==> |r.value| <= |jobs|
    decreases |jobs|
  {
    if jobs == [] then Ok([])
    else match test(jobs[0])
      case Err(e) => Err(e)
      case Ok(keep) =>
        match FilterJobs(jobs[1..], test)
        case Err(e) => Err(e)
        case Ok(rest) => Ok(if keep then [jobs[0]] + rest else rest)
  }

  /** A filter that does not raise keeps exactly the jobs that pass, in their order. */
  lemma {:induction false} FilterJobsKeeps(jobs: seq<Dict>, test: Dict -> Result<bool>)
    ensures FilterJobs(jobs, test).Ok? <==> forall j :: j in jobs ==> test(j).Ok?
    ensures FilterJobs(jobs, test).Ok? ==>
      forall j :: j in FilterJobs(jobs, test).value <==> j in jobs && test(j) == Ok(true)
    decreases |jobs|
  {
    if jobs != [] {
      FilterJobsKeeps(jobs[1..], test);
      assert forall i :: 0 < i < |jobs| ==> jobs[i] == jobs[1..][i - 1];
      assert forall j :: j in jobs <==> j == jobs[0] || j in jobs[1..];
    }
  }

  /** `j.get(key, '').lower() == wanted.lower()`, as the field and level filters write it. */
  function ColumnEqualsAsWritten(job: Dict, key: string, wanted: string): Result<bool> {
    var v := GetOr(job, key, Str(""));
    if v.Str? then Ok(Lower(v.s) == Lower(wanted))
    else Err("AttributeError: object has no attribute 'lower'")
  }

  /** `(j.get(key) or '').lower() == wanted.lower()`, as the track filter writes it. */
  function ColumnEquals(job: Dict, key: string, wanted: string): Result<bool> {
    match LowerText(Get(job, key))
    case Err(e) => Err(e)
    case Ok(t) => Ok(t == Lower(wanted))
  }

  function FieldTestAsWritten(key: string, wanted: string): Dict -> Result<bool> {
    (job: Dict) => ColumnEqualsAsWritten(job, key, wanted)
  }

  function ColumnTest(key: string, wanted: string): Dict -> Result<bool> {
    (job: Dict) => ColumnEquals(job, key, wanted)
  }

  /** The columns the text search looks in, in the order it tries them. */
  const SearchColumns: seq<string> := ["title", "institution", "description", "field"]

  /** `search in (j.get(c, '') or '').lower() or …`, left to right, stopping at the first hit. */
  function SearchHit(job: Dict, columns: seq<string>, needle: string): Result<bool>
    decreases |columns|
  {
    if columns == [] then Ok(false)
    else match LowerText(Get(job, columns[0]))
      case Err(e) => Err(e)
      case Ok(t) => if Contains(t, needle) then Ok(true) else SearchHit(job, columns[1..], needle)
  }

  function SearchTest(search: string): Dict -> Result<bool> {
    (job: Dict) => SearchHit(job, SearchColumns, Lower(search))
  }

  /** A query parameter that is given and not empty. */
  predicate Given(p: Option<string>) {
    p.Some? && p.value != ""
  }

  /** Apply `test` to the result so far when the parameter is given. */
  function Then(r: Result<seq<Dict>>, p: Option<string>, test: string -> (Dict -> Result<bool>)): Result<seq<Dict>> {
    match r
    case Err(e) => Err(e)
    case Ok(jobs) => if Given(p) then FilterJobs(jobs, test(p.value)) else Ok(jobs)
  }

  /**
   * The filters of `api_get_jobs` as written, after `get_all_jobs`: field,
   * level, position track, then the text search. An error is the HTTP 500
   * response.
   */
  function FilterListingAsWritten(jobs: seq<Dict>, field: Option<string>, level: Option<string>,
                                  track: Option<string>, search: Option<string>): Result<seq<Dict>>
  {
    var byField := Then(Ok(jobs), field, w => FieldTestAsWritten("field", w));
    var byLevel := Then(byField, level, w => FieldTestAsWritten("level", w));
    var byTrack := Then(byLevel, track, w => ColumnTest("position_track", w));
    Then(byTrack, search, SearchTest)
  }

  /** A row whose `field` is NULL makes any field filter fail, whatever it asks for. */
  lemma NullFieldFails(jobs: seq<Dict>, i: nat, wanted: string)
    requires i < |jobs| && "field" in jobs[i] && jobs[i]["field"] == Null && wanted != ""
    ensures FilterListingAsWritten(jobs, Some(wanted), None, None, None).Err?
  {
    FilterJobsKeeps(jobs, FieldTestAsWritten("field", wanted));
    assert FieldTestAsWritten("field", wanted)(jobs[i]).Err?;
  }

  /** The same filters with a NULL column read as `''`, as the track filter and the search read it. */
  function FilterListing(jobs: seq<Dict>, field: Option<string>, level: Option<string>,
                         track: Option<string>, search: Option<string>): Result<seq<Dict>>
  {
    var byField := Then(Ok(jobs), field, w => ColumnTest("field", w));
    var byLevel := Then(byField, level, w => ColumnTest("level", w));
    var byTrack := Then(byLevel, track, w => ColumnTest("position_track", w));
    Then(byTrack, search, SearchTest)
  }

  /** Stored rows hold text or NULL in the filtered and searched columns. */
  predicate TextColumns(job: Dict) {
    forall c :: c in job && c in {"field", "level", "position_track", "title", "institution", "description"} ==>
      job[c].Null? || job[c].Str?
  }

  lemma SearchNeverFails(job: Dict, columns: seq<string>, needle: string)
    requires forall c :: c in columns ==> Get(job, c).Null? || Get(job, c).Str?
    ensures SearchHit(job, columns, needle).Ok?
    decreases |columns|
  {
    if columns != [] {
      SearchNeverFails(job, columns[1..], needle);
    }
  }

  /**
   * On such rows the corrected filters never fail, and they keep exactly the
   * jobs whose column, lower-cased, equals the parameter lower-cased. A
   * NULL column matches no given parameter.
   */
  lemma FilterListingKeeps(jobs: seq<Dict>, field: Option<string>, level: Option<string>, track: Option<string>)
    requires forall j :: j in jobs ==> TextColumns(j)
    ensures var r := FilterListing(jobs, field, level, track, None);
      r.Ok? && forall j :: j in r.value <==> (j in jobs
        && (Given(field) ==> ColumnEquals(j, "field", field.value) == Ok(true))
        && (Given(level) ==> ColumnEquals(j, "level", level.value) == Ok(true))
        && (Given(track) ==> ColumnEquals(j, "position_track", track.value) == Ok(true)))
  {
    var byField := Then(Ok(jobs), field, w => ColumnTest("field", w));
    var byLevel := Then(byField, level, w => ColumnTest("level", w));
    forall j, w | j in jobs
      ensures ColumnEquals(j, "field", w).Ok? && ColumnEquals(j, "level", w).Ok?
      ensures ColumnEquals(j, "position_track", w).Ok?
    {
      assert TextColumns(j);
    }
    if Given(field) {
      FilterJobsKeeps(jobs, ColumnTest("field", field.value));
    }
    assert byField.Ok? && forall j :: j in byField.value ==> j in jobs;
    if Given(level) {
      FilterJobsKeeps(byField.value, ColumnTest("level", level.value));
    }
    assert byLevel.Ok? && forall j :: j in byLevel.value ==> j in jobs;
    if Given(track) {
      FilterJobsKeeps(byLevel.value, ColumnTest("position_track", track.value));
    }
  }

  /** The search keeps exactly the jobs one of whose searched columns contains the text, case-insensitively. */
  lemma {:induction false} SearchHitIff(job: Dict, columns: seq<string>, needle: string)
    requires forall c :: c in columns ==> Get(job, c).Null? || Get(job, c).Str?
    ensures SearchHit(job, columns, needle) == Ok(exists c :: c in columns && Contains(LowerText(Get(job, c)).value, needle))
    decreases |columns|
  {
    if columns != [] {
      SearchHitIff(job, columns[1..], needle);
      assert forall c :: c in columns <==> c == columns[0] || c in columns[1..];
    }
  }

  // ------------------------------------------------------------- position tracks

  /** `(job.get('position_track') or '').strip()`, lower-cased; `None` when blank. */
  function TrackOf(job: Dict): (r: Result<Option<string>>)
    ensures r.Ok? && r.value.Some? ==> r.value.value != "" && Lower(r.value.value) == r.value.value
  {
    var v := Get(job, "position_track");
    if !Truthy(v) then Ok(None)
    else if !v.Str? then Err("AttributeError: object has no attribute 'strip'")
    else
      var raw := Strip(v.s);
      if raw == "" then Ok(None)
      else
        LowerIdempotent(raw);
        Ok(Some(Lower(raw)))
  }

  /** The keys of `track_map`: every distinct track, or the error one job raises. */
  function TrackSet(jobs: seq<Dict>): Result<set<string>>
    decreases |jobs|
  {
    if jobs == [] then Ok({})
    else match TrackSet(jobs[..|jobs| - 1])
      case Err(e) => Err(e)
      case Ok(found) =>
        match TrackOf(jobs[|jobs| - 1])
        case Err(e) => Err(e)
        case Ok(t) => Ok(if t.Some? then found + {t.value} else found)
  }

  /** Strictly increasing in code-point order: sorted, and so without repeats. */
  predicate Sorted(s: seq<string>) {
    forall i :: 0 < i < |s| ==> LexLess(s[i - 1], s[i])
  }

  function Elements(s: seq<string>): set<string> {
    set t | t in s
  }

  /** Insert `x` into a sorted list, keeping it sorted (one step of `sorted`). */
  function Insert(x: string, s: seq<string>): (r: seq<string>)
    requires Sorted(s)
    ensures Sorted(r) && Elements(r) == Elements(s) + {x}
    ensures r[0] == x || (s != [] && r[0] == s[0])
    decreases |s|
  {
    if s == [] then [x]
    else if x == s[0] then s
    else if LexLess(x, s[0]) then [x] + s
    else
      LexLessTotal(x, s[0]);
      var rest := Insert(x, s[1..]);
      assert Elements(s) == {s[0]} + Elements(s[1..]);
      assert Elements([s[0]] + rest) == {s[0]} + Elements(rest);
      assert LexLess(s[0], rest[0]) by {
        if rest[0] != x { assert rest[0] == s[1]; }
      }
      [s[0]] + rest
  }

  /** `api_get_position_tracks`: the distinct tracks, sorted. */
  method PositionTracks(jobs: seq<Dict>) returns (r: Result<seq<string>>)
    ensures r.Ok? <==> TrackSet(jobs).Ok?
    ensures r.Ok? ==> Sorted(r.value) && Elements(r.value) == TrackSet(jobs).value
  {
    var found: set<string> := {};
    var i := 0;
    while i < |jobs|
      invariant 0 <= i <= |jobs|
      invariant TrackSet(jobs[..i]) == Ok(found)
    {
      assert jobs[..i + 1][..i] == jobs[..i];
      var t := TrackOf(jobs[i]);
      if t.Err? {
        TrackSetFails(jobs, i + 1);
        return Err(t.error);
      }
      if t.value.Some? {
        found := found + {t.value.value};
      }
      i := i + 1;
    }
    assert jobs[..i] == jobs;
    var tracks: seq<string> := [];
    var pending := found;
    while pending != {}
      invariant Sorted(tracks) && Elements(tracks) + pending == found
      decreases |pending|
    {
      var k :| k in pending;
      tracks := Insert(k, tracks);
      pending := pending - {k};
    }
    return Ok(tracks);
  }

  /** An error in a prefix is an error of the whole list. */
  lemma {:induction false} TrackSetFails(jobs: seq<Dict>, n: nat)
    requires n <= |jobs| && TrackSet(jobs[..n]).Err?
    ensures TrackSet(jobs).Err?
    decreases |jobs| - n
  {
    if n < |jobs| {
      assert jobs[..n + 1][..n] == jobs[..n];
      TrackSetFails(jobs, n + 1);
    } else {
      assert jobs[..n] == jobs;
    }
  }

  /** A track is listed exactly when some job's stripped, lower-cased track is it. */
  lemma {:induction false} TrackSetIff(jobs: seq<Dict>)
    requires TrackSet(jobs).Ok?
    ensures forall t :: t in TrackSet(jobs).value <==>
      exists i :: 0 <= i < |jobs| && TrackOf(jobs[i]) == Ok(Some(t))
    decreases |jobs|
  {
    if jobs != [] {
      var init := jobs[..|jobs| - 1];
      TrackSetIff(init);
      assert forall i :: 0 <= i < |init| ==> init[i] == jobs[i];
    }
  }

  /** A sorted list has no repeats: every earlier entry is below every later one. */
  lemma {:induction false} SortedDistinct(s: seq<string>)
    requires Sorted(s)
    ensures forall i, j :: 0 <= i < j < |s| ==> LexLess(s[i], s[j]) && s[i] != s[j]
    decreases |s|
  {
    if |s| > 1 {
      var init := s[..|s| - 1];
      SortedDistinct(init);
      forall i, j | 0 <= i < j < |s|
        ensures LexLess(s[i], s[j]) && s[i] != s[j]
      {
        if j < |s| - 1 {
          assert s[i] == init[i] && s[j] == init[j];
        } else if i < j - 1 {
          assert s[i] == init[i] && s[j - 1] == init[j - 1];
          LexLessTransitive(s[i], s[j - 1], s[j]);
        }
        LexLessIrreflexive(s[i]);
      }
    }
  }

  /** A sorted list is fixed by its elements: the `sorted` of a set has only one possible value. */
  lemma {:induction false} SortedUnique(a: seq<string>, b: seq<string>)
    requires Sorted(a) && Sorted(b) && Elements(a) == Elements(b)
    ensures a == b
    decreases |a|
  {
    if b != [] { assert b[0] in Elements(b); }
    if a != [] {
      assert a[0] in Elements(b);
      assert b != [];
      SortedDistinct(a);
      SortedDistinct(b);
      if a[0] != b[0] {
        assert b[0] in Elements(a);
        var i :| 0 <= i < |a| && a[i] == b[0];
        var j :| 0 <= j < |b| && b[j] == a[0];
        assert LexLess(a[0], b[0]) && LexLess(b[0], a[0]);
        LexLessAsymmetric(a[0], b[0]);
        assert false;
      }
      assert Elements(a[1..]) == Elements(a) - {a[0]} by {
        assert Elements(a) == {a[0]} + Elements(a[1..]);
        assert a[0] !in a[1..];
      }
      assert Elements(b[1..]) == Elements(b) - {b[0]} by {
        assert Elements(b) == {b[0]} + Elements(b[1..]);
        assert b[0] !in b[1..];
      }
      SortedUnique(a[1..], b[1..]);
      assert a == [a[0]] + a[1..] && b == [b[0]] + b[1..];
    }
  }

  lemma LowerTracks()
    ensures Lower("Junior Tenure-Track") == "junior tenure-track"
    ensures Lower("junior tenure-track") == "junior tenure-track"
    ensures Lower("senior tenure-track") == "senior tenure-track"
    ensures Lower("teaching") == "teaching"
  {
  }

  /** A job whose track column holds `text`. */
  function TrackJob(id: Option<string>, text: Value): Dict {
    var job := map["position_track" := text];
    if id.Some? then job["job_id" := Str(id.value)] else job
  }

  lemma FilterJobsSnoc(jobs: seq<Dict>, job: Dict, test: Dict -> Result<bool>)
    requires FilterJobs(jobs, test).Ok? && test(job).Ok?
    ensures FilterJobs(jobs + [job], test)
      == Ok(FilterJobs(jobs, test).value + if test(job).value then [job] else [])
    decreases |jobs|
  {
    if jobs == [] {
      assert jobs + [job] == [job] && [job][1..] == [];
      assert FilterJobs([job][1..], test) == Ok([]);
      assert [job] + [] == [job];
      assert FilterJobs(jobs, test).value == [];
    } else {
      assert (jobs + [job])[1..] == jobs[1..] + [job];
      assert (jobs + [job])[0] == jobs[0];
      assert test(jobs[0]).Ok? && FilterJobs(jobs[1..], test).Ok?;
      FilterJobsSnoc(jobs[1..], job, test);
      var tail := if test(job).value then [job] else [];
      var keep := test(jobs[0]).value;
      var head := if keep then [jobs[0]] else [];
      assert FilterJobs(jobs, test).value == head + FilterJobs(jobs[1..], test).value;
      assert FilterJobs(jobs + [job], test).value == head + FilterJobs(jobs[1..] + [job], test).value;
      assert head + (FilterJobs(jobs[1..], test).value + tail) == (head + FilterJobs(jobs[1..], test).value) + tail;
    }
  }

  lemma TrackTest(id: Option<string>, raw: string, wanted: string)
    requires raw != ""
    ensures ColumnTest("position_track", wanted)(TrackJob(id, Str(raw))) == Ok(Lower(raw) == Lower(wanted))
  {
    assert Get(TrackJob(id, Str(raw)), "position_track") == Str(raw);
  }

  /** Asking for track "Junior Tenure-Track" returns the two junior tenure-track jobs, 1 and 3. */
  lemma TrackFilterScenario()
    ensures var j1, j2, j3 := TrackJob(Some("1"), Str("junior tenure-track")),
                              TrackJob(Some("2"), Str("senior tenure-track")),
                              TrackJob(Some("3"), Str("junior tenure-track"));
      FilterListing([j1, j2, j3], None, None, Some("Junior Tenure-Track"), None) == Ok([j1, j3])
  {
    var j1, j2, j3 := TrackJob(Some("1"), Str("junior tenure-track")),
                      TrackJob(Some("2"), Str("senior tenure-track")),
                      TrackJob(Some("3"), Str("junior tenure-track"));
    LowerTracks();
    var test := ColumnTest("position_track", "Junior Tenure-Track");
    TrackTest(Some("1"), "junior tenure-track", "Junior Tenure-Track");
    TrackTest(Some("2"), "senior tenure-track", "Junior Tenure-Track");
    TrackTest(Some("3"), "junior tenure-track", "Junior Tenure-Track");
    assert "senior tenure-track" != "junior tenure-track" by {
      assert "senior tenure-track"[0] != "junior tenure-track"[0];
    }
    FilterJobsSnoc([], j1, test);
    assert [] + [j1] == [j1];
    FilterJobsSnoc([j1], j2, test);
    assert [j1] + [j2] == [j1, j2];
    FilterJobsSnoc([j1, j2], j3, test);
    assert [j1, j2] + [j3] == [j1, j2, j3];
    assert [] + [j1] + [] + [j3] == [j1, j3];
    assert FilterJobs([j1, j2, j3], test) == Ok([j1, j3]);
    assert Then(Ok([j1, j2, j3]), Some("Junior Tenure-Track"), w => ColumnTest("position_track", w))
      == FilterJobs([j1, j2, j3], test);
  }

  lemma TrackSetSnoc(jobs: seq<Dict>, job: Dict)
    ensures TrackSet(jobs + [job]) == match TrackSet(jobs)
      case Err(e) => Err(e)
      case Ok(found) =>
        match TrackOf(job)
        case Err(e) => Err(e)
        case Ok(t) => Ok(if t.Some? then found + {t.value} else found)
  {
    assert (jobs + [job])[..|jobs|] == jobs;
  }

  lemma TrackOfText(raw: string)
    requires raw != "" && Trimmed(raw)
    ensures TrackOf(TrackJob(None, Str(raw))) == Ok(Some(Lower(raw)))
  {
    StripOfTrimmed(raw);
  }

  /** The jobs of the track-list scenario: two spellings of one track, another track, `None`, and no track. */
  function TrackListJobs(): seq<Dict> {
    [TrackJob(None, Str("junior tenure-track")), TrackJob(None, Str("teaching")),
     TrackJob(None, Str("Junior Tenure-Track")), TrackJob(None, Null), map[]]
  }

  /** The three jobs with a track name give its two distinct spellings. */
  lemma TrackListNamed()
    ensures TrackSet([TrackJob(None, Str("junior tenure-track")), TrackJob(None, Str("teaching")),
                      TrackJob(None, Str("Junior Tenure-Track"))]) == Ok({"junior tenure-track", "teaching"})
  {
    var j1, j2, j3 := TrackJob(None, Str("junior tenure-track")), TrackJob(None, Str("teaching")),
                      TrackJob(None, Str("Junior Tenure-Track"));
    var both := {"junior tenure-track", "teaching"};
    TrackListFirstTwo();
    ScenarioTracks();
    TrackSetSnoc([j1, j2], j3);
    assert [j1, j2] + [j3] == [j1, j2, j3];
    assert both + {"junior tenure-track"} == both;
  }

  /** The tracks of the three named jobs: both spellings of the first read as one. */
  lemma ScenarioTracks()
    ensures TrackOf(TrackJob(None, Str("junior tenure-track"))) == Ok(Some("junior tenure-track"))
    ensures TrackOf(TrackJob(None, Str("teaching"))) == Ok(Some("teaching"))
    ensures TrackOf(TrackJob(None, Str("Junior Tenure-Track"))) == Ok(Some("junior tenure-track"))
  {
    LowerTracks();
    TrackOfText("junior tenure-track");
    TrackOfText("teaching");
    TrackOfText("Junior Tenure-Track");
  }

  lemma TrackListFirstTwo()
    ensures TrackSet([TrackJob(None, Str("junior tenure-track")), TrackJob(None, Str("teaching"))])
      == Ok({"junior tenure-track", "teaching"})
  {
    var j1, j2 := TrackJob(None, Str("junior tenure-track")), TrackJob(None, Str("teaching"));
    TrackListFirst();
    ScenarioTracks();
    TrackSetSnoc([j1], j2);
    assert [j1] + [j2] == [j1, j2];
    assert {"junior tenure-track"} + {"teaching"} == {"junior tenure-track", "teaching"};
  }

  lemma TrackListFirst()
    ensures TrackSet([TrackJob(None, Str("junior tenure-track"))]) == Ok({"junior tenure-track"})
  {
    var j1 := TrackJob(None, Str("junior tenure-track"));
    ScenarioTracks();
    TrackSetSnoc([], j1);
    assert [] + [j1] == [j1];
    assert {} + {"junior tenure-track"} == {"junior tenure-track"};
  }

  lemma TrackListSet()
    ensures TrackSet(TrackListJobs()) == Ok({"junior tenure-track", "teaching"})
  {
    var named := [TrackJob(None, Str("junior tenure-track")), TrackJob(None, Str("teaching")),
                  TrackJob(None, Str("Junior Tenure-Track"))];
    var j4, j5 := TrackJob(None, Null), map[];
    TrackListNamed();
    assert TrackOf(j4) == Ok(None) && TrackOf(j5) == Ok(None);
    TrackSetSnoc(named, j4);
    TrackSetSnoc(named + [j4], j5);
    assert named + [j4] + [j5] == TrackListJobs();
  }

  /** Those jobs list as exactly "junior tenure-track" then "teaching". */
  lemma TrackListScenario(tracks: seq<string>)
    requires TrackSet(TrackListJobs()).Ok? && Sorted(tracks) && Elements(tracks) == TrackSet(TrackListJobs()).value
    ensures tracks == ["junior tenure-track", "teaching"]
  {
    TrackListSet();
    var expected := ["junior tenure-track", "teaching"];
    assert Sorted(expected);
    assert Elements(expected) == {"junior tenure-track", "teaching"};
    SortedUnique(tracks, expected);
  }
}
