/**
 * Schema migration and date clean-up: dates read from the database are
 * brought to the `YYYY-MM-DD` form, and columns introduced after the first
 * release are added to an existing table.
 */
module Migrate {
  import opened Wrappers
  import opened StringUtil
  import opened Values
  import opened DateFormats
  import opened JobDb

  /** The formats tried, in order, once the fast paths fail. */
  const DateFormatsTried: seq<seq<Piece>> := [
    IsoFormat, UsSlash, EuSlash, LongMonth, ShortMonth, IsoSlash, EuDash, UsDash, IsoDateTime]

  /** The first format that parses `s`, rendered as `%Y-%m-%d`. */
  function FirstParse(s: string, fmts: seq<seq<Piece>>): (r: Option<string>)
    ensures r.Some? ==> IsIsoDate(r.value)
  {
    if fmts == [] then None
    else match Strptime(s, fmts[0])
      case Some(d) => RenderIsIso(d); Some(Render(d))
      case None => FirstParse(s, fmts[1..])
  }

  /** The `for fmt in date_formats` loop, returning at the first format that parses. */
  method TryFormats(s: string, fmts: seq<seq<Piece>>) returns (r: Option<string>)
    ensures r == FirstParse(s, fmts)
  {
    var i := 0;
    while i < |fmts|
      invariant 0 <= i <= |fmts|
      invariant FirstParse(s, fmts) == FirstParse(s, fmts[i..])
    {
      assert fmts[i..][1..] == fmts[i + 1..];
      var parsed := Strptime(s, fmts[i]);
      if parsed.Some? {
        RenderIsIso(parsed.value);
        return Some(Render(parsed.value));
      }
      i := i + 1;
    }
    return None;
  }

  /** The first format that parses `s`, as a date. */
  function FirstDate(s: string, fmts: seq<seq<Piece>>): (r: Option<Date>)
    ensures r.Some? ==> ValidDate(r.value)
    ensures FirstParse(s, fmts) == if r.Some? then Some(Render(r.value)) else None
    ensures r.Some? ==> Strptime(Render(r.value), IsoFormat) == r
  {
    if fmts == [] then None
    else match Strptime(s, fmts[0])
      case Some(d) =>
        ParseRender(d, "");
        assert Render(d) + "" == Render(d);
        Some(d)
      case None => FirstDate(s, fmts[1..])
  }

  /** The text of a stored value after `str()` and `strip()`. */
  function DateText(v: Value): string {
    Strip(PyStr(v))
  }

  predicate Blankish(s: string) {
    s == "" || Lower(s) == "null" || Lower(s) == "none"
  }

  /** The part before the first blank, as `split(' ')[0]` gives it. */
  function DatePart(s: string): string {
    Split(s, " ")[0]
  }

  /** Text `_normalize_date` accepts, and the day that text names. */
  datatype Accepted = Accepted(text: string, date: Date)

  /**
   * The three ways `_normalize_date` accepts stripped text: it passes the
   * `%Y-%m-%d` check as it is; it holds a blank and a colon and its part
   * before the first blank passes; or one of the formats tried parses it,
   * and it is written out again as `%Y-%m-%d`.
   */
  function Accept(s: string): (r: Option<Accepted>)
    ensures r.Some? ==> Strptime(r.value.text, IsoFormat) == Some(r.value.date)
  {
    if Blankish(s) then None
    else
      var whole := Strptime(s, IsoFormat);
      if whole.Some? then Some(Accepted(s, whole.value))
      else
        var part := Strptime(DatePart(s), IsoFormat);
        if Contains(s, " ") && Contains(s, ":") && part.Some? then Some(Accepted(DatePart(s), part.value))
        else match FirstDate(s, DateFormatsTried)
          case Some(d) => Some(Accepted(Render(d), d))
          case None => None
  }

  /**
   * `_normalize_date` as written: a value that already passes the
   * `%Y-%m-%d` check is returned as it stands, one-digit month or day
   * included.
   */
  function NormalizeDate(v: Value): (r: Option<string>)
    ensures r.Some? ==> IsIsoDate(r.value)
  {
    if v.Null? then None else TextOf(Accept(DateText(v)))
  }

  /** `_normalize_date` run with its format loop as a method. */
  method NormalizeDateValue(v: Value) returns (r: Option<string>)
    ensures r == NormalizeDate(v)
  {
    if v.Null? {
      return None;
    }
    var s := DateText(v);
    assert NormalizeDate(v) == TextOf(Accept(s));
    if Blankish(s) {
      return None;
    }
    if Strptime(s, IsoFormat).Some? {
      AcceptWhole(s);
      return Some(s);
    }
    if Contains(s, " ") && Contains(s, ":") && Strptime(DatePart(s), IsoFormat).Some? {
      AcceptPart(s);
      return Some(DatePart(s));
    }
    r := TryFormats(s, DateFormatsTried);
    AcceptFallback(s);
  }

  function TextOf(a: Option<Accepted>): Option<string> {
    if a.Some? then Some(a.value.text) else None
  }

  lemma AcceptWhole(s: string)
    requires !Blankish(s) && Strptime(s, IsoFormat).Some?
    ensures Accept(s) == Some(Accepted(s, Strptime(s, IsoFormat).value))
  {
  }

  lemma AcceptPart(s: string)
    requires !Blankish(s) && Strptime(s, IsoFormat).None?
    requires Contains(s, " ") && Contains(s, ":") && Strptime(DatePart(s), IsoFormat).Some?
    ensures Accept(s) == Some(Accepted(DatePart(s), Strptime(DatePart(s), IsoFormat).value))
  {
  }

  /** Past the fast paths, `Accept` keeps the rendered first parse. */
  lemma AcceptFallback(s: string)
    requires !Blankish(s) && Strptime(s, IsoFormat).None?
    requires !(Contains(s, " ") && Contains(s, ":") && Strptime(DatePart(s), IsoFormat).Some?)
    ensures TextOf(Accept(s)) == FirstParse(s, DateFormatsTried)
    ensures Accept(s) == if FirstDate(s, DateFormatsTried).Some?
      then Some(Accepted(Render(FirstDate(s, DateFormatsTried).value), FirstDate(s, DateFormatsTried).value))
      else None
  {
  }

  function AsValue(r: Option<string>): Value {
    if r.Some? then Str(r.value) else Null
  }

  /** ISO text is never blank and survives stripping. */
  lemma IsoIsClean(s: string)
    requires IsIsoDate(s)
    ensures Strip(s) == s && !Blankish(s)
  {
    IsoEnds(s);
    StripOfTrimmed(s);
    assert Lower(s)[0] == s[0];
  }

  /** Text that already passes `%Y-%m-%d` after stripping is returned unchanged. */
  lemma NormalizeKeepsIso(s: string)
    requires IsIsoDate(s)
    ensures NormalizeDate(Str(s)) == Some(s)
  {
    IsoIsClean(s);
    assert DateText(Str(s)) == s;
    AcceptWhole(s);
  }

  /** `None`, blank text and "null" or "none" in any letter case give `None`. */
  lemma NormalizeBlank(v: Value)
    requires v.Null? || (v.Str? && Blankish(Strip(v.s)))
    ensures NormalizeDate(v) == None
  {
  }

  lemma TimestampText(d: Date, time: string, s: string)
    requires ValidDate(d) && time != [] && Trimmed(time) && s == Render(d) + " " + time
    ensures Strip(s) == s && !Blankish(s) && !IsIsoDate(s)
  {
    TimestampTrimmed(Render(d), time, s);
    StripOfTrimmed(s);
    LongNotBlankish(s);
    TimestampNotIso(d, " " + time, s);
  }

  lemma TimestampTrimmed(date: string, time: string, s: string)
    requires |date| == 10 && !IsSpace(date[0]) && time != [] && Trimmed(time)
    requires s == date + " " + time
    ensures Trimmed(s)
  {
    assert s[0] == date[0];
    assert s[|s| - 1] == time[|time| - 1];
  }

  lemma LongNotBlankish(s: string)
    requires |s| > 4
    ensures !Blankish(s)
  {
    assert |Lower(s)| == |s|;
  }

  lemma TimestampNotIso(d: Date, x: string, s: string)
    requires ValidDate(d) && x != "" && s == Render(d) + x
    ensures !IsIsoDate(s)
  {
    ParseRender(d, x);
  }

  lemma TimestampPieces(d: Date, time: string, s: string)
    requires ValidDate(d) && Contains(time, ":") && s == Render(d) + " " + time
    ensures Contains(s, " ") && Contains(s, ":") && DatePart(s) == Render(d)
  {
    ContainsInfix(Render(d), " ", time, " ");
    ContainsInfix(Render(d) + " ", time, "", ":");
    assert Render(d) + " " + time + "" == s;
    SplitAtFirst(Render(d), " ", time);
  }

  /** A timestamp `YYYY-MM-DD HH:MM:SS` keeps its date part. */
  lemma NormalizeTimestamp(d: Date, time: string)
    requires ValidDate(d) && Contains(time, ":") && Trimmed(time)
    ensures NormalizeDate(Str(Render(d) + " " + time)) == Some(Render(d))
  {
    var s := Render(d) + " " + time;
    ContainsLength(time, ":");
    TimestampText(d, time, s);
    TimestampPieces(d, time, s);
    RenderIsIso(d);
    NormalizeDatePart(s);
  }

  /** Trimmed text with a blank and a colon whose first part is an ISO date normalizes to that part. */
  lemma NormalizeDatePart(s: string)
    requires Strip(s) == s && !Blankish(s) && !IsIsoDate(s)
    requires Contains(s, " ") && Contains(s, ":") && IsIsoDate(DatePart(s))
    ensures NormalizeDate(Str(s)) == Some(DatePart(s))
  {
    assert DateText(Str(s)) == s;
    AcceptPart(s);
  }

  /** `_normalize_date(_normalize_date(x)) == _normalize_date(x)`. */
  lemma NormalizeIdempotent(v: Value)
    ensures NormalizeDate(AsValue(NormalizeDate(v))) == NormalizeDate(v)
  {
    var r := NormalizeDate(v);
    if r.Some? {
      NormalizeKeepsIso(r.value);
    }
  }

  /** Month first: text that both slash formats read is read as month/day/year. */
  lemma UsSlashBeforeEuSlash(s: string)
    requires !IsIsoDate(s) && Strptime(s, UsSlash).Some?
    ensures FirstParse(s, DateFormatsTried) == Some(Render(Strptime(s, UsSlash).value))
  {
    assert DateFormatsTried[1..][0] == UsSlash;
  }

  /** "03/04/2024" is the fourth of March, though it also reads as the third of April. */
  lemma AmbiguousSlashDate()
    ensures Strptime("03/04/2024", UsSlash) == Some(Date(2024, 3, 4))
    ensures Strptime("03/04/2024", EuSlash) == Some(Date(2024, 4, 3))
  {
    SlashDateMonthFirst();
    SlashDateDayFirst();
  }

  lemma SlashDateMonthFirst()
    ensures Strptime("03/04/2024", UsSlash) == Some(Date(2024, 3, 4))
  {
    SlashPieces();
    assert MatchFormat(UsSlash[4..], "2024", Fields(1900, 3, 4, 0, 0, 0)) == Some((Fields(2024, 3, 4, 0, 0, 0), ""));
  }

  lemma SlashDateDayFirst()
    ensures Strptime("03/04/2024", EuSlash) == Some(Date(2024, 4, 3))
  {
    SlashPieces();
    assert MatchFormat(EuSlash[4..], "2024", Fields(1900, 4, 3, 0, 0, 0)) == Some((Fields(2024, 4, 3, 0, 0, 0), ""));
  }

  /** How "03/04/2024" splits into its pieces. */
  lemma SlashPieces()
    ensures MatchPiece(Day, "03/04/2024") == Some((3, 2)) && MatchPiece(Month, "03/04/2024") == Some((3, 2))
    ensures MatchPiece(Day, "04/2024") == Some((4, 2)) && MatchPiece(Month, "04/2024") == Some((4, 2))
    ensures MatchPiece(Lit('/'), "/04/2024") == Some((0, 1)) && MatchPiece(Lit('/'), "/2024") == Some((0, 1))
    ensures MatchPiece(Year, "2024") == Some((2024, 4))
    ensures "03/04/2024"[2..] == "/04/2024" && "/04/2024"[1..] == "04/2024"
    ensures "04/2024"[2..] == "/2024" && "/2024"[1..] == "2024" && "2024"[4..] == ""
  {
  }

  lemma SlashDateNotIso()
    ensures !IsIsoDate("03/04/2024")
  {
    assert MatchPiece(Year, "03/04/2024").None?;
  }

  // ------------------------------------------ canonical form (corrected)

  /**
   * `_normalize_date` as its documentation promises: every accepted value,
   * including one the `%Y-%m-%d` check lets through with a one-digit month
   * or day, is written out as `YYYY-MM-DD`.
   */
  function NormalizeDateIso(v: Value): (r: Option<string>)
    ensures r.Some? ==> |r.value| == 10 && IsIsoDate(r.value)
  {
    if v.Null? then None
    else match Accept(DateText(v))
      case Some(a) => RenderIsIso(a.date); Some(Render(a.date))
      case None => None
  }

  /** The corrected `_normalize_date`, with its format loop as a method. */
  method NormalizeDateValueIso(v: Value) returns (r: Option<string>)
    ensures r == NormalizeDateIso(v)
  {
    if v.Null? {
      return None;
    }
    var s := DateText(v);
    if Blankish(s) {
      return None;
    }
    var whole := Strptime(s, IsoFormat);
    if whole.Some? {
      AcceptWhole(s);
      return Some(Render(whole.value));
    }
    var part := Strptime(DatePart(s), IsoFormat);
    if Contains(s, " ") && Contains(s, ":") && part.Some? {
      AcceptPart(s);
      return Some(Render(part.value));
    }
    r := TryFormats(s, DateFormatsTried);
    AcceptFallback(s);
  }

  /** Both versions accept the same values and name the same day. */
  lemma NormalizeSameDay(v: Value)
    ensures NormalizeDate(v).Some? <==> NormalizeDateIso(v).Some?
    ensures NormalizeDate(v).Some? ==>
      Strptime(NormalizeDate(v).value, IsoFormat) == Strptime(NormalizeDateIso(v).value, IsoFormat)
  {
    if !v.Null? && Accept(DateText(v)).Some? {
      ParsesBack(Accept(DateText(v)).value.date);
    }
  }

  lemma ParsesBack(d: Date)
    requires ValidDate(d)
    ensures Strptime(Render(d), IsoFormat) == Some(d)
  {
    ParseRender(d, "");
    assert Render(d) + "" == Render(d);
  }

  /** The canonical text of a day is its own normal form. */
  lemma CanonicalFixed(d: Date)
    requires ValidDate(d)
    ensures NormalizeDateIso(Str(Render(d))) == Some(Render(d))
  {
    ParsesBack(d);
    RenderIsIso(d);
    NormalizeIsoOfIso(Render(d));
  }

  /** The canonical form is kept as it is, so the corrected version is idempotent too. */
  lemma NormalizeIsoIdempotent(v: Value)
    ensures NormalizeDateIso(AsValue(NormalizeDateIso(v))) == NormalizeDateIso(v)
  {
    if !v.Null? {
      var a := Accept(DateText(v));
      if a.Some? {
        CanonicalFixed(a.value.date);
      }
    }
  }

  /** "2024-3-5" passes the `%Y-%m-%d` check, so the code as written stores it unchanged. */
  lemma ShortDateKeptAsWritten()
    ensures NormalizeDate(Str("2024-3-5")) == Some("2024-3-5")
    ensures NormalizeDateIso(Str("2024-3-5")) == Some("2024-03-05")
  {
    ShortDateParses();
    NormalizeKeepsIso("2024-3-5");
    ShortDateCanonical();
  }

  lemma ShortDateCanonical()
    requires Strptime("2024-3-5", IsoFormat) == Some(Date(2024, 3, 5))
    ensures NormalizeDateIso(Str("2024-3-5")) == Some("2024-03-05")
  {
    NormalizeIsoOfIso("2024-3-5");
    ShortDateRendered();
  }

  /** Text passing the `%Y-%m-%d` check is rewritten to the canonical form of its day. */
  lemma NormalizeIsoOfIso(s: string)
    requires IsIsoDate(s)
    ensures NormalizeDateIso(Str(s)) == Some(Render(Strptime(s, IsoFormat).value))
  {
    IsoIsClean(s);
    assert DateText(Str(s)) == s;
    AcceptWhole(s);
  }

  lemma ShortDateRendered()
    ensures Render(Date(2024, 3, 5)) == "2024-03-05"
  {
  }

  lemma ShortDateParses()
    ensures Strptime("2024-3-5", IsoFormat) == Some(Date(2024, 3, 5))
  {
    ShortPieces();
    assert MatchFormat(IsoFormat[4..], "5", Fields(2024, 3, 1, 0, 0, 0)) == Some((Fields(2024, 3, 5, 0, 0, 0), ""));
  }

  /** How "2024-3-5" splits into its pieces. */
  lemma ShortPieces()
    ensures MatchPiece(Year, "2024-3-5") == Some((2024, 4)) && "2024-3-5"[4..] == "-3-5"
    ensures MatchPiece(Lit('-'), "-3-5") == Some((0, 1)) && "-3-5"[1..] == "3-5"
    ensures MatchPiece(Month, "3-5") == Some((3, 1)) && "3-5"[1..] == "-5"
    ensures MatchPiece(Lit('-'), "-5") == Some((0, 1)) && "-5"[1..] == "5"
    ensures MatchPiece(Day, "5") == Some((5, 1)) && "5"[1..] == ""
  {
  }

  /**
   * Deadlines are compared as text: the fifth of March written the short way
   * does not sort before the tenth of March, the canonical form does.
   */
  lemma ShortDateMisorders()
    ensures !LexLess("2024-3-5", "2024-03-10")
    ensures LexLess("2024-03-05", "2024-03-10")
  {
    assert "2024-3-5"[1..] == "024-3-5";
  }

  // ------------------------------------------ normalize_existing_dates

  /** The date columns the clean-up reads. */
  const DateColumns: seq<string> := ["deadline", "extracted_deadline", "posted_date"]

  /**
   * `normalized != stored` in Python: `None` equals only NULL, a string
   * equals only the same text, and a string never equals a number.
   */
  predicate Differs(n: Option<string>, v: Value) {
    !(n.None? && v.Null?) && !(n.Some? && v == Str(n.value))
  }

  /**
   * A per-value date normaliser.  The row-level clean-up is stated for any
   * of them: the table clean-up runs `NormalizeDate`, as written, and the
   * lemmas below also hold of the corrected `NormalizeDateIso`.
   */
  type Normalizer = Value -> Option<string>

  /** Normalising what the normaliser wrote gives the same answer again. */
  ghost predicate Settles(norm: Normalizer) {
    forall v :: norm(AsValue(norm(v))) == norm(v)
  }

  /** Every text the normaliser writes passes the `%Y-%m-%d` check. */
  ghost predicate WritesIso(norm: Normalizer) {
    forall v :: norm(v).Some? ==> IsIsoDate(norm(v).value)
  }

  lemma AsWrittenNormalizer()
    ensures Settles(NormalizeDate) && WritesIso(NormalizeDate)
  {
    forall v: Value
      ensures NormalizeDate(AsValue(NormalizeDate(v))) == NormalizeDate(v)
    {
      NormalizeIdempotent(v);
    }
  }

  lemma IsoNormalizer()
    ensures Settles(NormalizeDateIso) && WritesIso(NormalizeDateIso)
  {
    forall v: Value
      ensures NormalizeDateIso(AsValue(NormalizeDateIso(v))) == NormalizeDateIso(v)
    {
      NormalizeIsoIdempotent(v);
    }
  }

  /** The assignments the clean-up builds for one row. */
  function DateUpdates(norm: Normalizer, row: Dict): Dict {
    map c | c in DateColumns && c in row && Differs(norm(row[c]), row[c]) :: AsValue(norm(row[c]))
  }

  /** The row after its UPDATE: each date column holds its normalised value. */
  function NormalizeRow(norm: Normalizer, row: Dict): Dict {
    map c | c in row :: if c in DateColumns then AsValue(norm(row[c])) else row[c]
  }

  /** The UPDATE writes only the differing columns, and that gives the same row. */
  lemma UpdatesGiveRow(norm: Normalizer, row: Dict)
    ensures row + DateUpdates(norm, row) == NormalizeRow(norm, row)
  {
    var u := DateUpdates(norm, row);
    forall c | c in row
      ensures (row + u)[c] == NormalizeRow(norm, row)[c]
    {
      if c in DateColumns && !Differs(norm(row[c]), row[c]) {
        assert AsValue(norm(row[c])) == row[c];
      }
    }
  }

  /** Only the date columns change. */
  lemma NormalizeRowShape(norm: Normalizer, row: Dict)
    ensures NormalizeRow(norm, row).Keys == row.Keys
    ensures forall c :: c in row && c !in DateColumns ==> NormalizeRow(norm, row)[c] == row[c]
  {
  }

  predicate Changed(norm: Normalizer, row: Dict) {
    DateUpdates(norm, row) != map[]
  }

  function ChangedKeys(norm: Normalizer, rows: map<string, Dict>): set<string> {
    set k | k in rows && Changed(norm, rows[k])
  }

  function ChangedCount(norm: Normalizer, rows: seq<Dict>): nat {
    if rows == [] then 0
    else ChangedCount(norm, rows[..|rows| - 1]) + (if Changed(norm, rows[|rows| - 1]) then 1 else 0)
  }

  /** The per-row loop over the three date columns. */
  method RowUpdates(row: Dict) returns (updates: Dict)
    ensures updates == DateUpdates(NormalizeDate, row)
  {
    updates := map[];
    for j := 0 to |DateColumns|
      invariant forall c :: c in updates <==> c in DateColumns[..j] && c in row && Differs(NormalizeDate(row[c]), row[c])
      invariant forall c :: c in updates ==> updates[c] == AsValue(NormalizeDate(row[c]))
    {
      var c := DateColumns[j];
      assert DateColumns[..j + 1] == DateColumns[..j] + [c];
      if c in row {
        var normalized := NormalizeDateValue(row[c]);
        if Differs(normalized, row[c]) {
          updates := updates[c := AsValue(normalized)];
        }
      }
    }
    assert DateColumns[..|DateColumns|] == DateColumns;
    assert forall c :: c in updates <==> c in DateUpdates(NormalizeDate, row);
  }

  /** A second clean-up finds nothing to change. */
  lemma NormalizeRowSettled(norm: Normalizer, row: Dict)
    requires Settles(norm)
    ensures !Changed(norm, NormalizeRow(norm, row))
    ensures NormalizeRow(norm, NormalizeRow(norm, row)) == NormalizeRow(norm, row)
  {
    var r := NormalizeRow(norm, row);
    forall c | c in DateColumns && c in r
      ensures !Differs(norm(r[c]), r[c])
    {
      assert r[c] == AsValue(norm(row[c]));
    }
    assert DateUpdates(norm, r) == map[];
    assert r + map[] == r;
  }

  /** Only the differing columns are written, and what is written passes the `%Y-%m-%d` check. */
  lemma NormalizeRowWritesDiffering(norm: Normalizer, row: Dict, c: string)
    requires WritesIso(norm) && c in row
    ensures NormalizeRow(norm, row)[c] != row[c] ==> c in DateColumns && Differs(norm(row[c]), row[c])
    ensures c in DateColumns ==> (NormalizeRow(norm, row)[c].Null? || (NormalizeRow(norm, row)[c].Str? && IsIsoDate(NormalizeRow(norm, row)[c].s)))
  {
    if c in DateColumns {
      assert NormalizeRow(norm, row)[c] == AsValue(norm(row[c]));
    }
  }

  function NormalizeRows(norm: Normalizer, rows: map<string, Dict>): map<string, Dict> {
    map k | k in rows :: NormalizeRow(norm, rows[k])
  }

  /** Normalising the keyed rows keeps the table well formed: no date column is a key or a new column. */
  lemma NormalizeRowsWellFormed(norm: Normalizer, s: Store)
    requires WellFormed(s)
    ensures WellFormed(s.(rows := NormalizeRows(norm, s.rows)))
  {
    var rows := NormalizeRows(norm, s.rows);
    forall k | k in rows
      ensures rows[k].Keys == s.columns.Keys && rows[k]["job_id"] == Str(k)
    {
      NormalizedRowFits(norm, s, k);
    }
  }

  lemma NormalizedRowFits(norm: Normalizer, s: Store, k: string)
    requires WellFormed(s) && k in s.rows
    ensures NormalizeRow(norm, s.rows[k]).Keys == s.columns.Keys
    ensures NormalizeRow(norm, s.rows[k])["job_id"] == Str(k)
  {
    JobIdNotDate();
    var row := s.rows[k];
    assert row.Keys == s.columns.Keys && row["job_id"] == Str(k);
    assert "job_id" in row;
  }

  lemma JobIdNotDate()
    ensures "job_id" !in DateColumns
  {
    assert DateColumns[0][0] != 'j' && DateColumns[1][0] != 'j' && DateColumns[2][0] != 'j';
  }

  /**
   * The row loop of `normalize_existing_dates` over the keyed rows: the
   * UPDATEs are committed together at the end.
   */
  method NormalizeKeyed(rows0: map<string, Dict>) returns (rows: map<string, Dict>, count: nat)
    ensures rows == NormalizeRows(NormalizeDate, rows0) && count == |ChangedKeys(NormalizeDate, rows0)|
  {
    rows := rows0;
    var pending := rows0.Keys;
    ghost var done: set<string> := {};
    count := 0;
    PartlyNormalizedEnds(NormalizeDate, rows0);
    while pending != {}
      invariant done + pending == rows0.Keys && done !! pending
      invariant rows == PartlyNormalized(NormalizeDate, rows0, done)
      invariant count == |ChangedIn(NormalizeDate, rows0, done)|
      decreases |pending|
    {
      var key :| key in pending;
      var changed;
      rows, changed := NormalizeStep(rows0, done, rows, key);
      ChangedStep(NormalizeDate, rows0, done, key);
      if changed {
        count := count + 1;
      }
      MoveKey(rows0.Keys, done, pending, key);
      done := done + {key};
      pending := pending - {key};
    }
    assert done == rows0.Keys;
    ChangedInAll(NormalizeDate, rows0);
  }

  /** One pass of the row loop: the row with `key` is read, normalised and written back when it changed. */
  method NormalizeStep(rows0: map<string, Dict>, ghost done: set<string>, rows: map<string, Dict>, key: string)
    returns (next: map<string, Dict>, changed: bool)
    requires key in rows0 && key !in done
    requires rows == PartlyNormalized(NormalizeDate, rows0, done)
    ensures next == PartlyNormalized(NormalizeDate, rows0, done + {key})
    ensures changed == Changed(NormalizeDate, rows0[key])
  {
    NormalizeOneMore(NormalizeDate, rows0, done, key);
    var row := rows[key];
    var updates := RowUpdates(row);
    UpdatesGiveRow(NormalizeDate, row);
    changed := updates != map[];
    if changed {
      next := rows[key := row + updates];
    } else {
      assert row + map[] == row;
      next := rows;
      assert rows[key := row] == rows;
    }
  }

  lemma MoveKey(all: set<string>, done: set<string>, pending: set<string>, key: string)
    requires done + pending == all && done !! pending && key in pending
    ensures (done + {key}) + (pending - {key}) == all && (done + {key}) !! (pending - {key})
  {
  }

  /** The rows with the keys in `done` normalised and the others as stored. */
  function PartlyNormalized(norm: Normalizer, rows0: map<string, Dict>, done: set<string>): map<string, Dict> {
    map k | k in rows0 :: if k in done then NormalizeRow(norm, rows0[k]) else rows0[k]
  }

  lemma PartlyNormalizedEnds(norm: Normalizer, rows0: map<string, Dict>)
    ensures PartlyNormalized(norm, rows0, {}) == rows0
    ensures PartlyNormalized(norm, rows0, rows0.Keys) == NormalizeRows(norm, rows0)
  {
  }

  lemma NormalizeOneMore(norm: Normalizer, rows0: map<string, Dict>, done: set<string>, key: string)
    requires key in rows0 && key !in done
    ensures PartlyNormalized(norm, rows0, done)[key] == rows0[key]
    ensures PartlyNormalized(norm, rows0, done + {key}) == PartlyNormalized(norm, rows0, done)[key := NormalizeRow(norm, rows0[key])]
  {
  }

  /** The keys in `done` whose row the clean-up changes. */
  function ChangedIn(norm: Normalizer, rows0: map<string, Dict>, done: set<string>): set<string> {
    set k | k in done && k in rows0 && Changed(norm, rows0[k])
  }

  lemma ChangedStep(norm: Normalizer, rows0: map<string, Dict>, done: set<string>, key: string)
    requires key in rows0 && key !in done
    ensures |ChangedIn(norm, rows0, done + {key})| == |ChangedIn(norm, rows0, done)| + (if Changed(norm, rows0[key]) then 1 else 0)
  {
    if Changed(norm, rows0[key]) {
      assert ChangedIn(norm, rows0, done + {key}) == ChangedIn(norm, rows0, done) + {key};
    } else {
      assert ChangedIn(norm, rows0, done + {key}) == ChangedIn(norm, rows0, done);
    }
  }

  lemma ChangedInAll(norm: Normalizer, rows0: map<string, Dict>)
    ensures ChangedIn(norm, rows0, rows0.Keys) == ChangedKeys(norm, rows0)
  {
  }

  /** The same loop over the rows without a key: each is counted, none is found by its UPDATE. */
  method CountChanged(orphans: seq<Dict>) returns (count: nat)
    ensures count == ChangedCount(NormalizeDate, orphans)
  {
    count := 0;
    for i := 0 to |orphans|
      invariant count == ChangedCount(NormalizeDate, orphans[..i])
    {
      assert orphans[..i + 1][..i] == orphans[..i];
      var updates := RowUpdates(orphans[i]);
      if updates != map[] {
        count := count + 1;
      }
    }
    assert orphans[..|orphans|] == orphans;
  }

  /**
   * `normalize_existing_dates`: keyed rows get their UPDATE; a row with a
   * NULL `job_id` is counted but left as it is, since `job_id = NULL`
   * matches nothing.  The SELECT fails without the `extracted_deadline`
   * column.
   */
  method NormalizeExistingDates(table: JobTable) returns (r: Result<nat>)
    requires table.Valid()
    modifies table
    ensures table.Valid()
    ensures "extracted_deadline" !in old(table.columns) ==> r.Err? && table.State() == old(table.State())
    ensures "extracted_deadline" in old(table.columns) ==>
      r.Ok? && r.value == |ChangedKeys(NormalizeDate, old(table.rows))| + ChangedCount(NormalizeDate, old(table.orphans))
      && table.State() == old(table.State()).(rows := NormalizeRows(NormalizeDate, old(table.rows)))
  {
    if "extracted_deadline" !in table.columns {
      return Err("OperationalError: no such column: extracted_deadline");
    }
    ghost var before := table.State();
    NormalizeRowsWellFormed(NormalizeDate, before);
    var rows, keyed := NormalizeKeyed(table.rows);
    var unkeyed := CountChanged(table.orphans);
    table.rows := rows;
    assert table.State() == before.(rows := NormalizeRows(NormalizeDate, before.rows));
    assert keyed == |ChangedKeys(NormalizeDate, before.rows)| && unkeyed == ChangedCount(NormalizeDate, before.orphans);
    r := Ok(keyed + unkeyed);
  }

  /**
   * A second clean-up run changes no row and counts nothing, as written and
   * with the corrected normaliser alike.
   */
  lemma NormalizeTwice(s: Store)
    ensures NormalizeRows(NormalizeDate, NormalizeRows(NormalizeDate, s.rows)) == NormalizeRows(NormalizeDate, s.rows)
    ensures ChangedKeys(NormalizeDate, NormalizeRows(NormalizeDate, s.rows)) == {}
    ensures NormalizeRows(NormalizeDateIso, NormalizeRows(NormalizeDateIso, s.rows)) == NormalizeRows(NormalizeDateIso, s.rows)
    ensures ChangedKeys(NormalizeDateIso, NormalizeRows(NormalizeDateIso, s.rows)) == {}
  {
    AsWrittenNormalizer();
    RowsSettled(NormalizeDate, s.rows);
    IsoNormalizer();
    RowsSettled(NormalizeDateIso, s.rows);
  }

  /**
   * The third finding at the table: a row whose only date is `2024-3-5` is
   * left as it is and not counted by the clean-up as written; the corrected
   * normaliser rewrites it.
   */
  lemma ShortDateRowKept(row: Dict)
    requires "deadline" !in row && "posted_date" !in row
    requires "extracted_deadline" in row && row["extracted_deadline"] == Str("2024-3-5")
    ensures !Changed(NormalizeDate, row) && NormalizeRow(NormalizeDate, row) == row
    ensures Changed(NormalizeDateIso, row)
    ensures NormalizeRow(NormalizeDateIso, row)["extracted_deadline"] == Str("2024-03-05")
  {
    ShortDateKeptAsWritten();
    OneDateRow(NormalizeDate, row);
    OneDateRow(NormalizeDateIso, row);
  }

  /** A row whose only date column is `extracted_deadline` changes exactly when that value does. */
  lemma OneDateRow(norm: Normalizer, row: Dict)
    requires "deadline" !in row && "posted_date" !in row && "extracted_deadline" in row
    ensures var v := row["extracted_deadline"];
      && (Changed(norm, row) <==> Differs(norm(v), v))
      && NormalizeRow(norm, row)["extracted_deadline"] == AsValue(norm(v))
      && (!Changed(norm, row) ==> NormalizeRow(norm, row) == row)
  {
    var v := row["extracted_deadline"];
    assert forall c :: c in DateColumns && c in row ==> c == "extracted_deadline";
    if Differs(norm(v), v) {
      assert "extracted_deadline" in DateUpdates(norm, row);
    } else {
      assert DateUpdates(norm, row) == map[];
      UpdatesGiveRow(norm, row);
      assert row + map[] == row;
    }
  }

  lemma RowsSettled(norm: Normalizer, rows: map<string, Dict>)
    requires Settles(norm)
    ensures NormalizeRows(norm, NormalizeRows(norm, rows)) == NormalizeRows(norm, rows)
    ensures ChangedKeys(norm, NormalizeRows(norm, rows)) == {}
  {
    var once := NormalizeRows(norm, rows);
    forall k | k in once
      ensures NormalizeRow(norm, once[k]) == once[k] && !Changed(norm, once[k])
    {
      NormalizeRowSettled(norm, rows[k]);
    }
  }

  // ------------------------------------------------- migrate_database

  /** The columns added after the first release, with the default each ALTER gives existing rows. */
  const NewColumns: seq<(string, Value)> := [
    ("extracted_deadline", Null),
    ("application_portal_url", Null),
    ("requires_separate_application", Num(0.0, "0")),
    ("country", Null),
    ("application_materials", Null),
    ("references_separate_email", Num(0.0, "0")),
    ("position_track", Null),
    ("difficulty_score", Null),
    ("difficulty_reasoning", Null),
    ("fit_updated_at", Null),
    ("fit_portfolio_hash", Null)]

  function Names(cols: seq<(string, Value)>): set<string> {
    set i | 0 <= i < |cols| :: cols[i].0
  }

  /** `ALTER TABLE job_postings ADD COLUMN`: every existing row takes the default. */
  function AddColumn(s: Store, name: string, default: Value): (r: Store)
    requires WellFormed(s) && name !in s.columns
    ensures WellFormed(r)
    ensures r.columns == s.columns[name := default] && r.rows.Keys == s.rows.Keys && |r.orphans| == |s.orphans|
    ensures forall k :: k in s.rows ==> r.rows[k] == s.rows[k][name := default]
    ensures forall i :: 0 <= i < |s.orphans| ==> r.orphans[i] == s.orphans[i][name := default]
  {
    var r := Store(s.columns[name := default], WithColumn(s.rows, name, default), WithColumnAll(s.orphans, name, default));
    AddColumnWellFormed(s, name, default);
    r
  }

  function WithColumn(rows: map<string, Dict>, name: string, default: Value): (r: map<string, Dict>)
    ensures r.Keys == rows.Keys && forall k :: k in rows ==> r[k] == rows[k][name := default]
  {
    map k | k in rows :: rows[k][name := default]
  }

  function WithColumnAll(rows: seq<Dict>, name: string, default: Value): (r: seq<Dict>)
    ensures |r| == |rows| && forall i :: 0 <= i < |rows| ==> r[i] == rows[i][name := default]
  {
    seq(|rows|, i requires 0 <= i < |rows| => rows[i][name := default])
  }

  lemma AddColumnWellFormed(s: Store, name: string, default: Value)
    requires WellFormed(s) && name !in s.columns
    ensures WellFormed(Store(s.columns[name := default], WithColumn(s.rows, name, default), WithColumnAll(s.orphans, name, default)))
  {
    assert "job_id" in InsertColumns;
    KeyedWithColumn(s.rows, s.columns, name, default);
    UnkeyedWithColumn(s.orphans, s.columns, name, default);
  }

  lemma KeyedWithColumn(rows: map<string, Dict>, columns: map<string, Value>, name: string, default: Value)
    requires name != "job_id" && "job_id" in columns
    requires forall k :: k in rows ==> rows[k].Keys == columns.Keys && rows[k]["job_id"] == Str(k)
    ensures var r := WithColumn(rows, name, default);
      forall k :: k in r ==> r[k].Keys == columns[name := default].Keys && r[k]["job_id"] == Str(k)
  {
  }

  lemma UnkeyedWithColumn(rows: seq<Dict>, columns: map<string, Value>, name: string, default: Value)
    requires name != "job_id" && "job_id" in columns
    requires forall i :: 0 <= i < |rows| ==> rows[i].Keys == columns.Keys && rows[i]["job_id"] == Null
    ensures var r := WithColumnAll(rows, name, default);
      forall i :: 0 <= i < |r| ==> r[i].Keys == columns[name := default].Keys && r[i]["job_id"] == Null
  {
  }

  /** Every row keeps the values it had, new columns hold their default. */
  predicate Extends(s: Store, r: Store)
    requires WellFormed(s) && WellFormed(r)
  {
    s.columns.Keys <= r.columns.Keys
    && (forall c :: c in s.columns ==> r.columns[c] == s.columns[c])
    && r.rows.Keys == s.rows.Keys && |r.orphans| == |s.orphans|
    && (forall k, c :: k in s.rows && c in s.columns ==> r.rows[k][c] == s.rows[k][c])
    && (forall k, c :: k in s.rows && c in r.columns && c !in s.columns ==> r.rows[k][c] == r.columns[c])
  }

  /** One step of the loop: a column already present is skipped. */
  function AddIfMissing(s: Store, col: (string, Value)): (r: Store)
    requires WellFormed(s)
    ensures WellFormed(r) && Extends(s, r)
    ensures r.columns.Keys == s.columns.Keys + {col.0}
  {
    if col.0 in s.columns then s else AddColumn(s, col.0, col.1)
  }

  /**
   * `migrate_database`'s column loop: exactly the missing listed columns
   * are added.  Present columns keep their default and every row keeps its
   * values; the added columns hold their default in every row.
   */
  function AddMissing(s: Store, cols: seq<(string, Value)>): (r: Store)
    requires WellFormed(s)
    ensures WellFormed(r) && Extends(s, r)
    ensures r.columns.Keys == s.columns.Keys + Names(cols)
  {
    if cols == [] then s
    else
      var init := cols[..|cols| - 1];
      assert Names(cols) == Names(init) + {cols[|cols| - 1].0} by {
        assert forall i :: 0 <= i < |init| ==> init[i] == cols[i];
      }
      var mid := AddMissing(s, init);
      var r := AddIfMissing(mid, cols[|cols| - 1]);
      ExtendsTrans(s, mid, r);
      r
  }

  lemma ExtendsTrans(s: Store, t: Store, u: Store)
    requires WellFormed(s) && WellFormed(t) && WellFormed(u)
    requires Extends(s, t) && Extends(t, u)
    ensures Extends(s, u)
  {
  }

  /** Running the migration a second time changes nothing. */
  lemma {:induction false} AddMissingPresent(s: Store, cols: seq<(string, Value)>)
    requires WellFormed(s) && Names(cols) <= s.columns.Keys
    ensures AddMissing(s, cols) == s
    decreases |cols|
  {
    if cols != [] {
      var init := cols[..|cols| - 1];
      assert Names(init) <= Names(cols) by {
        assert forall i :: 0 <= i < |init| ==> init[i] == cols[i];
      }
      AddMissingPresent(s, init);
      assert cols[|cols| - 1].0 in Names(cols);
    }
  }

  lemma MigrateTwice(s: Store)
    requires WellFormed(s)
    ensures AddMissing(AddMissing(s, NewColumns), NewColumns) == AddMissing(s, NewColumns)
  {
    AddMissingPresent(AddMissing(s, NewColumns), NewColumns);
  }

  lemma AddMissingStep(s: Store, cols: seq<(string, Value)>, i: nat)
    requires WellFormed(s) && i < |cols|
    ensures AddMissing(s, cols[..i + 1]) == AddIfMissing(AddMissing(s, cols[..i]), cols[i])
  {
    assert cols[..i + 1][..i] == cols[..i];
  }

  /** The column loop of `migrate_database`. */
  method MigrateDatabase(table: JobTable)
    requires table.Valid()
    modifies table
    ensures table.Valid() && table.State() == AddMissing(old(table.State()), NewColumns)
  {
    for i := 0 to |NewColumns|
      invariant table.Valid() && table.State() == AddMissing(old(table.State()), NewColumns[..i])
    {
      AddMissingStep(old(table.State()), NewColumns, i);
      var (name, default) := NewColumns[i];
      if name !in table.columns {
        table.Commit(AddColumn(table.State(), name, default));
      }
    }
    assert NewColumns[..|NewColumns|] == NewColumns;
  }
}
