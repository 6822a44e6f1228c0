/**
 * `datetime.strptime` for the fixed formats the application tries, and
 * `strftime("%Y-%m-%d")`. A format is a sequence of directives. Each numeric
 * directive takes the first alternative of its pattern that fits:
 *   %Y four digits, %m `1[0-2]|0[1-9]|[1-9]`,
 *   %d `3[01]|[12]\d|0[1-9]|[1-9]| [1-9]`, %H `2[0-3]|[0-1]\d|\d`,
 *   %M `[0-5]\d|\d`, %S `6[0-1]|[0-5]\d|\d`.
 * %B and %b take an English month name or abbreviation, in any letter case.
 * A blank in the format takes one or more whitespace characters. In every
 * format used here each numeric directive is followed by a non-digit
 * literal, a blank or the end of the pattern. So the first fitting
 * alternative is also the one a backtracking regular-expression match keeps.
 * Text left after the match, a day outside its month, a year 0 or a second
 * of 60 or 61 make the parse fail, as `ValueError` does.
 */
module DateFormats {
  import opened Wrappers
  import opened StringUtil

  datatype Piece =
    | Lit(c: char)
    | Blank
    | Year
    | Month
    | Day
    | MonthName
    | MonthAbbr
    | Hour
    | Minute
    | Second

  /** The fields a parse fills in, with `strptime`'s defaults for the others. */
  datatype Fields = Fields(year: int, month: int, day: int, hour: int, minute: int, second: int)

  datatype Date = Date(year: int, month: int, day: int)

  const Defaults := Fields(1900, 1, 1, 0, 0, 0)

  // ---------------------------------------------------------------- formats

  /** `%Y-%m-%d`. */
  const IsoFormat: seq<Piece> := [Year, Lit('-'), Month, Lit('-'), Day]
  /** `%m/%d/%Y`. */
  const UsSlash: seq<Piece> := [Month, Lit('/'), Day, Lit('/'), Year]
  /** `%d/%m/%Y`. */
  const EuSlash: seq<Piece> := [Day, Lit('/'), Month, Lit('/'), Year]
  /** `%B %d, %Y`. */
  const LongMonth: seq<Piece> := [MonthName, Blank, Day, Lit(','), Blank, Year]
  /** `%b %d, %Y`. */
  const ShortMonth: seq<Piece> := [MonthAbbr, Blank, Day, Lit(','), Blank, Year]
  /** `%Y/%m/%d`. */
  const IsoSlash: seq<Piece> := [Year, Lit('/'), Month, Lit('/'), Day]
  /** `%d-%m-%Y`. */
  const EuDash: seq<Piece> := [Day, Lit('-'), Month, Lit('-'), Year]
  /** `%m-%d-%Y`. */
  const UsDash: seq<Piece> := [Month, Lit('-'), Day, Lit('-'), Year]
  /** `%Y-%m-%d %H:%M:%S`. */
  const IsoDateTime: seq<Piece> :=
    IsoFormat + [Blank, Hour, Lit(':'), Minute, Lit(':'), Second]

  const MonthNames: seq<string> := [
    "january", "february", "march", "april", "may", "june", "july",
    "august", "september", "october", "november", "december"]

  const MonthAbbrs: seq<string> := [
    "jan", "feb", "mar", "apr", "may", "jun", "jul", "aug", "sep", "oct", "nov", "dec"]

  // ---------------------------------------------------------------- digits

  predicate IsDigit(c: char) {
    '0' <= c <= '9'
  }

  function DigitVal(c: char): (v: nat)
    requires IsDigit(c)
    ensures v <= 9
  {
    c as int - '0' as int
  }

  function DigitChar(v: nat): (c: char)
    requires v <= 9
    ensures IsDigit(c) && DigitVal(c) == v
  {
    ('0' as int + v) as char
  }

  /** The index of the first name `s` begins with, ignoring letter case. */
  function MatchName(names: seq<string>, s: string, i: nat): Option<nat>
    requires i <= |names|
    decreases |names| - i
  {
    if i == |names| then None
    else if |names[i]| <= |s| && Lower(s[..|names[i]|]) == names[i] then Some(i)
    else MatchName(names, s, i + 1)
  }

  /** The value one directive reads from the front of `s`, and how many characters it takes. */
  function MatchPiece(p: Piece, s: string): (r: Option<(int, nat)>)
    ensures r.Some? ==> 0 < r.value.1 <= |s|
  {
    match p
    case Lit(c) => if |s| > 0 && s[0] == c then Some((0, 1)) else None
    case Blank =>
      var rest := TrimLeft(s);
      if |rest| < |s| then Some((0, |s| - |rest|)) else None
    case Year =>
      if |s| >= 4 && IsDigit(s[0]) && IsDigit(s[1]) && IsDigit(s[2]) && IsDigit(s[3])
      then Some((DigitVal(s[0]) * 1000 + DigitVal(s[1]) * 100 + DigitVal(s[2]) * 10 + DigitVal(s[3]), 4))
      else None
    case Month =>
      if |s| >= 2 && s[0] == '1' && '0' <= s[1] <= '2' then Some((10 + DigitVal(s[1]), 2))
      else if |s| >= 2 && s[0] == '0' && '1' <= s[1] <= '9' then Some((DigitVal(s[1]), 2))
      else if |s| >= 1 && '1' <= s[0] <= '9' then Some((DigitVal(s[0]), 1))
      else None
    case Day =>
      if |s| >= 2 && s[0] == '3' && '0' <= s[1] <= '1' then Some((30 + DigitVal(s[1]), 2))
      else if |s| >= 2 && '1' <= s[0] <= '2' && IsDigit(s[1]) then Some((DigitVal(s[0]) * 10 + DigitVal(s[1]), 2))
      else if |s| >= 2 && s[0] == '0' && '1' <= s[1] <= '9' then Some((DigitVal(s[1]), 2))
      else if |s| >= 1 && '1' <= s[0] <= '9' then Some((DigitVal(s[0]), 1))
      else if |s| >= 2 && s[0] == ' ' && '1' <= s[1] <= '9' then Some((DigitVal(s[1]), 2))
      else None
    case MonthName =>
      (match MatchName(MonthNames, s, 0)
       case Some(i) => if i < |MonthNames| && 0 < |MonthNames[i]| <= |s| then Some((i + 1, |MonthNames[i]|)) else None
       case None => None)
    case MonthAbbr =>
      (match MatchName(MonthAbbrs, s, 0)
       case Some(i) => if i < |MonthAbbrs| && 0 < |MonthAbbrs[i]| <= |s| then Some((i + 1, |MonthAbbrs[i]|)) else None
       case None => None)
    case Hour =>
      if |s| >= 2 && s[0] == '2' && '0' <= s[1] <= '3' then Some((20 + DigitVal(s[1]), 2))
      else if |s| >= 2 && '0' <= s[0] <= '1' && IsDigit(s[1]) then Some((DigitVal(s[0]) * 10 + DigitVal(s[1]), 2))
      else if |s| >= 1 && IsDigit(s[0]) then Some((DigitVal(s[0]), 1))
      else None
    case Minute =>
      if |s| >= 2 && '0' <= s[0] <= '5' && IsDigit(s[1]) then Some((DigitVal(s[0]) * 10 + DigitVal(s[1]), 2))
      else if |s| >= 1 && IsDigit(s[0]) then Some((DigitVal(s[0]), 1))
      else None
    case Second =>
      if |s| >= 2 && s[0] == '6' && '0' <= s[1] <= '1' then Some((60 + DigitVal(s[1]), 2))
      else if |s| >= 2 && '0' <= s[0] <= '5' && IsDigit(s[1]) then Some((DigitVal(s[0]) * 10 + DigitVal(s[1]), 2))
      else if |s| >= 1 && IsDigit(s[0]) then Some((DigitVal(s[0]), 1))
      else None
  }

  function SetField(f: Fields, p: Piece, v: int): Fields {
    match p
    case Year => f.(year := v)
    case Month => f.(month := v)
    case MonthName => f.(month := v)
    case MonthAbbr => f.(month := v)
    case Day => f.(day := v)
    case Hour => f.(hour := v)
    case Minute => f.(minute := v)
    case Second => f.(second := v)
    case _ => f
  }

  /** Match the directives in turn from the front of `s`; the unmatched rest is returned. */
  function MatchFormat(fmt: seq<Piece>, s: string, f: Fields): Option<(Fields, string)>
    decreases |fmt|
  {
    if fmt == [] then Some((f, s))
    else match MatchPiece(fmt[0], s)
      case None => None
      case Some((v, n)) => MatchFormat(fmt[1..], s[n..], SetField(f, fmt[0], v))
  }

  // --------------------------------------------------------------- calendar

  predicate IsLeap(y: int) {
    y % 4 == 0 && (y % 100 != 0 || y % 400 == 0)
  }

  function DaysInMonth(y: int, m: int): int
    requires 1 <= m <= 12
  {
    if m == 2 then (if IsLeap(y) then 29 else 28)
    else if m == 4 || m == 6 || m == 9 || m == 11 then 30
    else 31
  }

  /** A date `datetime` accepts: years 1 to 9999, a real month and a day inside it. */
  predicate ValidDate(d: Date) {
    1 <= d.year <= 9999 && 1 <= d.month <= 12 && 1 <= d.day <= DaysInMonth(d.year, d.month)
  }

  /** `datetime.strptime(s, fmt)`, keeping the date; `None` where it raises `ValueError`. */
  function Strptime(s: string, fmt: seq<Piece>): (r: Option<Date>)
    ensures r.Some? ==> ValidDate(r.value)
  {
    match MatchFormat(fmt, s, Defaults)
    case None => None
    case Some((f, rest)) =>
      var d := Date(f.year, f.month, f.day);
      if rest == "" && ValidDate(d) && f.second <= 59 then Some(d) else None
  }

  predicate IsIsoDate(s: string) {
    Strptime(s, IsoFormat).Some?
  }

  // -------------------------------------------------------------- rendering

  function Pad2(v: nat): (s: string)
    requires v <= 99
    ensures |s| == 2 && IsDigit(s[0]) && IsDigit(s[1])
    ensures DigitVal(s[0]) * 10 + DigitVal(s[1]) == v
  {
    [DigitChar(v / 10), DigitChar(v % 10)]
  }

  function Pad4(v: nat): (s: string)
    requires v <= 9999
    ensures |s| == 4 && forall i :: 0 <= i < 4 ==> IsDigit(s[i])
    ensures DigitVal(s[0]) * 1000 + DigitVal(s[1]) * 100 + DigitVal(s[2]) * 10 + DigitVal(s[3]) == v
  {
    Pad2(v / 100) + Pad2(v % 100)
  }

  /** `date.strftime("%Y-%m-%d")`, with the year written on four digits. */
  function Render(d: Date): (s: string)
    requires ValidDate(d)
    ensures |s| == 10 && s[4] == '-' && s[7] == '-'
    ensures forall i :: 0 <= i < |s| ==> i == 4 || i == 7 || IsDigit(s[i])
  {
    Pad4(d.year) + "-" + Pad2(d.month) + "-" + Pad2(d.day)
  }

  lemma MonthOfPad(m: nat, rest: string)
    requires 1 <= m <= 12
    ensures MatchPiece(Month, Pad2(m) + rest) == Some((m as int, 2))
  {
    var s := Pad2(m) + rest;
    assert s[0] == Pad2(m)[0] && s[1] == Pad2(m)[1];
  }

  lemma DayOfPad(d: nat, rest: string)
    requires 1 <= d <= 31
    ensures MatchPiece(Day, Pad2(d) + rest) == Some((d as int, 2))
  {
    var s := Pad2(d) + rest;
    assert s[0] == Pad2(d)[0] && s[1] == Pad2(d)[1];
  }

  lemma YearOfPad(y: nat, rest: string)
    requires y <= 9999
    ensures MatchPiece(Year, Pad4(y) + rest) == Some((y as int, 4))
  {
    var s := Pad4(y) + rest;
    assert s[..4] == Pad4(y);
    assert s[0] == Pad4(y)[0] && s[1] == Pad4(y)[1] && s[2] == Pad4(y)[2] && s[3] == Pad4(y)[3];
  }

  /** `%Y-%m-%d` reads a rendered date exactly, whatever text follows it. */
  lemma MatchRendered(d: Date, x: string)
    requires ValidDate(d)
    ensures MatchFormat(IsoFormat, Render(d) + x, Defaults) == Some((Fields(d.year, d.month, d.day, 0, 0, 0), x))
  {
    var t4 := Pad2(d.day) + x;
    var t3 := "-" + t4;
    var t2 := Pad2(d.month) + t3;
    var t1 := "-" + t2;
    RenderNested(d, x);
    YearOfPad(d.year, t1);
    MonthOfPad(d.month, t3);
    DayOfPad(d.day, x);
    DropConcat(Pad4(d.year), t1);
    DropConcat("-", t2);
    DropConcat(Pad2(d.month), t3);
    DropConcat("-", t4);
    DropConcat(Pad2(d.day), x);
    var f1 := SetField(Defaults, Year, d.year);
    var f3 := SetField(f1, Month, d.month);
    var f5 := SetField(f3, Day, d.day);
    assert MatchFormat(IsoFormat[4..], t4, f3) == Some((f5, x));
    assert MatchFormat(IsoFormat[3..], t3, f3) == Some((f5, x));
    assert MatchFormat(IsoFormat[2..], t2, f1) == Some((f5, x));
    assert MatchFormat(IsoFormat[1..], t1, f1) == Some((f5, x));
  }

  /** A rendered date followed by `x`, grouped from the right. */
  lemma RenderNested(d: Date, x: string)
    requires ValidDate(d)
    ensures Render(d) + x == Pad4(d.year) + ("-" + (Pad2(d.month) + ("-" + (Pad2(d.day) + x))))
  {
  }

  lemma DropConcat(a: string, b: string)
    ensures (a + b)[|a|..] == b
  {
  }

  /** Rendering then parsing with `%Y-%m-%d` gives the date back; trailing text is refused. */
  lemma ParseRender(d: Date, x: string)
    requires ValidDate(d)
    ensures Strptime(Render(d) + x, IsoFormat) == if x == "" then Some(d) else None
  {
    MatchRendered(d, x);
  }

  predicate Numeric(p: Piece) {
    p.Year? || p.Month? || p.Day? || p.Hour? || p.Minute? || p.Second?
  }

  lemma PieceEndsWithDigit(p: Piece, s: string)
    requires Numeric(p) && MatchPiece(p, s).Some? && MatchPiece(p, s).value.1 == |s|
    ensures IsDigit(s[|s| - 1])
  {
  }

  lemma {:induction false} MatchEndsWithDigit(fmt: seq<Piece>, s: string, f: Fields)
    requires fmt != [] && Numeric(fmt[|fmt| - 1])
    requires MatchFormat(fmt, s, f).Some? && MatchFormat(fmt, s, f).value.1 == ""
    ensures s != [] && IsDigit(s[|s| - 1])
    decreases |fmt|
  {
    var (v, n) := MatchPiece(fmt[0], s).value;
    if |fmt| == 1 {
      PieceEndsWithDigit(fmt[0], s);
    } else {
      assert fmt[1..][|fmt[1..]| - 1] == fmt[|fmt| - 1];
      MatchEndsWithDigit(fmt[1..], s[n..], SetField(f, fmt[0], v));
      assert s[|s| - 1] == s[n..][|s[n..]| - 1];
    }
  }

  /** Text `%Y-%m-%d` accepts starts and ends with a digit. */
  lemma IsoEnds(s: string)
    requires IsIsoDate(s)
    ensures |s| > 0 && IsDigit(s[0]) && IsDigit(s[|s| - 1])
  {
    MatchEndsWithDigit(IsoFormat, s, Defaults);
  }

  /** A rendered date is an ISO date. */
  lemma RenderIsIso(d: Date)
    requires ValidDate(d)
    ensures IsIsoDate(Render(d))
  {
    ParseRender(d, "");
    assert Render(d) + "" == Render(d);
  }
}
