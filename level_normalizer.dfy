/**
 * Mapping the free-form level labels a language model returns, together with
 * the job title and description, onto the eight canonical academic levels.
 * The title is the primary signal; tokens from the labels and from the
 * description are the secondary one.
 */
module LevelNormalizer {
  import opened Wrappers
  import opened StringUtil
  import opened Values

  /** The canonical labels, in the order results are reported. */
  const CanonicalOrder: seq<string> := [
    "Pre-doc", "Postdoc", "Assistant", "Associate", "Full",
    "Lecturer / Instructor", "Research", "Other"]

  /** The seven detectors (every canonical label but "Other"). */
  datatype Level = PreDoc | Postdoc | AssistantProf | AssociateProf | FullProf | Lecturer | ResearchStaff

  function Label(l: Level): (s: string)
    ensures s in CanonicalOrder && s != "Other"
  {
    match l
    case PreDoc => "Pre-doc"
    case Postdoc => "Postdoc"
    case AssistantProf => "Assistant"
    case AssociateProf => "Associate"
    case FullProf => "Full"
    case Lecturer => "Lecturer / Instructor"
    case ResearchStaff => "Research"
  }

  // ---------------------------------------------------------------- tokens

  /** `value.replace("/", ",").replace(";", ",")`. */
  function CommaSeparated(value: string): (r: string)
    ensures |r| == |value|
    ensures forall i :: 0 <= i < |r| ==> r[i] != '/' && r[i] != ';'
  {
    seq(|value|, i requires 0 <= i < |value| =>
      if value[i] == '/' || value[i] == ';' then ',' else value[i])
  }

  /** Stripped pieces of each chunk split on `|`, in order. */
  function Pieces(chunks: seq<string>): seq<string> {
    if chunks == [] then []
    else StripEach(Split(chunks[0], "|")) + Pieces(chunks[1..])
  }

  function StripEach(parts: seq<string>): (r: seq<string>)
    ensures |r| == |parts| && forall i :: 0 <= i < |r| ==> r[i] == Strip(parts[i])
  {
    if parts == [] then [] else [Strip(parts[0])] + StripEach(parts[1..])
  }

  function NonEmpty(parts: seq<string>): (r: seq<string>)
    ensures forall i :: 0 <= i < |r| ==> r[i] != "" && r[i] in parts
  {
    if parts == [] then []
    else (if parts[0] != "" then [parts[0]] else []) + NonEmpty(parts[1..])
  }

  /** The tokens one label contributes (nothing for an empty label). */
  function TokensOf(value: string): seq<string> {
    if value == "" then []
    else NonEmpty(Pieces(Split(CommaSeparated(value), ",")))
  }

  /** `_tokenize(values)`. */
  function TokenizeAll(values: seq<string>): seq<string> {
    if values == [] then []
    else TokenizeAll(values[..|values| - 1]) + TokensOf(values[|values| - 1])
  }

  /** A token separator: `,`, `/`, `;` or `|`. */
  predicate IsSeparator(c: char) {
    c == ',' || c == '/' || c == ';' || c == '|'
  }

  predicate WellFormedToken(t: string) {
    t != "" && Trimmed(t) && forall i :: 0 <= i < |t| ==> !IsSeparator(t[i])
  }

  lemma {:induction false} SplitAvoidsSeparator(s: string, c: char)
    ensures forall p :: p in Split(s, [c]) ==> forall i :: 0 <= i < |p| ==> p[i] != c
    decreases |s|
  {
    if s != [] {
      SplitAvoidsSeparator(s[1..], c);
      if !([c] <= s) {
        assert s[0] != c;
      }
    }
  }

  lemma {:induction false} SplitKeepsAbsence(s: string, c: char, d: char)
    requires forall i :: 0 <= i < |s| ==> s[i] != d
    ensures forall p :: p in Split(s, [c]) ==> forall i :: 0 <= i < |p| ==> p[i] != d
    decreases |s|
  {
    if s != [] {
      SplitKeepsAbsence(s[1..], c, d);
    }
  }

  lemma StripKeepsAbsence(s: string, d: char)
    requires forall i :: 0 <= i < |s| ==> s[i] != d
    ensures forall i :: 0 <= i < |Strip(s)| ==> Strip(s)[i] != d
  {
    var pre, post := StripInfix(s);
    assert forall i :: 0 <= i < |Strip(s)| ==> Strip(s)[i] == s[|pre| + i];
  }

  predicate NoSeparator(s: string) {
    forall i :: 0 <= i < |s| ==> !IsSeparator(s[i])
  }

  predicate NoCommaLike(s: string) {
    forall i :: 0 <= i < |s| ==> s[i] != ',' && s[i] != '/' && s[i] != ';'
  }

  lemma ChunkPieces(chunk: string)
    requires NoCommaLike(chunk)
    ensures forall p :: p in StripEach(Split(chunk, "|")) ==> NoSeparator(p) && Trimmed(p)
  {
    SplitAvoidsSeparator(chunk, '|');
    SplitKeepsAbsence(chunk, '|', ',');
    SplitKeepsAbsence(chunk, '|', '/');
    SplitKeepsAbsence(chunk, '|', ';');
    var parts := Split(chunk, "|");
    forall p | p in StripEach(parts) ensures NoSeparator(p) && Trimmed(p) {
      var k :| 0 <= k < |parts| && p == Strip(parts[k]);
      assert parts[k] in parts;
      StripKeepsAbsence(parts[k], ',');
      StripKeepsAbsence(parts[k], '/');
      StripKeepsAbsence(parts[k], ';');
      StripKeepsAbsence(parts[k], '|');
    }
  }

  lemma {:induction false} PiecesShape(chunks: seq<string>)
    requires forall c :: c in chunks ==> NoCommaLike(c)
    ensures forall p :: p in Pieces(chunks) ==> NoSeparator(p) && Trimmed(p)
    decreases |chunks|
  {
    if chunks != [] {
      ChunkPieces(chunks[0]);
      PiecesShape(chunks[1..]);
    }
  }

  /** Every token is non-empty, trimmed and free of separators. */
  lemma TokensOfShape(value: string)
    ensures forall t :: t in TokensOf(value) ==> WellFormedToken(t)
  {
    if value != "" {
      var s := CommaSeparated(value);
      SplitAvoidsSeparator(s, ',');
      SplitKeepsAbsence(s, ',', '/');
      SplitKeepsAbsence(s, ',', ';');
      PiecesShape(Split(s, ","));
    }
  }

  lemma {:induction false} TokenizeAllShape(values: seq<string>)
    ensures forall t :: t in TokenizeAll(values) ==> WellFormedToken(t)
    decreases |values|
  {
    if values != [] {
      TokenizeAllShape(values[..|values| - 1]);
      TokensOfShape(values[|values| - 1]);
    }
  }

  /** `_tokenize`: the loop that extends the token list label by label. */
  method Tokenize(values: seq<string>) returns (tokens: seq<string>)
    ensures tokens == TokenizeAll(values)
    ensures forall t :: t in tokens ==> WellFormedToken(t)
  {
    tokens := [];
    for i := 0 to |values|
      invariant tokens == TokenizeAll(values[..i])
    {
      assert values[..i + 1][..i] == values[..i];
      tokens := tokens + TokensOf(values[i]);
    }
    assert values[..|values|] == values;
    TokenizeAllShape(values);
  }

  /**
   * `raw_levels` as given: `None`, one string, or any iterable (a list's
   * falsy items are skipped; iterating a dict yields its keys).
   */
  function RawLevels(raw: Value): Result<seq<string>> {
    match raw
    case Null => Ok([])
    case Str(s) => Ok([s])
    case List(items) => ListLabels(items)
    case Obj(entries) => Ok(EntryKeys(entries))
    case _ => Err("TypeError: object is not iterable")
  }

  function ListLabels(items: seq<Value>): Result<seq<string>> {
    if items == [] then Ok([])
    else
      var rest := ListLabels(items[1..]);
      if rest.Err? then rest
      else if !Truthy(items[0]) then rest
      else if items[0].Str? then Ok([items[0].s] + rest.value)
      else Err("AttributeError: object has no attribute 'replace'")
  }

  function EntryKeys(entries: seq<(string, Value)>): seq<string> {
    if entries == [] then [] else [entries[0].0] + EntryKeys(entries[1..])
  }

  // ------------------------------------------------------------- detectors

  /** The title (already lower-cased) alone shows the level. */
  predicate TitleSignal(l: Level, title: string) {
    match l
    case PreDoc =>
      Contains(title, "predoc") || Contains(title, "pre-doc") || Contains(title, "pre doc")
      || Contains(title, "pre doctoral") || Contains(title, "predoctoral")
      || (Contains(title, "research assistant")
          && (Contains(title, "predoctoral") || Contains(title, "pre-doctoral")))
    case Postdoc =>
      Contains(title, "postdoc") || Contains(title, "post-doc") || Contains(title, "postdoctoral")
    case AssistantProf => Contains(title, "assistant") && Contains(title, "prof")
    case AssociateProf => Contains(title, "associate") && Contains(title, "prof")
    case FullProf =>
      (Contains(title, "full") && Contains(title, "prof"))
      || (Contains(title, "professor") && (Contains(title, "chair") || Contains(title, "distinguished")))
    case Lecturer =>
      Contains(title, "lecturer") || Contains(title, "instructor")
      || Contains(title, "teaching professor") || Contains(title, "professor of practice")
    case ResearchStaff =>
      Contains(title, "research fellow") || Contains(title, "research scientist")
      || Contains(title, "research associate")
  }

  /** One (lower-cased) token shows the level, possibly together with the title. */
  predicate TokenSignal(l: Level, token: string, title: string) {
    match l
    case PreDoc => (Contains(token, "pre") && Contains(token, "doc")) || Contains(token, "predoc")
    case Postdoc =>
      Contains(token, "postdoc") || Contains(token, "post-doc") || Contains(token, "postdoctoral")
    case AssistantProf =>
      Contains(token, "assistant professor")
      || (token == "assistant" && (Contains(title, "professor") || Contains(token, "prof")))
    case AssociateProf =>
      Contains(token, "associate professor")
      || (token == "associate" && (Contains(title, "professor") || Contains(token, "prof")))
    case FullProf => Contains(token, "full professor") || (token == "full" && Contains(title, "professor"))
    case Lecturer =>
      Contains(token, "lecturer") || Contains(token, "instructor")
      || Contains(token, "teaching professor") || Contains(token, "professor of practice")
    case ResearchStaff =>
      Contains(token, "research fellow") || Contains(token, "research scientist")
      || Contains(token, "research associate")
  }

  /** What `_detect_<level>(tokens, job_title)` answers. */
  predicate Detects(l: Level, tokens: seq<string>, jobTitle: string) {
    TitleSignal(l, Lower(jobTitle))
    || exists j :: 0 <= j < |tokens| && TokenSignal(l, Lower(tokens[j]), Lower(jobTitle))
  }

  /** The seven `_detect_*` functions: the title first, then each token in turn. */
  method DetectLevel(l: Level, tokens: seq<string>, jobTitle: string) returns (found: bool)
    ensures found == Detects(l, tokens, jobTitle)
  {
    var title := Lower(jobTitle);
    if TitleSignal(l, title) {
      return true;
    }
    for i := 0 to |tokens|
      invariant forall j :: 0 <= j < i ==> !TokenSignal(l, Lower(tokens[j]), title)
    {
      if TokenSignal(l, Lower(tokens[i]), title) {
        return true;
      }
    }
    return false;
  }

  // --------------------------------------------------------- normalisation

  /** The seven detector outcomes. */
  datatype Signals = Signals(
    preDoc: bool, postdoc: bool, assistant: bool, associate: bool,
    full: bool, lecturer: bool, research: bool)

  function SignalsOf(tokens: seq<string>, jobTitle: string): Signals {
    Signals(
      Detects(PreDoc, tokens, jobTitle), Detects(Postdoc, tokens, jobTitle),
      Detects(AssistantProf, tokens, jobTitle), Detects(AssociateProf, tokens, jobTitle),
      Detects(FullProf, tokens, jobTitle), Detects(Lecturer, tokens, jobTitle),
      Detects(ResearchStaff, tokens, jobTitle))
  }

  /** Whether the detector for `l` contributes its label ("Research" yields to the trainee levels). */
  predicate Fires(g: Signals, l: Level) {
    match l
    case PreDoc => g.preDoc
    case Postdoc => g.postdoc
    case AssistantProf => g.assistant
    case AssociateProf => g.associate
    case FullProf => g.full
    case Lecturer => g.lecturer
    case ResearchStaff => g.research && !(g.preDoc || g.postdoc)
  }

  predicate AnyFires(g: Signals) {
    exists l :: Fires(g, l)
  }

  /** The order in which `normalize_level_labels` consults the detectors. */
  const DetectorOrder: seq<Level> :=
    [PreDoc, Postdoc, AssistantProf, AssociateProf, FullProf, Lecturer, ResearchStaff]

  function FiredLabels(g: Signals, ls: seq<Level>): seq<string> {
    if ls == [] then []
    else (if Fires(g, ls[0]) then [Label(ls[0])] else []) + FiredLabels(g, ls[1..])
  }

  /** The labels in the order `normalize_level_labels` appends them; "Other" when none. */
  function DetectedLabels(g: Signals): (d: seq<string>)
    ensures d != []
  {
    var found := FiredLabels(g, DetectorOrder);
    if found == [] then ["Other"] else found
  }

  /** The members of `cs` that occur in `d`, in the order of `cs`. */
  function Keep(cs: seq<string>, d: seq<string>): seq<string> {
    if cs == [] then []
    else Keep(cs[..|cs| - 1], d) + (if cs[|cs| - 1] in d then [cs[|cs| - 1]] else [])
  }

  lemma {:induction false} KeepMembers(cs: seq<string>, d: seq<string>)
    ensures forall x :: x in Keep(cs, d) <==> x in cs && x in d
    decreases |cs|
  {
    if cs != [] {
      KeepMembers(cs[..|cs| - 1], d);
      assert cs == cs[..|cs| - 1] + [cs[|cs| - 1]];
    }
  }

  /** The specification of `normalize_level_labels(raw, title, description)`. */
  function NormalizeLevels(raw: seq<string>, jobTitle: string, description: string): seq<string> {
    Keep(CanonicalOrder, DetectedLabels(SignalsOf(TokenizeAll(raw) + TokenizeAll([description]), jobTitle)))
  }

  /** `normalize_level_labels`: detect, then report in canonical order without repeats. */
  method NormalizeLevelLabels(raw: seq<string>, jobTitle: string, description: string)
    returns (ordered: seq<string>)
    ensures ordered == NormalizeLevels(raw, jobTitle, description)
  {
    var tokens := Tokenize(raw);
    var descriptionTokens := Tokenize([description]);
    var combined := tokens + descriptionTokens;
    var isPreDoc := DetectLevel(PreDoc, combined, jobTitle);
    var isPostdoc := DetectLevel(Postdoc, combined, jobTitle);
    var isAssistant := DetectLevel(AssistantProf, combined, jobTitle);
    var isAssociate := DetectLevel(AssociateProf, combined, jobTitle);
    var isFull := DetectLevel(FullProf, combined, jobTitle);
    var isLecturer := DetectLevel(Lecturer, combined, jobTitle);
    var isResearch := DetectLevel(ResearchStaff, combined, jobTitle);
    var signals := Signals(isPreDoc, isPostdoc, isAssistant, isAssociate, isFull, isLecturer, isResearch);
    assert signals == SignalsOf(combined, jobTitle);
    var detected := DetectedLabels(signals);
    DetectedLabelsMembers(signals);
    ordered := OrderByCanonical(detected);
  }

  /**
   * The ordering loop of `normalize_level_labels`. Its second loop, over
   * `detected`, appends nothing: every detected label is canonical and so is
   * already in `seen` (KeepMembers).
   */
  method OrderByCanonical(detected: seq<string>) returns (ordered: seq<string>)
    requires forall x :: x in detected ==> x in CanonicalOrder
    ensures ordered == Keep(CanonicalOrder, detected)
  {
    var seen: set<string> := {};
    ordered := [];
    for i := 0 to |CanonicalOrder|
      invariant ordered == Keep(CanonicalOrder[..i], detected)
      invariant seen == set x | x in ordered
      invariant forall x :: x in seen ==> x in CanonicalOrder[..i]
    {
      var level := CanonicalOrder[i];
      assert CanonicalOrder[..i + 1][..i] == CanonicalOrder[..i];
      assert level !in CanonicalOrder[..i];
      if level in detected && level !in seen {
        ordered := ordered + [level];
        seen := seen + {level};
      }
    }
    assert CanonicalOrder[..|CanonicalOrder|] == CanonicalOrder;
  }

  // ------------------------------------------------------------ properties

  lemma {:induction false} KeepNone(cs: seq<string>, d: seq<string>)
    requires forall x :: x in cs ==> x !in d
    ensures Keep(cs, d) == []
    decreases |cs|
  {
    if cs != [] {
      assert cs[|cs| - 1] in cs;
      KeepNone(cs[..|cs| - 1], d);
    }
  }

  lemma {:induction false} KeepOrdered(cs: seq<string>, d: seq<string>)
    requires forall i, j :: 0 <= i < j < |cs| ==> cs[i] != cs[j]
    ensures forall i, j :: 0 <= i < j < |Keep(cs, d)| ==> Keep(cs, d)[i] != Keep(cs, d)[j]
    decreases |cs|
  {
    if cs != [] {
      var init := cs[..|cs| - 1];
      KeepOrdered(init, d);
      KeepMembers(init, d);
      assert cs[|cs| - 1] !in init;
    }
  }

  /** The ordering step over arbitrary detector outcomes. */
  function OrderedLabels(g: Signals): seq<string> {
    Keep(CanonicalOrder, DetectedLabels(g))
  }

  lemma FiresByField(g: Signals)
    ensures Fires(g, PreDoc) == g.preDoc && Fires(g, Postdoc) == g.postdoc
    ensures Fires(g, AssistantProf) == g.assistant && Fires(g, AssociateProf) == g.associate
    ensures Fires(g, FullProf) == g.full && Fires(g, Lecturer) == g.lecturer
    ensures Fires(g, ResearchStaff) == (g.research && !(g.preDoc || g.postdoc))
    ensures AnyFires(g) == (g.preDoc || g.postdoc || g.assistant || g.associate || g.full
                            || g.lecturer || (g.research && !(g.preDoc || g.postdoc)))
  {
    if g.preDoc { assert Fires(g, PreDoc); }
    if g.postdoc { assert Fires(g, Postdoc); }
    if g.assistant { assert Fires(g, AssistantProf); }
    if g.associate { assert Fires(g, AssociateProf); }
    if g.full { assert Fires(g, FullProf); }
    if g.lecturer { assert Fires(g, Lecturer); }
    if g.research && !(g.preDoc || g.postdoc) { assert Fires(g, ResearchStaff); }
  }

  /**
   * A label is reported exactly when its detector fires ("Research" only
   * without a pre-doc or postdoc signal), and "Other" exactly when none does.
   */
  lemma OrderedLabelsMembers(g: Signals)
    ensures var r := OrderedLabels(g);
      var research := g.research && !(g.preDoc || g.postdoc);
      ("Pre-doc" in r <==> g.preDoc)
      && ("Postdoc" in r <==> g.postdoc)
      && ("Assistant" in r <==> g.assistant)
      && ("Associate" in r <==> g.associate)
      && ("Full" in r <==> g.full)
      && ("Lecturer / Instructor" in r <==> g.lecturer)
      && ("Research" in r <==> research)
      && ("Other" in r <==> !(g.preDoc || g.postdoc || g.assistant || g.associate
                              || g.full || g.lecturer || research))
  {
    DetectedLabelsMembers(g);
    FiresByField(g);
    KeepMembers(CanonicalOrder, DetectedLabels(g));
    assert Label(PreDoc) == "Pre-doc" && Label(Postdoc) == "Postdoc";
    assert Label(AssistantProf) == "Assistant" && Label(AssociateProf) == "Associate";
    assert Label(FullProf) == "Full" && Label(Lecturer) == "Lecturer / Instructor";
    assert Label(ResearchStaff) == "Research";
  }

  lemma LabelInjective(l: Level, m: Level)
    ensures Label(l) == Label(m) ==> l == m
  {
    LabelsDistinct();
  }

  lemma {:induction false} FiredLabelsMembers(g: Signals, ls: seq<Level>)
    ensures forall x :: x in FiredLabels(g, ls) <==> exists l :: l in ls && Fires(g, l) && Label(l) == x
    decreases |ls|
  {
    if ls != [] {
      FiredLabelsMembers(g, ls[1..]);
      forall x ensures x in FiredLabels(g, ls) <==> exists l :: l in ls && Fires(g, l) && Label(l) == x {
        if exists l :: l in ls && Fires(g, l) && Label(l) == x {
          var l :| l in ls && Fires(g, l) && Label(l) == x;
          if l != ls[0] { assert l in ls[1..]; }
        }
      }
    }
  }

  lemma AllLevelsListed(l: Level)
    ensures l in DetectorOrder
  {
  }

  lemma DetectedLabelsMembers(g: Signals)
    ensures forall l :: Label(l) in DetectedLabels(g) <==> Fires(g, l)
    ensures "Other" in DetectedLabels(g) <==> !AnyFires(g)
    ensures forall x :: x in DetectedLabels(g) ==> x in CanonicalOrder
    ensures "Other" !in FiredLabels(g, DetectorOrder)
  {
    var found := FiredLabels(g, DetectorOrder);
    FiredLabelsMembers(g, DetectorOrder);
    forall l ensures Label(l) in found <==> Fires(g, l) {
      AllLevelsListed(l);
      if Label(l) in found {
        var m :| m in DetectorOrder && Fires(g, m) && Label(m) == Label(l);
        LabelInjective(l, m);
      }
    }
    forall x | x in found ensures x in CanonicalOrder && x != "Other" {
      var l :| l in DetectorOrder && Fires(g, l) && Label(l) == x;
    }
    if AnyFires(g) {
      var l :| Fires(g, l);
      assert Label(l) in found;
    }
    if found != [] {
      assert found[0] in found;
      var l :| l in DetectorOrder && Fires(g, l) && Label(l) == found[0];
      assert AnyFires(g);
    }
  }

  lemma LabelsDistinct()
    ensures forall i, j :: 0 <= i < j < |CanonicalOrder| ==> CanonicalOrder[i] != CanonicalOrder[j]
  {
  }

  /** The result is never empty, uses canonical labels only, and repeats none. */
  lemma OrderedLabelsShape(g: Signals)
    ensures var r := OrderedLabels(g);
      r != []
      && (forall x :: x in r ==> x in CanonicalOrder)
      && (forall i, j :: 0 <= i < j < |r| ==> r[i] != r[j])
  {
    var d := DetectedLabels(g);
    DetectedLabelsMembers(g);
    KeepMembers(CanonicalOrder, d);
    LabelsDistinct();
    KeepOrdered(CanonicalOrder, d);
    assert d[0] in Keep(CanonicalOrder, d);
  }

  /** "Other" never appears beside another label. */
  lemma OrderedLabelsOtherAlone(g: Signals)
    ensures "Other" in OrderedLabels(g) ==> OrderedLabels(g) == ["Other"]
  {
    var d := DetectedLabels(g);
    DetectedLabelsMembers(g);
    KeepMembers(CanonicalOrder, d);
    if "Other" in d {
      assert d == ["Other"];
      var init := CanonicalOrder[..7];
      assert CanonicalOrder == init + ["Other"];
      assert "Other" !in init;
      KeepNone(init, d);
    }
  }

  /** `normalize_level_labels` is the ordering step applied to the detectors' outcomes. */
  lemma NormalizeLevelsIsOrdered(raw: seq<string>, jobTitle: string, description: string)
    ensures NormalizeLevels(raw, jobTitle, description)
        == OrderedLabels(SignalsOf(TokenizeAll(raw) + TokenizeAll([description]), jobTitle))
  {
  }

  /** A title naming an assistant professorship yields "Assistant", whatever the model said. */
  lemma TitleIsPrimary(raw: seq<string>, jobTitle: string, description: string)
    requires Contains(Lower(jobTitle), "assistant") && Contains(Lower(jobTitle), "prof")
    ensures "Assistant" in NormalizeLevels(raw, jobTitle, description)
  {
    var g := SignalsOf(TokenizeAll(raw) + TokenizeAll([description]), jobTitle);
    assert TitleSignal(AssistantProf, Lower(jobTitle));
    assert Detects(AssistantProf, TokenizeAll(raw) + TokenizeAll([description]), jobTitle);
    assert g.assistant;
    OrderedLabelsMembers(g);
  }
}
