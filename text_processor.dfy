/**
 * Text normalisation used on document text before it is stored in the
 * portfolio: every whitespace run becomes one blank and the ends are trimmed.
 * (Re-encoding to UTF-8 with errors ignored is the identity on Dafny strings,
 * which hold Unicode scalar values only.)
 */
module TextProcessor {
  import opened Wrappers
  import opened StringUtil

  /** No two whitespace characters are adjacent. */
  predicate NoRuns(s: string) {
    forall i :: 0 <= i < |s| - 1 ==> !(IsSpace(s[i]) && IsSpace(s[i + 1]))
  }

  /** The only whitespace character present is the blank. */
  predicate OnlyBlanks(s: string) {
    forall i :: 0 <= i < |s| ==> IsSpace(s[i]) ==> s[i] == ' '
  }

  /** The non-whitespace characters of `s`, in order. */
  function Visible(s: string): (r: string)
    ensures forall i :: 0 <= i < |r| ==> !IsSpace(r[i])
  {
    if s == [] then []
    else if IsSpace(s[0]) then Visible(s[1..])
    else [s[0]] + Visible(s[1..])
  }

  lemma {:induction false} VisibleConcat(a: string, b: string)
    ensures Visible(a + b) == Visible(a) + Visible(b)
    decreases |a|
  {
    if a != [] {
      VisibleConcat(a[1..], b);
      var ab := a + b;
      assert ab[0] == a[0] && ab[1..] == a[1..] + b;
      if !IsSpace(a[0]) {
        calc {
          Visible(ab);
          [a[0]] + Visible(a[1..] + b);
          [a[0]] + (Visible(a[1..]) + Visible(b));
          ([a[0]] + Visible(a[1..])) + Visible(b);
        }
      }
    } else {
      assert a + b == b;
    }
  }

  lemma {:induction false} VisibleOfSpaces(s: string)
    requires AllSpace(s)
    ensures Visible(s) == []
    decreases |s|
  {
    if s != [] { VisibleOfSpaces(s[1..]); }
  }

  lemma VisibleTrimLeft(s: string)
    ensures Visible(TrimLeft(s)) == Visible(s)
  {
    var r := TrimLeft(s);
    var k := |s| - |r|;
    TrimLeftSuffix(s);
    assert s == s[..k] + r;
    VisibleConcat(s[..k], r);
    VisibleOfSpaces(s[..k]);
  }

  /** `re.sub(r'\s+', ' ', s)`. */
  function CollapseSpaces(s: string): (r: string)
    ensures NoRuns(r) && OnlyBlanks(r)
    ensures r == [] <==> s == []
    ensures r != [] ==> (IsSpace(r[0]) <==> IsSpace(s[0]))
    ensures Visible(r) == Visible(s)
    decreases |s|
  {
    if s == [] then []
    else if IsSpace(s[0]) then
      var rest := TrimLeft(s);
      var tail := CollapseSpaces(rest);
      VisibleTrimLeft(s);
      assert tail != [] ==> !IsSpace(tail[0]);
      var r := " " + tail;
      assert r[1..] == tail;
      r
    else
      var tail := CollapseSpaces(s[1..]);
      var r := [s[0]] + tail;
      assert r[1..] == tail;
      r
  }

  lemma {:induction false} CollapseOfCollapsed(s: string)
    requires NoRuns(s) && OnlyBlanks(s)
    ensures CollapseSpaces(s) == s
    decreases |s|
  {
    if s != [] {
      assert s[1..|s|] == s[1..];
      InfixShape(s, 1, |s|);
      CollapseOfCollapsed(s[1..]);
      if IsSpace(s[0]) {
        assert s[0] == ' ';
        assert |s| == 1 || !IsSpace(s[1]);
        TrimLeftOne(s);
      }
      assert s == [s[0]] + s[1..];
    }
  }

  /** One leading blank followed by a visible character is all `TrimLeft` removes. */
  lemma TrimLeftOne(s: string)
    requires |s| > 0 && IsSpace(s[0]) && (|s| == 1 || !IsSpace(s[1]))
    ensures TrimLeft(s) == s[1..]
  {
    var t := s[1..];
    assert t == [] || !IsSpace(t[0]);
  }

  lemma InfixShape(s: string, i: nat, j: nat)
    requires i <= j <= |s|
    requires NoRuns(s) && OnlyBlanks(s)
    ensures NoRuns(s[i..j]) && OnlyBlanks(s[i..j])
  {
    var t := s[i..j];
    assert forall k :: 0 <= k < |t| ==> t[k] == s[i + k];
  }

  lemma VisibleOfFlanked(pre: string, r: string, post: string, s: string)
    requires AllSpace(pre) && AllSpace(post) && s == pre + r + post
    ensures Visible(s) == Visible(r)
  {
    VisibleConcat(pre, r);
    VisibleConcat(pre + r, post);
    VisibleOfSpaces(pre);
    VisibleOfSpaces(post);
  }

  lemma VisibleOfStrip(s: string)
    ensures Visible(Strip(s)) == Visible(s)
  {
    VisibleOfStripped(s, Strip(s));
  }

  lemma {:induction false} VisibleOfStripped(s: string, r: string)
    requires r == Strip(s)
    ensures Visible(r) == Visible(s)
  {
    var pre, post := StripInfix(s);
    VisibleOfFlanked(pre, r, post, s);
  }

  /** Trimming a collapsed string keeps it collapsed. */
  lemma StripKeepsShape(s: string)
    requires NoRuns(s) && OnlyBlanks(s)
    ensures NoRuns(Strip(s)) && OnlyBlanks(Strip(s))
  {
    var pre, post := StripInfix(s);
    assert Strip(s) == s[|pre|..|pre| + |Strip(s)|];
    InfixShape(s, |pre|, |pre| + |Strip(s)|);
  }

  lemma VisibleOfTrimmed(r: string)
    requires r != [] && Trimmed(r)
    ensures Visible(r) != []
  {
  }

  /** `clean_text`: `None` and `""` give `""`. */
  function CleanText(text: Option<string>): string {
    match text
    case None => ""
    case Some(t) => if t == "" then "" else Strip(CollapseSpaces(t))
  }

  /**
   * The cleaned text is trimmed, has single blanks as its only whitespace,
   * and keeps every other character of the input in order.
   */
  lemma CleanTextShape(text: Option<string>)
    ensures var r := CleanText(text);
      Trimmed(r) && NoRuns(r) && OnlyBlanks(r)
      && Visible(r) == (if text.Some? then Visible(text.value) else "")
  {
    if text.Some? && text.value != "" {
      StripKeepsShape(CollapseSpaces(text.value));
      VisibleOfStrip(CollapseSpaces(text.value));
    }
  }

  /** Already-clean text is left as it is. */
  lemma CleanTextFixpoint(r: string)
    requires Trimmed(r) && NoRuns(r) && OnlyBlanks(r)
    ensures CleanText(Some(r)) == r
  {
    if r != "" {
      CollapseOfCollapsed(r);
      StripOfTrimmed(r);
    }
  }

  lemma CleanTextIdempotent(text: Option<string>)
    ensures CleanText(Some(CleanText(text))) == CleanText(text)
  {
    CleanTextShape(text);
    CleanTextFixpoint(CleanText(text));
  }

  /** The result is empty exactly when the input holds no visible character. */
  lemma CleanTextEmpty(text: Option<string>)
    ensures CleanText(text) == "" <==> (text.None? || Visible(text.value) == "")
  {
    CleanTextShape(text);
    var r := CleanText(text);
    if r != "" { VisibleOfTrimmed(r); }
  }
}
