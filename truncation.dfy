/**
 * Word-boundary truncation of text placed into prompts. The assessor and
 * the fit evaluator each carry a copy of the same routine; they differ only
 * in the marker they append to a shortened text.
 */
module Truncation {
  import opened StringUtil

  /**
   * Strip the text; keep it when it fits in `maxLen` characters; otherwise
   * take the first `maxLen` characters, cut back to the last blank when
   * that blank is not the first character, and append `suffix`.
   */
  function WordCut(text: string, maxLen: nat, suffix: string): string {
    if text == "" then ""
    else
      var t := Strip(text);
      if |t| <= maxLen then t
      else
        var cut := t[..maxLen];
        var k := RFind(cut, ' ');
        (if k > 0 then cut[..k] else cut) + suffix
  }

  /** The part of a long text that survives the cut. */
  function Kept(t: string, maxLen: nat): (p: string)
    requires maxLen < |t|
  {
    var cut := t[..maxLen];
    var k := RFind(cut, ' ');
    if k > 0 then cut[..k] else cut
  }

  /** Text that fits is returned stripped and otherwise unchanged. */
  lemma WordCutShort(text: string, maxLen: nat, suffix: string)
    requires |Strip(text)| <= maxLen
    ensures WordCut(text, maxLen, suffix) == Strip(text)
  {
  }

  /** Text that does not fit is a kept prefix followed by the marker. */
  lemma WordCutLong(text: string, maxLen: nat, suffix: string)
    requires maxLen < |Strip(text)|
    ensures WordCut(text, maxLen, suffix) == Kept(Strip(text), maxLen) + suffix
  {
  }

  /**
   * The kept part is a prefix of at most `maxLen` characters, and it ends at
   * the last blank of the first `maxLen` characters when that blank is past
   * the first position; otherwise it is all of those characters.
   */
  lemma KeptShape(t: string, maxLen: nat)
    requires maxLen < |t|
    ensures var p := Kept(t, maxLen);
      p <= t && |p| <= maxLen
      && ((|p| == maxLen && forall j :: 0 < j < maxLen ==> t[j] != ' ')
          || (0 < |p| < maxLen && t[|p|] == ' ' && forall j :: |p| < j < maxLen ==> t[j] != ' '))
  {
    var cut := t[..maxLen];
    var k := RFind(cut, ' ');
    assert forall j :: 0 <= j < maxLen ==> cut[j] == t[j];
    if k > 0 {
      assert cut[..k] == t[..k];
    } else {
      assert cut == t[..maxLen];
    }
  }

  /** A cut text never has more than `maxLen` characters before its marker. */
  lemma WordCutBound(text: string, maxLen: nat, suffix: string)
    ensures |WordCut(text, maxLen, suffix)| <= maxLen + |suffix|
  {
    if text != "" && maxLen < |Strip(text)| {
      KeptShape(Strip(text), maxLen);
    }
  }
}
