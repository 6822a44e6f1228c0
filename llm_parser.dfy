/**
 * Reading the language model's replies: choosing the provider, removing a
 * markdown code fence around a JSON reply, the defaults used when a reply
 * is missing or not JSON, and the routing and validation of deadline text.
 */
module LlmParser {
  import opened Wrappers
  import opened StringUtil
  import opened Values
  import opened DateFormats
  import opened Migrate

  // ------------------------------------------------------------ providers

  datatype Provider = DeepSeek | OpenAI | Anthropic

  function ProviderName(p: Provider): string {
    match p
    case DeepSeek => "deepseek"
    case OpenAI => "openai"
    case Anthropic => "anthropic"
  }

  /** The provider `_call_llm` dispatches to for the configured name. */
  function SelectProvider(name: string): Option<Provider> {
    var n := Lower(name);
    if n == "deepseek" then Some(DeepSeek)
    else if n == "openai" then Some(OpenAI)
    else if n == "anthropic" then Some(Anthropic)
    else None
  }

  /** `_call_llm(prompt, system_prompt)`; `call` stands for the three provider clients. */
  function CallLlm(provider: string, prompt: string, system: string,
                   call: (Provider, string, string) -> Option<string>): Option<string>
  {
    match SelectProvider(provider)
    case None => None
    case Some(p) => call(p, prompt, system)
  }

  /** A provider is chosen exactly when the lower-cased name is its name. */
  lemma SelectProviderByName(name: string, p: Provider)
    ensures SelectProvider(name) == Some(p) <==> Lower(name) == ProviderName(p)
  {
  }

  /** Letter case does not matter. */
  lemma SelectProviderCaseInsensitive(name: string)
    ensures SelectProvider(Lower(name)) == SelectProvider(name)
  {
    LowerIdempotent(name);
  }

  /** An unknown provider yields no reply, whatever the clients would answer. */
  lemma UnknownProviderSilent(provider: string, prompt: string, system: string,
                              call: (Provider, string, string) -> Option<string>)
    requires Lower(provider) != "deepseek" && Lower(provider) != "openai" && Lower(provider) != "anthropic"
    ensures CallLlm(provider, prompt, system, call) == None
  {
  }

  // --------------------------------------------------------------- fences

  const Fence: string := "```"

  lemma FenceSplits(t: string)
    requires Fence <= t
    ensures |Split(t, Fence)| >= 2
  {
    assert t != [];
  }

  /**
   * Strip the reply; when it opens with three backticks, keep the text
   * between the first two fences, without a leading `json` tag, stripped.
   * The `len(parts) > 1` guard of the fit evaluator always holds here
   * (FenceSplits), so the two copies of this step agree.
   */
  function StripFence(response: string): string {
    var t := Strip(response);
    if Fence <= t then
      FenceSplits(t);
      var inner := Split(t, Fence)[1];
      Strip(if "json" <= inner then inner[4..] else inner)
    else t
  }

  /** A reply that does not open with a fence is only stripped. */
  lemma StripFenceUnfenced(response: string)
    requires !(Fence <= Strip(response))
    ensures StripFence(response) == Strip(response)
  {
  }

  /** The text after the opening fence, up to the closing one. */
  lemma FencedParts(body: string, rest: string)
    requires '`' !in body
    ensures Split(Fence + body + Fence + rest, Fence)[1] == body
  {
    var s := Fence + body + Fence + rest;
    assert Fence <= s;
    assert s[|Fence|..] == body + Fence + rest;
    SplitAtFirst(body, Fence, rest);
  }

  lemma FencedTrimmed(body: string, rest: string)
    requires Trimmed(rest)
    ensures Trimmed(Fence + body + Fence + rest)
  {
  }

  /** A reply fenced as a `json` block gives the stripped block. */
  lemma StripFenceTagged(body: string, rest: string)
    requires '`' !in body && Trimmed(rest)
    ensures StripFence(Fence + "json" + body + Fence + rest) == Strip(body)
  {
    var s := Fence + "json" + body + Fence + rest;
    assert s == Fence + ("json" + body) + Fence + rest;
    FencedTrimmed("json" + body, rest);
    StripOfTrimmed(s);
    FencedParts("json" + body, rest);
    assert ("json" + body)[4..] == body;
  }

  /** A fenced block without a tag gives the stripped block. */
  lemma StripFenceUntagged(body: string, rest: string)
    requires '`' !in body && Trimmed(rest) && !("json" <= body)
    ensures StripFence(Fence + body + Fence + rest) == Strip(body)
  {
    FencedTrimmed(body, rest);
    StripOfTrimmed(Fence + body + Fence + rest);
    FencedParts(body, rest);
  }

  // ---------------------------------------------------------- JSON replies

  /**
   * The parse-or-default step shared by `extract_job_details` and
   * `classify_position`: `decode` stands for `json.loads`, `None` where it
   * raises.
   */
  function ParseReply(response: Option<string>, decode: string -> Option<Value>, default: Value): Value {
    if response.None? || response.value == "" then default
    else match decode(StripFence(response.value))
      case None => default
      case Some(data) => data
  }

  /** The answer of `classify_position` when there is nothing to read. */
  const ClassifyDefault: Value :=
    Obj([("level", Str("Other")), ("type", Str("Other")), ("field_focus", Str(""))])

  /** `extract_job_details`: the decoded reply, or an empty object. */
  function ExtractJobDetails(response: Option<string>, decode: string -> Option<Value>): Value {
    ParseReply(response, decode, Obj([]))
  }

  /** `classify_position`: the decoded reply, or the "Other" classification. */
  function ClassifyPosition(response: Option<string>, decode: string -> Option<Value>): Value {
    ParseReply(response, decode, ClassifyDefault)
  }

  /** No reply, an empty reply or a reply that is not JSON gives the default. */
  lemma ParseReplyDefault(response: Option<string>, decode: string -> Option<Value>, default: Value)
    requires response.None? || response.value == "" || decode(StripFence(response.value)).None?
    ensures ParseReply(response, decode, default) == default
  {
  }

  lemma ExtractJobDetailsDefault(response: Option<string>, decode: string -> Option<Value>)
    requires response.None? || response.value == "" || decode(StripFence(response.value)).None?
    ensures ExtractJobDetails(response, decode) == Obj([])
  {
    ParseReplyDefault(response, decode, Obj([]));
  }

  lemma ClassifyPositionDefault(response: Option<string>, decode: string -> Option<Value>)
    requires response.None? || response.value == "" || decode(StripFence(response.value)).None?
    ensures ClassifyPosition(response, decode) == ClassifyDefault
  {
    ParseReplyDefault(response, decode, ClassifyDefault);
  }

  /** A `json` block is decoded from the text inside the fences. */
  lemma ParseReplyFenced(body: string, decode: string -> Option<Value>, default: Value, data: Value)
    requires '`' !in body && decode(Strip(body)) == Some(data)
    ensures ParseReply(Some(Fence + "json" + body + Fence), decode, default) == data
  {
    StripFenceTagged(body, "");
    assert Fence + "json" + body + Fence + "" == Fence + "json" + body + Fence;
  }

  // ------------------------------------------------------------ deadlines

  /** The formats tried locally, in order. */
  const DeadlineFormats: seq<seq<Piece>> := [IsoFormat, UsSlash, EuSlash, LongMonth, ShortMonth]

  /** Text worth sending to the model: long, or worded as a condition. */
  predicate Complex(text: string) {
    var lower := Lower(text);
    |text| > 50 || Contains(lower, "until") || Contains(lower, "by")
    || Contains(lower, "before") || Contains(lower, "extended")
  }

  /** The model's answer, trimmed of whitespace and quotes, when it is a `%Y-%m-%d` date. */
  function LlmDeadline(reply: Option<string>): (r: Option<string>)
    ensures r.Some? ==> IsIsoDate(r.value)
  {
    if reply.None? || reply.value == "" then None
    else
      var answer := StripChar(StripChar(Strip(reply.value), '"'), '\'');
      if IsIsoDate(answer) then Some(answer) else None
  }

  /**
   * The specification of `parse_deadlines(text)`; `reply` is what the model
   * answers when it is asked.
   */
  function Deadline(text: string, reply: Option<string>): Option<string> {
    if text == "" then None
    else
      var fromModel := if Complex(text) then LlmDeadline(reply) else None;
      if fromModel.Some? then fromModel
      else match FirstParse(Strip(text), DeadlineFormats)
        case Some(date) => Some(date)
        case None => Some(Strip(text))
  }

  /** `parse_deadlines`: the model for complex text, then the local formats in order. */
  method ParseDeadlines(text: string, reply: Option<string>) returns (r: Option<string>)
    ensures r == Deadline(text, reply)
  {
    if text == "" {
      return None;
    }
    if Complex(text) {
      var answer := LlmDeadline(reply);
      if answer.Some? {
        return answer;
      }
    }
    var parsed := TryFormats(Strip(text), DeadlineFormats);
    if parsed.Some? {
      return parsed;
    }
    return Some(Strip(text));
  }

  /** There is no deadline exactly when the text is empty. */
  lemma DeadlineNoneIffEmpty(text: string, reply: Option<string>)
    ensures Deadline(text, reply).None? <==> text == ""
  {
  }

  /** Simple text never depends on the model. */
  lemma SimpleTextIgnoresModel(text: string, reply1: Option<string>, reply2: Option<string>)
    requires !Complex(text)
    ensures Deadline(text, reply1) == Deadline(text, reply2)
  {
  }

  /** A model answer that fails the date check is as good as no answer. */
  lemma InvalidAnswerIgnored(text: string, reply: Option<string>)
    requires LlmDeadline(reply).None?
    ensures Deadline(text, reply) == Deadline(text, None)
  {
  }

  /** A valid model answer for complex text is returned as answered. */
  lemma ValidAnswerUsed(text: string, reply: Option<string>)
    requires text != "" && Complex(text) && LlmDeadline(reply).Some?
    ensures Deadline(text, reply) == LlmDeadline(reply)
  {
  }

  /**
   * Otherwise the result is a date re-rendered as `%Y-%m-%d` by the first
   * local format that reads the stripped text, or the stripped text itself.
   */
  lemma DeadlineShape(text: string, reply: Option<string>)
    requires text != ""
    ensures var r := Deadline(text, reply);
      r.Some? && (IsIsoDate(r.value) || r.value == Strip(text))
    ensures Deadline(text, reply) != Some(Strip(text)) ==> IsIsoDate(Deadline(text, reply).value)
  {
  }

  /** When no local format reads the text and the model does not help, it comes back stripped. */
  lemma UnreadableDeadlineKept(text: string, reply: Option<string>)
    requires text != "" && FirstParse(Strip(text), DeadlineFormats).None?
    requires !Complex(text) || LlmDeadline(reply).None?
    ensures Deadline(text, reply) == Some(Strip(text))
  {
  }

  /** "03/04/2024" asks nothing of the model and is read month first. */
  lemma SlashDeadlineMonthFirst(reply: Option<string>)
    ensures Deadline("03/04/2024", reply) == Some("2024-03-04")
  {
    SlashNotComplex();
    StripOfTrimmed("03/04/2024");
    SlashFirstParse();
  }

  predicate NoLetters(s: string) {
    forall i :: 0 <= i < |s| ==> !('A' <= s[i] <= 'Z') && !('a' <= s[i] <= 'z')
  }

  lemma LowerNoLetters(s: string)
    requires NoLetters(s)
    ensures Lower(s) == s
  {
  }

  /** Short text without letters holds none of the condition words. */
  lemma NoLettersNotComplex(s: string)
    requires |s| <= 50 && NoLetters(s)
    ensures !Complex(s)
  {
    LowerNoLetters(s);
    forall w | w in ["until", "by", "before", "extended"]
      ensures !Contains(Lower(s), w)
    {
      assert 'a' <= w[0] <= 'z';
      MissingFirstChar(s, w);
    }
  }

  lemma SlashNotComplex()
    ensures !Complex("03/04/2024")
  {
    NoLettersNotComplex("03/04/2024");
  }

  /** The second format decides when the first does not read the text. */
  lemma FirstParseSecond(s: string, fmts: seq<seq<Piece>>)
    requires |fmts| >= 2 && Strptime(s, fmts[0]).None? && Strptime(s, fmts[1]).Some?
    ensures FirstParse(s, fmts) == Some(Render(Strptime(s, fmts[1]).value))
  {
    assert fmts[1..][0] == fmts[1];
  }

  lemma SlashFirstParse()
    ensures FirstParse("03/04/2024", DeadlineFormats) == Some("2024-03-04")
  {
    SlashDateNotIso();
    SlashDateMonthFirst();
    FirstParseSecond("03/04/2024", DeadlineFormats);
    SlashRendered();
  }

  lemma SlashRendered()
    ensures Render(Date(2024, 3, 4)) == "2024-03-04"
  {
  }

  /** Text worded as a condition goes to the model. */
  lemma ConditionalDeadlineComplex()
    ensures Complex("Open until filled")
  {
    var s := "Open until filled";
    assert Lower(s)[5..10] == "until";
    ContainsAt(Lower(s), "until", 5);
  }
}
