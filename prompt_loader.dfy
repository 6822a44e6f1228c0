/**
 * The prompts given to the language model: built-in defaults, each of
 * which a non-blank string saved in the prompts file overrides. Reading
 * and writing the file are not modelled; the file comes in as what
 * `json.load` makes of it, and saving gives the value written.
 */
module PromptLoader {
  import opened StringUtil
  import opened Values

  /** The two prompts, in the order `get_prompts` looks them up. */
  const PromptKeys: seq<string> := ["system_prompt", "user_prompt"]

  /** The prompts file: absent, not valid JSON, or the value it decodes to. */
  datatype PromptFile = Missing | Corrupt | Loaded(data: Value)

  /** A prompt set holds exactly the two prompts. */
  predicate IsPromptSet(p: map<string, string>) {
    p.Keys == {"system_prompt", "user_prompt"}
  }

  /** An on-disk value replaces a default only when it is a string that is not blank. */
  predicate Overrides(v: Value) {
    v.Str? && Strip(v.s) != ""
  }

  /** The prompt `get_prompts` returns for `key`: the file's override, or else the default. */
  function Chosen(defaults: map<string, string>, file: PromptFile, key: string): string
    requires key in defaults
  {
    if file.Loaded? && file.data.Obj? && Overrides(Get(EntriesToMap(file.data.entries), key))
    then Get(EntriesToMap(file.data.entries), key).s
    else defaults[key]
  }

  /** `get_prompts()`, with `DEFAULT_PROMPTS` as `defaults`. */
  method GetPrompts(defaults: map<string, string>, file: PromptFile) returns (prompts: map<string, string>)
    requires IsPromptSet(defaults)
    ensures IsPromptSet(prompts)
    ensures forall k :: k in prompts ==> prompts[k] == Chosen(defaults, file, k)
  {
    prompts := defaults;
    if file.Loaded? && file.data.Obj? {
      var loaded := EntriesToMap(file.data.entries);
      var i := 0;
      while i < |PromptKeys|
        invariant 0 <= i <= |PromptKeys|
        invariant IsPromptSet(prompts)
        invariant forall k :: k in PromptKeys[..i] ==> prompts[k] == Chosen(defaults, file, k)
        invariant forall k :: k in PromptKeys[i..] ==> prompts[k] == defaults[k]
      {
        var key := PromptKeys[i];
        var value := Get(loaded, key);
        if value.Str? && Strip(value.s) != "" {
          prompts := prompts[key := value.s];
        }
        i := i + 1;
      }
      assert PromptKeys[..i] == PromptKeys;
    }
  }

  /** A missing or corrupt file, or one that does not hold a JSON object, gives the defaults. */
  lemma DefaultsWithoutObject(defaults: map<string, string>, file: PromptFile, key: string)
    requires key in defaults
    requires !file.Loaded? || !file.data.Obj?
    ensures Chosen(defaults, file, key) == defaults[key]
  {
  }

  /** A string override is used unstripped; a blank or non-string one leaves the default. */
  lemma OverrideRule(defaults: map<string, string>, entries: seq<(string, Value)>, key: string)
    requires key in defaults
    ensures var v := Get(EntriesToMap(entries), key);
      Chosen(defaults, Loaded(Obj(entries)), key) == if Overrides(v) then v.s else defaults[key]
  {
  }

  /** Keys of the file other than the prompt's own do not change it. */
  lemma OtherKeysIgnored(defaults: map<string, string>, e1: seq<(string, Value)>, e2: seq<(string, Value)>, key: string)
    requires key in defaults
    requires Get(EntriesToMap(e1), key) == Get(EntriesToMap(e2), key)
    ensures Chosen(defaults, Loaded(Obj(e1)), key) == Chosen(defaults, Loaded(Obj(e2)), key)
  {
  }

  /** What `save_prompts(system_prompt, user_prompt)` writes, as `json.load` reads it back. */
  function SavePrompts(system: string, user: string): (v: Value)
    ensures v.Obj? && |v.entries| == 2
  {
    Obj([("system_prompt", Str(system)), ("user_prompt", Str(user))])
  }

  /**
   * Saving and loading again gives back each saved prompt that is not
   * blank, and the default for one that is.
   */
  lemma SaveThenGet(defaults: map<string, string>, system: string, user: string)
    requires IsPromptSet(defaults)
    ensures Chosen(defaults, Loaded(SavePrompts(system, user)), "system_prompt")
      == if Strip(system) != "" then system else defaults["system_prompt"]
    ensures Chosen(defaults, Loaded(SavePrompts(system, user)), "user_prompt")
      == if Strip(user) != "" then user else defaults["user_prompt"]
  {
    var entries := SavePrompts(system, user).entries;
    assert entries[..1] == [("system_prompt", Str(system))];
    assert [("system_prompt", Str(system))][..0] == [];
    assert EntriesToMap(entries[..1]) == map["system_prompt" := Str(system)];
    assert EntriesToMap(entries) == map["system_prompt" := Str(system), "user_prompt" := Str(user)];
  }
}
