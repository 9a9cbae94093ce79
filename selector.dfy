/** `get_llm`: choosing the chat model adapter from the `LLM` setting by prefix. */
module LlmSelector {
  import opened Common

  /** The adapter classes of `MAP_LLM`. */
  datatype LlmClass = GptOpenAI | GptAzure

  /** An adapter constructed with its model (or deployment) name. */
  datatype Llm = Llm(cls: LlmClass, modelName: string)

  /** `MAP_LLM`, in declaration order (the order a Python dict iterates in). */
  const MapLlm: seq<(string, LlmClass)> := [("gpt-openai", GptOpenAI), ("gpt-azure", GptAzure)]

  /** The index of the first entry whose prefix starts `setting`, or `|entries|` when none does. */
  function FirstMatch(entries: seq<(string, LlmClass)>, setting: string): (k: nat)
    ensures k <= |entries|
    ensures forall j :: 0 <= j < k ==> !StartsWith(setting, entries[j].0)
    ensures k < |entries| ==> StartsWith(setting, entries[k].0)
  {
    if entries == [] then 0
    else if StartsWith(setting, entries[0].0) then 0
    else 1 + FirstMatch(entries[1..], setting)
  }

  /** What `get_llm` returns or raises for `setting`. */
  function SelectLlm(setting: string): Result<Llm, string> {
    var k := FirstMatch(MapLlm, setting);
    if k < |MapLlm| then Success(Llm(MapLlm[k].1, DropFrom(setting, |MapLlm[k].0| + 1)))
    else Failure("Unknown LLM setting: " + setting)
  }

  /** The scan over `MAP_LLM`: the first matching prefix wins; no match raises `ValueError`. */
  method GetLlm(setting: string) returns (r: Result<Llm, string>)
    ensures r == SelectLlm(setting)
  {
    var i := 0;
    while i < |MapLlm|
      invariant 0 <= i <= |MapLlm|
      invariant forall j :: 0 <= j < i ==> !StartsWith(setting, MapLlm[j].0)
    {
      var (prefix, cls) := MapLlm[i];
      if StartsWith(setting, prefix) {
        assert FirstMatch(MapLlm, setting) == i;
        return Success(Llm(cls, DropFrom(setting, |prefix| + 1)));
      }
      i := i + 1;
    }
    return Failure("Unknown LLM setting: " + setting);
  }

  /**
   * A setting is accepted exactly when some prefix of `MAP_LLM` starts it, and then the adapter is
   * that of the first such entry, given the text after the prefix and one separator character.
   */
  lemma SelectLlmIsFirstMatch(setting: string)
    ensures SelectLlm(setting).Success? <==> exists j :: 0 <= j < |MapLlm| && StartsWith(setting, MapLlm[j].0)
    ensures SelectLlm(setting).Success? ==>
      exists k :: (0 <= k < |MapLlm| && StartsWith(setting, MapLlm[k].0)
        && (forall j :: 0 <= j < k ==> !StartsWith(setting, MapLlm[j].0))
        && SelectLlm(setting).value == Llm(MapLlm[k].1, DropFrom(setting, |MapLlm[k].0| + 1)))
    ensures SelectLlm(setting).Failure? ==> SelectLlm(setting).error == "Unknown LLM setting: " + setting
  {
    var k := FirstMatch(MapLlm, setting);
    if k < |MapLlm| {
      assert StartsWith(setting, MapLlm[k].0);
    }
  }

  /** `gpt-openai` settings select the OpenAI adapter; one character after the prefix is skipped. */
  lemma SelectOpenAI(rest: string)
    ensures SelectLlm("gpt-openai" + rest) == Success(Llm(GptOpenAI, DropFrom(rest, 1)))
  {
    var s := "gpt-openai" + rest;
    assert StartsWith(s, MapLlm[0].0) by { assert s[..10] == "gpt-openai"; }
    assert DropFrom(s, 11) == DropFrom(rest, 1) by {
      if |rest| >= 1 { assert s[11..] == rest[1..]; }
    }
  }

  /** `gpt-azure` settings select the Azure adapter. */
  lemma SelectAzure(rest: string)
    ensures SelectLlm("gpt-azure" + rest) == Success(Llm(GptAzure, DropFrom(rest, 1)))
  {
    var s := "gpt-azure" + rest;
    assert !StartsWith(s, MapLlm[0].0) by { assert s[4] == 'a' != MapLlm[0].0[4]; }
    assert StartsWith(s, MapLlm[1].0) by { assert s[..9] == "gpt-azure"; }
    assert DropFrom(s, 10) == DropFrom(rest, 1) by {
      if |rest| >= 1 { assert s[10..] == rest[1..]; }
    }
  }

  /** The bare prefix, with nothing after it, gives an empty model name. */
  lemma BarePrefixGivesEmptyName()
    ensures SelectLlm("gpt-openai") == Success(Llm(GptOpenAI, ""))
    ensures SelectLlm("gpt-azure") == Success(Llm(GptAzure, ""))
  {
    SelectOpenAI("");
    SelectAzure("");
    assert "gpt-openai" + "" == "gpt-openai";
    assert "gpt-azure" + "" == "gpt-azure";
  }
}
