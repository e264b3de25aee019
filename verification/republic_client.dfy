/** The Republic client set-up (`src/bub/integrations/republic_client.py`):
    the MiniMax error classifier and the options `build_llm` chooses from
    the model string. The `LLM` object, the tape store and the tape
    context are foreign and are not modelled; the classifier sees the
    exception's text, `str(exc)`. */
module RepublicClient {
  import opened Base
  import opened Text

  /** The `ErrorKind` the classifier can return. */
  datatype ErrorKind = Unknown

  const InvalidArguments := "invalid function arguments json string"
  const ToolCallId := "tool_call_id"
  const InvalidParams := "invalid params"

  /** `_minimax_error_classifier` on the exception text `message`. */
  function MinimaxClassify(message: string): (r: Option<ErrorKind>)
    ensures r.Some? ==> r.value == Unknown
    ensures r.Some? <==>
      || Contains(Lower(message), InvalidArguments)
      || (Contains(Lower(message), ToolCallId) && Contains(Lower(message), InvalidParams))
  {
    var text := Lower(message);
    if Contains(text, InvalidArguments) then Some(Unknown)
    else if Contains(text, ToolCallId) && Contains(text, InvalidParams) then Some(Unknown)
    else None
  }

  /** Lowering commutes with slicing. */
  lemma LowerSlice(s: string, i: int, j: int)
    requires 0 <= i <= j <= |s|
    ensures Lower(s)[i..j] == Lower(s[i..j])
  {
  }

  /** An occurrence survives lowering both sides. */
  lemma ContainsLowered(hay: string, needle: string)
    requires Contains(hay, needle)
    ensures Contains(Lower(hay), Lower(needle))
  {
    ContainsIff(hay, needle);
    var i :| OccursAt(hay, needle, i);
    LowerSlice(hay, i, i + |needle|);
    assert OccursAt(Lower(hay), Lower(needle), i);
    ContainsIff(Lower(hay), Lower(needle));
  }

  /** The phrases are recognised in any casing: a message holding a
      phrase that lowers to one of them is classified. */
  lemma ClassifiesAnyCasing(message: string, arguments: string, callId: string, params: string)
    requires
      || (Lower(arguments) == InvalidArguments && Contains(message, arguments))
      || (Lower(callId) == ToolCallId && Contains(message, callId)
          && Lower(params) == InvalidParams && Contains(message, params))
    ensures MinimaxClassify(message) == Some(Unknown)
  {
    if Lower(arguments) == InvalidArguments && Contains(message, arguments) {
      ContainsLowered(message, arguments);
    } else {
      ContainsLowered(message, callId);
      ContainsLowered(message, params);
    }
  }

  /** Only the lower-cased text matters. */
  lemma ClassifyIgnoresCase(message: string)
    ensures MinimaxClassify(Lower(message)) == MinimaxClassify(message)
  {
    LowerIdempotent(message);
  }

  // ---------------------------------------------------------------------
  // build_llm
  // ---------------------------------------------------------------------

  const AzureApiVersion := "2025-01-01-preview"
  const MaxRetries := 3

  /** The classifiers `build_llm` can install. */
  datatype Classifier = Minimax

  /** The arguments `build_llm` passes to `LLM`, apart from the tape store
      and the tape context. */
  datatype LlmOptions = LlmOptions(
    model: string,
    apiKey: Option<string>,
    apiBase: Option<string>,
    apiVersion: Option<string>,
    maxRetries: nat,
    classifier: Option<Classifier>)

  /** `build_llm`: an Azure API version when the model string mentions
      `azure` (case-sensitively), the MiniMax classifier when it mentions
      `minimax` in any casing, and three retries. */
  function BuildLlm(model: string, apiKey: Option<string>, apiBase: Option<string>): (r: LlmOptions)
    ensures r.model == model && r.apiKey == apiKey && r.apiBase == apiBase
    ensures r.apiVersion.Some? <==> Contains(model, "azure")
    ensures r.apiVersion.Some? ==> r.apiVersion.value == AzureApiVersion
    ensures r.classifier.Some? <==> Contains(Lower(model), "minimax")
    ensures r.maxRetries == MaxRetries
  {
    LlmOptions(
      model, apiKey, apiBase,
      if Contains(model, "azure") then Some(AzureApiVersion) else None,
      MaxRetries,
      if Contains(Lower(model), "minimax") then Some(Minimax) else None)
  }

  /** A model whose name spells MiniMax in any casing gets the classifier. */
  lemma MinimaxInAnyCasing(model: string, spelled: string, apiKey: Option<string>, apiBase: Option<string>)
    requires Lower(spelled) == "minimax" && Contains(model, spelled)
    ensures BuildLlm(model, apiKey, apiBase).classifier == Some(Minimax)
  {
    ContainsLowered(model, spelled);
  }

  /** The Azure test is case-sensitive: a model string without a
      lower-case `z` (`AZURE/gpt-4o`, say) gets no API version. */
  lemma AzureIsCaseSensitive(model: string, apiKey: Option<string>, apiBase: Option<string>)
    requires 'z' !in model
    ensures BuildLlm(model, apiKey, apiBase).apiVersion.None?
  {
    ContainsIff(model, "azure");
    forall i ensures !OccursAt(model, "azure", i) {
      if 0 <= i && i + 5 <= |model| {
        assert model[i..i + 5][1] == model[i + 1];
      }
    }
  }
}
