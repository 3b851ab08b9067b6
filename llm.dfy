/**
 * Quality modes, content kinds and model selection (llm.py).
 *
 * `GenerationMode` converts to and from the labels the UI shows, and
 * `ModelFor` is the total table from (content kind, mode) to a model id.
 * `Generate` keeps only the part of `LLM.generate` that runs before the
 * API call: choosing the model and converting the prompt messages.
 */
module Llm {
  import opened Wrappers

  /** GenerationItemType: what a call generates. */
  datatype ContentKind = Topics | Ideas | Post | ImagePrompt | Image

  /** GenerationMode: the quality tier selected once per run. */
  datatype GenerationMode = Low | Medium | High

  /** The position of a mode in the order LOW < MEDIUM < HIGH. */
  function Rank(m: GenerationMode): nat {
    match m
    case Low => 0
    case Medium => 1
    case High => 2
  }

  const CheapModel: string := "gpt-3.5-turbo"
  const MidModel: string := "gpt-4o-mini"
  const TopModel: string := "gpt-4o"
  const ImageModel: string := "dall-e-3"

  /** The cost/quality tier of a text model: gpt-3.5-turbo < gpt-4o-mini < gpt-4o. */
  function Tier(model: string): nat {
    if model == TopModel then 2 else if model == MidModel then 1 else 0
  }

  // ---------------------------------------------------------------------
  // Display labels

  /** The Spanish label the UI shows for a mode (`to_string`). */
  function ModeToString(m: GenerationMode): string
  {
    match m
    case Low => "Calidad baja (rápido + económico)"
    case Medium => "Calidad media (recomendado)"
    case High => "Calidad alta (lento + costoso)"
  }

  /** The English label that `from_string` also accepts for a mode. */
  function EnglishLabel(m: GenerationMode): string {
    match m
    case Low => "Low quality (fast + cheap)"
    case Medium => "Medium quality (recommended)"
    case High => "High quality (slow + expensive)"
  }

  /** `from_string`: either label of a mode gives that mode; any other string gives None. */
  function FromString(value: string): (r: Option<GenerationMode>)
    ensures r.Some? ==> value == ModeToString(r.value) || value == EnglishLabel(r.value)
  {
    if value == "Calidad baja (rápido + económico)" || value == "Low quality (fast + cheap)" then Some(Low)
    else if value == "Calidad media (recomendado)" || value == "Medium quality (recommended)" then Some(Medium)
    else if value == "Calidad alta (lento + costoso)" || value == "High quality (slow + expensive)" then Some(High)
    else None
  }

  /** `from_string(to_string(m)) == m` for every mode, and likewise for the English labels. */
  lemma ModeStringRoundTrip(m: GenerationMode)
    ensures FromString(ModeToString(m)) == Some(m)
    ensures FromString(EnglishLabel(m)) == Some(m)
  {
  }

  /** Exactly the six labels are recognised, each as its own mode. */
  lemma FromStringExact(value: string, m: GenerationMode)
    ensures FromString(value) == Some(m) <==> (value == ModeToString(m) || value == EnglishLabel(m))
  {
  }

  /** `get_mode_strings`: three distinct labels, in LOW, MEDIUM, HIGH order. */
  function GetModeStrings(): (r: seq<string>)
    ensures |r| == 3
    ensures FromString(r[0]) == Some(Low) && FromString(r[1]) == Some(Medium) && FromString(r[2]) == Some(High)
    ensures r[0] != r[1] && r[1] != r[2] && r[0] != r[2]
  {
    [ModeToString(Low), ModeToString(Medium), ModeToString(High)]
  }

  // ---------------------------------------------------------------------
  // Model selection

  /** `get_model_for_type_and_mode`. */
  function ModelFor(kind: ContentKind, mode: GenerationMode): (r: string)
    ensures kind == Image <==> r == ImageModel
    ensures kind != Image ==> r == CheapModel || r == MidModel || r == TopModel
    ensures kind == ImagePrompt ==> r != CheapModel
    ensures kind != Image ==> Tier(r) >= Rank(mode)
  {
    match kind
    case Topics | Ideas | Post =>
      if mode == Low then CheapModel
      else if mode == Medium then MidModel
      else TopModel
    case ImagePrompt =>
      if mode == Low then MidModel else TopModel
    case Image => ImageModel
  }

  /** The table row by row: text kinds follow the mode tier by tier. */
  lemma TextKindsFollowMode(kind: ContentKind, mode: GenerationMode)
    requires kind == Topics || kind == Ideas || kind == Post
    ensures Tier(ModelFor(kind, mode)) == Rank(mode)
    ensures ModelFor(kind, mode) == [CheapModel, MidModel, TopModel][Rank(mode)]
  {
  }

  /** Image prompts are never generated with the cheapest model. */
  lemma ImagePromptTiers(mode: GenerationMode)
    ensures ModelFor(ImagePrompt, mode) == (if mode == Low then MidModel else TopModel)
  {
  }

  /** Raising the mode never selects a lower tier, for any kind. */
  lemma ModelTierMonotone(kind: ContentKind, m1: GenerationMode, m2: GenerationMode)
    requires Rank(m1) <= Rank(m2)
    ensures Tier(ModelFor(kind, m1)) <= Tier(ModelFor(kind, m2))
  {
  }

  // ---------------------------------------------------------------------
  // Message conversion

  /** A chat message in the API's format: the dict {"role": ..., "content": ...}. */
  datatype Message = Message(role: string, content: string)

  /** What callers pass to `generate`: an API-format dict, or a LangChain-style
      message object with an optional `type` and an optional `role` attribute. */
  datatype PromptMessage =
    | Dict(message: Message)
    | MessageObject(typeAttr: Option<string>, roleAttr: Option<string>, content: string)

  /** The `role_mapping.get(role, role)` lookup. */
  function MapRole(role: string): (r: string)
    ensures r != "human" && r != "ai"
    ensures role == "human" ==> r == "user"
    ensures role == "ai" ==> r == "assistant"
    ensures role != "human" && role != "ai" ==> r == role
  {
    if role == "human" then "user"
    else if role == "ai" then "assistant"
    else role
  }

  /** The LangChain message types with a fixed API role. */
  predicate HasKnownType(m: PromptMessage) {
    m.MessageObject? && m.typeAttr.Some? && m.typeAttr.value in {"human", "ai", "system"}
  }

  /** One step of the conversion loop. Dicts pass through; objects with a
      known type or a role become dicts with the same content; any other
      object passes through untouched. A known type is renamed exactly as
      the role mapping renames the same word, and it takes precedence over
      the role attribute. */
  function ConvertMessage(m: PromptMessage): (r: PromptMessage)
    ensures m.Dict? ==> r == m
    ensures HasKnownType(m) || (m.MessageObject? && m.roleAttr.Some?) ==>
      r.Dict? && r.message.content == m.content && r.message.role != "human" && r.message.role != "ai"
    ensures HasKnownType(m) ==> r == Dict(Message(MapRole(m.typeAttr.value), m.content))
    ensures HasKnownType(m) ==> r.message.role in {"user", "assistant", "system"}
    ensures m.MessageObject? && !HasKnownType(m) && m.roleAttr.Some? ==>
      r == Dict(Message(MapRole(m.roleAttr.value), m.content))
    ensures m.MessageObject? && !HasKnownType(m) && m.roleAttr.None? ==> r == m
  {
    match m
    case Dict(_) => m
    case MessageObject(t, role, content) =>
      if t == Some("human") then Dict(Message("user", content))
      else if t == Some("ai") then Dict(Message("assistant", content))
      else if t == Some("system") then Dict(Message("system", content))
      else if role.Some? then Dict(Message(MapRole(role.value), content))
      else m
  }

  /** The message-conversion loop of `generate`: one output per input, in order. */
  method ConvertMessages(promptMessages: seq<PromptMessage>) returns (formatted: seq<PromptMessage>)
    ensures |formatted| == |promptMessages|
    ensures forall i :: 0 <= i < |promptMessages| ==> formatted[i] == ConvertMessage(promptMessages[i])
  {
    formatted := [];
    for i := 0 to |promptMessages|
      invariant |formatted| == i
      invariant forall k :: 0 <= k < i ==> formatted[k] == ConvertMessage(promptMessages[k])
    {
      formatted := formatted + [ConvertMessage(promptMessages[i])];
    }
  }

  /** What `generate` sends: the selected model and the converted messages. */
  datatype ChatRequest = ChatRequest(model: string, messages: seq<PromptMessage>)

  /** `generate` up to the API call; `completion` is the text of the first
      choice the API returns, wrapped as the `MessageResponse` content. */
  method Generate(promptMessages: seq<PromptMessage>, kind: ContentKind, mode: GenerationMode, completion: string)
    returns (request: ChatRequest, content: string)
    ensures request.model == ModelFor(kind, mode)
    ensures |request.messages| == |promptMessages|
    ensures forall i :: 0 <= i < |promptMessages| ==> request.messages[i] == ConvertMessage(promptMessages[i])
    ensures content == completion
  {
    var model := ModelFor(kind, mode);
    var formatted := ConvertMessages(promptMessages);
    request := ChatRequest(model, formatted);
    content := completion;
  }
}
