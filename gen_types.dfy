/** The data shapes of the generation pipeline: roles, images, prompts, the public
    `Overrides` and the internal `OverrideConfig`, the prompt order, custom injections,
    the custom-API settings, the internal generation parameters and the `BaseData`
    record the pipeline assembles. */
module GenTypes {
  import opened Wrappers

  datatype Role = System | User | Assistant

  function RoleName(r: Role): (name: string)
    ensures name in ["system", "user", "assistant"]
  {
    match r
    case System => "system"
    case User => "user"
    case Assistant => "assistant"
  }

  /** `roleTypes`: system, user and assistant to the host's role codes 0, 1 and 2 */
  function RoleCode(r: Role): (code: nat)
    ensures code < 3
    ensures code == 0 <==> r == System
    ensures code == 1 <==> r == User
    ensures code == 2 <==> r == Assistant
  {
    match r
    case System => 0
    case User => 1
    case Assistant => 2
  }

  lemma {:induction false} RoleCodeInjective(a: Role, b: Role)
    ensures RoleCode(a) == RoleCode(b) ==> a == b
    ensures RoleName(a) == RoleName(b) ==> a == b
  {
  }

  /** An image argument element: a `File` (by identity) or a string (URL, data URL or base64) */
  datatype ImageSource = ImageFile(id: nat) | ImageText(text: string)

  /** `image?: File | string | (File | string)[]` */
  datatype ImageInput = NoImage | OneImage(img: ImageSource) | ImageList(imgs: seq<ImageSource>)

  /** JavaScript truthiness of the `image` field: an empty string is falsy, an array never is */
  predicate ImageTruthy(i: ImageInput) {
    match i
    case NoImage => false
    case OneImage(img) => img != ImageText("")
    case ImageList(_) => true
  }

  /** A part of multi-part message content: `{type: 'text'}` or `{type: 'image_url'}` */
  datatype ContentPart = TextPart(text: string) | ImageUrlPart(url: string, detail: string)

  /** Message content: a plain string or a list of parts */
  datatype Content = Plain(text: string) | Parts(parts: seq<ContentPart>)

  /** `RolePrompt`: a chat-history entry of the overrides, or one of the host's chat messages */
  datatype RolePrompt = RolePrompt(role: Role, content: string, image: ImageInput)

  /** The public `Overrides.chat_history` group */
  datatype ChatHistoryOverrides = ChatHistoryOverrides(
    withDepthEntries: Option<bool>, authorNote: Option<string>, prompts: Option<seq<RolePrompt>>)

  /** The public `Overrides` */
  datatype Overrides = Overrides(
    worldInfoBefore: Option<string>, personaDescription: Option<string>, charDescription: Option<string>,
    charPersonality: Option<string>, scenario: Option<string>, worldInfoAfter: Option<string>,
    dialogueExamples: Option<string>, chatHistory: Option<ChatHistoryOverrides>)

  /** The internal `detail.OverrideConfig`: the seven slots plus the three chat-history
      fields lifted to the top level */
  datatype OverrideConfig = OverrideConfig(
    worldInfoBefore: Option<string>, personaDescription: Option<string>, charDescription: Option<string>,
    charPersonality: Option<string>, scenario: Option<string>, worldInfoAfter: Option<string>,
    dialogueExamples: Option<string>,
    withDepthEntries: Option<bool>, authorNote: Option<string>, chatHistory: Option<seq<RolePrompt>>)

  /** The value `config.overrides[id]` reads for a prompt id */
  datatype FieldValue = FieldText(text: string) | FieldFlag(flag: bool) | FieldPrompts(prompts: seq<RolePrompt>) | FieldAbsent

  /** A text slot as read through `FieldOf`: its text, or absent */
  function TextField(s: Option<string>): FieldValue {
    if s.Some? then FieldText(s.value) else FieldAbsent
  }

  function FieldOf(o: OverrideConfig, id: string): (v: FieldValue)
    ensures v.FieldFlag? ==> id == "with_depth_entries"
    ensures v.FieldPrompts? ==> id == "chat_history"
  {
    if id == "world_info_before" then TextField(o.worldInfoBefore)
    else if id == "persona_description" then TextField(o.personaDescription)
    else if id == "char_description" then TextField(o.charDescription)
    else if id == "char_personality" then TextField(o.charPersonality)
    else if id == "scenario" then TextField(o.scenario)
    else if id == "world_info_after" then TextField(o.worldInfoAfter)
    else if id == "dialogue_examples" then TextField(o.dialogueExamples)
    else if id == "author_note" then TextField(o.authorNote)
    else if id == "with_depth_entries" then (if o.withDepthEntries.Some? then FieldFlag(o.withDepthEntries.value) else FieldAbsent)
    else if id == "chat_history" then (if o.chatHistory.Some? then FieldPrompts(o.chatHistory.value) else FieldAbsent)
    else FieldAbsent
  }

  /** An entry of the prompt order: a built-in prompt name, or a custom `{role, content}`
      prompt (its role kept as the text given) */
  datatype OrderEntry = Builtin(name: string) | Custom(role: string, content: string)

  /** `builtin_prompt_default_order` */
  const BuiltinPromptDefaultOrder: seq<string> := [
    "world_info_before", "persona_description", "char_description", "char_personality", "scenario",
    "world_info_after", "dialogue_examples", "chat_history", "user_input"
  ]

  /** `default_order` */
  const DefaultOrder: seq<OrderEntry> := [
    Builtin("world_info_before"), Builtin("persona_description"), Builtin("char_description"),
    Builtin("char_personality"), Builtin("scenario"), Builtin("world_info_after"),
    Builtin("dialogue_examples"), Builtin("chat_history"), Builtin("user_input")
  ]

  /** The two default orders list the same nine prompts in the same order, and the chat
      history comes right before the user input, which is last */
  lemma {:induction false} DefaultOrdersAgree()
    ensures |DefaultOrder| == |BuiltinPromptDefaultOrder| == 9
    ensures forall i :: 0 <= i < 9 ==> DefaultOrder[i] == Builtin(BuiltinPromptDefaultOrder[i])
    ensures DefaultOrder[7] == Builtin("chat_history") && DefaultOrder[8] == Builtin("user_input")
    ensures BuiltinPromptDefaultOrder[7] == "chat_history" && BuiltinPromptDefaultOrder[8] == "user_input"
  {
  }

  /** `Omit<InjectionPrompt, 'id'>`: a custom depth injection (`depth` may be missing) */
  datatype InjectionPrompt = InjectionPrompt(role: string, content: string, depth: Option<int>)

  /** A custom-API parameter: absent, `'same_as_preset'`, `'unset'`, or a value */
  datatype ApiParam = ParamAbsent | SameAsPreset | Unset | ParamValue(v: int)

  /** `CustomApiConfig` */
  datatype CustomApiConfig = CustomApiConfig(
    apiurl: Option<string>, key: Option<string>, model: Option<string>, source: Option<string>,
    maxTokens: ApiParam, temperature: ApiParam, frequencyPenalty: ApiParam,
    presencePenalty: ApiParam, topP: ApiParam, topK: ApiParam)

  /** `max_chat_history?: 'all' | number` */
  datatype MaxChatHistory = AllHistory | HistoryCount(n: int)

  /** The public `GenerateConfig` (`use_preset` true) */
  datatype GenerateConfig = GenerateConfig(
    generationId: Option<string>, userInput: Option<string>, image: ImageInput, shouldStream: Option<bool>,
    overrides: Option<Overrides>, injects: Option<seq<InjectionPrompt>>, maxChatHistory: Option<MaxChatHistory>,
    customApi: Option<CustomApiConfig>)

  /** The public `GenerateRawConfig` (`use_preset` false), with its `ordered_prompts` */
  datatype GenerateRawConfig = GenerateRawConfig(
    generationId: Option<string>, userInput: Option<string>, image: ImageInput, shouldStream: Option<bool>,
    overrides: Option<Overrides>, injects: Option<seq<InjectionPrompt>>, orderedPrompts: Option<seq<OrderEntry>>,
    maxChatHistory: Option<MaxChatHistory>, customApi: Option<CustomApiConfig>)

  /** `detail.GenerateParams` */
  datatype GenerateParams = GenerateParams(
    generationId: Option<string>, userInput: Option<string>, usePreset: Option<bool>, image: ImageInput,
    stream: Option<bool>, overrides: Option<OverrideConfig>, maxChatHistory: Option<int>,
    inject: Option<seq<InjectionPrompt>>, order: Option<seq<OrderEntry>>, customApi: Option<CustomApiConfig>)

  /** What the generation steps read of `{overrides, max_chat_history, inject, order, image}` */
  datatype PromptConfig = PromptConfig(
    overrides: Option<OverrideConfig>, maxChatHistory: Option<int>, inject: seq<InjectionPrompt>,
    order: Option<seq<OrderEntry>>, image: ImageInput)

  /** `persona_description_positions`, with every other value as `PersonaOther` */
  datatype PersonaPosition = PersonaInPrompt | PersonaTopAN | PersonaBottomAN | PersonaAtDepth | PersonaNone | PersonaOther

  /** The user's persona settings (`power_user.persona_description*`) */
  datatype PersonaSettings = PersonaSettings(description: string, position: PersonaPosition, depth: int, role: int)

  /** One message of a dialogue example as the host's example builder returns it */
  datatype ExampleMessage = ExampleMessage(content: string, name: string)

  /** A world-info example block and where it is anchored */
  datatype AnchorPosition = BeforeExamples | AfterExamples
  datatype WorldInfoExample = WorldInfoExample(content: string, position: AnchorPosition)

  /** A world-info depth entry group: entries to inject at `depth` with role code `role` */
  datatype DepthEntry = DepthEntry(entries: seq<string>, depth: int, role: int)

  datatype CharacterInfo = CharacterInfo(
    description: string, personality: string, persona: string, scenario: string, system: string, jailbreak: string)

  datatype ChatContext = ChatContext(
    oaiMessages: seq<RolePrompt>, oaiMessageExamples: seq<seq<ExampleMessage>>, promptBias: string)

  /** `worldInfoBefore`/`After` are `null` (`None`) when filtered; `worldInfoDepth` is
      `null` when depth entries are filtered */
  datatype WorldInfo = WorldInfo(
    worldInfoString: string, worldInfoBefore: Option<string>, worldInfoAfter: Option<string>,
    worldInfoExamples: seq<WorldInfoExample>, worldInfoDepth: Option<seq<DepthEntry>>)

  datatype BaseData = BaseData(characterInfo: CharacterInfo, chatContext: ChatContext, worldInfo: WorldInfo)
}
