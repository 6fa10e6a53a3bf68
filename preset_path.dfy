/** `handlePresetPath`: the preset composer reads the scenario from the character, so the
    scenario override is written into the character for the duration of the call and the
    original put back afterwards; the user's message is put in front of the chat (index 0
    is the newest message) and the host composer builds the prompt. */
module PresetPath {
  import opened Wrappers
  import opened Strings
  import opened GenTypes
  import opened GenUtils
  import opened Completion

  /** The current character of the host, whose scenario the composer reads */
  class Character {
    var scenario: string

    constructor(scenario: string)
      ensures this.scenario == scenario
    {
      this.scenario := scenario;
    }
  }

  /** `config?.overrides?.scenario` */
  function ScenarioOverride(config: PromptConfig): Option<string> {
    if config.overrides.Some? then config.overrides.value.scenario else None
  }

  /** The override is written into the character only when it is a non-empty text and
      there is a character */
  predicate OverrideApplies(config: PromptConfig, hasCharacter: bool) {
    hasCharacter && ScenarioOverride(config).Some? && Truthy(ScenarioOverride(config).value)
  }

  /** `originalScenario = character.scenario || null`, as written: an empty scenario is
      saved as `null` */
  function SavedScenarioAsWritten(original: string): (r: Option<string>)
    ensures r.Some? <==> original != ""
    ensures r.Some? ==> r.value == original
  {
    if Truthy(original) then Some(original) else None
  }

  /** The saved scenario as the restore intends it: the original, whatever it is */
  function SavedScenario(original: string): (r: Option<string>)
    ensures r.Some? && r.value == original
  {
    Some(original)
  }

  /** The character's scenario once the override was written and the `finally` ran:
      the saved value when there is one, else the override stays */
  function ScenarioAfter(saved: Option<string>, override: string): string {
    if saved.Some? then saved.value else override
  }

  /** With the scenario saved as intended the character always gets its own scenario
      back; as written it does exactly when that scenario is not empty */
  lemma {:induction false} ScenarioRestored(original: string, override: string)
    requires override != ""
    ensures ScenarioAfter(SavedScenario(original), override) == original
    ensures ScenarioAfter(SavedScenarioAsWritten(original), override) == original <==> original != ""
  {
  }

  /** As written, a character with no scenario keeps the override after the call */
  lemma {:induction false} EmptyScenarioNotRestored()
    ensures ScenarioAfter(SavedScenarioAsWritten(""), "Aboard a derelict ship") == "Aboard a derelict ship"
    ensures ScenarioAfter(SavedScenario(""), "Aboard a derelict ship") == ""
  {
  }

  /** The save-and-override step as written */
  method OverrideScenarioAsWritten(character: Character?, config: PromptConfig) returns (saved: Option<string>)
    modifies character
    ensures character != null && OverrideApplies(config, true) ==>
              saved == SavedScenarioAsWritten(old(character.scenario)) && character.scenario == ScenarioOverride(config).value
    ensures !(character != null && OverrideApplies(config, true)) ==>
              saved.None? && (character != null ==> character.scenario == old(character.scenario))
  {
    saved := None;
    var scenarioOverride := ScenarioOverride(config);
    if scenarioOverride.Some? && Truthy(scenarioOverride.value) && character != null {
      saved := if Truthy(character.scenario) then Some(character.scenario) else None;
      character.scenario := scenarioOverride.value;
    }
  }

  /** The save-and-override step, saving the original scenario whatever it is */
  method OverrideScenario(character: Character?, config: PromptConfig) returns (saved: Option<string>)
    modifies character
    ensures character != null && OverrideApplies(config, true) ==>
              saved == SavedScenario(old(character.scenario)) && character.scenario == ScenarioOverride(config).value
    ensures !(character != null && OverrideApplies(config, true)) ==>
              saved.None? && (character != null ==> character.scenario == old(character.scenario))
  {
    saved := None;
    var scenarioOverride := ScenarioOverride(config);
    if scenarioOverride.Some? && Truthy(scenarioOverride.value) && character != null {
      saved := Some(character.scenario);
      character.scenario := scenarioOverride.value;
    }
  }

  /** The `finally` block: the saved scenario is written back when there is one */
  method RestoreScenario(character: Character?, saved: Option<string>)
    modifies character
    ensures character != null ==> character.scenario == ScenarioAfter(saved, old(character.scenario))
  {
    if saved.Some? && character != null {
      character.scenario := saved.value;
    }
  }

  /** The temporary user message: an image list drops the image, a single image is
      encoded (and missing when encoding fails), a falsy image is kept as given */
  function UserMessageTemp(input: string, image: ImageInput, host: ImageHost): (m: RolePrompt)
    ensures m.role == User && m.content == input
    ensures !ImageTruthy(image) ==> m.image == image
    ensures image.ImageList? ==> m.image == NoImage
    ensures ImageTruthy(image) && image.OneImage? ==>
              m.image == if ConvertFileToBase64(image.img, host).Some?
                         then OneImage(ImageText(ConvertFileToBase64(image.img, host).value)) else NoImage
  {
    var img :=
      if !ImageTruthy(image) then image
      else if image.ImageList? then NoImage
      else match ConvertFileToBase64(image.img, host)
        case Some(b64) => OneImage(ImageText(b64))
        case None => NoImage;
    RolePrompt(User, input, img)
  }

  /** The record handed to `prepareOpenAIMessages` (its constant fields `type`,
      `quietPrompt`, `quietImage` and `cyclePrompt` are left out) */
  datatype MessageData = MessageData(
    name2: string, charDescription: string, charPersonality: string, scenario: string,
    worldInfoBefore: Option<string>, worldInfoAfter: Option<string>, extensionPrompts: map<string, ExtensionPrompt>,
    bias: string, systemPromptOverride: string, jailbreakPromptOverride: string, personaDescription: string,
    messages: seq<RolePrompt>, messageExamples: seq<seq<ExampleMessage>>)

  /** The host side of the preset path: the character name, the extension prompts, image
      encoding, and the composer, which also reads the current character's scenario
      (`None` without a character) and may fail */
  datatype PresetHost = PresetHost(
    name2: string, extensionPrompts: map<string, ExtensionPrompt>, image: ImageHost,
    compose: (MessageData, Option<string>) -> Result<seq<Message>>)

  /** The composer's input: the card fields come from the base data, so the scenario
      is the base data's and not the character's */
  function MessageDataOf(base: BaseData, messages: seq<RolePrompt>, host: PresetHost): (d: MessageData)
    ensures d.scenario == base.characterInfo.scenario && d.messages == messages
  {
    MessageData(host.name2, base.characterInfo.description, base.characterInfo.personality, base.characterInfo.scenario,
                base.worldInfo.worldInfoBefore, base.worldInfo.worldInfoAfter, host.extensionPrompts,
                base.chatContext.promptBias, base.characterInfo.system, base.characterInfo.jailbreak,
                base.characterInfo.persona, messages, base.chatContext.oaiMessageExamples)
  }

  /** `handlePresetPath(baseData, processedUserInput, config)`: the composer's result, and
      the chat after the user's message was put in front of it; the scenario is saved as
      written, so a character whose scenario was empty keeps the override */
  method HandlePresetPath(character: Character?, base: BaseData, input: string, config: PromptConfig, host: PresetHost)
    returns (prompt: Result<seq<Message>>, oaiMessages: seq<RolePrompt>)
    modifies character
    ensures oaiMessages == [UserMessageTemp(input, config.image, host.image)] + base.chatContext.oaiMessages
    ensures character == null ==> prompt == host.compose(MessageDataOf(base, oaiMessages, host), None)
    ensures character != null ==>
              prompt == host.compose(MessageDataOf(base, oaiMessages, host),
                                     Some(if OverrideApplies(config, true) then ScenarioOverride(config).value else old(character.scenario)))
    ensures character != null && !OverrideApplies(config, true) ==> character.scenario == old(character.scenario)
    ensures character != null && OverrideApplies(config, true) ==>
              character.scenario == ScenarioAfter(SavedScenarioAsWritten(old(character.scenario)), ScenarioOverride(config).value)
    ensures character != null && old(character.scenario) != "" ==> character.scenario == old(character.scenario)
  {
    var originalScenario := OverrideScenarioAsWritten(character, config);
    var userMessageTemp := UserMessageTemp(input, config.image, host.image);
    oaiMessages := [userMessageTemp] + base.chatContext.oaiMessages;
    var messageData := MessageDataOf(base, oaiMessages, host);
    var current := if character != null then Some(character.scenario) else None;
    prompt := host.compose(messageData, current);
    RestoreScenario(character, originalScenario);
  }
}
