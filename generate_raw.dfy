/** `handleCustomPath`, the raw generation path: the built-in and custom prompts of the
    order become collections at their positions, the dialogue examples follow, and the
    chat history (with the depth injections spliced in) and the user input are placed
    while the token budget reserves room for the user input and the new-chat prompt. */
module GenerateRaw {
  import opened Wrappers
  import opened Strings
  import opened Seqs
  import opened GenTypes
  import opened GenUtils
  import opened Completion
  import opened Injection

  /** A host `Prompt` of the system-prompt collection */
  datatype Prompt = Prompt(identifier: string, role: string, content: string, systemPrompt: bool)

  /** The host settings the path reads */
  datatype RawSettings = RawSettings(
    maxContext: int, maxTokens: int, newChatPrompt: string, sendIfEmpty: string,
    squashSystemMessages: bool, imageInlining: bool, maxInjectionDepth: nat, persona: PersonaSettings)

  /** Host services: token counting, macro substitution, reading an extension prompt by
      name, squashing consecutive system messages, and image encoding */
  datatype RawHost = RawHost(
    tokens: Message -> nat, macro: string -> string, promptByName: string -> string,
    squash: seq<Message> -> seq<Message>, image: ImageHost)

  /** `promptConfig.order || default_order` */
  function OrderOf(config: PromptConfig): seq<OrderEntry> {
    if config.order.Some? then config.order.value else DefaultOrder
  }

  // ------------------------------------------------------------ system prompts

  const BuiltinNames: seq<string> := [
    "world_info_before", "persona_description", "char_description", "char_personality", "scenario", "world_info_after"
  ]

  /** `builtinPromptContents[name]`: `None` for `null`, `undefined` and names it lacks */
  function BuiltinContent(name: string, base: BaseData, persona: PersonaSettings): (r: Option<string>)
    ensures r.Some? ==> name in BuiltinNames
  {
    if name == "world_info_before" then base.worldInfo.worldInfoBefore
    else if name == "persona_description" then
      (if Truthy(persona.description) && persona.position == PersonaInPrompt then Some(base.characterInfo.persona) else None)
    else if name == "char_description" then Some(base.characterInfo.description)
    else if name == "char_personality" then Some(base.characterInfo.personality)
    else if name == "scenario" then Some(base.characterInfo.scenario)
    else if name == "world_info_after" then base.worldInfo.worldInfoAfter
    else None
  }

  predicate HasContent(name: string, base: BaseData, persona: PersonaSettings) {
    BuiltinContent(name, base, persona).Some? && Truthy(BuiltinContent(name, base, persona).value)
  }

  /** `custom_prompt_<index>` */
  function CustomId(i: nat): (id: string)
    ensures |id| > 1 && id[1] == 'u'
  {
    "custom_prompt_" + NatToString(i)
  }

  lemma {:induction false} LowerUnchanged(s: string)
    requires forall i :: 0 <= i < |s| ==> !('A' <= s[i] <= 'Z')
    ensures Lower(s) == s
  {
  }

  /** The built-in names are lower case, and no custom identifier is one of them */
  lemma {:induction false} BuiltinNamesFacts()
    ensures forall name :: name in BuiltinNames ==> Lower(name) == name
    ensures forall name, i: nat :: name in BuiltinNames ==> CustomId(i) != name
  {
    forall name | name in BuiltinNames
      ensures Lower(name) == name
    {
      BuiltinLower(name);
    }
    forall name, i: nat | name in BuiltinNames
      ensures CustomId(i) != name
    {
      CustomIdNotBuiltin(i, name);
    }
  }

  /** The key an order entry sets in the position map */
  function PositionKey(e: OrderEntry, i: nat): string {
    match e
    case Builtin(name) => Lower(name)
    case Custom(_, _) => CustomId(i)
  }

  /** The prompt an order entry contributes: a built-in with content, or a custom prompt
      with both a role and content */
  function PromptAt(e: OrderEntry, i: nat, base: BaseData, persona: PersonaSettings): (r: seq<Prompt>)
    ensures |r| <= 1
    ensures r != [] ==> r[0].identifier == PositionKey(e, i)
  {
    BuiltinNamesFacts();
    match e
    case Builtin(name) =>
      if HasContent(name, base, persona) then [Prompt(name, "system", BuiltinContent(name, base, persona).value, true)] else []
    case Custom(role, content) =>
      if Truthy(role) && Truthy(content) then [Prompt(CustomId(i), role, content, role == "system")] else []
  }

  /** Each key to the last index that holds it */
  function LastIndexMap(keys: seq<string>): (r: map<string, nat>)
    ensures forall k :: 0 <= k < |keys| ==> keys[k] in r
    ensures forall key :: key in r ==> r[key] < |keys| && keys[r[key]] == key
    ensures forall key, k :: key in r && r[key] < k < |keys| ==> keys[k] != key
  {
    if keys == [] then map[]
    else
      var m := LastIndexMap(keys[..|keys| - 1]);
      LastIndexExtend(keys, m);
      m[keys[|keys| - 1] := |keys| - 1]
  }

  /** Recording the last key at the last index keeps the map's promises for the longer list */
  lemma {:induction false} LastIndexExtend(keys: seq<string>, m: map<string, nat>)
    requires keys != []
    requires var init := keys[..|keys| - 1];
             (forall k :: 0 <= k < |init| ==> init[k] in m)
             && (forall key :: key in m ==> m[key] < |init| && init[m[key]] == key)
             && (forall key, k :: key in m && m[key] < k < |init| ==> init[k] != key)
    ensures var r := m[keys[|keys| - 1] := |keys| - 1];
            (forall k :: 0 <= k < |keys| ==> keys[k] in r)
            && (forall key :: key in r ==> r[key] < |keys| && keys[r[key]] == key)
            && (forall key, k :: key in r && r[key] < k < |keys| ==> keys[k] != key)
  {
    var n := |keys| - 1;
    var init := keys[..n];
    assert forall k :: 0 <= k < n ==> init[k] == keys[k];
  }

  /** `orderArray.reduce(...)`: each lower-cased name, or `custom_prompt_<index>`, to the
      last index that sets it */
  function PositionMap(order: seq<OrderEntry>): (r: map<string, nat>)
    ensures forall k :: 0 <= k < |order| ==> PositionKey(order[k], k) in r
    ensures forall key :: key in r ==> r[key] < |order| && PositionKey(order[r[key]], r[key]) == key
    ensures forall key, k :: key in r && r[key] < k < |order| ==> PositionKey(order[k], k) != key
  {
    var keys := seq(|order|, k requires 0 <= k < |order| => PositionKey(order[k], k));
    assert forall k :: 0 <= k < |order| ==> keys[k] == PositionKey(order[k], k);
    LastIndexMap(keys)
  }

  /** The prompts `convertSystemPromptsToCollection` collects, in order */
  function SystemPrompts(order: seq<OrderEntry>, base: BaseData, persona: PersonaSettings): (r: seq<Prompt>)
    ensures forall p :: p in r ==> p.identifier in PositionMap(order)
  {
    if order == [] then []
    else SystemPrompts(order[..|order| - 1], base, persona) + PromptAt(order[|order| - 1], |order| - 1, base, persona)
  }

  /** `promptCollection.get(id)`: the first prompt with that identifier */
  function FindPrompt(ps: seq<Prompt>, id: string): (r: Option<Prompt>)
    ensures r.Some? ==> r.value in ps && r.value.identifier == id
    ensures r.None? <==> forall p :: p in ps ==> p.identifier != id
  {
    if ps == [] then None else if ps[0].identifier == id then Some(ps[0]) else FindPrompt(ps[1..], id)
  }

  lemma {:induction false} FindPromptAppend(a: seq<Prompt>, b: seq<Prompt>, id: string)
    ensures FindPrompt(a + b, id) == if FindPrompt(a, id).Some? then FindPrompt(a, id) else FindPrompt(b, id)
  {
    if a != [] {
      assert (a + b)[1..] == a[1..] + b;
      FindPromptAppend(a[1..], b, id);
    } else {
      assert a + b == b;
    }
  }

  /** The prompt of one order entry carries a built-in name only for that built-in */
  lemma {:induction false} EntryPromptFound(e: OrderEntry, n: nat, base: BaseData, persona: PersonaSettings, name: string)
    requires name in BuiltinNames
    ensures FindPrompt(PromptAt(e, n, base, persona), name).Some? <==> e == Builtin(name) && HasContent(name, base, persona)
    ensures FindPrompt(PromptAt(e, n, base, persona), name).Some? ==>
              FindPrompt(PromptAt(e, n, base, persona), name).value == Prompt(name, "system", BuiltinContent(name, base, persona).value, true)
  {
    var last := PromptAt(e, n, base, persona);
    match e
    case Builtin(m) =>
      if m == name && HasContent(name, base, persona) {
        assert FindPrompt(last, name) == Some(last[0]);
      } else if HasContent(m, base, persona) {
        assert FindPrompt(last[1..], name) == None;
      }
    case Custom(role, content) =>
      BuiltinNamesFacts();
      assert CustomId(n) != name;
      if last != [] {
        assert FindPrompt(last[1..], name) == None;
      }
  }

  /** `systemPrompts.has(id)` then `systemPrompts.get(id)` for a built-in name: it is
      there exactly when the order names it and its content is non-empty, and then it is
      the system prompt with that content */
  lemma {:induction false} BuiltinPromptFound(order: seq<OrderEntry>, base: BaseData, persona: PersonaSettings, name: string)
    requires name in BuiltinNames
    ensures FindPrompt(SystemPrompts(order, base, persona), name).Some? <==> Builtin(name) in order && HasContent(name, base, persona)
    ensures FindPrompt(SystemPrompts(order, base, persona), name).Some? ==>
              FindPrompt(SystemPrompts(order, base, persona), name).value == Prompt(name, "system", BuiltinContent(name, base, persona).value, true)
  {
    if order != [] {
      var n := |order| - 1;
      BuiltinPromptFound(order[..n], base, persona, name);
      FindPromptAppend(SystemPrompts(order[..n], base, persona), PromptAt(order[n], n, base, persona), name);
      InInit(order, Builtin(name));
      EntryPromptFound(order[n], n, base, persona, name);
    }
  }

  /** `dialogue_examples <d>-<p>` */
  function ExampleId(d: nat, p: nat): string {
    "dialogue_examples " + NatToString(d) + "-" + NatToString(p)
  }

  function ExampleMessage(e: ExampleMessage, d: nat, p: nat): Message {
    Message("system", Plain(e.content), ExampleId(d, p), Some(e.name), NoImage)
  }

  /** The messages of dialogue `d` */
  function DialogueMessages(dialogue: seq<ExampleMessage>, d: nat): (r: seq<Message>)
    ensures |r| == |dialogue|
    ensures forall p :: 0 <= p < |r| ==> r[p] == ExampleMessage(dialogue[p], d, p)
  {
    seq(|dialogue|, p requires 0 <= p < |dialogue| => ExampleMessage(dialogue[p], d, p))
  }

  /** The messages of the examples collection: every example message as a system message
      named after its speaker, in order */
  function ExampleMessages(dialogues: seq<seq<ExampleMessage>>): (r: seq<Message>)
    ensures |r| == |Flatten(dialogues)|
    ensures forall i :: 0 <= i < |r| ==>
              r[i].role == "system" && r[i].content == Plain(Flatten(dialogues)[i].content) && r[i].name == Some(Flatten(dialogues)[i].name)
  {
    if dialogues == [] then []
    else
      var n := |dialogues| - 1;
      assert dialogues == dialogues[..n] + [dialogues[n]];
      FlattenAppend(dialogues[..n], dialogues[n]);
      ExampleMessages(dialogues[..n]) + DialogueMessages(dialogues[n], n)
  }

  lemma {:induction false} DialogueMessagesPrefix(dialogue: seq<ExampleMessage>, d: nat, p: nat)
    requires p < |dialogue|
    ensures DialogueMessages(dialogue[..p + 1], d) == DialogueMessages(dialogue[..p], d) + [ExampleMessage(dialogue[p], d, p)]
  {
    var a, b := DialogueMessages(dialogue[..p + 1], d), DialogueMessages(dialogue[..p], d);
    assert |a| == |b| + 1;
    forall i | 0 <= i < |b|
      ensures a[i] == b[i]
    {
      assert dialogue[..p + 1][i] == dialogue[..p][i];
    }
  }

  /** The loop over one dialogue of the examples */
  method DialogueChatMessages(dialogue: seq<ExampleMessage>, dialogueIndex: nat) returns (chatMessages: seq<Message>)
    ensures chatMessages == DialogueMessages(dialogue, dialogueIndex)
  {
    chatMessages := [];
    for promptIndex := 0 to |dialogue|
      invariant chatMessages == DialogueMessages(dialogue[..promptIndex], dialogueIndex)
    {
      DialogueMessagesPrefix(dialogue, dialogueIndex, promptIndex);
      var prompt := dialogue[promptIndex];
      chatMessages := chatMessages + [Message("system", Plain(prompt.content), ExampleId(dialogueIndex, promptIndex), Some(prompt.name), NoImage)];
    }
    assert dialogue[..|dialogue|] == dialogue;
  }

  /** The loop over the order of `convertSystemPromptsToCollection` */
  method CollectSystemPrompts(order: seq<OrderEntry>, base: BaseData, persona: PersonaSettings) returns (prompts: seq<Prompt>)
    ensures prompts == SystemPrompts(order, base, persona)
  {
    prompts := [];
    for index := 0 to |order|
      invariant prompts == SystemPrompts(order[..index], base, persona)
    {
      assert order[..index + 1][..index] == order[..index];
      match order[index]
      case Builtin(name) =>
        var content := BuiltinContent(name, base, persona);
        if content.Some? && Truthy(content.value) {
          prompts := prompts + [Prompt(name, "system", content.value, true)];
        }
      case Custom(role, content) =>
        if Truthy(role) && Truthy(content) {
          prompts := prompts + [Prompt(CustomId(index), role, content, role == "system")];
        }
    }
    assert order[..|order|] == order;
  }

  /** The loop over the dialogues of the examples */
  method CollectExampleMessages(dialogues: seq<seq<ExampleMessage>>) returns (messages: seq<Message>)
    ensures messages == ExampleMessages(dialogues)
  {
    messages := [];
    for d := 0 to |dialogues|
      invariant messages == ExampleMessages(dialogues[..d])
    {
      assert dialogues[..d + 1][..d] == dialogues[..d];
      var chatMessages := DialogueChatMessages(dialogues[d], d);
      messages := messages + chatMessages;
    }
    assert dialogues[..|dialogues|] == dialogues;
  }

  /** `convertSystemPromptsToCollection(baseData, promptConfig)` */
  method ConvertSystemPromptsToCollection(base: BaseData, config: PromptConfig, persona: PersonaSettings)
    returns (systemPrompts: seq<Prompt>, examples: Collection)
    ensures systemPrompts == SystemPrompts(OrderOf(config), base, persona)
    ensures examples == Collection("dialogue_examples", ExampleMessages(base.chatContext.oaiMessageExamples))
  {
    systemPrompts := CollectSystemPrompts(OrderOf(config), base, persona);
    var messages := CollectExampleMessages(base.chatContext.oaiMessageExamples);
    examples := Collection("dialogue_examples", messages);
  }

  // ------------------------------------------------------------ order placements

  /** `Message.fromPromptAsync(prompt)` */
  function PromptMessage(p: Prompt): Message {
    NewMessage(p.role, Plain(p.content), p.identifier)
  }

  /** What entry `i` of the order adds: a non-filtered built-in with a collected prompt
      at the position its name maps to, or a custom prompt with role and content at `i` */
  function EntryPlan(order: seq<OrderEntry>, i: nat, prompts: seq<Prompt>, overrides: Option<OverrideConfig>)
    : (r: seq<Placement>)
    requires i < |order|
    requires forall p :: p in prompts ==> p.identifier in PositionMap(order)
    ensures |r| <= 1
  {
    match order[i]
    case Builtin(name) =>
      if IsPromptFiltered(name, overrides) then []
      else
        var found := FindPrompt(prompts, name);
        if found.None? then [] else [Placement(Collection(name, [PromptMessage(found.value)]), PositionMap(order)[name])]
    case Custom(role, content) =>
      if Truthy(role) && Truthy(content)
      then [Placement(Collection(CustomId(i), [NewMessage(role, Plain(content), CustomId(i))]), i)] else []
  }

  function OrderPlan(order: seq<OrderEntry>, n: nat, prompts: seq<Prompt>, overrides: Option<OverrideConfig>)
    : seq<Placement>
    requires n <= |order|
    requires forall p :: p in prompts ==> p.identifier in PositionMap(order)
  {
    if n == 0 then [] else OrderPlan(order, n - 1, prompts, overrides) + EntryPlan(order, n - 1, prompts, overrides)
  }

  lemma {:induction false} BuiltinLower(name: string)
    requires name in BuiltinNames
    ensures Lower(name) == name
  {
    var k :| 0 <= k < |BuiltinNames| && BuiltinNames[k] == name;
    BuiltinLowerAt(k);
  }

  lemma {:induction false} BuiltinLowerAt(k: nat)
    requires k < |BuiltinNames|
    ensures Lower(BuiltinNames[k]) == BuiltinNames[k]
  {
    LowerUnchanged(BuiltinNames[k]);
  }

  lemma {:induction false} CustomIdNotBuiltin(i: nat, name: string)
    requires name in BuiltinNames
    ensures CustomId(i) != name
  {
    assert CustomId(i)[1] == 'u' && name[1] != 'u';
  }

  /** A built-in name of the order maps to the last index holding it */
  lemma {:induction false} BuiltinPosition(order: seq<OrderEntry>, i: nat)
    requires i < |order| && order[i].Builtin? && order[i].name in BuiltinNames
    ensures var name := order[i].name;
            name in PositionMap(order)
            && var pos := PositionMap(order)[name];
            i <= pos < |order| && order[pos].Builtin? && Lower(order[pos].name) == name
            && forall k :: pos < k < |order| ==> !(order[k].Builtin? && Lower(order[k].name) == name)
  {
    var name := order[i].name;
    BuiltinLower(name);
    var m := PositionMap(order);
    assert PositionKey(order[i], i) == name;
    var pos := m[name];
    assert PositionKey(order[pos], pos) == name;
    if order[pos].Custom? {
      CustomIdNotBuiltin(pos, name);
    }
    forall k | pos < k < |order| && order[k].Builtin?
      ensures Lower(order[k].name) != name
    {
      assert PositionKey(order[k], k) != name;
    }
  }

  /** A non-filtered built-in with content is placed, as a system message, at the last
      index its name occupies */
  lemma {:induction false} BuiltinPlacement(order: seq<OrderEntry>, i: nat, base: BaseData, persona: PersonaSettings,
                         overrides: Option<OverrideConfig>)
    requires i < |order| && order[i].Builtin? && order[i].name in BuiltinNames
    requires !IsPromptFiltered(order[i].name, overrides) && HasContent(order[i].name, base, persona)
    ensures var name := order[i].name;
            name in PositionMap(order)
            && EntryPlan(order, i, SystemPrompts(order, base, persona), overrides)
               == [Placement(Collection(name, [NewMessage("system", Plain(BuiltinContent(name, base, persona).value), name)]),
                             PositionMap(order)[name])]
  {
    var name := order[i].name;
    var prompts := SystemPrompts(order, base, persona);
    BuiltinPosition(order, i);
    BuiltinPromptFound(order, base, persona, name);
    assert Builtin(name) in order by {
      assert order[i] == Builtin(name);
    }
    var p := FindPrompt(prompts, name).value;
    assert PromptMessage(p) == NewMessage("system", Plain(BuiltinContent(name, base, persona).value), name);
  }

  /** `orderArray.findIndex(item => typeof item === 'string' && item.toLowerCase() === name)` */
  function FindIndex(order: seq<OrderEntry>, name: string): (r: int)
    ensures -1 <= r < |order|
  {
    if order == [] then -1
    else if order[0].Builtin? && Lower(order[0].name) == name then 0
    else
      var r := FindIndex(order[1..], name);
      if r == -1 then -1 else r + 1
  }

  predicate IsNamed(e: OrderEntry, name: string) {
    e.Builtin? && Lower(e.name) == name
  }

  /** `findIndex` finds the first entry whose lower-cased name matches, and -1 exactly
      when there is none */
  lemma {:induction false} FindIndexFirst(order: seq<OrderEntry>, name: string)
    ensures var r := FindIndex(order, name);
            (r >= 0 ==> IsNamed(order[r], name) && forall k :: 0 <= k < r ==> !IsNamed(order[k], name))
            && (r == -1 <==> forall k :: 0 <= k < |order| ==> !IsNamed(order[k], name))
  {
    if order != [] && !IsNamed(order[0], name) {
      FindIndexFirst(order[1..], name);
      assert forall k :: 1 <= k < |order| ==> order[1..][k - 1] == order[k];
    }
  }

  /** The examples collection at the first `dialogue_examples` entry, unless filtered */
  function ExamplesPlan(order: seq<OrderEntry>, examples: Collection, overrides: Option<OverrideConfig>): (r: seq<Placement>)
    ensures r != [] <==> FindIndex(order, "dialogue_examples") != -1 && !IsPromptFiltered("dialogue_examples", overrides)
  {
    var index := FindIndex(order, "dialogue_examples");
    if index != -1 && !IsPromptFiltered("dialogue_examples", overrides) then [Placement(examples, index)] else []
  }

  // ------------------------------------------------------------ chat history

  /** The base64 image of a single truthy image argument */
  function SingleImage(image: ImageInput, host: ImageHost): Option<string> {
    if ImageTruthy(image) && image.OneImage? then ConvertFileToBase64(image.img, host) else None
  }

  /** The `user_input` message: the image parts when given (and the order has the user
      input), else the text with the single image added when it encodes to a non-empty string */
  function UserMessage(input: string, imageArray: Option<seq<ContentPart>>, hasUserInput: bool, image: ImageInput,
                       host: ImageHost): (m: Message)
    ensures m.role == "user" && m.identifier == "user_input"
    ensures imageArray.None? ==> m.content == Plain(input)
  {
    if imageArray.Some? && hasUserInput then NewMessage("user", Parts(imageArray.value), "user_input")
    else
      var m := NewMessage("user", Plain(input), "user_input");
      var img := if hasUserInput then SingleImage(image, host) else None;
      if img.Some? && Truthy(img.value) then m.(image := OneImage(ImageText(img.value))) else m
  }

  /** The user prompt put in front of the messages when the order has no user input */
  function UserPrompt(input: string, imageArray: Option<seq<ContentPart>>, image: ImageInput, host: ImageHost): (p: ChatPrompt)
    ensures p.role == User && !p.injected
  {
    if imageArray.Some? then ChatPrompt(User, Parts(imageArray.value), NoImage, false)
    else
      var img := SingleImage(image, host);
      ChatPrompt(User, Plain(input), if img.Some? then OneImage(ImageText(img.value)) else NoImage, false)
  }

  /** The messages the injection step works on, newest first */
  function PromptsToPopulate(base: BaseData, input: string, imageArray: Option<seq<ContentPart>>, image: ImageInput,
                             host: ImageHost, hasUserInput: bool): (r: seq<ChatPrompt>)
    ensures forall i :: 0 <= i < |r| ==> !r[i].injected
    ensures !hasUserInput ==> r != [] && r[0] == UserPrompt(input, imageArray, image, host)
  {
    var oai := base.chatContext.oaiMessages;
    (if hasUserInput then [] else [UserPrompt(input, imageArray, image, host)])
    + seq(|oai|, i requires 0 <= i < |oai| => FromRolePrompt(oai[i]))
  }

  /** The chat pool: the populated messages, oldest first, with every injected message
      among them */
  function ChatPool(base: BaseData, config: PromptConfig, input: string, imageArray: Option<seq<ContentPart>>,
                    settings: RawSettings, host: RawHost, store: map<string, ExtensionPrompt>, hasUserInput: bool)
    : (r: seq<ChatPrompt>)
    ensures |r| == |PromptsToPopulate(base, input, imageArray, config.image, host.image, hasUserInput)|
                   + |Flatten(Groups(Candidates(store, settings.persona, base.worldInfo.worldInfoDepth, config.overrides,
                                                config.inject, host.promptByName), settings.maxInjectionDepth))|
  {
    var cs := Candidates(store, settings.persona, base.worldInfo.worldInfoDepth, config.overrides, config.inject, host.promptByName);
    Reverse(Interleave(PromptsToPopulate(base, input, imageArray, config.image, host.image, hasUserInput),
                       Groups(cs, settings.maxInjectionDepth)))
  }

  /** The history message for a pool entry: macros substituted in text content, the
      image added when inlining is supported */
  function HistoryMessage(p: ChatPrompt, identifier: string, macro: string -> string, inlining: bool): Message {
    Message(RoleName(p.role), if p.content.Plain? then Plain(macro(p.content.text)) else p.content, identifier, None,
            if inlining && ImageTruthy(p.image) then p.image else NoImage)
  }

  /** `chat_history-<n>` for the entry `n` places from the end */
  function HistoryMessages(ps: seq<ChatPrompt>, macro: string -> string, inlining: bool): (r: seq<Message>)
    ensures |r| == |ps|
    ensures forall j :: 0 <= j < |ps| ==> r[j] == HistoryMessage(ps[j], "chat_history-" + NatToString(|ps| - j), macro, inlining)
  {
    seq(|ps|, j requires 0 <= j < |ps| => HistoryMessage(ps[j], "chat_history-" + NatToString(|ps| - j), macro, inlining))
  }

  /** The messages the loop keeps: each is affordable on its own, and the loop stops at
      the first that is not */
  function Affordable(ms: seq<Message>, tokens: Message -> nat, budget: int): (r: seq<Message>)
    ensures r <= ms
    ensures forall j :: 0 <= j < |r| ==> tokens(r[j]) <= budget
    ensures |r| < |ms| ==> tokens(ms[|r|]) > budget
  {
    if ms == [] then [] else if tokens(ms[0]) <= budget then [ms[0]] + Affordable(ms[1..], tokens, budget) else []
  }

  lemma {:induction false} AffordableStop(ms: seq<Message>, tokens: Message -> nat, budget: int, j: nat)
    requires j <= |ms|
    requires forall t :: 0 <= t < j ==> tokens(ms[t]) <= budget
    requires j == |ms| || tokens(ms[j]) > budget
    ensures Affordable(ms, tokens, budget) == ms[..j]
  {
    if j > 0 {
      AffordableStop(ms[1..], tokens, budget, j - 1);
      assert ms[..j] == [ms[0]] + ms[1..][..j - 1];
    }
  }

  function NewChatMessage(settings: RawSettings, host: RawHost): Message {
    NewMessage("system", Plain(host.macro(settings.newChatPrompt)), "newMainChat")
  }

  function EmptyMessage(settings: RawSettings): Message {
    NewMessage("user", Plain(settings.sendIfEmpty), "emptyUserMessageReplacement")
  }

  /** The budget left while the new-chat prompt is reserved */
  function ReservedBudget(budget: int, settings: RawSettings, host: RawHost): int {
    budget - host.tokens(NewChatMessage(settings, host))
  }

  /** The replacement for an empty user message is used after an assistant message (the
      last of the list), when set and affordable */
  predicate UsesEmptyMessage(oai: seq<RolePrompt>, settings: RawSettings, tokens: Message -> nat, budget: int)
    ensures UsesEmptyMessage(oai, settings, tokens, budget) ==> oai != [] && budget >= 0
  {
    |oai| > 0 && oai[|oai| - 1].role == Assistant && Truthy(settings.sendIfEmpty) && tokens(EmptyMessage(settings)) <= budget
  }

  /** The `chat_history` collection for the budget left after reserving the new-chat
      prompt: that prompt, the empty-message replacement when used, then the affordable
      part of the pool as history messages */
  function HistoryCollection(oai: seq<RolePrompt>, pool: seq<ChatPrompt>, settings: RawSettings, host: RawHost,
                             reserved: int): (r: seq<Message>)
    ensures |r| >= 1 && r[0] == NewChatMessage(settings, host)
    ensures UsesEmptyMessage(oai, settings, host.tokens, reserved) ==> |r| >= 2 && r[1] == EmptyMessage(settings)
  {
    var head := [NewChatMessage(settings, host)]
                + (if UsesEmptyMessage(oai, settings, host.tokens, reserved) then [EmptyMessage(settings)] else []);
    head + Affordable(HistoryMessages(pool, host.macro, settings.imageInlining), host.tokens, reserved)
  }

  /** The collections `processChatHistoryAndInject` adds, for the budget it starts with */
  function HistoryPlan(base: BaseData, config: PromptConfig, input: string, imageArray: Option<seq<ContentPart>>,
                       settings: RawSettings, host: RawHost, store: map<string, ExtensionPrompt>, budget: int)
    : (r: seq<Placement>)
    ensures 1 <= |r| <= 2
    ensures r[0].collection.identifier == "chat_history" || (|r| == 1 && r[0].collection.identifier == "user_input")
    ensures |r| == 2 ==> r[1].collection.identifier == "user_input"
    ensures r[0].collection.identifier == "chat_history" ==> r[0].position == FindIndex(OrderOf(config), "chat_history")
  {
    var order := OrderOf(config);
    var chatIndex := FindIndex(order, "chat_history");
    var userIndex := FindIndex(order, "user_input");
    var userCollection := Collection("user_input", [UserMessage(input, imageArray, userIndex != -1, config.image, host.image)]);
    if IsPromptFiltered("chat_history", config.overrides) || chatIndex == -1 then
      [Placement(userCollection, if userIndex != -1 then userIndex else |order|)]
    else
      var reserved := ReservedBudget(budget, settings, host);
      var pool := ChatPool(base, config, input, imageArray, settings, host, store, userIndex != -1);
      var history := HistoryCollection(base.chatContext.oaiMessages, pool, settings, host, reserved);
      [Placement(Collection("chat_history", history), chatIndex)]
      + (if userIndex != -1 then [Placement(userCollection, userIndex)] else [])
  }

  /** With the history filtered or not in the order, the plan is the user input alone, at
      its position or after the order */
  lemma {:induction false} HistoryPlanUserOnly(base: BaseData, config: PromptConfig, input: string, imageArray: Option<seq<ContentPart>>,
                            settings: RawSettings, host: RawHost, store: map<string, ExtensionPrompt>, budget: int)
    requires IsPromptFiltered("chat_history", config.overrides) || FindIndex(OrderOf(config), "chat_history") == -1
    ensures var order := OrderOf(config);
            var userIndex := FindIndex(order, "user_input");
            var user := Collection("user_input", [UserMessage(input, imageArray, userIndex != -1, config.image, host.image)]);
            HistoryPlan(base, config, input, imageArray, settings, host, store, budget)
            == [Placement(user, if userIndex != -1 then userIndex else |order|)]
  {
  }

  /** With the history in the order and not filtered, the plan is the history collection
      at its position, then the user input at its position when the order has it */
  lemma {:induction false} HistoryPlanPlaced(base: BaseData, config: PromptConfig, input: string, imageArray: Option<seq<ContentPart>>,
                          settings: RawSettings, host: RawHost, store: map<string, ExtensionPrompt>, budget: int,
                          pool: seq<ChatPrompt>, history: seq<Message>)
    requires !IsPromptFiltered("chat_history", config.overrides) && FindIndex(OrderOf(config), "chat_history") != -1
    requires pool == ChatPool(base, config, input, imageArray, settings, host, store, FindIndex(OrderOf(config), "user_input") != -1)
    requires history == HistoryCollection(base.chatContext.oaiMessages, pool, settings, host, ReservedBudget(budget, settings, host))
    ensures var userIndex := FindIndex(OrderOf(config), "user_input");
            var user := Collection("user_input", [UserMessage(input, imageArray, userIndex != -1, config.image, host.image)]);
            HistoryPlan(base, config, input, imageArray, settings, host, store, budget)
            == [Placement(Collection("chat_history", history), FindIndex(OrderOf(config), "chat_history"))]
               + (if userIndex != -1 then [Placement(user, userIndex)] else [])
  {
  }

  /** The chat-history loop: pool entries become messages until one is unaffordable */
  method CollectHistory(cc: ChatCompletion, pool: seq<ChatPrompt>, macro: string -> string, inlining: bool)
    returns (kept: seq<Message>)
    ensures kept == Affordable(HistoryMessages(pool, macro, inlining), cc.tokens, cc.budget)
  {
    ghost var all := HistoryMessages(pool, macro, inlining);
    kept := [];
    var j := 0;
    while j < |pool|
      invariant 0 <= j <= |pool|
      invariant kept == all[..j]
      invariant forall t :: 0 <= t < j ==> cc.tokens(all[t]) <= cc.budget
    {
      var chatPrompt := pool[j];
      var content := if chatPrompt.content.Plain? then Plain(macro(chatPrompt.content.text)) else chatPrompt.content;
      var chatMessage := NewMessage(RoleName(chatPrompt.role), content, "chat_history-" + NatToString(|pool| - j));
      if inlining && ImageTruthy(chatPrompt.image) {
        chatMessage := chatMessage.(image := chatPrompt.image);
      }
      assert chatMessage == all[j];
      if cc.CanAfford(chatMessage) {
        kept := kept + [chatMessage];
      } else {
        break;
      }
      j := j + 1;
    }
    AffordableStop(all, cc.tokens, cc.budget, j);
  }

  /** The injection step: the messages to populate, newest first, with the candidates of
      every depth spliced in, reversed to oldest first */
  method PopulatedPool(base: BaseData, config: PromptConfig, input: string, imageArray: Option<seq<ContentPart>>,
                       settings: RawSettings, host: RawHost, store: map<string, ExtensionPrompt>, hasUserInput: bool)
    returns (pool: seq<ChatPrompt>)
    ensures pool == ChatPool(base, config, input, imageArray, settings, host, store, hasUserInput)
  {
    var messages := PromptsToPopulate(base, input, imageArray, config.image, host.image, hasUserInput);
    var candidates := CollectCandidates(store, settings.persona, base.worldInfo.worldInfoDepth, config.overrides,
                                        config.inject, host.promptByName);
    var populated := PopulationInjectionPrompts(messages, candidates, settings.maxInjectionDepth);
    pool := Reverse(populated);
  }

  /** The `chat_history` collection, built while the new-chat prompt is reserved */
  method BuildChatHistory(cc: ChatCompletion, oai: seq<RolePrompt>, pool: seq<ChatPrompt>, settings: RawSettings,
                          host: RawHost)
    returns (chatCollection: seq<Message>)
    requires cc.tokens == host.tokens
    ensures chatCollection == HistoryCollection(oai, pool, settings, host, cc.budget)
  {
    var emptyMessage := EmptyMessage(settings);
    var head := [NewChatMessage(settings, host)];
    if |oai| > 0 && oai[|oai| - 1].role == Assistant && Truthy(settings.sendIfEmpty) && cc.CanAfford(emptyMessage) {
      head := head + [emptyMessage];
    }
    assert head == [NewChatMessage(settings, host)]
                   + (if UsesEmptyMessage(oai, settings, host.tokens, cc.budget) then [EmptyMessage(settings)] else []);
    var kept := CollectHistory(cc, pool, host.macro, settings.imageInlining);
    chatCollection := head + kept;
  }

  /** `processChatHistoryAndInject(baseData, promptConfig, chatCompletion, input, imageArray)` */
  method ProcessChatHistoryAndInject(cc: ChatCompletion, base: BaseData, config: PromptConfig, input: string,
                                     imageArray: Option<seq<ContentPart>>, settings: RawSettings, host: RawHost,
                                     store: map<string, ExtensionPrompt>)
    requires cc.tokens == host.tokens
    modifies cc
    ensures cc.layout == Laid(old(cc.layout), HistoryPlan(base, config, input, imageArray, settings, host, store, old(cc.budget)))
    ensures cc.budget == old(cc.budget) - PlanTokens(HistoryPlan(base, config, input, imageArray, settings, host, store, old(cc.budget)), host.tokens)
  {
    var order := OrderOf(config);
    var chatHistoryIndex := FindIndex(order, "chat_history");
    if IsPromptFiltered("chat_history", config.overrides) || chatHistoryIndex == -1 {
      AddUserInputOnly(cc, config, input, imageArray, settings, host);
      HistoryPlanUserOnly(base, config, input, imageArray, settings, host, store, old(cc.budget));
    } else {
      AddHistoryAndUserInput(cc, base, config, input, imageArray, settings, host, store, chatHistoryIndex);
    }
  }

  /** The branch without history: the user input alone, at its position or after the order */
  method AddUserInputOnly(cc: ChatCompletion, config: PromptConfig, input: string, imageArray: Option<seq<ContentPart>>,
                          settings: RawSettings, host: RawHost)
    requires cc.tokens == host.tokens
    modifies cc
    ensures var order := OrderOf(config);
            var userIndex := FindIndex(order, "user_input");
            var user := Collection("user_input", [UserMessage(input, imageArray, userIndex != -1, config.image, host.image)]);
            var plan := [Placement(user, if userIndex != -1 then userIndex else |order|)];
            cc.layout == Laid(old(cc.layout), plan) && cc.budget == old(cc.budget) - PlanTokens(plan, host.tokens)
  {
    var order := OrderOf(config);
    var userInputIndex := FindIndex(order, "user_input");
    var hasUserInput := userInputIndex != -1;
    var userCollection := Collection("user_input", [UserMessage(input, imageArray, hasUserInput, config.image, host.image)]);
    var insertIndex := if hasUserInput then userInputIndex else |order|;
    PlanOfOne(cc.layout, Placement(userCollection, insertIndex), host.tokens);
    cc.Add(userCollection, insertIndex);
  }

  /** The branch with history: the `chat_history` collection, then the user input when
      the order has it */
  method AddHistoryAndUserInput(cc: ChatCompletion, base: BaseData, config: PromptConfig, input: string,
                                imageArray: Option<seq<ContentPart>>, settings: RawSettings, host: RawHost,
                                store: map<string, ExtensionPrompt>, chatHistoryIndex: nat)
    requires cc.tokens == host.tokens
    requires !IsPromptFiltered("chat_history", config.overrides) && chatHistoryIndex == FindIndex(OrderOf(config), "chat_history")
    modifies cc
    ensures cc.layout == Laid(old(cc.layout), HistoryPlan(base, config, input, imageArray, settings, host, store, old(cc.budget)))
    ensures cc.budget == old(cc.budget) - PlanTokens(HistoryPlan(base, config, input, imageArray, settings, host, store, old(cc.budget)), host.tokens)
  {
    ghost var l0, b0 := cc.layout, cc.budget;
    var order := OrderOf(config);
    var userInputIndex := FindIndex(order, "user_input");
    var hasUserInput := userInputIndex != -1;
    var userCollection := Collection("user_input", [UserMessage(input, imageArray, hasUserInput, config.image, host.image)]);
    var pool := PopulatedPool(base, config, input, imageArray, settings, host, store, hasUserInput);
    var history := AddChatHistory(cc, base.chatContext.oaiMessages, pool, settings, host, chatHistoryIndex);
    ghost var historyAt := Placement(history, chatHistoryIndex);
    ghost var l1, b1 := cc.layout, cc.budget;
    assert l1 == Place(l0, historyAt) && b1 == b0 - MessagesTokens(history.messages, host.tokens);
    ghost var rest: seq<Placement> := [];
    if hasUserInput {
      rest := [Placement(userCollection, userInputIndex)];
      cc.Add(userCollection, userInputIndex);
    }
    HistoryPlanPlaced(base, config, input, imageArray, settings, host, store, b0, pool, history.messages);
    PlacedAfterOne(l0, historyAt, rest, host.tokens);
    assert cc.layout == Laid(Place(l0, historyAt), rest) && cc.budget == b1 - PlanTokens(rest, host.tokens) by {
      if hasUserInput {
        PlanOfOne(l1, rest[0], host.tokens);
      }
    }
  }

  /** The history branch: the new-chat prompt reserved while the `chat_history`
      collection is built, then freed, and the collection added at its position */
  method AddChatHistory(cc: ChatCompletion, oai: seq<RolePrompt>, pool: seq<ChatPrompt>, settings: RawSettings,
                        host: RawHost, chatHistoryIndex: nat)
    returns (history: Collection)
    requires cc.tokens == host.tokens
    modifies cc
    ensures history == Collection("chat_history", HistoryCollection(oai, pool, settings, host, ReservedBudget(old(cc.budget), settings, host)))
    ensures cc.layout == Place(old(cc.layout), Placement(history, chatHistoryIndex))
    ensures cc.budget == old(cc.budget) - MessagesTokens(history.messages, host.tokens)
  {
    var newChatMessage := NewChatMessage(settings, host);
    cc.ReserveBudget(newChatMessage);
    var chatCollection := BuildChatHistory(cc, oai, pool, settings, host);
    cc.FreeBudget(newChatMessage);
    history := Collection("chat_history", chatCollection);
    cc.Add(history, chatHistoryIndex);
  }

  // ------------------------------------------------------------ the whole path

  function UserInputMessage(input: string): Message {
    NewMessage("user", Plain(input), "user_input")
  }

  /** The order's prompts, then the examples */
  function FirstPlan(base: BaseData, config: PromptConfig, persona: PersonaSettings): seq<Placement> {
    var order := OrderOf(config);
    var examples := Collection("dialogue_examples", ExampleMessages(base.chatContext.oaiMessageExamples));
    OrderPlan(order, |order|, SystemPrompts(order, base, persona), config.overrides) + ExamplesPlan(order, examples, config.overrides)
  }

  /** The budget the chat history starts from: the response and three tokens reserved,
      the first collections charged, and the user input reserved */
  function HistoryBudget(base: BaseData, config: PromptConfig, input: string, settings: RawSettings, host: RawHost): int {
    settings.maxContext - settings.maxTokens - 3 - PlanTokens(FirstPlan(base, config, settings.persona), host.tokens)
    - host.tokens(UserInputMessage(input))
  }

  /** Everything the raw path adds, in order: the order's prompts, the examples, then the
      chat history and user input */
  function CustomPathPlan(base: BaseData, config: PromptConfig, input: string, imageArray: Option<seq<ContentPart>>,
                          settings: RawSettings, host: RawHost, store: map<string, ExtensionPrompt>): seq<Placement>
  {
    FirstPlan(base, config, settings.persona)
    + HistoryPlan(base, config, input, imageArray, settings, host, store, HistoryBudget(base, config, input, settings, host))
  }

  /** One iteration of the loop over the order in `handleCustomPath`: a built-in entry
      adds its prompt at the entry's position unless filtered or missing, a custom entry
      with a role and content adds its message at the loop index */
  method AddOrderEntry(cc: ChatCompletion, order: seq<OrderEntry>, index: nat, prompts: seq<Prompt>,
                       overrides: Option<OverrideConfig>, positionMap: map<string, nat>)
    requires index < |order|
    requires positionMap == PositionMap(order)
    requires forall p :: p in prompts ==> p.identifier in PositionMap(order)
    modifies cc
    ensures cc.layout == Laid(old(cc.layout), EntryPlan(order, index, prompts, overrides))
    ensures cc.budget == old(cc.budget) - PlanTokens(EntryPlan(order, index, prompts, overrides), cc.tokens)
  {
    ghost var step := EntryPlan(order, index, prompts, overrides);
    match order[index]
    case Builtin(item) =>
      if !IsPromptFiltered(item, overrides) {
        var found := FindPrompt(prompts, item);
        if found.Some? {
          var placed := Placement(Collection(item, [PromptMessage(found.value)]), positionMap[item]);
          PlanOfOne(cc.layout, placed, cc.tokens);
          cc.Add(placed.collection, placed.position);
          assert step == [placed];
        }
      }
    case Custom(role, content) =>
      if Truthy(role) && Truthy(content) {
        var placed := Placement(Collection(CustomId(index), [NewMessage(role, Plain(content), CustomId(index))]), index);
        PlanOfOne(cc.layout, placed, cc.tokens);
        cc.Add(placed.collection, placed.position);
        assert step == [placed];
      }
  }

  /** The loop over the order in `handleCustomPath` */
  method AddOrderedPrompts(cc: ChatCompletion, order: seq<OrderEntry>, prompts: seq<Prompt>, overrides: Option<OverrideConfig>)
    requires forall p :: p in prompts ==> p.identifier in PositionMap(order)
    modifies cc
    ensures cc.layout == Laid(old(cc.layout), OrderPlan(order, |order|, prompts, overrides))
    ensures cc.budget == old(cc.budget) - PlanTokens(OrderPlan(order, |order|, prompts, overrides), cc.tokens)
  {
    var positionMap := PositionMap(order);
    for index := 0 to |order|
      invariant cc.layout == Laid(old(cc.layout), OrderPlan(order, index, prompts, overrides))
      invariant cc.budget == old(cc.budget) - PlanTokens(OrderPlan(order, index, prompts, overrides), cc.tokens)
    {
      ghost var before := OrderPlan(order, index, prompts, overrides);
      ghost var step := EntryPlan(order, index, prompts, overrides);
      LaidAppend(old(cc.layout), before, step);
      PlanTokensAppend(before, step, cc.tokens);
      AddOrderEntry(cc, order, index, prompts, overrides, positionMap);
    }
  }

  /** The system prompts at their positions, then the examples at theirs */
  method AddSystemPromptsAndExamples(cc: ChatCompletion, base: BaseData, config: PromptConfig, persona: PersonaSettings)
    modifies cc
    ensures cc.layout == Laid(old(cc.layout), FirstPlan(base, config, persona))
    ensures cc.budget == old(cc.budget) - PlanTokens(FirstPlan(base, config, persona), cc.tokens)
  {
    ghost var l0 := cc.layout;
    var order := OrderOf(config);
    var systemPrompts, examples := ConvertSystemPromptsToCollection(base, config, persona);
    AddOrderedPrompts(cc, order, systemPrompts, config.overrides);
    ghost var orderPlan := OrderPlan(order, |order|, systemPrompts, config.overrides);
    ghost var examplesPlan := ExamplesPlan(order, examples, config.overrides);
    var dialogueExamplesIndex := FindIndex(order, "dialogue_examples");
    if dialogueExamplesIndex != -1 && !IsPromptFiltered("dialogue_examples", config.overrides) {
      cc.Add(examples, dialogueExamplesIndex);
      PlanOfOne(Laid(l0, orderPlan), Placement(examples, dialogueExamplesIndex), cc.tokens);
    }
    LaidAppend(l0, orderPlan, examplesPlan);
    PlanTokensAppend(orderPlan, examplesPlan, cc.tokens);
  }

  /** `handleCustomPath(baseData, config, processedUserInput)`: the prompt it returns and
      the chat completion it built */
  method HandleCustomPath(base: BaseData, config: PromptConfig, imageArray: Option<seq<ContentPart>>, input: string,
                          settings: RawSettings, host: RawHost, store: map<string, ExtensionPrompt>)
    returns (prompt: seq<Message>, cc: ChatCompletion)
    ensures fresh(cc)
    ensures cc.layout == Laid(EmptyLayout, CustomPathPlan(base, config, input, imageArray, settings, host, store))
    ensures cc.budget == settings.maxContext - settings.maxTokens - 3
                         - PlanTokens(CustomPathPlan(base, config, input, imageArray, settings, host, store), host.tokens)
    ensures prompt == if settings.squashSystemMessages then host.squash(cc.GetChat()) else cc.GetChat()
  {
    cc := new ChatCompletion(host.tokens, settings.maxContext, settings.maxTokens);
    cc.ReserveTokens(3);
    AddSystemPromptsAndExamples(cc, base, config, settings.persona);
    ghost var first := FirstPlan(base, config, settings.persona);

    var userInputMessage := UserInputMessage(input);
    cc.ReserveBudget(userInputMessage);
    assert cc.budget == HistoryBudget(base, config, input, settings, host);
    ghost var historyPlan := HistoryPlan(base, config, input, imageArray, settings, host, store, cc.budget);
    ProcessChatHistoryAndInject(cc, base, config, input, imageArray, settings, host, store);
    cc.FreeBudget(userInputMessage);
    LaidAppend(EmptyLayout, first, historyPlan);
    PlanTokensAppend(first, historyPlan, host.tokens);

    var chat := cc.GetChat();
    prompt := if settings.squashSystemMessages then host.squash(chat) else chat;
  }

  // ------------------------------------------------------------ properties

  /** The user input is placed on its own at its order position (or after the order)
      whenever the history is filtered, missing, or the order has a user input entry */
  lemma {:induction false} UserInputPlaced(base: BaseData, config: PromptConfig, input: string, imageArray: Option<seq<ContentPart>>,
                        settings: RawSettings, host: RawHost, store: map<string, ExtensionPrompt>, budget: int)
    requires var order := OrderOf(config);
             IsPromptFiltered("chat_history", config.overrides) || FindIndex(order, "chat_history") == -1
             || FindIndex(order, "user_input") != -1
    ensures var order := OrderOf(config);
            var userIndex := FindIndex(order, "user_input");
            var plan := HistoryPlan(base, config, input, imageArray, settings, host, store, budget);
            plan != [] &&
            plan[|plan| - 1] == Placement(Collection("user_input", [UserMessage(input, imageArray, userIndex != -1, config.image, host.image)]),
                                          if userIndex != -1 then userIndex else |order|)
  {
    if IsPromptFiltered("chat_history", config.overrides) || FindIndex(OrderOf(config), "chat_history") == -1 {
      HistoryPlanUserOnly(base, config, input, imageArray, settings, host, store, budget);
    } else {
      var userIndex := FindIndex(OrderOf(config), "user_input");
      assert userIndex != -1;
      var pool := ChatPool(base, config, input, imageArray, settings, host, store, true);
      var history := HistoryCollection(base.chatContext.oaiMessages, pool, settings, host, ReservedBudget(budget, settings, host));
      HistoryPlanPlaced(base, config, input, imageArray, settings, host, store, budget, pool, history);
      var user := Collection("user_input", [UserMessage(input, imageArray, true, config.image, host.image)]);
      Seqs.LastOfPair(HistoryPlan(base, config, input, imageArray, settings, host, store, budget),
                      Placement(Collection("chat_history", history), FindIndex(OrderOf(config), "chat_history")),
                      Placement(user, userIndex));
    }
  }

  /** Without a user input entry, the user's prompt is the newest original message of the
      pool: only the depth-0 injections come after it */
  lemma {:induction false} UserPromptNewest(base: BaseData, config: PromptConfig, input: string,
                                            imageArray: Option<seq<ContentPart>>, settings: RawSettings, host: RawHost,
                                            store: map<string, ExtensionPrompt>)
    ensures var cs := Candidates(store, settings.persona, base.worldInfo.worldInfoDepth, config.overrides, config.inject, host.promptByName);
            var pool := ChatPool(base, config, input, imageArray, settings, host, store, false);
            |pool| > |Group(cs, 0)|
            && pool[|pool| - |Group(cs, 0)| - 1] == UserPrompt(input, imageArray, config.image, host.image)
            && pool[|pool| - |Group(cs, 0)|..] == Reverse(Group(cs, 0))
  {
    var cs := Candidates(store, settings.persona, base.worldInfo.worldInfoDepth, config.overrides, config.inject, host.promptByName);
    var ms := PromptsToPopulate(base, input, imageArray, config.image, host.image, false);
    var gs := Groups(cs, settings.maxInjectionDepth);
    var pool := ChatPool(base, config, input, imageArray, settings, host, store, false);
    var u := UserPrompt(input, imageArray, config.image, host.image);
    assert pool == Reverse(Interleave(ms, gs));
    assert ms != [] && ms[0] == u;
    assert |gs| == settings.maxInjectionDepth + 1 && gs[0] == Group(cs, 0);
    NewestAfterFirstGroup(ms, gs, pool, Group(cs, 0), u);
  }

  /** In the reversed interleaving, the first message comes right before the reversed
      first group, which ends it */
  lemma {:induction false} NewestAfterFirstGroup<T>(ms: seq<T>, gs: seq<seq<T>>, p: seq<T>, g: seq<T>, u: T)
    requires ms != [] && gs != [] && p == Reverse(Interleave(ms, gs)) && g == gs[0] && u == ms[0]
    ensures |p| > |g| && p[|p| - |g| - 1] == u && p[|p| - |g|..] == Reverse(g)
  {
    assert Interleave(ms, gs) == gs[0] + [ms[0]] + Interleave(ms[1..], gs[1..]);
    NewestAfterGroup(gs[0], ms[0], Interleave(ms[1..], gs[1..]));
  }

  /** In the reversal of `g + [u] + tail`, `u` comes right before the reversed `g`, which ends it */
  lemma {:induction false} NewestAfterGroup<T>(g: seq<T>, u: T, tail: seq<T>)
    ensures var p := Reverse(g + [u] + tail);
            |p| > |g| && p[|p| - |g| - 1] == u && p[|p| - |g|..] == Reverse(g)
  {
    var p := Reverse(g + [u] + tail);
    ReverseAppend(g + [u], tail);
    ReverseAppend(g, [u]);
    assert p == Reverse(tail) + ([u] + Reverse(g));
  }
}
