/** `prepareAndOverrideData`: the character fields resolved against the overrides, the
    host extension prompts set under the filter conditions, the chat history prepared
    and truncated, world info resolved with a temporary user message visible to it,
    and the world-info depth entries written back as extension prompts. The host's
    regex, macro, message-building, bias and world-info services are parameters. */
module DataProcessor {
  import opened Wrappers
  import opened Strings
  import opened Seqs
  import opened GenTypes
  import opened GenUtils

  /** A message of the host's chat */
  datatype ChatEntry = ChatEntry(name: string, mes: string, isUser: bool, isSystem: bool)

  /** `{...chatItem, mes: regexedMessage, index}` */
  datatype ProcessedEntry = ProcessedEntry(entry: ChatEntry, index: nat)

  /** `getCharacterCardFields()` */
  datatype CardFields = CardFields(
    description: string, personality: string, persona: string, scenario: string, mesExamples: string,
    system: string, jailbreak: string)

  /** The host state the preparation reads: chat, card, the character's depth prompt
      (already trimmed and name-substituted), the author's note settings, the persona
      settings and the world-info naming options */
  datatype HostState = HostState(
    chat: seq<ChatEntry>, card: CardFields,
    charDepthPrompt: string, depthPromptDepth: Option<int>, depthPromptRole: int, creatorNotes: string,
    allowWIScan: bool, floatingPrompt: string, notePosition: int, noteDepth: int, noteRole: int,
    persona: PersonaSettings, shouldWIAddPrompt: bool,
    includeNames: bool, name1: string, name2: string)

  /** `globalScanData` */
  datatype ScanData = ScanData(
    persona: string, description: string, personality: string, depthPrompt: string, scenario: string,
    creatorNotes: string)

  /** What `getWorldInfoPrompt` returns */
  datatype WorldInfoResult = WorldInfoResult(
    worldInfoString: string, before: string, after: string, examples: seq<WorldInfoExample>, depth: seq<DepthEntry>)

  /** The host services: `getRegexedString` for a chat message (text, from the user?,
      depth), `setOpenAIMessages`, `setOpenAIMessageExamples`, the prompt bias of an
      input, `baseChatReplace`, the injection registry's `injectPrompts` (which installs
      the request's prompts among the extension prompts under keys of its own, valid for
      one generation), and the world-info engine, which also sees the extension prompts */
  datatype DataHost = DataHost(
    regex: (string, bool, int) -> string,
    toMessages: seq<ProcessedEntry> -> seq<RolePrompt>,
    toExamples: seq<string> -> seq<seq<ExampleMessage>>,
    bias: string -> string,
    chatReplace: string -> string,
    inject: (map<string, ExtensionPrompt>, seq<InjectionPrompt>) -> map<string, ExtensionPrompt>,
    worldInfo: (seq<string>, ScanData, map<string, ExtensionPrompt>) -> WorldInfoResult)

  const DepthPromptKey: string := "DEPTH_PROMPT"
  /** The host's `NOTE_MODULE_NAME` */
  const NoteKey: string := "2_floating_prompt"
  const PersonaKey: string := "PERSONA_DESCRIPTION"
  const DepthWorldInfoPrefix: string := "customDepthWI"

  // ------------------------------------------------------------ slots

  /** `getOverrideContent(id)` for a text slot: absent without overrides or field */
  function OverrideText(overrides: Option<OverrideConfig>, id: string): (r: Option<string>)
    ensures r.Some? <==> overrides.Some? && FieldOf(overrides.value, id).FieldText?
    ensures r.Some? ==> r.value == FieldOf(overrides.value, id).text
  {
    if overrides.None? then None
    else match FieldOf(overrides.value, id)
      case FieldText(t) => Some(t)
      case _ => None
  }

  /** A slot: `''` when filtered, else the override when given, else the card's value */
  function ResolveSlot(id: string, overrides: Option<OverrideConfig>, raw: string): (r: string)
    ensures IsPromptFiltered(id, overrides) ==> r == ""
    ensures !IsPromptFiltered(id, overrides) && OverrideText(overrides, id).Some? ==> r == OverrideText(overrides, id).value
    ensures id != "chat_history" && id != "with_depth_entries" && OverrideText(overrides, id).None? ==> r == raw
  {
    if IsPromptFiltered(id, overrides) then "" else OverrideText(overrides, id).GetOr(raw)
  }

  function CharacterInfoOf(overrides: Option<OverrideConfig>, card: CardFields): CharacterInfo {
    CharacterInfo(
      ResolveSlot("char_description", overrides, card.description),
      ResolveSlot("char_personality", overrides, card.personality),
      ResolveSlot("persona_description", overrides, card.persona),
      ResolveSlot("scenario", overrides, card.scenario),
      card.system, card.jailbreak)
  }

  /** The scenario slot in full: filtered, overridden, or the card's */
  lemma {:induction false} ScenarioPrecedence(o: OverrideConfig, card: CardFields)
    ensures o.scenario == Some("") ==> CharacterInfoOf(Some(o), card).scenario == ""
    ensures o.scenario.Some? ==> CharacterInfoOf(Some(o), card).scenario == o.scenario.value
    ensures o.scenario.None? ==> CharacterInfoOf(Some(o), card).scenario == card.scenario
    ensures CharacterInfoOf(None, card).scenario == card.scenario
  {
    SlotFilteredIffEmpty(o);
  }

  // ------------------------------------------------------ extension prompt setters

  function CharDepthPromptEntry(h: HostState): ExtensionPrompt {
    ExtensionPrompt(h.charDepthPrompt, InChat, h.depthPromptDepth.GetOr(4), h.allowWIScan, h.depthPromptRole)
  }

  /** `overrides.author_note ?? <the note editor's text>` */
  function AuthorNoteText(overrides: Option<OverrideConfig>, h: HostState): (t: string)
    ensures overrides.Some? && overrides.value.authorNote.Some? ==> t == overrides.value.authorNote.value
    ensures overrides.None? || overrides.value.authorNote.None? ==> t == h.floatingPrompt
  {
    if overrides.Some? && overrides.value.authorNote.Some? then overrides.value.authorNote.value else h.floatingPrompt
  }

  function NoteEntry(text: string, h: HostState): ExtensionPrompt {
    ExtensionPrompt(text, h.notePosition, h.noteDepth, h.allowWIScan, h.noteRole)
  }

  function Lookup(m: map<string, ExtensionPrompt>, key: string): Option<ExtensionPrompt> {
    if key in m then Some(m[key]) else None
  }

  /** A store entry interpolated into a template string, as the source does with the
      note entry: an object prints as `[object Object]`, a missing one as `undefined` */
  function InterpolatedEntry(e: Option<ExtensionPrompt>): string {
    if e.Some? then "[object Object]" else "undefined"
  }

  /** The author's note with the persona description, as written: the note's store
      entry itself is interpolated, not its text */
  function PersonaNoteAsWritten(description: string, note: Option<ExtensionPrompt>, top: bool): (r: string)
    ensures top ==> r == description + "\n" + (if note.Some? then "[object Object]" else "undefined")
    ensures !top ==> r == (if note.Some? then "[object Object]" else "undefined") + "\n" + description
  {
    if top then description + "\n" + InterpolatedEntry(note) else InterpolatedEntry(note) + "\n" + description
  }

  /** The author's note with the persona description above (`TOP_AN`) or below it: the
      note's text, empty when there is no note */
  function PersonaNote(description: string, note: Option<ExtensionPrompt>, top: bool): (r: string)
    ensures top ==> StartsWith(r, description + "\n") && r[|description| + 1..] == (if note.Some? then note.value.value else "")
    ensures !top ==> r == (if note.Some? then note.value.value else "") + "\n" + description
  {
    var text := if note.Some? then note.value.value else "";
    if top then description + "\n" + text else text + "\n" + description
  }

  /** As written, whatever the author's note says, the combined note reads
      `<persona>\n[object Object]`: the note's text is lost */
  lemma {:induction false} PersonaNoteAsWrittenLosesNote(description: string, e1: ExtensionPrompt, e2: ExtensionPrompt, top: bool)
    ensures PersonaNoteAsWritten(description, Some(e1), top) == PersonaNoteAsWritten(description, Some(e2), top)
    ensures PersonaNoteAsWritten("I am Bob", Some(ExtensionPrompt("Be terse", 1, 4, false, 0)), true)
            == "I am Bob\n[object Object]"
    ensures PersonaNote("I am Bob", Some(ExtensionPrompt("Be terse", 1, 4, false, 0)), true) == "I am Bob\nBe terse"
  {
    assert "I am Bob" + "\n" + "[object Object]" == "I am Bob\n[object Object]";
    assert "I am Bob" + "\n" + "Be terse" == "I am Bob\nBe terse";
  }

  /** `setPersonaDescriptionExtensionPrompt` as written: the combined author's note
      interpolates the note's store entry (see `PersonaNoteAsWritten`) */
  function PersonaStore(m: map<string, ExtensionPrompt>, h: HostState): (r: map<string, ExtensionPrompt>)
    ensures PersonaKey in r && r.Keys <= m.Keys + {PersonaKey, NoteKey}
    ensures forall k :: k != PersonaKey && k != NoteKey ==> (k in r <==> k in m) && (k in r ==> r[k] == m[k])
    ensures h.persona.position == PersonaAtDepth && Truthy(h.persona.description) ==>
              r[PersonaKey] == ExtensionPrompt(h.persona.description, InChat, h.persona.depth, true, h.persona.role)
    ensures !(h.persona.position == PersonaAtDepth && Truthy(h.persona.description)) ==>
              r[PersonaKey] == ExtensionPrompt("", InPrompt, 0, false, 0)
    ensures !((h.persona.position == PersonaTopAN || h.persona.position == PersonaBottomAN)
              && h.shouldWIAddPrompt && Truthy(h.persona.description)) ==>
              forall k :: k != PersonaKey ==> (k in r <==> k in m) && (k in r ==> r[k] == m[k])
    ensures (h.persona.position == PersonaTopAN || h.persona.position == PersonaBottomAN)
            && h.shouldWIAddPrompt && Truthy(h.persona.description) ==>
              NoteKey in r && r[NoteKey] == NoteEntry(PersonaNoteAsWritten(h.persona.description, Lookup(m, NoteKey),
                                                           h.persona.position == PersonaTopAN), h)
  {
    var p := h.persona;
    var m1 := m[PersonaKey := ExtensionPrompt("", InPrompt, 0, false, 0)];
    if !Truthy(p.description) || p.position == PersonaNone then m1
    else
      var m2 := if (p.position == PersonaTopAN || p.position == PersonaBottomAN) && h.shouldWIAddPrompt
                then m1[NoteKey := NoteEntry(PersonaNoteAsWritten(p.description, Lookup(m1, NoteKey), p.position == PersonaTopAN), h)]
                else m1;
      if p.position == PersonaAtDepth
      then m2[PersonaKey := ExtensionPrompt(p.description, InChat, p.depth, true, p.role)]
      else m2
  }

  /** Steps 1 to 3: the character depth prompt, the author's note and the persona
      prompt, each under its filter condition */
  function StoreAfterSetters(m: map<string, ExtensionPrompt>, overrides: Option<OverrideConfig>, h: HostState)
    : map<string, ExtensionPrompt>
  {
    var historyFiltered := IsPromptFiltered("chat_history", overrides);
    var m1 := if !historyFiltered then m[DepthPromptKey := CharDepthPromptEntry(h)] else m;
    var m2 := if !historyFiltered && !IsPromptFiltered("author_note", overrides)
              then m1[NoteKey := NoteEntry(AuthorNoteText(overrides, h), h)] else m1;
    if !historyFiltered && !IsPromptFiltered("persona_description", overrides) then PersonaStore(m2, h) else m2
  }

  /** With the chat history filtered no setter runs; otherwise the character depth
      prompt is set, and the author's note is set unless filtered (and unless the
      persona step rewrites it) */
  lemma {:induction false} SetterConditions(m: map<string, ExtensionPrompt>, overrides: Option<OverrideConfig>, h: HostState)
    ensures IsPromptFiltered("chat_history", overrides) ==> StoreAfterSetters(m, overrides, h) == m
    ensures !IsPromptFiltered("chat_history", overrides) ==>
              StoreAfterSetters(m, overrides, h)[DepthPromptKey] == CharDepthPromptEntry(h)
    ensures !IsPromptFiltered("chat_history", overrides) && !IsPromptFiltered("author_note", overrides)
            && !(h.persona.position in {PersonaTopAN, PersonaBottomAN} && h.shouldWIAddPrompt) ==>
              StoreAfterSetters(m, overrides, h)[NoteKey] == NoteEntry(AuthorNoteText(overrides, h), h)
    ensures IsPromptFiltered("author_note", overrides)
            && !(h.persona.position in {PersonaTopAN, PersonaBottomAN} && h.shouldWIAddPrompt) ==>
              Lookup(StoreAfterSetters(m, overrides, h), NoteKey) == Lookup(m, NoteKey)
    ensures IsPromptFiltered("persona_description", overrides) ==> Lookup(StoreAfterSetters(m, overrides, h), PersonaKey) == Lookup(m, PersonaKey)
  {
  }

  /** The extension-prompt method of `setPersonaDescriptionExtensionPrompt` */
  method SetPersonaDescriptionExtensionPrompt(store: ExtensionPromptStore, h: HostState)
    modifies store
    ensures store.prompts == PersonaStore(old(store.prompts), h)
  {
    var p := h.persona;
    store.Set(PersonaKey, "", InPrompt, 0, false, 0);
    if !Truthy(p.description) || p.position == PersonaNone {
      return;
    }
    if (p.position == PersonaTopAN || p.position == PersonaBottomAN) && h.shouldWIAddPrompt {
      var note := Lookup(store.prompts, NoteKey);
      var text := PersonaNoteAsWritten(p.description, note, p.position == PersonaTopAN);
      store.Set(NoteKey, text, h.notePosition, h.noteDepth, h.allowWIScan, h.noteRole);
    }
    if p.position == PersonaAtDepth {
      store.Set(PersonaKey, p.description, InChat, p.depth, true, p.role);
    }
  }

  // ------------------------------------------------------------ chat history

  /** `chat.filter(x => !x.is_system)` */
  function CoreChat(chat: seq<ChatEntry>): (r: seq<ChatEntry>)
    ensures forall e :: e in r <==> e in chat && !e.isSystem
    ensures |r| <= |chat|
  {
    if chat == [] then [] else (if chat[0].isSystem then [] else [chat[0]]) + CoreChat(chat[1..])
  }

  /** Filtering keeps order: it distributes over concatenation */
  lemma {:induction false} CoreChatAppend(a: seq<ChatEntry>, b: seq<ChatEntry>)
    ensures CoreChat(a + b) == CoreChat(a) + CoreChat(b)
  {
    if a == [] {
      assert a + b == b;
    } else {
      assert (a + b)[0] == a[0] && (a + b)[1..] == a[1..] + b;
      CoreChatAppend(a[1..], b);
    }
  }

  /** `processChatHistory`: system messages dropped; message `i` of the `n` kept is
      regex-processed at depth `n - i - 1` (the newest at depth 0) and tagged with `i` */
  function ProcessChatHistory(chat: seq<ChatEntry>, regex: (string, bool, int) -> string): (r: seq<ProcessedEntry>)
    ensures |r| == |CoreChat(chat)|
    ensures forall i :: 0 <= i < |r| ==>
              var e := CoreChat(chat)[i];
              r[i] == ProcessedEntry(e.(mes := regex(e.mes, e.isUser, |r| - i - 1)), i)
  {
    var core := CoreChat(chat);
    seq(|core|, i requires 0 <= i < |core| =>
      ProcessedEntry(core[i].(mes := regex(core[i].mes, core[i].isUser, |core| - i - 1)), i))
  }

  /** The messages the pipeline works on, newest first: the reversed override history
      when one is given (even empty), else the host's messages cut to the first
      `max_chat_history` */
  function OaiMessages(config: PromptConfig, chat: seq<ChatEntry>, host: DataHost): (r: seq<RolePrompt>)
    ensures config.overrides.Some? && config.overrides.value.chatHistory.Some? ==>
              r == Reverse(config.overrides.value.chatHistory.value)
    ensures !(config.overrides.Some? && config.overrides.value.chatHistory.Some?) ==>
              r <= host.toMessages(ProcessChatHistory(chat, host.regex))
    ensures !(config.overrides.Some? && config.overrides.value.chatHistory.Some?) && config.maxChatHistory.Some? ==>
              r == SliceTo(host.toMessages(ProcessChatHistory(chat, host.regex)), config.maxChatHistory.value)
    ensures !(config.overrides.Some? && config.overrides.value.chatHistory.Some?) && config.maxChatHistory.None? ==>
              r == host.toMessages(ProcessChatHistory(chat, host.regex))
  {
    if config.overrides.Some? && config.overrides.value.chatHistory.Some? then
      Reverse(config.overrides.value.chatHistory.value)
    else
      var messages := host.toMessages(ProcessChatHistory(chat, host.regex));
      if config.maxChatHistory.Some? then SliceTo(messages, config.maxChatHistory.value) else messages
  }

  // ------------------------------------------------------------- world info

  /** A message as the world-info scan sees it: prefixed by the speaker's name when the
      host includes names */
  function WorldInfoText(m: RolePrompt, h: HostState): string {
    if h.includeNames then (if m.role == User then h.name1 else h.name2) + ": " + m.content else m.content
  }

  function NonSystemTexts(ms: seq<RolePrompt>, h: HostState): (r: seq<string>)
    ensures |r| <= |ms|
    ensures (forall i :: 0 <= i < |ms| ==> ms[i].role != System) ==>
              |r| == |ms| && forall i :: 0 <= i < |ms| ==> r[i] == WorldInfoText(ms[i], h)
  {
    if ms == [] then []
    else (if ms[0].role == System then [] else [WorldInfoText(ms[0], h)]) + NonSystemTexts(ms[1..], h)
  }

  /** `chatForWI`: the non-system messages as text, oldest first */
  function ChatForWorldInfo(ms: seq<RolePrompt>, h: HostState): (r: seq<string>)
    ensures |r| <= |ms|
    ensures (forall i :: 0 <= i < |ms| ==> ms[i].role != System) ==>
              |r| == |ms| && forall i :: 0 <= i < |ms| ==> r[i] == WorldInfoText(ms[|ms| - 1 - i], h)
  {
    Reverse(NonSystemTexts(ms, h))
  }

  /** `globalScanData`: the overrides (an empty one included) or the card's values */
  function ScanDataOf(overrides: Option<OverrideConfig>, h: HostState): ScanData {
    ScanData(
      OverrideText(overrides, "persona_description").GetOr(h.card.persona),
      OverrideText(overrides, "char_description").GetOr(h.card.description),
      OverrideText(overrides, "char_personality").GetOr(h.card.personality),
      h.charDepthPrompt,
      OverrideText(overrides, "scenario").GetOr(h.card.scenario),
      h.creatorNotes)
  }

  /** The scan sees the same four character fields the prompt gets: a filtered slot's
      override is the empty string, which is also what the prompt uses */
  lemma {:induction false} ScanDataMatchesCharacterInfo(overrides: Option<OverrideConfig>, h: HostState)
    ensures var scan := ScanDataOf(overrides, h);
            var info := CharacterInfoOf(overrides, h.card);
            scan.persona == info.persona && scan.description == info.description
            && scan.personality == info.personality && scan.scenario == info.scenario
  {
    if overrides.Some? {
      SlotFilteredIffEmpty(overrides.value);
    }
  }

  /** `customDepthWI-<depth>-<role>` */
  function DepthKey(e: DepthEntry): (k: string)
    ensures StartsWith(k, DepthWorldInfoPrefix)
  {
    DepthWorldInfoPrefix + "-" + IntToString(e.depth) + "-" + IntToString(e.role)
  }

  function DepthEntryPrompt(e: DepthEntry): ExtensionPrompt {
    ExtensionPrompt(Join(e.entries, "\n"), InChat, e.depth, false, e.role)
  }

  /** The keys of the depth entries, in order */
  function DepthKeys(es: seq<DepthEntry>): (ks: seq<string>)
    ensures |ks| == |es|
    ensures forall i :: 0 <= i < |es| ==> ks[i] == DepthKey(es[i])
  {
    seq(|es|, i requires 0 <= i < |es| => DepthKey(es[i]))
  }

  /** The prompts of the depth entries, in order */
  function DepthPrompts(es: seq<DepthEntry>): (ps: seq<ExtensionPrompt>)
    ensures |ps| == |es|
    ensures forall i :: 0 <= i < |es| ==> ps[i] == DepthEntryPrompt(es[i])
  {
    seq(|es|, i requires 0 <= i < |es| => DepthEntryPrompt(es[i]))
  }

  /** Writes `ps[i]` under `ks[i]` for each `i` in turn, so a later write of a key
      replaces an earlier one */
  function KeyedStore(m: map<string, ExtensionPrompt>, ks: seq<string>, ps: seq<ExtensionPrompt>)
    : (r: map<string, ExtensionPrompt>)
    requires |ks| == |ps|
    ensures forall k :: k in r <==> k in m || k in ks
  {
    if ks == [] then m
    else
      assert ks == ks[..|ks| - 1] + [ks[|ks| - 1]];
      KeyedStore(m, ks[..|ks| - 1], ps[..|ps| - 1])[ks[|ks| - 1] := ps[|ps| - 1]]
  }

  /** No key after position `i` equals the key at `i` */
  predicate LastOfKey(ks: seq<string>, i: int)
    requires 0 <= i < |ks|
  {
    forall j :: i < j < |ks| ==> ks[j] != ks[i]
  }

  /** A key that no write names keeps its value */
  lemma {:induction false} KeyedStoreKeeps(m: map<string, ExtensionPrompt>, ks: seq<string>, ps: seq<ExtensionPrompt>,
                                           k: string)
    requires |ks| == |ps| && k in m && k !in ks
    ensures k in KeyedStore(m, ks, ps) && KeyedStore(m, ks, ps)[k] == m[k]
  {
    if ks != [] {
      assert ks == ks[..|ks| - 1] + [ks[|ks| - 1]];
      KeyedStoreKeeps(m, ks[..|ks| - 1], ps[..|ps| - 1], k);
    }
  }

  /** The key at a position that no later write names holds the value written there */
  lemma {:induction false} KeyedStoreLast(m: map<string, ExtensionPrompt>, ks: seq<string>, ps: seq<ExtensionPrompt>,
                                          i: nat)
    requires |ks| == |ps| && i < |ks| && LastOfKey(ks, i)
    ensures ks[i] in KeyedStore(m, ks, ps) && KeyedStore(m, ks, ps)[ks[i]] == ps[i]
  {
    var n := |ks| - 1;
    if i < n {
      var init := ks[..n];
      assert ks[n] != ks[i];
      assert LastOfKey(init, i) by {
        forall j | i < j < |init|
          ensures init[j] != init[i]
        {
          assert init[j] == ks[j];
        }
      }
      KeyedStoreLast(m, init, ps[..n], i);
    }
  }

  /** A position at or after `j` with the same key that no later position shares */
  lemma {:induction false} LastEntryOfKey(ks: seq<string>, j: nat) returns (l: nat)
    requires j < |ks|
    ensures j <= l < |ks| && ks[l] == ks[j] && LastOfKey(ks, l)
    decreases |ks| - j
  {
    if LastOfKey(ks, j) {
      l := j;
    } else {
      var later :| j < later < |ks| && ks[later] == ks[j];
      l := LastEntryOfKey(ks, later);
    }
  }

  /** `processWorldInfoDepth`: one extension prompt per entry, in order */
  function DepthStore(m: map<string, ExtensionPrompt>, es: seq<DepthEntry>): (r: map<string, ExtensionPrompt>)
    ensures forall k :: k in r <==> k in m || k in DepthKeys(es)
    ensures forall k :: k in m && !StartsWith(k, DepthWorldInfoPrefix) ==> r[k] == m[k]
  {
    var ks, ps := DepthKeys(es), DepthPrompts(es);
    assert forall k :: k in m && !StartsWith(k, DepthWorldInfoPrefix) ==>
             KeyedStore(m, ks, ps)[k] == m[k] by {
      forall k | k in m && !StartsWith(k, DepthWorldInfoPrefix)
        ensures KeyedStore(m, ks, ps)[k] == m[k]
      {
        KeyedStoreKeeps(m, ks, ps, k);
      }
    }
    KeyedStore(m, ks, ps)
  }

  /** Each depth key holds the prompt of the last entry with that key, and every key
      that no entry writes keeps its value */
  lemma {:induction false} DepthStoreValues(m: map<string, ExtensionPrompt>, es: seq<DepthEntry>)
    ensures forall k :: k in m && k !in DepthKeys(es) ==> DepthStore(m, es)[k] == m[k]
    ensures forall i :: 0 <= i < |es| && LastOfKey(DepthKeys(es), i) ==>
              DepthKey(es[i]) in DepthStore(m, es) && DepthStore(m, es)[DepthKey(es[i])] == DepthEntryPrompt(es[i])
  {
    var ks, ps := DepthKeys(es), DepthPrompts(es);
    forall k | k in m && k !in ks
      ensures DepthStore(m, es)[k] == m[k]
    {
      KeyedStoreKeeps(m, ks, ps, k);
    }
    forall i | 0 <= i < |es| && LastOfKey(ks, i)
      ensures DepthKey(es[i]) in DepthStore(m, es) && DepthStore(m, es)[DepthKey(es[i])] == DepthEntryPrompt(es[i])
    {
      KeyedStoreLast(m, ks, ps, i);
    }
  }

  /** Of two entries with the same depth and role the earlier one is overwritten: the
      key holds the prompt of the later one or of an entry after it with the same key */
  lemma {:induction false} DepthStoreLastWins(m: map<string, ExtensionPrompt>, es: seq<DepthEntry>, i: nat, j: nat)
    returns (l: nat)
    requires i < j < |es| && DepthKey(es[i]) == DepthKey(es[j])
    ensures j <= l < |es| && DepthKey(es[l]) == DepthKey(es[i]) && LastOfKey(DepthKeys(es), l)
    ensures DepthStore(m, es)[DepthKey(es[i])] == DepthEntryPrompt(es[l])
  {
    var ks, ps := DepthKeys(es), DepthPrompts(es);
    l := LastEntryOfKey(ks, j);
    KeyedStoreLast(m, ks, ps, l);
  }

  /** `worldInfoBefore`/`After`: `None` when filtered, else the override when given,
      else the engine's; the depth entries are dropped when filtered */
  function ResolveWorldInfo(wi: WorldInfoResult, overrides: Option<OverrideConfig>): (r: WorldInfo)
    ensures r.worldInfoBefore.None? <==> IsPromptFiltered("world_info_before", overrides)
    ensures r.worldInfoBefore.Some? ==> r.worldInfoBefore.value == OverrideText(overrides, "world_info_before").GetOr(wi.before)
    ensures r.worldInfoAfter.None? <==> IsPromptFiltered("world_info_after", overrides)
    ensures r.worldInfoAfter.Some? ==> r.worldInfoAfter.value == OverrideText(overrides, "world_info_after").GetOr(wi.after)
    ensures r.worldInfoDepth.None? <==> IsPromptFiltered("with_depth_entries", overrides)
    ensures r.worldInfoDepth.Some? ==> r.worldInfoDepth.value == wi.depth
    ensures r.worldInfoString == wi.worldInfoString && r.worldInfoExamples == wi.examples
  {
    WorldInfo(
      wi.worldInfoString,
      if IsPromptFiltered("world_info_before", overrides) then None
      else Some(OverrideText(overrides, "world_info_before").GetOr(wi.before)),
      if IsPromptFiltered("world_info_after", overrides) then None
      else Some(OverrideText(overrides, "world_info_after").GetOr(wi.after)),
      wi.examples,
      if IsPromptFiltered("with_depth_entries", overrides) then None else Some(wi.depth))
  }

  /** The store after `processWorldInfo`: old depth prompts cleared, new ones written
      unless depth entries are filtered */
  function StoreAfterWorldInfo(m: map<string, ExtensionPrompt>, wi: WorldInfoResult, overrides: Option<OverrideConfig>)
    : map<string, ExtensionPrompt>
  {
    var cleared := WithoutPrefixed(m, [DepthWorldInfoPrefix]);
    if !IsPromptFiltered("with_depth_entries", overrides) then DepthStore(cleared, wi.depth) else cleared
  }

  /** `processWorldInfoDepth` */
  method ProcessWorldInfoDepth(store: ExtensionPromptStore, es: seq<DepthEntry>)
    modifies store
    ensures store.prompts == DepthStore(old(store.prompts), es)
  {
    ghost var m := store.prompts;
    ghost var ks, ps := DepthKeys(es), DepthPrompts(es);
    for i := 0 to |es|
      invariant store.prompts == KeyedStore(m, ks[..i], ps[..i])
    {
      assert ks[..i + 1][..i] == ks[..i] && ps[..i + 1][..i] == ps[..i];
      store.Set(DepthKey(es[i]), Join(es[i].entries, "\n"), InChat, es[i].depth, false, es[i].role);
    }
    assert ks[..|es|] == ks && ps[..|es|] == ps;
  }

  /** `processWorldInfo` after the engine ran: the store updated and the result resolved */
  method ProcessWorldInfo(store: ExtensionPromptStore, wi: WorldInfoResult, overrides: Option<OverrideConfig>)
    returns (r: WorldInfo)
    modifies store
    ensures store.prompts == StoreAfterWorldInfo(old(store.prompts), wi, overrides)
    ensures r == ResolveWorldInfo(wi, overrides)
  {
    store.ClearInjectionPrompts([DepthWorldInfoPrefix]);
    if !IsPromptFiltered("with_depth_entries", overrides) {
      ProcessWorldInfoDepth(store, wi.depth);
    }
    r := ResolveWorldInfo(wi, overrides);
  }

  // ------------------------------------------------------------ examples

  /** One world-info example applied to the example blocks: empty content is skipped,
      `before` examples go in front, all others at the end */
  function ExampleStep(blocks: seq<string>, e: WorldInfoExample, chatReplace: string -> string): seq<string> {
    if |e.content| == 0 then blocks
    else
      var cleaned := ParseMesExamples(chatReplace(e.content));
      if e.position == BeforeExamples then cleaned + blocks else blocks + cleaned
  }

  function ExamplesApplied(blocks: seq<string>, es: seq<WorldInfoExample>, chatReplace: string -> string): seq<string> {
    if es == [] then blocks else ExampleStep(ExamplesApplied(blocks, es[..|es| - 1], chatReplace), es[|es| - 1], chatReplace)
  }

  /** The original blocks stay together and in order; examples only add around them */
  lemma {:induction false} ExamplesKeepBlocks(blocks: seq<string>, es: seq<WorldInfoExample>, chatReplace: string -> string)
    returns (pre: seq<string>, post: seq<string>)
    ensures ExamplesApplied(blocks, es, chatReplace) == pre + blocks + post
  {
    if es == [] {
      pre, post := [], [];
    } else {
      var prev := ExamplesApplied(blocks, es[..|es| - 1], chatReplace);
      var e := es[|es| - 1];
      assert ExamplesApplied(blocks, es, chatReplace) == ExampleStep(prev, e, chatReplace);
      var p0, q0 := ExamplesKeepBlocks(blocks, es[..|es| - 1], chatReplace);
      pre, post := ExampleStepKeepsBlocks(p0, blocks, q0, e, chatReplace);
    }
  }

  /** One example step adds its blocks in front of or after the list, keeping what is there */
  lemma {:induction false} ExampleStepKeepsBlocks(p0: seq<string>, blocks: seq<string>, q0: seq<string>,
                                                  e: WorldInfoExample, chatReplace: string -> string)
    returns (pre: seq<string>, post: seq<string>)
    ensures ExampleStep(p0 + blocks + q0, e, chatReplace) == pre + blocks + post
  {
    pre, post := p0, q0;
    if |e.content| != 0 {
      var cleaned := ParseMesExamples(chatReplace(e.content));
      if e.position == BeforeExamples {
        pre := cleaned + p0;
        Seqs.AppendAssoc4(cleaned, p0, blocks, q0);
      } else {
        post := q0 + cleaned;
        Seqs.AppendAssoc4(p0, blocks, q0, cleaned);
      }
    }
  }

  /** `processMessageExamples` */
  method ProcessMessageExamples(blocks: seq<string>, es: seq<WorldInfoExample>, chatReplace: string -> string)
    returns (r: seq<string>)
    ensures r == ExamplesApplied(blocks, es, chatReplace)
  {
    r := blocks;
    for i := 0 to |es|
      invariant r == ExamplesApplied(blocks, es[..i], chatReplace)
    {
      assert es[..i + 1][..i] == es[..i];
      var example := es[i];
      if |example.content| == 0 {
        continue;
      }
      var cleaned := ParseMesExamples(chatReplace(example.content));
      if example.position == BeforeExamples {
        r := cleaned + r;
      } else {
        r := r + cleaned;
      }
    }
    assert es[..|es|] == es;
  }

  // ------------------------------------------------------------- the whole step

  function ExamplesSlot(overrides: Option<OverrideConfig>, card: CardFields): string {
    ResolveSlot("dialogue_examples", overrides, card.mesExamples)
  }

  function TempEntry(content: string): ExtensionPrompt {
    ExtensionPrompt(content, InPrompt, 0, true, 1)
  }

  /** The store after the setters and the request's injections */
  function InjectedStore(m: map<string, ExtensionPrompt>, config: PromptConfig, host: DataHost, h: HostState)
    : map<string, ExtensionPrompt>
  {
    host.inject(StoreAfterSetters(m, config.overrides, h), config.inject)
  }

  /** The store the world-info engine sees: the setters' results, the installed
      injections and the temporary user message */
  function StoreBeforeWorldInfo(m: map<string, ExtensionPrompt>, config: PromptConfig, input: string, host: DataHost,
                                h: HostState)
    : (r: map<string, ExtensionPrompt>)
    ensures TempUserMessage in r && r[TempUserMessage].value == input
  {
    InjectedStore(m, config, host, h)[TempUserMessage := TempEntry(input)]
  }

  function EngineResult(m: map<string, ExtensionPrompt>, config: PromptConfig, input: string, host: DataHost,
                        h: HostState): WorldInfoResult
  {
    host.worldInfo(ChatForWorldInfo(OaiMessages(config, h.chat, host), h), ScanDataOf(config.overrides, h),
                   StoreBeforeWorldInfo(m, config, input, host, h))
  }

  /** The store when `prepareAndOverrideData` returns */
  function PreparedStore(m: map<string, ExtensionPrompt>, config: PromptConfig, input: string, host: DataHost,
                         h: HostState): (r: map<string, ExtensionPrompt>)
    ensures TempUserMessage in r && r[TempUserMessage] == TempEntry("")
  {
    StoreAfterWorldInfo(StoreBeforeWorldInfo(m, config, input, host, h), EngineResult(m, config, input, host, h),
                        config.overrides)[TempUserMessage := TempEntry("")]
  }

  /** The record `prepareAndOverrideData` returns */
  function PreparedData(m: map<string, ExtensionPrompt>, config: PromptConfig, input: string, host: DataHost,
                        h: HostState): BaseData
  {
    BaseData(
      CharacterInfoOf(config.overrides, h.card),
      ChatContext(OaiMessages(config, h.chat, host), host.toExamples(ParseMesExamples(ExamplesSlot(config.overrides, h.card))),
                  host.bias(input)),
      ResolveWorldInfo(EngineResult(m, config, input, host, h), config.overrides))
  }

  /** The setters at the start of `prepareAndOverrideData`: the depth prompt, the
      author's note and the persona description, each unless its slot (or the chat
      history) is filtered */
  method RunPromptSetters(store: ExtensionPromptStore, overrides: Option<OverrideConfig>, h: HostState)
    modifies store
    ensures store.prompts == StoreAfterSetters(old(store.prompts), overrides, h)
  {
    var historyFiltered := IsPromptFiltered("chat_history", overrides);
    if !historyFiltered {
      store.Set(DepthPromptKey, h.charDepthPrompt, InChat, h.depthPromptDepth.GetOr(4), h.allowWIScan, h.depthPromptRole);
    }
    if !historyFiltered && !IsPromptFiltered("author_note", overrides) {
      store.Set(NoteKey, AuthorNoteText(overrides, h), h.notePosition, h.noteDepth, h.allowWIScan, h.noteRole);
    }
    if !historyFiltered && !IsPromptFiltered("persona_description", overrides) {
      SetPersonaDescriptionExtensionPrompt(store, h);
    }
  }

  /** `handleInjectedPrompts(config)`: the request's injections handed to the registry,
      valid for this generation only */
  method HandleInjectedPrompts(store: ExtensionPromptStore, injects: seq<InjectionPrompt>, host: DataHost)
    modifies store
    ensures store.prompts == host.inject(old(store.prompts), injects)
  {
    store.prompts := host.inject(store.prompts, injects);
  }

  /** `prepareAndOverrideData(config, processedUserInput)` */
  method PrepareAndOverrideData(store: ExtensionPromptStore, config: PromptConfig, input: string, host: DataHost,
                                h: HostState) returns (data: BaseData)
    modifies store
    ensures data == PreparedData(old(store.prompts), config, input, host, h)
    ensures store.prompts == PreparedStore(old(store.prompts), config, input, host, h)
  {
    var overrides := config.overrides;
    RunPromptSetters(store, overrides, h);

    var info := CharacterInfoOf(overrides, h.card);
    var blocks := ParseMesExamples(ExamplesSlot(overrides, h.card));
    var examples := host.toExamples(blocks);
    var bias := host.bias(input);
    HandleInjectedPrompts(store, config.inject, host);
    var messages := OaiMessages(config, h.chat, host);

    store.AddTemporaryUserMessage(input);
    var engine := host.worldInfo(ChatForWorldInfo(messages, h), ScanDataOf(overrides, h), store.prompts);
    var worldInfo := ProcessWorldInfo(store, engine, overrides);
    store.RemoveTemporaryUserMessage();

    // The world-info examples are merged into the blocks, but the result is not returned.
    if !IsPromptFiltered("dialogue_examples", overrides) {
      blocks := ProcessMessageExamples(blocks, engine.examples, host.chatReplace);
    }

    data := BaseData(info, ChatContext(messages, examples, bias), worldInfo);
  }

  // ------------------------------------------------------------- properties

  /** The temporary user message carries the input while the engine runs and is empty
      afterwards */
  lemma {:induction false} TemporaryMessageBracketsWorldInfo(m: map<string, ExtensionPrompt>, config: PromptConfig, input: string,
                                          host: DataHost, h: HostState)
    ensures StoreBeforeWorldInfo(m, config, input, host, h)[TempUserMessage] == TempEntry(input)
    ensures PreparedStore(m, config, input, host, h)[TempUserMessage] == TempEntry("")
  {
  }

  /** The registry's entries are in the store the world-info engine scans: only the
      temporary user message's own key is written over them */
  lemma {:induction false} InjectionsVisibleToWorldInfo(m: map<string, ExtensionPrompt>, config: PromptConfig, input: string,
                                                        host: DataHost, h: HostState)
    ensures forall k :: k in InjectedStore(m, config, host, h) && k != TempUserMessage ==>
              k in StoreBeforeWorldInfo(m, config, input, host, h)
              && StoreBeforeWorldInfo(m, config, input, host, h)[k] == InjectedStore(m, config, host, h)[k]
  {
  }

  /** The returned dialogue examples come from the card or override alone: two engines
      that differ (in their examples or anything else) give the same examples */
  lemma {:induction false} ExamplesIgnoreWorldInfo(m: map<string, ExtensionPrompt>, config: PromptConfig, input: string, host: DataHost,
                                h: HostState, engine: (seq<string>, ScanData, map<string, ExtensionPrompt>) -> WorldInfoResult)
    ensures PreparedData(m, config, input, host, h).chatContext.oaiMessageExamples
            == PreparedData(m, config, input, host.(worldInfo := engine), h).chatContext.oaiMessageExamples
  {
  }

  /** Depth prompts exist after preparation exactly as the filter allows: none when
      depth entries are filtered, one per engine entry otherwise */
  lemma {:induction false} DepthPromptsFollowFilter(m: map<string, ExtensionPrompt>, config: PromptConfig, input: string,
                                 host: DataHost, h: HostState)
    ensures IsPromptFiltered("with_depth_entries", config.overrides) ==>
              forall k :: k in PreparedStore(m, config, input, host, h) ==> !StartsWith(k, DepthWorldInfoPrefix)
    ensures !IsPromptFiltered("with_depth_entries", config.overrides) ==>
              forall e :: e in EngineResult(m, config, input, host, h).depth ==>
                DepthKey(e) in PreparedStore(m, config, input, host, h)
  {
    var before := StoreBeforeWorldInfo(m, config, input, host, h);
    var wi := EngineResult(m, config, input, host, h);
    var cleared := WithoutPrefixed(before, [DepthWorldInfoPrefix]);
    assert forall k :: StartsWith(k, DepthWorldInfoPrefix) ==> AnyPrefixed(k, [DepthWorldInfoPrefix]) by {
      forall k | StartsWith(k, DepthWorldInfoPrefix)
        ensures AnyPrefixed(k, [DepthWorldInfoPrefix])
      {
        assert DepthWorldInfoPrefix in [DepthWorldInfoPrefix];
      }
    }
    assert TempUserMessage[0] != DepthWorldInfoPrefix[0];
    if !IsPromptFiltered("with_depth_entries", config.overrides) {
      forall e | e in wi.depth
        ensures DepthKey(e) in PreparedStore(m, config, input, host, h)
      {
        var i :| 0 <= i < |wi.depth| && wi.depth[i] == e;
        assert DepthKeys(wi.depth)[i] == DepthKey(e);
        assert DepthKey(e) in DepthStore(cleared, wi.depth);
      }
    }
  }
}
