# Tavern Helper generation pipeline, in Dafny

This project models the prompt-generation core of Tavern Helper, an extension of a
chat front end that lets scripts call `generate` and `generateRaw`. It also models a
few small utilities from the same repository.

The generation pipeline:

- **Input** (`InputProcessor`): the user's text is macro-expanded and run through the
  regex scripts. An empty text is replaced by `send_if_empty`. An image list is either
  announced by a marker, which a listener later rewrites (`GenUtils.ImageArraySetup`),
  or turned into content parts directly.
- **Base data** (`DataProcessor`): the prompt slots are resolved against the overrides
  and filters (`GenUtils.IsPromptFiltered`). The chat history is processed, world info
  is resolved while the temporary user message is set, and the author's note, persona
  and depth prompts are written to the extension-prompt store.
- **Preset path** (`PresetPath`): the scenario override is written into the character
  and restored afterwards. The user's message is put in front of the newest-first chat,
  and the host composer builds the prompt.
- **Raw path** (`GenerateRaw`, `Injection`, `Completion`): the order array becomes
  collections at positions of a chat-completion builder that tracks a token budget.
  The depth injections are spliced into the chat, and the history is kept as long as
  it fits the budget.
- **Response** (`ResponseGenerator`, `Streaming`): an optional custom-API rewrite of
  the request settings is applied. Then either a blocking response is handled, or a
  streaming processor emits token events and pairs unbalanced markers.
- **Lifecycle** (`GenerateIndex`): a registry of abort controllers is keyed by
  generation id. Generations can be stopped one by one or all at once. The public
  configurations are converted to internal parameters.

The utilities:

- message index and depth arithmetic (`MessageIndex`);
- resolution of the message id for displayed-message formatting (`DisplayedMessage`);
- the variable-tree search (`Search`);
- the audio slash commands (`Audio`);
- the name lists behind the script-enablement prompt (`Enablement`);
- the update check and changelog slicing (`Update`).

Host services are parameters of function type: the regex, macro and world-info
engines, token counting, the composer, image encoding, message clean-up and the
network. Objects whose fields the source updates in place are classes:

- the extension-prompt store;
- the chat-completion builder;
- the character;
- the image-array setup;
- the generation registry and abort controllers;
- the streaming processor and its event bus;
- the request data and settings;
- the audio players;
- the enablement settings;
- the version cache.

Emitted events are appended to a log. `oaiMessages` is newest first: index 0 is depth 0.

`Wrappers`, `Strings` and `Seqs` hold the option and result types, the JavaScript
string operations and sequence lemmas the other modules share.

## Model

| member | source | states |
|---|---|---|
| GenTypes.RoleCode | src/function/generate/types.ts:194-201 | `roleTypes`: system, user and assistant map to the role codes 0, 1 and 2, each code for exactly one role |
| GenTypes.RoleCodeInjective | src/function/generate/types.ts:194-201 | distinct roles have distinct codes and distinct names |
| GenTypes.FieldOf | src/function/generate/types.ts:150-162 | `config.overrides[id]` reads a flag only for `with_depth_entries` and a prompt list only for `chat_history` |
| GenTypes.DefaultOrdersAgree | src/function/generate/types.ts:101-111 | `builtin_prompt_default_order` and `default_order` list the same nine prompts, chat history then user input last |
| GenUtils.IsPromptFiltered | src/function/generate/utils.ts:126-144 | never filtered without overrides; `with_depth_entries` exactly when it is `false`; `chat_history` exactly when given and empty; any other id exactly when its override is `''` |
| GenUtils.SlotFilteredIffEmpty | src/function/generate/utils.ts:141-143 | each of the eight text slots is filtered iff its override is the empty string; `char_depth_prompt` never is |
| GenUtils.HeadedText | src/function/generate/utils.ts:75-77 | the text handed to the split always starts with `<START>` |
| GenUtils.Blocks | src/function/generate/utils.ts:79-82 | one block per piece after the first, each starting with `<START>\n` and ending with a newline |
| GenUtils.ParseMesExamples | src/function/generate/utils.ts:70-85 | every block starts with `<START>\n` and ends with a newline |
| GenUtils.ParseMesExamplesEmptyIff | src/function/generate/utils.ts:71-73 | no blocks exactly for the empty text and a lone `<START>` |
| GenUtils.ParseMesExamplesSingleBlock | src/function/generate/utils.ts:75-82 | a non-empty text without any `<START>` becomes the single block `<START>\n` + trimmed text + `\n` |
| GenUtils.SplitHeadedText | src/function/generate/utils.ts:76-80 | the heading put in front of a tag-free text splits into an empty piece and the rest |
| GenUtils.ExtractMessageFromData | src/function/generate/utils.ts:50-63 | a string is returned as is; an object gives the first present of the five paths in the `??` order, or `''` when all are absent |
| GenUtils.EmptyEarlierPathWins | src/function/generate/utils.ts:55-62 | `??` falls through only on absence: an empty `choices[0].message.content` is the result |
| GenUtils.GetPromptRole | src/function/generate/utils.ts:107-118 | codes 0, 1 and 2 give the role with that code; every other code gives system |
| GenUtils.GetPromptRoleInvertsRoleCode | src/function/generate/utils.ts:107-118 | `getPromptRole` inverts `roleTypes` |
| GenUtils.ProcessUserInput | src/function/generate/utils.ts:92-100 | a non-empty input goes to the regex scripts unchanged; an empty one is replaced by the trimmed `send_if_empty` first |
| GenUtils.WithoutPrefixed | src/function/generate/utils.ts:175-181 | exactly the keys starting with none of the prefixes survive, with their values |
| GenUtils.ClearingProperties | src/function/generate/utils.ts:175-181 | clearing is idempotent, and clearing `INJECTION` keeps the temporary user message |
| GenUtils.ExtensionPromptStore.Set | src/function/generate/dataProcessor.ts:208 | `setExtensionPrompt`: the key holds the new entry and every other key is unchanged |
| GenUtils.ExtensionPromptStore.AddTemporaryUserMessage | src/function/generate/utils.ts:150-152 | the store gains `TEMP_USER_MESSAGE` with the content, in-prompt, depth 0, scanned, role code 1, and nothing else changes |
| GenUtils.ExtensionPromptStore.RemoveTemporaryUserMessage | src/function/generate/utils.ts:157-159 | `TEMP_USER_MESSAGE` stays, with an empty value |
| GenUtils.ExtensionPromptStore.ClearInjectionPrompts | src/function/generate/utils.ts:175-181 | the store afterwards is `WithoutPrefixed` of the store before |
| GenUtils.ConvertFileToBase64 | src/function/generate/utils.ts:22-43 | a data-URL string passes through; anything else is fetched and encoded, `None` on failure |
| GenUtils.ImageQuality | src/function/generate/utils.ts:193 | the setting when it is truthy, else `low`; never empty |
| GenUtils.ImageParts | src/function/generate/utils.ts:195-214 | at most one part per image, each an `image_url` part with a non-empty URL and the given quality |
| GenUtils.FailedImageSkipped | src/function/generate/utils.ts:197-202 | an image whose conversion fails is dropped without affecting the images around it |
| GenUtils.DataUrlsPassThrough | src/function/generate/utils.ts:23-41 | non-empty data URLs become one part each, in order, unchanged |
| GenUtils.ProcessImageArrayDirectly | src/function/generate/utils.ts:189-221 | the text part first, then exactly the converted images |
| GenUtils.LastMarked | src/function/generate/utils.ts:261-265 | the last user message whose string content contains the marker, or none when no message has it |
| GenUtils.LastMarkedIs | src/function/generate/utils.ts:261-265 | a marked message with no marked message after it is the one the backward scan stops at |
| GenUtils.Rewritten | src/function/generate/utils.ts:288-295 | the role is kept and the content becomes the text with the first marker removed, followed by the converted images |
| GenUtils.MarkerRemovalRestoresInput | src/function/generate/utils.ts:240 | removing the first marker from input + marker gives the input back when the input has no underscore |
| GenUtils.ImageArraySetup.constructor | src/function/generate/utils.ts:239-251 | the input with the marker appended, a pending promise, no timer, the handler registered and listening |
| GenUtils.ImageArraySetup.Resolve | src/function/generate/utils.ts:316 | a pending promise resolves; a settled one stays as it is |
| GenUtils.ImageArraySetup.Reject | src/function/generate/utils.ts:309 | a pending promise is rejected with the reason; a settled one stays as it is |
| GenUtils.ImageArraySetup.Timeout | src/function/generate/utils.ts:256-259 | the timer fires once and rejects a pending promise with `Image processing timed out` |
| GenUtils.ImageArraySetup.Handle | src/function/generate/utils.ts:253-321 | the last marked message is rewritten and nothing else in the chat changes, the timer is cleared and the promise resolves; with no marked message the chat is unchanged, the promise resolves and the timer stays armed |
| GenUtils.ImageArraySetup.Cleanup | src/function/generate/utils.ts:325-338 | the timer is cleared and the handler detached once; the promise is untouched |
| DataProcessor.OverrideText | src/function/generate/dataProcessor.ts:44-49 | present exactly when there are overrides and the slot holds a text, and then it is that text |
| DataProcessor.ResolveSlot | src/function/generate/dataProcessor.ts:81-98 | `''` when filtered, else the override when given, else the card's value |
| DataProcessor.ScenarioPrecedence | src/function/generate/dataProcessor.ts:94 | an empty scenario override empties the scenario, any other override replaces it, and without one the card's scenario is used |
| DataProcessor.AuthorNoteText | src/function/generate/dataProcessor.ts:184-186 | the `author_note` override when given, else the note editor's text |
| DataProcessor.PersonaNote | src/function/generate/dataProcessor.ts:218-222 | the persona description above (`TOP_AN`) or below the author's note text, separated by a newline |
| DataProcessor.PersonaNoteAsWritten | src/function/generate/dataProcessor.ts:218-222 | the combined note as written: the note part is `[object Object]` for any note entry, `undefined` without one, so the note's text never appears |
| DataProcessor.PersonaNoteAsWrittenLosesNote | src/function/generate/dataProcessor.ts:218-222 | as written, the result does not depend on the note's text; for a concrete note the written form is `<persona>\n[object Object]` and the corrected form keeps the text |
| DataProcessor.PersonaStore | src/function/generate/dataProcessor.ts:205-249 | `PERSONA_DESCRIPTION` is reset, and set at depth only for a non-empty `AT_DEPTH` persona; at the note positions, when world info may add prompts, the author's note becomes the persona joined with the note's store entry as interpolated (`[object Object]`, or `undefined` without a note); every key other than the persona and note keys keeps its presence and value |
| DataProcessor.SetterConditions | src/function/generate/dataProcessor.ts:51-64 | with the chat history filtered no setter runs; otherwise the depth prompt is set, and the note unless filtered; a filtered note or persona leaves its key as it was |
| DataProcessor.SetPersonaDescriptionExtensionPrompt | src/function/generate/dataProcessor.ts:205-249 | the store afterwards is `PersonaStore` of the store before, the note included as written |
| DataProcessor.RunPromptSetters | src/function/generate/dataProcessor.ts:51-64 | the store afterwards is the setters' result on the store before: the depth prompt and note unless filtered, then the persona step as written |
| DataProcessor.CoreChat | src/function/generate/dataProcessor.ts:266 | exactly the non-system messages are kept |
| DataProcessor.CoreChatAppend | src/function/generate/dataProcessor.ts:266 | the filter keeps order: it distributes over concatenation |
| DataProcessor.ProcessChatHistory | src/function/generate/dataProcessor.ts:265-285 | one entry per kept message; entry `i` of `n` is regex-processed at depth `n - i - 1` and tagged with `i` |
| DataProcessor.OaiMessages | src/function/generate/dataProcessor.ts:112-121 | the reversed override history when given; otherwise the processed chat, cut with `slice(0, max_chat_history)` to its newest entries when that is set, and whole when it is not |
| DataProcessor.NonSystemTexts | src/function/generate/dataProcessor.ts:302-307 | system messages dropped; without system messages one text per message, name-prefixed as configured |
| DataProcessor.ChatForWorldInfo | src/function/generate/dataProcessor.ts:302-308 | the non-system texts in reverse order |
| DataProcessor.ScanDataMatchesCharacterInfo | src/function/generate/dataProcessor.ts:311-318 | the world-info scan sees the same persona, description, personality and scenario as the prompt |
| DataProcessor.DepthKey | src/function/generate/dataProcessor.ts:359 | every depth key starts with `customDepthWI` |
| DataProcessor.DepthKeys | src/function/generate/dataProcessor.ts:359 | one key per depth entry, in order |
| DataProcessor.DepthStore | src/function/generate/dataProcessor.ts:354-368 | the keys afterwards are the old keys plus one per entry; keys outside the `customDepthWI` prefix keep their values |
| DataProcessor.DepthStoreValues | src/function/generate/dataProcessor.ts:354-368 | each depth key holds the newline-joined prompt of the last entry with that key, and every key no entry writes keeps its value |
| DataProcessor.KeyedStore | src/function/generate/dataProcessor.ts:356-366 | writing one prompt per key in turn leaves exactly the old keys plus the written keys |
| DataProcessor.KeyedStoreKeeps | src/function/generate/dataProcessor.ts:354-368 | a key that no write names keeps its value |
| DataProcessor.KeyedStoreLast | src/function/generate/dataProcessor.ts:356-366 | the key written at a position that no later write names holds the value written there |
| DataProcessor.LastEntryOfKey | src/function/generate/dataProcessor.ts:356-366 | every write is followed, at or after it, by a last write of the same key |
| DataProcessor.DepthStoreLastWins | src/function/generate/dataProcessor.ts:356-366 | of two entries with the same depth and role, the earlier is overwritten: the key holds the prompt of the later one or of an entry after it with that key that no later entry shares |
| DataProcessor.ResolveWorldInfo | src/function/generate/dataProcessor.ts:329-348 | before and after are `null` exactly when filtered, else the override or the engine's text; the depth entries are `null` exactly when filtered |
| DataProcessor.ProcessWorldInfoDepth | src/function/generate/dataProcessor.ts:354-368 | the store afterwards is `DepthStore` of the store before |
| DataProcessor.ProcessWorldInfo | src/function/generate/dataProcessor.ts:323-348 | old depth prompts are cleared, new ones written unless filtered, and the result resolved |
| DataProcessor.ExamplesKeepBlocks | src/function/generate/dataProcessor.ts:373-389 | world-info examples only add blocks in front of or behind the original blocks, which stay together and in order |
| DataProcessor.ExampleStepKeepsBlocks | src/function/generate/dataProcessor.ts:376-385 | one example adds its blocks in front (`before`) or behind and keeps the list |
| DataProcessor.ProcessMessageExamples | src/function/generate/dataProcessor.ts:373-389 | the loop's result is the examples applied one by one, empty ones skipped |
| DataProcessor.StoreBeforeWorldInfo | src/function/generate/dataProcessor.ts:123-126 | the engine sees `TEMP_USER_MESSAGE` carrying the input |
| DataProcessor.PreparedStore | src/function/generate/dataProcessor.ts:135-136 | afterwards `TEMP_USER_MESSAGE` is present and empty |
| DataProcessor.PrepareAndOverrideData | src/function/generate/dataProcessor.ts:40-159 | the returned record and the store afterwards are the preparation's functions of the store before: setters, the request's injections, the temporary message around the engine, the depth prompts |
| DataProcessor.HandleInjectedPrompts | src/function/generate/dataProcessor.ts:251-260 | the request's injections are handed to the registry, which installs them in the store |
| DataProcessor.InjectionsVisibleToWorldInfo | src/function/generate/dataProcessor.ts:107-126 | what the registry installs is in the store the world-info engine scans; only the temporary message's key is written over it |
| DataProcessor.TemporaryMessageBracketsWorldInfo | src/function/generate/dataProcessor.ts:123-136 | the temporary message holds the input while the engine runs and is empty afterwards |
| DataProcessor.ExamplesIgnoreWorldInfo | src/function/generate/dataProcessor.ts:100-102 | the returned dialogue examples do not depend on the world-info engine |
| DataProcessor.DepthPromptsFollowFilter | src/function/generate/dataProcessor.ts:323-327 | with depth entries filtered no `customDepthWI` key remains; otherwise every engine entry has its key |
| GenerateRaw.BuiltinContent | src/function/generate/generateRaw.ts:53-64 | only the six built-in names have content; the persona only when it is set to the prompt position |
| GenerateRaw.CustomId | src/function/generate/generateRaw.ts:82 | a `custom_prompt_<i>` identifier, which no built-in name can be |
| GenerateRaw.BuiltinNamesFacts | src/function/generate/generateRaw.ts:396-403 | built-in names are already lower case and differ from every custom identifier, so their keys in the position map never collide |
| GenerateRaw.PromptAt | src/function/generate/generateRaw.ts:66-92 | an order entry yields at most one prompt, identified by its position-map key |
| GenerateRaw.LastIndexMap | src/function/generate/generateRaw.ts:396-403 | every key is present and maps to its last index in the order |
| GenerateRaw.PositionMap | src/function/generate/generateRaw.ts:396-403 | every entry's key is present, mapped to the last index holding that key |
| GenerateRaw.SystemPrompts | src/function/generate/generateRaw.ts:66-92 | every collected prompt has a position in the order |
| GenerateRaw.FindPrompt | src/function/generate/generateRaw.ts:414-416 | a prompt with the identifier is found exactly when the collection holds one |
| GenerateRaw.FindPromptAppend | src/function/generate/generateRaw.ts:414-416 | lookup in a concatenation finds the earlier collection's prompt first |
| GenerateRaw.EntryPromptFound | src/function/generate/generateRaw.ts:67-79 | an entry yields the built-in prompt exactly when it names it and the prompt has content; it is then a system prompt with that content |
| GenerateRaw.BuiltinPromptFound | src/function/generate/generateRaw.ts:51-92 | a built-in prompt is in the collection exactly when the order names it and it has content |
| GenerateRaw.DialogueMessages | src/function/generate/generateRaw.ts:100-109 | one system message per example line, identified by dialogue and line |
| GenerateRaw.ExampleMessages | src/function/generate/generateRaw.ts:94-114 | all examples in order, as system messages carrying each line's content and name |
| GenerateRaw.DialogueChatMessages | src/function/generate/generateRaw.ts:100-109 | the loop builds exactly the dialogue's messages |
| GenerateRaw.CollectSystemPrompts | src/function/generate/generateRaw.ts:66-92 | the loop collects exactly the system prompts |
| GenerateRaw.CollectExampleMessages | src/function/generate/generateRaw.ts:94-114 | the loops collect exactly the example messages |
| GenerateRaw.ConvertSystemPromptsToCollection | src/function/generate/generateRaw.ts:44-119 | the system prompts for the order and the `dialogue_examples` collection |
| GenerateRaw.EntryPlan | src/function/generate/generateRaw.ts:407-433 | each order entry adds at most one collection |
| GenerateRaw.BuiltinPosition | src/function/generate/generateRaw.ts:396-403 | a built-in entry's prompt goes to the last index holding that name, which is at or after the entry |
| GenerateRaw.BuiltinPlacement | src/function/generate/generateRaw.ts:414-421 | an unfiltered built-in prompt with content is added once, as a system message, at its position-map index |
| GenerateRaw.FindIndex | src/function/generate/generateRaw.ts:139-142 | an index of the order, or -1 |
| GenerateRaw.FindIndexFirst | src/function/generate/generateRaw.ts:139-142 | the first entry with that name (case-insensitively), and -1 exactly when there is none |
| GenerateRaw.ExamplesPlan | src/function/generate/generateRaw.ts:435-441 | the examples are added exactly when the order names them and they are not filtered |
| GenerateRaw.UserMessage | src/function/generate/generateRaw.ts:148-166 | a `user_input` message, plain text unless an image array is given |
| GenerateRaw.UserPrompt | src/function/generate/generateRaw.ts:200-224 | the user's prompt put in front of the chat is a user message, not an injection |
| GenerateRaw.PromptsToPopulate | src/function/generate/generateRaw.ts:199-224 | no injected entry yet; without `user_input` in the order the user's prompt comes first |
| GenerateRaw.HistoryMessages | src/function/generate/generateRaw.ts:233-252 | one message per pool entry, numbered `chat_history-<n>` counting down |
| GenerateRaw.Affordable | src/function/generate/generateRaw.ts:253-257 | the longest prefix each of whose messages fits the budget: it stops at the first that does not |
| GenerateRaw.AffordableStop | src/function/generate/generateRaw.ts:253-257 | a prefix that fits and ends at a message that does not is the kept prefix |
| GenerateRaw.HistoryCollection | src/function/generate/generateRaw.ts:176-198 | the chat history starts with the new-chat prompt, followed by the empty-message replacement whenever the last message is the assistant's, `send_if_empty` is set and the replacement is affordable |
| GenerateRaw.UsesEmptyMessage | src/function/generate/generateRaw.ts:186-196 | the empty-message replacement is used only after a chat whose last message is the assistant's, with `send_if_empty` set and the replacement affordable; that condition is its whole meaning, and it implies a non-empty chat and a non-negative budget |
| GenerateRaw.HistoryPlanUserOnly | src/function/generate/generateRaw.ts:168-173 | with the history filtered or absent only the user message is added, at `user_input` or at the end |
| GenerateRaw.HistoryPlanPlaced | src/function/generate/generateRaw.ts:263-270 | otherwise the history goes to `chat_history` and the user message, when ordered, to `user_input` |
| GenerateRaw.HistoryPlan | src/function/generate/generateRaw.ts:131-271 | the collections `processChatHistoryAndInject` adds: one or two, the history first when placed and then at the `chat_history` index, the user input otherwise or second |
| GenerateRaw.CollectHistory | src/function/generate/generateRaw.ts:233-258 | the loop keeps exactly the affordable messages |
| GenerateRaw.PopulatedPool | src/function/generate/generateRaw.ts:227-232 | the injected chat in reversed order |
| GenerateRaw.ChatPool | src/function/generate/generateRaw.ts:227-232 | the chat pool, oldest first, holds as many messages as the populated prompts and the injected groups together |
| GenerateRaw.BuildChatHistory | src/function/generate/generateRaw.ts:175-261 | the history collection, computed under the reserved new-chat budget |
| GenerateRaw.ProcessChatHistoryAndInject | src/function/generate/generateRaw.ts:131-271 | the layout gains the history plan and the budget drops by its tokens |
| GenerateRaw.AddUserInputOnly | src/function/generate/generateRaw.ts:168-173 | the user message alone is placed |
| GenerateRaw.AddHistoryAndUserInput | src/function/generate/generateRaw.ts:175-271 | the history and the user message are placed as the plan says |
| GenerateRaw.AddChatHistory | src/function/generate/generateRaw.ts:176-269 | the history collection is placed at `chat_history`, its tokens charged |
| GenerateRaw.AddOrderEntry | src/function/generate/generateRaw.ts:425-432 | one entry's collection is placed and charged |
| GenerateRaw.AddOrderedPrompts | src/function/generate/generateRaw.ts:425-433 | the entries' collections are placed in order |
| GenerateRaw.AddSystemPromptsAndExamples | src/function/generate/generateRaw.ts:406-441 | the ordered prompts, then the examples |
| GenerateRaw.HandleCustomPath | src/function/generate/generateRaw.ts:385-456 | a fresh completion whose layout is the whole plan and whose budget is context minus response minus 3 minus the plan's tokens; the prompt is the chat, squashed when configured |
| GenerateRaw.UserInputPlaced | src/function/generate/generateRaw.ts:168-173 | whenever the user message is added separately it is the last placement, at `user_input` or the end |
| GenerateRaw.UserPromptNewest | src/function/generate/generateRaw.ts:223-229 | without `user_input` in the order the user's prompt is the newest chat message but for the depth-0 injections after it |
| Completion.NewMessage | src/function/generate/generateRaw.ts:106 | a created message carries the role, content and identifier given, with no name and no image yet |
| Completion.MessagesTokensAppend | src/function/generate/generateRaw.ts:253-254 | the tokens of a collection are the sum over its messages |
| Completion.Place | src/function/generate/generateRaw.ts:413 | adding a collection sets that position and leaves every other position as it was |
| Completion.LaidAppend | src/function/generate/generateRaw.ts:385-456 | placing two plans one after the other is placing their concatenation |
| Completion.LaidLastWins | src/function/generate/generateRaw.ts:396-403 | a placement that no later placement overwrites is what the position holds |
| Completion.PlanTokensAppend | src/function/generate/generateRaw.ts:385-456 | the tokens of a concatenated plan add up |
| Completion.PlacedAfterOne | src/function/generate/generateRaw.ts:263-266 | a plan's first placement happens first and is charged first |
| Completion.ChatMembers | src/function/generate/generateRaw.ts:453 | a message is in the chat exactly when some placed collection below the size holds it |
| Completion.ChatCompletion.constructor | src/function/generate/generateRaw.ts:392-393 | an empty layout and a budget of context minus response tokens |
| Completion.ChatCompletion.ReserveTokens | src/function/generate/generateRaw.ts:394 | the budget drops by the count, the layout is unchanged |
| Completion.ChatCompletion.ReserveBudget | src/function/generate/generateRaw.ts:444 | the budget drops by the message's tokens, the layout is unchanged |
| Completion.ChatCompletion.FreeBudget | src/function/generate/generateRaw.ts:447 | the budget grows by the message's tokens, the layout is unchanged |
| Completion.ChatCompletion.Add | src/function/generate/generateRaw.ts:420 | the collection is placed at the position and its tokens charged |
| Completion.ChatCompletion.CanAfford | src/function/generate/generateRaw.ts:253 | `canAfford`: a message fits exactly when charging it leaves the budget non-negative; that comparison is its whole meaning |
| Completion.ChatCompletion.GetChat | src/function/generate/generateRaw.ts:453 | `getChat()`: a message is in the prompt exactly when it belongs to a collection placed at a position below the layout's size |
| Completion.ChatMembersAll | src/function/generate/generateRaw.ts:453 | the chat-membership characterisation for every message at once |
| Injection.FromRolePrompt | src/function/generate/generateRaw.ts:288 | a history prompt keeps role, content and image and is not injected |
| Injection.NoteCandidate | src/function/generate/generateRaw.ts:292-301 | the author's note is a candidate exactly when its store entry has a non-empty value |
| Injection.PersonaCandidate | src/function/generate/generateRaw.ts:303-314 | the persona is a candidate exactly when it is non-empty and set to depth |
| Injection.DepthCandidates | src/function/generate/generateRaw.ts:316-329 | one candidate per depth entry, with the entry's role and depth and the text the host's `getExtensionPromptByName` gives for the entry's `customDepthWI` key |
| Injection.CustomCandidates | src/function/generate/generateRaw.ts:332-342 | one candidate per custom injection, depth 0 when none is given |
| Injection.CollectCandidates | src/function/generate/generateRaw.ts:288-342 | the loops collect exactly the candidates, in push order |
| Injection.PushDepthCandidates | src/function/generate/generateRaw.ts:319-327 | the depth candidates are appended |
| Injection.PushCustomCandidates | src/function/generate/generateRaw.ts:333-341 | the custom candidates are appended |
| Injection.DepthEntriesNeverFiltered | src/function/generate/generateRaw.ts:316 | the filter names `char_depth_prompt`, which never reaches the filter's fields, so depth entries are always injected |
| Injection.RoleContentsAppend | src/function/generate/generateRaw.ts:353-356 | selecting one depth's and role's texts distributes over concatenation |
| Injection.RoleMessage | src/function/generate/generateRaw.ts:351-365 | at most one message per role: the newline-joined trimmed texts, present exactly when that joined text is not empty |
| Injection.SelectedInRoleContents | src/function/generate/generateRaw.ts:353-356 | a selected candidate's trimmed content is among the role's texts |
| Injection.Selected | src/function/generate/generateRaw.ts:345-354 | a candidate is used at a depth for a role when its depth matches, its content is non-empty and its role is that role; this rule is its whole meaning |
| Injection.RoleContents | src/function/generate/generateRaw.ts:353-356 | the trimmed contents of the selected candidates, at most one per candidate |
| Injection.RoleContentsEmpty | src/function/generate/generateRaw.ts:353-356 | a role has no contents at a depth exactly when no candidate is selected for it |
| Injection.RoleMessagePresent | src/function/generate/generateRaw.ts:351-365 | a candidate for the depth and role with non-blank content always yields the message |
| Injection.Group | src/function/generate/generateRaw.ts:345-365 | at most three injected messages per depth |
| Injection.Groups | src/function/generate/generateRaw.ts:344-372 | one group per depth 0 to the maximum |
| Injection.UnusedCandidateSkipped | src/function/generate/generateRaw.ts:345-354 | a candidate of another depth or role, or with no content, changes nothing |
| Injection.SameContentsSameGroup | src/function/generate/generateRaw.ts:351-365 | a group depends only on the texts selected per role |
| Injection.GroupOfThree | src/function/generate/generateRaw.ts:347-365 | groups are ordered system, user, assistant |
| Injection.UnusedCandidateIgnored | src/function/generate/generateRaw.ts:344-354 | an empty candidate, one with an unknown role or one beyond the depth range changes no group |
| Injection.Interleave | src/function/generate/generateRaw.ts:344-372 | the spliced list has every original message and every injected one |
| Injection.InterleaveStep | src/function/generate/generateRaw.ts:367-371 | splicing the next group at `depth + inserted so far` extends the interleaving by that group |
| Injection.Insert | src/function/generate/generateRaw.ts:369 | `splice(k, 0, ...g)`: `g` is inserted whole at `k`, or at the end when `k` is past it, with the rest of `s` kept on both sides |
| Injection.DepthRoleMessages | src/function/generate/generateRaw.ts:347-365 | the loop builds exactly the depth's group |
| Injection.PopulationInjectionPrompts | src/function/generate/generateRaw.ts:344-374 | the result is the messages interleaved with the groups |
| Injection.InjectDepth | src/function/generate/generateRaw.ts:345-371 | one iteration of the depth loop splices the next group and counts it |
| Injection.InterleaveSeparates | src/function/generate/generateRaw.ts:369 | dropping the injected messages gives back the original list, and the injected ones appear in depth order |
| Injection.InjectedAtDepth | src/function/generate/generateRaw.ts:368-369 | exactly `d` original messages precede the group of depth `d` |
| MessageIndex.ToMessageDepth | src/util/message.ts:12-14 | a message id is in range exactly when its depth is in 1..length; the newest message has depth 1 |
| MessageIndex.FromMessageDepth | src/util/message.ts:20-22 | a depth in 1..length gives exactly the ids in range; depth 1 is the newest message |
| MessageIndex.ToBackwardMessageId | src/util/message.ts:29-31 | an id is in range exactly when its backward index is in -length..-1; the newest is -1 |
| MessageIndex.FromBackwardMessageId | src/util/message.ts:37-39 | a backward index in -length..-1 gives exactly the ids in range; -1 is the newest |
| MessageIndex.NormalizeMessageId | src/util/message.ts:45-49 | negative ids are read backward, others kept |
| MessageIndex.DepthRoundTrip | src/util/message.ts:12-22 | id to depth and depth to id are inverse both ways |
| MessageIndex.BackwardRoundTrip | src/util/message.ts:29-39 | id to backward index and back are inverse both ways |
| MessageIndex.NormalizeIntoRange | src/util/message.ts:45-52 | a value is in the unnormalised range exactly when its normalised id is in range, and in-range ids are unchanged |
| DisplayedMessage.LastMessageId | src/function/displayed_message.ts:18 | the highest index whose message is not mid-swipe and passes the filter, none when no message qualifies |
| DisplayedMessage.FilteredBelowLast | src/function/displayed_message.ts:26-43 | a user or character message found by the filtered search is never past the last message id |
| DisplayedMessage.NoSwipeLastIsNewest | src/function/displayed_message.ts:18-21 | with no message mid-swipe, the last message id is the newest message, none exactly for an empty chat |
| DisplayedMessage.ResolveMessageId | src/function/displayed_message.ts:23-43 | an index is kept, `last` is the last id, `last_user`/`last_char` the last user/character message, an error when there is none |
| DisplayedMessage.ResolvedMessageId | src/function/displayed_message.ts:12-46 | an invalid option fails with the invalid-id message, no eligible message with the no-message message, both naming the option; a resolved id is at most the last message id and a valid index |
| DisplayedMessage.OptionText | src/function/displayed_message.ts:14 | how `You provided: ${message_id}` shows the option: the number in decimal, another value as itself, a keyword as its text |
| DisplayedMessage.ResolvedByOption | src/function/displayed_message.ts:18-46 | an index resolves exactly when it lies in `[0, last]`, and otherwise fails with the range message naming `last` and the id; `last` is the last message id; `last_user`/`last_char` resolve exactly when such a message exists |
| DisplayedMessage.ResolvedWithoutSwipes | src/function/displayed_message.ts:18-46 | with no message mid-swipe, an index resolves exactly when it indexes the chat and `last` is the newest message |
| DisplayedMessage.FormatAsDisplayedMessage | src/function/displayed_message.ts:8-52 | fails exactly when the id does not resolve, with its message; otherwise formats the text with the resolved message's name and flags |
| Search.PrimitiveText | src/panel/toolbox/variable_manager_deprecated/search.ts:33-43 | a string is matched as itself |
| Search.ValueMatchesSearch | src/panel/toolbox/variable_manager_deprecated/search.ts:51-80 | a hit is always a real match, an already visited object is never searched again, and on a tree not yet visited the result is exactly whether some node's text or key matches |
| Search.SearchItems | src/panel/toolbox/variable_manager_deprecated/search.ts:63-68 | an array matches exactly when an element does (on a tree) |
| Search.SearchEntries | src/panel/toolbox/variable_manager_deprecated/search.ts:69-78 | an object is marked visited and matches exactly when a key or a value does (on a tree) |
| Search.NodeMatchesSearch | src/panel/toolbox/variable_manager_deprecated/search.ts:85-94 | the node's name or its value matches |
| Search.EmptyQueryMatchesNothing | src/panel/toolbox/variable_manager_deprecated/search.ts:26 | an empty query matches no value |
| Search.TextMatchesIgnoresQueryCase | src/panel/toolbox/variable_manager_deprecated/search.ts:25-27 | the query's case does not matter |
| Audio.AudioStore.constructor | src/slash_command/audio.ts:61 | a player store with the given playlist, source, progress, playing flag and mode |
| Audio.ModeOf | src/slash_command/audio.ts:41-48 | the four accepted modes map to repeat-one, repeat-all, shuffle and play-one-and-stop; nothing else is accepted |
| Audio.ModeOfInjective | src/slash_command/audio.ts:41-48 | distinct accepted modes set distinct player modes |
| Audio.PlayFalseStillPlays | src/slash_command/audio.ts:25 | as written `play=false` still plays; the intended flag pauses |
| Audio.PlayFlag | src/slash_command/audio.ts:25 | the flag as written, `Boolean(args.play ?? 'true')`: a missing argument plays, and so does `false` |
| Audio.PlayRequested | src/slash_command/audio.ts:189-190 | the corrected flag the help text describes: a missing argument plays, `false` pauses |
| Audio.PlayFlagPausesOnlyOnEmpty | src/slash_command/audio.ts:25 | as written, only an empty `play` argument pauses |
| Audio.PlayRequestedAgreesElsewhere | src/slash_command/audio.ts:25 | the intended flag pauses exactly on `false` and agrees with the written one on every other non-empty or missing argument |
| Audio.AudioEnable | src/slash_command/audio.ts:13-15 | returns the empty text and does nothing |
| Audio.AudioPlay | src/slash_command/audio.ts:18-29 | an invalid type changes nothing; otherwise only that player's playing flag changes, to `Boolean(play ?? 'true')` as written |
| Audio.AudioMode | src/slash_command/audio.ts:32-50 | an invalid type or mode changes nothing; otherwise only that player's mode changes |
| Audio.PipelineExactly | src/slash_command/audio.ts:64-68 | the cleaned urls are distinct and are exactly the trimmed non-empty pieces not already listed |
| Audio.Uniq | src/slash_command/audio.ts:67 | no duplicates, same members |
| Audio.DropEmpty | src/slash_command/audio.ts:66 | `filter(url => url !== '')`: exactly the non-empty pieces |
| Audio.NewUrls | src/slash_command/audio.ts:63-68 | the urls `/audioimport` adds are distinct, non-empty and not already in the playlist |
| Audio.UniqKeepsOrder | src/slash_command/audio.ts:67 | `_.uniq` keeps the texts in the order of their first occurrence |
| Audio.UniqFirstOccurrences | src/slash_command/audio.ts:67 | each text of the result is listed once, at strictly increasing first positions in the input |
| Audio.DropEmptyKeepsOrder | src/slash_command/audio.ts:66 | dropping the empty pieces keeps the order of the others |
| Audio.DropListedKeepsOrder | src/slash_command/audio.ts:68 | dropping the urls already in the playlist keeps the order of the others |
| Audio.PipelineKeepsOrder | src/slash_command/audio.ts:63-68 | the cleaned urls keep the order in which they first appear among the trimmed pieces |
| Audio.PipelineMembers | src/slash_command/audio.ts:63-68 | a url is cleaned exactly when it is a trimmed piece, non-empty and not already listed |
| Audio.FirstNewPiece | src/slash_command/audio.ts:63-68 | the position of the first trimmed piece that is non-empty and not listed; every earlier piece is empty or listed; none when no piece qualifies |
| Audio.FirstNewIsHead | src/slash_command/audio.ts:63-71 | a list of exactly the new texts, in order of first occurrence, is empty exactly when there is no new text, and otherwise starts with the first one |
| Audio.PipelineHead | src/slash_command/audio.ts:63-71 | the cleaned urls are empty exactly when no piece is new, and otherwise start with the first new piece |
| Audio.NewUrlsHead | src/slash_command/audio.ts:63-79 | `/audioimport` adds nothing exactly when no comma piece is new; otherwise `urls[0]`, the url that plays, is the first comma piece that is non-empty after trimming and not already in the playlist |
| Audio.DropListed | src/slash_command/audio.ts:68 | exactly the urls not already in the playlist |
| Audio.TracksOf | src/slash_command/audio.ts:69 | one track per url, in order |
| Audio.NewUrlsExactly | src/slash_command/audio.ts:63-70 | the imported urls are distinct, and are exactly the trimmed non-empty comma-separated pieces not already in the playlist |
| Audio.ImportKeepsUrlsDistinct | src/slash_command/audio.ts:63-76 | importing keeps a playlist's urls distinct |
| Audio.AudioImport | src/slash_command/audio.ts:53-83 | an invalid type or nothing new changes nothing; otherwise the new tracks are appended and, when the as-written flag is true, the first comma piece that is new after trimming becomes the source and plays from 0 |
| Audio.ImportUrls | src/slash_command/audio.ts:71-81 | the store update of the import: tracks appended, and with the as-written flag true the first new url plays from 0 |
| Audio.AudioSelect | src/slash_command/audio.ts:86-100 | a missing url changes nothing; otherwise the url is added when new and played from 0 |
| Audio.SelectKeepsUrlsDistinct | src/slash_command/audio.ts:93-95 | selecting keeps the urls distinct and the url is then in the playlist |
| Search.IsSearching | src/panel/toolbox/variable_manager_deprecated/search.ts:10 | a search is on exactly for a non-empty text or a regular expression |
| Search.TextMatches | src/panel/toolbox/variable_manager_deprecated/search.ts:17-28 | a string query matches only when it is non-empty and no longer than the text |
| Search.ContainedTextMatches | src/panel/toolbox/variable_manager_deprecated/search.ts:25-27 | a text containing a non-empty query matches it |
| Enablement.Pull | src/panel/script/use_check_enablement_popup.ts:56-61 | every occurrence of the name is removed and nothing else; a list without it is unchanged |
| Enablement.PullKeepsNoDup | src/panel/script/use_check_enablement_popup.ts:56-61 | pulling keeps a list free of duplicates |
| Enablement.Renamed | src/panel/script/use_check_enablement_popup.ts:47-54 | a list holding the old name loses it and gains the new one at the end; any other list is unchanged |
| Enablement.RenamedContents | src/panel/script/use_check_enablement_popup.ts:47-54 | after a rename the new name is listed, the old one is not, and every other name is listed exactly when it was |
| Enablement.KeepListed | src/panel/script/use_check_enablement_popup.ts:67-68 | exactly the names still among the presets remain |
| Enablement.NameFromAvatar | src/panel/script/use_check_enablement_popup.ts:102-103 | the first `.png` is removed; an avatar without one is the name |
| Enablement.ScriptSettings.constructor | src/panel/script/use_check_enablement_popup.ts:9-15 | the four name lists as given |
| Enablement.ScriptSettings.OnPresetSwitched | src/panel/script/use_check_enablement_popup.ts:17-44 | prompts exactly when the preset has scripts, they are disabled and it was not prompted before; the name is then recorded, so the list stays free of duplicates; nothing else changes |
| Enablement.ScriptSettings.OnPresetRenamed | src/panel/script/use_check_enablement_popup.ts:46-55 | both preset lists are renamed independently; the character lists are unchanged |
| Enablement.ScriptSettings.OnPresetDeleted | src/panel/script/use_check_enablement_popup.ts:56-61 | the name leaves both preset lists |
| Enablement.ScriptSettings.OnPresetListChanged | src/panel/script/use_check_enablement_popup.ts:63-70 | on older hosts both preset lists keep only existing presets |
| Enablement.ScriptSettings.OnCharacterSwitched | src/panel/script/use_check_enablement_popup.ts:73-100 | as for presets, and no character means no prompt |
| Enablement.ScriptSettings.OnCharacterRenamed | src/panel/script/use_check_enablement_popup.ts:101-112 | both character lists are renamed by the avatars' names |
| Enablement.ScriptSettings.OnCharacterDeleted | src/panel/script/use_check_enablement_popup.ts:113-118 | the name leaves both character lists |
| Update.VersionCache.constructor | src/panel/main/update.ts:7 | nothing cached, nothing fetched |
| Update.VersionCache.GetLatestVersion | src/panel/main/update.ts:8-19 | a cached version is returned without a request; otherwise one request is made, a failed one is an error and leaves the cache, a successful one caches its version |
| Update.VersionCache.HasUpdate | src/panel/main/update.ts:21-23 | an answer is whether the latest version is greater than the installed one; no request when cached; a failed request is an error |
| Update.Substring | src/panel/main/update.ts:71 | always a slice of the text |
| Update.SubstringSymmetric | src/panel/main/update.ts:71 | reversed bounds give the same slice |
| Update.FindVersion | src/panel/main/update.ts:43 | the first header of that version, none exactly when no header has it |
| Update.FindAfter | src/panel/main/update.ts:51 | the first header after the start, none exactly when there is none |
| Update.SectionBounds | src/panel/main/update.ts:42-69 | when the installed version is not older, fails exactly without a header for the latest version, starts there and ends at the first header starting after it or at the end of the file; otherwise fails exactly when either header is missing and spans the two |
| Update.ChangelogBetween | src/panel/main/update.ts:35-72 | fails exactly when the bounds do; otherwise the trimmed text between them |
| Update.LatestSectionHasNoInnerHeader | src/panel/main/update.ts:49-52 | the latest-version section holds no other header |
| Update.LatestSectionReachesNextHeader | src/panel/main/update.ts:49-52 | with the headers in file order, the latest-version section ends at the header right after it, or at the end of the file |
| Update.OlderSectionEitherOrder | src/panel/main/update.ts:53-71 | the section between two versions is the same whichever header comes first in the file |
| PresetPath.SavedScenarioAsWritten | src/function/generate/generate.ts:30 | as written an empty scenario is saved as nothing |
| PresetPath.SavedScenario | src/function/generate/generate.ts:30 | the scenario is saved whatever it is |
| PresetPath.ScenarioRestored | src/function/generate/generate.ts:73-78 | saved as intended the character always gets its scenario back; as written it does exactly when that scenario is not empty |
| PresetPath.EmptyScenarioNotRestored | src/function/generate/generate.ts:30 | as written a character without a scenario keeps the override after the call |
| PresetPath.OverrideScenarioAsWritten | src/function/generate/generate.ts:27-32 | with a non-empty override and a character the override is written and the old scenario saved, as written; otherwise nothing is saved or changed |
| PresetPath.OverrideScenario | src/function/generate/generate.ts:27-32 | the same, saving the scenario whatever it is |
| PresetPath.RestoreScenario | src/function/generate/generate.ts:73-78 | a saved scenario is written back, else the character is left as it is |
| PresetPath.UserMessageTemp | src/function/generate/generate.ts:34-46 | a user message with the input; an image list is dropped, one image encoded, a missing image kept as given |
| PresetPath.MessageDataOf | src/function/generate/generate.ts:50-68 | the composer gets the base data's scenario and the chat with the user's message |
| PresetPath.Character.constructor | src/function/generate/generate.ts:24 | a character with the given scenario |
| PresetPath.HandlePresetPath | src/function/generate/generate.ts:17-79 | the chat gains the user's message in front; the composer sees the override while it runs; afterwards a non-empty scenario is back as it was, and an empty one saved as null keeps the override |
| InputProcessor.ProcessInitialUserInput | src/function/generate/inputProcessor.ts:19-27 | macros are expanded first; a non-empty result goes to the regex scripts, an empty one is replaced by the trimmed `send_if_empty` |
| InputProcessor.SendIfEmptyOnlyForEmptyInput | src/function/generate/inputProcessor.ts:19-27 | the `send_if_empty` setting matters only when the input expands to nothing |
| InputProcessor.BlankSettingGivesEmptyText | src/function/generate/inputProcessor.ts:19-27 | with a blank setting an empty input is sent as the scripts' output on the empty text |
| InputProcessor.ProcessUserInputWithImages | src/function/generate/inputProcessor.ts:37-67 | a non-empty image list gives a marker setup on the preset path and content parts on the raw path; anything else gives only the processed text |
| InputProcessor.MarkerPathMatchesDirectPath | src/function/generate/inputProcessor.ts:50-59 | the preset path's rewritten user message has the same parts as the raw path's, when the processed input has no underscore |
| GenerateIndex.Find | src/function/generate/index.ts:20 | the position of the key in the controller map, none exactly when it is absent |
| GenerateIndex.MapSetGet | src/function/generate/index.ts:148 | after `set` the key maps to the value, other keys are unchanged, keys stay distinct, and a new key goes to the end of the iteration order |
| GenerateIndex.MapSet | src/function/generate/index.ts:148 | `Map.set`: the size grows only for a new key, the pair is present, and every other entry keeps its place and value |
| GenerateIndex.MapSetPresent | src/function/generate/index.ts:148 | `set` on a registered id keeps the key set and order, gives the id the new controller and leaves every other id as it was |
| GenerateIndex.MapSetAbsent | src/function/generate/index.ts:148 | `set` on a new id appends it to the key order, gives it the controller and leaves every other id as it was |
| GenerateIndex.MapDeletePresent | src/function/generate/index.ts:23 | `delete` of a registered id shrinks the map by one, removes the id and leaves every other id as it was |
| GenerateIndex.MapDeleteGet | src/function/generate/index.ts:23 | after `delete` the key is absent, other keys are unchanged, and the size drops by one exactly when the key was present |
| GenerateIndex.MapDelete | src/function/generate/index.ts:23 | `Map.delete`: the size drops by one exactly for a present key, no entry is invented, and an absent key leaves the map as it was |
| GenerateIndex.SetThenDeleteNew | src/function/generate/index.ts:212 | registering a new id and deleting it leaves the map as it was |
| GenerateIndex.SetThenDeleteReused | src/function/generate/index.ts:212 | registering a reused id and deleting it drops the earlier registration too |
| GenerateIndex.Controller.constructor | src/function/generate/index.ts:147 | a controller not yet aborted |
| GenerateIndex.Controller.Abort | src/function/generate/index.ts:22 | the first abort reason is kept |
| GenerateIndex.GenerationRegistry.constructor | src/function/generate/index.ts:13 | no controllers and no events |
| GenerateIndex.GenerationRegistry.Set | src/function/generate/index.ts:148 | the id is registered with the controller |
| GenerateIndex.GenerationRegistry.Delete | src/function/generate/index.ts:212 | the id is removed |
| GenerateIndex.GenerationRegistry.StopGenerationById | src/function/generate/index.ts:19-28 | succeeds exactly when the id is registered; the controller is then aborted, removed and a stop event emitted; otherwise nothing changes |
| GenerateIndex.StopReason | src/function/generate/index.ts:22 | the abort reason `Generation ID '<id>' stopped` quotes the id at a fixed place, so distinct ids give distinct reasons |
| GenerateIndex.GenerationRegistry.StopAllGeneration | src/function/generate/index.ts:33-45 | every controller is aborted with one stop event each, in map order, and the map is emptied |
| GenerateIndex.GenerationRegistry.OnStopClicked | src/function/generate/index.ts:233-242 | when the host stopped a generation, every controller is aborted, the map emptied and generation unblocked; otherwise nothing changes |
| GenerateIndex.GenerationRegistry.Finish | src/function/generate/index.ts:209-217 | the id is removed and generation is unblocked exactly when no generation remains |
| GenerateIndex.FromOverrides | src/function/generate/index.ts:66-80 | without a chat-history part the note, history and depth-entry fields are absent |
| GenerateIndex.FromOverridesFields | src/function/generate/index.ts:66-80 | every filter field is read from its override, the last three from the chat-history part |
| GenerateIndex.MaxHistoryParam | src/function/generate/index.ts:96 | only a number is passed on |
| GenerateIndex.FromGenerateConfig | src/function/generate/index.ts:87-99 | the preset path, no order, streaming off unless asked, the history limit only when a number |
| GenerateIndex.FromGenerateRawConfig | src/function/generate/index.ts:106-119 | the raw path with the given order, and otherwise the same conversion |
| GenerateIndex.ConversionsDifferOnlyInPathAndOrder | src/function/generate/index.ts:87-119 | the two conversions agree on every field but the path and the order |
| GenerateIndex.GenerationId | src/function/generate/index.ts:146 | a non-empty given id is used, else a fresh one |
| GenerateIndex.IframeGenerate | src/function/generate/index.ts:134-218 | the outcome is passed through; the id is unregistered afterwards, generation unblocked when none remains, and a pending image wait is rejected with the error or "Generation stopped" and its listener removed |
| GenerateIndex.CleanupImageProcessing | src/function/generate/index.ts:50-59 | the listener and timer are removed and a pending image wait is rejected |
| Streaming.CountTrimEnd | src/function/generate/responseGenerator.ts:55-57 | trimming trailing whitespace keeps the count of a marker without whitespace |
| Streaming.CountAppend | src/function/generate/responseGenerator.ts:57 | appending text that cannot complete an earlier partial marker adds its own count |
| Streaming.ClosedCount | src/function/generate/responseGenerator.ts:57 | closing a trimmed text adds exactly the closing text's markers |
| Streaming.BalanceMarkerCounts | src/function/generate/responseGenerator.ts:53-59 | balancing one marker makes its count even and leaves the other markers' counts as they were |
| Streaming.BalanceMarker | src/function/generate/responseGenerator.ts:53-59 | a marker with an even count leaves the text as it is; an odd one keeps the text up to its trailing whitespace and ends it with the marker |
| Streaming.BalanceAll | src/function/generate/responseGenerator.ts:53-59 | the marker loop of `onProgressStreaming`, the markers taken in order, as the definition `BalanceIncrement` is proved against; it carries no contract of its own, because one makes every proof that mentions it far costlier, and what it does is stated by `BalanceAllStep`, `BalanceAllKeepsTrimmed`, `BalancedMarkersPaired` and `BalancedUnchanged` |
| Streaming.BalanceAllKeepsTrimmed | src/function/generate/responseGenerator.ts:53-59 | the loop only appends after `trimEnd`: the increment without its trailing whitespace is a prefix of the balanced one |
| Streaming.BalanceAllStep | src/function/generate/responseGenerator.ts:54-59 | balancing one more marker extends the loop by exactly one `BalanceMarker` step |
| Streaming.BalancedMarkersPaired | src/function/generate/responseGenerator.ts:53-59 | after balancing, `*`, `"` and code fences all occur an even number of times |
| Streaming.BalancedUnchanged | src/function/generate/responseGenerator.ts:55 | a text whose markers are all paired is left as it is |
| Streaming.NewText | src/function/generate/responseGenerator.ts:48 | the increment is the text beyond the buffer's length |
| Streaming.IncrementsRebuildText | src/function/generate/responseGenerator.ts:48-49 | for growing texts, the buffer followed by all increments is the last text |
| Streaming.EventBus.constructor | src/function/generate/responseGenerator.ts:61-68 | an empty event log |
| Streaming.Processed | src/function/generate/responseGenerator.ts:51-59 | a non-final increment is emitted with every marker paired |
| Streaming.TickEvents | src/function/generate/responseGenerator.ts:61-70 | the full text, then the processed increment, and for the final tick the cleaned message as before-end and ended |
| Streaming.StopIndex | src/function/generate/responseGenerator.ts:91-95 | a stop is seen at one of the chunks |
| Streaming.BalanceIncrement | src/function/generate/responseGenerator.ts:53-59 | non-final text is balanced, final text is kept |
| Streaming.StreamingProcessor.constructor | src/function/generate/responseGenerator.ts:36-44 | empty result and buffer, neither stopped nor finished |
| Streaming.StreamingProcessor.OnProgressStreaming | src/function/generate/responseGenerator.ts:46-71 | the buffer becomes the text and the tick's events are emitted; nothing else changes |
| Streaming.StreamingProcessor.OnErrorStreaming | src/function/generate/responseGenerator.ts:73-80 | the controller is aborted, the processor stopped, generation unblocked and the chat saved |
| Streaming.StreamingProcessor.Generate | src/function/generate/responseGenerator.ts:87-117 | a stop returns nothing and emits only tokens; a failure before finishing aborts, unblocks, saves and fails with `Generate method error`; otherwise the last chunk is returned and, unless stopped, its final events end the log |
| Streaming.StreamingProcessor.StreamChunks | src/function/generate/responseGenerator.ts:91-99 | stops exactly at the first chunk seen stopped, clearing the buffer; the result is the last chunk read; only token events are emitted |
| Streaming.StreamingProcessor.FinishStream | src/function/generate/responseGenerator.ts:101-116 | the final tick unless stopped, then finished; a failure before finishing is an error with the stop effects, one after is swallowed |
| ResponseGenerator.HandleResponse | src/function/generate/responseGenerator.ts:125-141 | succeeds exactly for a response without error, with the extracted message and its two end events; no response is "No response received"; an API error fails with its text, toasting only a non-empty one |
| ResponseGenerator.SetParamsPerKey | src/function/generate/responseGenerator.ts:175-188 | each parameter ends up as its own input says: unset, set, or left as in the preset |
| ResponseGenerator.SetParam | src/function/generate/responseGenerator.ts:175-182 | only the named key changes: removed for `unset`, set to a value, kept when absent or `same_as_preset` |
| ResponseGenerator.SetParams | src/function/generate/responseGenerator.ts:183-188 | a parameter that no input names keeps its preset value |
| ResponseGenerator.SetParamsIdempotent | src/function/generate/responseGenerator.ts:175-188 | applying the parameters twice is applying them once |
| ResponseGenerator.ParamInputsDistinct | src/function/generate/responseGenerator.ts:183-188 | the six parameters are distinct |
| ResponseGenerator.RequestData.constructor | src/function/generate/responseGenerator.ts:169 | the request settings as given |
| ResponseGenerator.ApplyCustomApi | src/function/generate/responseGenerator.ts:169-191 | url, source (default `openai`), key (default empty) and model are written, and the six parameters applied |
| ResponseGenerator.SetParamsInOrder | src/function/generate/responseGenerator.ts:183-188 | the parameters are applied in the source's order |
| ResponseGenerator.SettingsHook.constructor | src/function/generate/responseGenerator.ts:162 | no handler installed |
| ResponseGenerator.OaiSettings.constructor | src/function/generate/responseGenerator.ts:210 | the stream setting as given |
| ResponseGenerator.FireSettingsReady | src/function/generate/responseGenerator.ts:193 | a one-time handler applies the custom API and is gone afterwards; without one the request is unchanged |
| ResponseGenerator.RunStreaming | src/function/generate/responseGenerator.ts:209-222 | fails exactly on a failure without a stop, leaving streaming switched on; a stop returns nothing; otherwise the last chunk, with the setting restored |
| ResponseGenerator.RunBlocking | src/function/generate/responseGenerator.ts:223-229 | a failed request leaves streaming switched off; otherwise the setting is restored and the response handled |
| ResponseGenerator.SendRequest | src/function/generate/responseGenerator.ts:205-229 | the start event first, the custom-API handler applied once and removed, then the blocking or streaming outcome: a stopped stream gives no text, a finished one its last chunk |
| ResponseGenerator.GenerateResponse | src/function/generate/responseGenerator.ts:153-246 | send buttons deactivated first; a failed image wait fails with `Image processing failed` before any request; otherwise as `SendRequest`, a stopped stream giving no text and a finished one its last chunk; `INJECTION` prompts are always cleared and the handler removed |
| ResponseGenerator.ImageFailure | src/function/generate/responseGenerator.ts:198-203 | the image wait throws exactly when the image promise was rejected, with the `Image processing failed` message; that is its whole meaning |
| Strings.Trim | src/function/generate/utils.ts:94 | `trim()`: no longer than the text, and no whitespace at either end |
| Strings.Lower | src/panel/toolbox/variable_manager_deprecated/search.ts:25-27 | `toLowerCase()`, letter by letter, with the same length |
| Strings.ReplaceFirst | src/panel/script/use_check_enablement_popup.ts:102-103 | `replace` with a string pattern: a text without the pattern is unchanged, otherwise one occurrence is replaced |
| Strings.Split | src/slash_command/audio.ts:64 | `split`: always at least one piece |
| Strings.Count | src/function/generate/responseGenerator.ts:55 | the occurrence count, zero in a text shorter than the pattern |
| Strings.CountBound | src/function/generate/responseGenerator.ts:55 | at most one occurrence starts at each position where the pattern fits |
| Seqs.Reverse | src/function/generate/dataProcessor.ts:115 | `reverse()`: the same length, element `i` is element `n-1-i` of the input |
| Seqs.SliceTo | src/function/generate/dataProcessor.ts:119 | `slice(0, end)`: a prefix whose length clamps `end`, negative values counting from the end |

## Left out

- Image fetching and base64 encoding are a partial function of the host (`ImageHost`). The 30-second timeout of the image wait is an explicit `Timeout` step, not a clock.
- The asynchrony of the pipeline is not modelled. Each `await` is taken to have settled, and concurrent generations are not interleaved. `GenerateResponse` therefore requires that the image wait is no longer pending.
- The `Stopwatch` throttle of streaming ticks is not modelled. Whether a tick fires is an input per chunk (`fires`).
- `AbortController` signalling is not modelled. A controller only records its first abort reason. Where a stop reaches the streaming loop is an input (`stopAt`).
- `ChatCompletion.add` throws in the host when a collection does not fit the budget. That throw is not modelled: `Completion.ChatCompletion.Add` always places the collection and charges it.
- Squashing consecutive system messages is a host function (`squash`). The `CHAT_COMPLETION_PROMPT_READY` emit is not modelled, and neither is any filtering `getChat` does beyond reading the positions in order.
- `names_behavior` is not modelled: history messages are created without a name. Name validation and sanitising are host code.
- Numeric custom-API parameters and token counts are integers. Floating-point values such as `temperature` are modelled as `int`.
- `sendOpenAIRequest`, `cleanUpMessage`, `countOccurrences` (as `Count`), `uuidv4`, the regex and macro engines and `compare-versions` are host functions or inputs. For the stream path, a failure of the request itself is folded into the generator's `failure`.
- `onProgressStreaming` writes the cleaned message back into `data.text`. No caller reads it after the final tick, so the write is not modelled.
- The `RegExp` branch of `textMatches` is not modelled: its stateful `test` is foreign code. `Search.SearchQuery` keeps the case only for `isSearching`.
- `Search.ValueMatchesSearch`: the exact match result is stated for values without shared objects (`TreeShaped`). On shared or cyclic data, only soundness and the visited-set behaviour are stated.
- Number rendering in `Search` is an input (`Num(repr)`), since `String(n)` is host code.
- `getLastMessageId` belongs to the host's `macros.js`, which is not part of this model. `DisplayedMessage.LastMessageId` follows its default options: search backwards, skip a message whose swipe is still being generated, then apply the filter.
- `DisplayedMessage.OptionText`: a `message_id` that is a non-integer number is not represented, because `Index` holds an integer.
- `Audio.AudioSelect`: a type other than `bgm` or `ambient` selects no store and changes nothing. `get_store_by_type` is not part of this model.
- DOM, jQuery, modals and toasts are not modelled: `retrieveDisplayedMessage`, the popup contents and `toastr`. The click handler on the stop button is `OnStopClicked`, with the host's `stopGeneration` result as input. The error toast of `handleResponse` is an effect in the log.
- `update()` and the fetch of the changelog are network and UI code. The version headers that the changelog regex finds are an input, with their versions and offsets.
- The changelog section for an older installed version assumes that both headers exist. Otherwise an error is returned, as in the source.
- The `mesExamplesArray = []` assignment under the dialogue-examples filter (dataProcessor.ts:139-141) does not reach the returned record. `DataProcessor.ExamplesIgnoreWorldInfo` states this.
- `MessageData` leaves out the composer's constant fields `type`, `quietPrompt`, `quietImage` and `cyclePrompt`.
- `initSlashAudio`, the slash-command registration and the event pass-through commands are not modelled.
- `src/function/inject.ts` is not part of this model. `injectPrompts` is a host function on the extension prompts (`DataHost.inject`). The keys and ids it uses, the `filter` and `should_scan` options and the removal of once-only prompts are the registry's own.
- Case folding covers ASCII letters only: `Strings.Lower` leaves other letters as they are, while `toLowerCase` folds all of Unicode. So `Search.TextMatches` treats `É` and `é` as different where the source does not.
- `Update.VersionCache.GetLatestVersion`: a body that `JSON.parse` rejects, which throws, is not represented. Neither is a `version` field that is not a string. The manifest's version is an optional string.

## Findings

The pipeline members follow the source as written, and the corrected definitions are separate members:

- `HandlePresetPath` saves the scenario with `SavedScenarioAsWritten`;
- `AudioPlay`, `AudioImport` and `ImportUrls` use `PlayFlag`;
- `PersonaStore` uses `PersonaNoteAsWritten`.

| source | as written | input that shows it | evidently intended | confidence | as-written member | corrected member |
|---|---|---|---|---|---|---|
| src/slash_command/audio.ts:25 | the play flag is `Boolean(args.play ?? 'true')`, so every non-empty argument, including `false`, starts playback | `/audioplay type=bgm play=false` sets `playing` to true | `play=false` pauses: the help of `/audioplay` (audio.ts:189-190) gives `/audioplay type=ambient play=false` as "Pause current sound effect", and the help of `/audioimport` (audio.ts:274-275) gives `play=false` as "do not auto-play" | not executed | Audio.PlayFalseStillPlays | Audio.PlayRequestedAgreesElsewhere |
| src/function/generate/dataProcessor.ts:218-222 | the persona text is joined with the author's note store entry itself, an object, so the note's text is lost | persona `I am Bob` at the top of the note, note text `Be terse`: the note reads `I am Bob\n[object Object]` | the note's text: `I am Bob\nBe terse` | not executed | DataProcessor.PersonaNoteAsWrittenLosesNote | DataProcessor.PersonaNote |
| src/function/generate/generate.ts:30 | the original scenario is saved with a logical or that turns an empty scenario into `null`, and only a non-null save is restored | a character whose scenario is empty, with the override `Aboard a derelict ship`, keeps the override after generation | the character gets its own scenario back, even an empty one | not executed | PresetPath.EmptyScenarioNotRestored | PresetPath.ScenarioRestored |
