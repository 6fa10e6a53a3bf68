/** The helpers of the generation pipeline: the override filter, dialogue-example
    parsing, text extraction from a completion response, role codes, user-input
    preprocessing, the host's extension-prompt store with its temporary user message
    and prefix clearing, image conversion, and the handler that rewrites the marked
    user message into text and image parts. */
module GenUtils {
  import opened Wrappers
  import opened Strings
  import opened GenTypes

  // ---------------------------------------------------------------- filters

  /** `isPromptFiltered(promptId, {overrides})` */
  function IsPromptFiltered(id: string, overrides: Option<OverrideConfig>): (r: bool)
    ensures overrides.None? ==> !r
    ensures overrides.Some? && id == "with_depth_entries" ==> (r <==> overrides.value.withDepthEntries == Some(false))
    ensures overrides.Some? && id == "chat_history" ==>
              (r <==> overrides.value.chatHistory.Some? && overrides.value.chatHistory.value == [])
    ensures overrides.Some? && id != "with_depth_entries" && id != "chat_history" ==>
              (r <==> FieldOf(overrides.value, id) == FieldText(""))
  {
    if overrides.None? then false
    else if id == "with_depth_entries" then overrides.value.withDepthEntries == Some(false)
    else if id == "chat_history" then
      match overrides.value.chatHistory
      case None => false
      case Some(prompts) => |prompts| == 0
    else
      match FieldOf(overrides.value, id)
      case FieldText(text) => text == ""
      case _ => false
  }

  /** Each text slot is filtered exactly when its override is the empty string; an id
      the configuration has no field for is never filtered */
  lemma {:induction false} SlotFilteredIffEmpty(o: OverrideConfig)
    ensures IsPromptFiltered("scenario", Some(o)) <==> o.scenario == Some("")
    ensures IsPromptFiltered("char_description", Some(o)) <==> o.charDescription == Some("")
    ensures IsPromptFiltered("char_personality", Some(o)) <==> o.charPersonality == Some("")
    ensures IsPromptFiltered("persona_description", Some(o)) <==> o.personaDescription == Some("")
    ensures IsPromptFiltered("world_info_before", Some(o)) <==> o.worldInfoBefore == Some("")
    ensures IsPromptFiltered("world_info_after", Some(o)) <==> o.worldInfoAfter == Some("")
    ensures IsPromptFiltered("dialogue_examples", Some(o)) <==> o.dialogueExamples == Some("")
    ensures IsPromptFiltered("author_note", Some(o)) <==> o.authorNote == Some("")
    ensures !IsPromptFiltered("char_depth_prompt", Some(o))
  {
    assert FieldOf(o, "scenario") == TextField(o.scenario);
    assert FieldOf(o, "char_description") == TextField(o.charDescription);
    assert FieldOf(o, "char_personality") == TextField(o.charPersonality);
    assert FieldOf(o, "persona_description") == TextField(o.personaDescription);
    assert FieldOf(o, "world_info_before") == TextField(o.worldInfoBefore);
    assert FieldOf(o, "world_info_after") == TextField(o.worldInfoAfter);
    assert FieldOf(o, "dialogue_examples") == TextField(o.dialogueExamples);
    assert FieldOf(o, "author_note") == TextField(o.authorNote);
    assert FieldOf(o, "char_depth_prompt") == FieldAbsent;
  }

  // ------------------------------------------------------ dialogue examples

  const StartTag: string := "<START>"
  const BlockHeading: string := "<START>\n"

  /** The examples text with a heading prepended when it does not start with one */
  function HeadedText(s: string): (text: string)
    ensures StartsWith(text, StartTag)
  {
    if StartsWith(s, StartTag) then s else BlockHeading + Trim(s)
  }

  /** Every split piece but the first, trimmed and framed by a heading and a newline */
  function Blocks(parts: seq<string>): (r: seq<string>)
    requires |parts| >= 1
    ensures |r| == |parts| - 1
    ensures forall i :: 0 <= i < |r| ==> BlockHeading <= r[i] && r[i][|r[i]| - 1] == '\n'
  {
    seq(|parts| - 1, i requires 0 <= i < |parts| - 1 => BlockHeading + Trim(parts[i + 1]) + "\n")
  }

  /** `parseMesExamples`: the examples text split into blocks at every `<START>`
      (ignoring case), each block trimmed and framed by a heading and a newline */
  function ParseMesExamples(s: string): (r: seq<string>)
    ensures forall i :: 0 <= i < |r| ==> BlockHeading <= r[i] && r[i][|r[i]| - 1] == '\n'
  {
    if |s| == 0 || s == StartTag then [] else Blocks(Split(HeadedText(s), StartTag, true))
  }

  /** Text starting with the tag splits into an empty piece and at least one block */
  lemma {:induction false} SplitAtLeadingTag(text: string)
    requires StartsWith(text, StartTag)
    ensures |Split(text, StartTag, true)| >= 2
  {
    assert text[..|StartTag|] == StartTag;
    assert Matches(text, StartTag, 0, true);
  }

  /** No examples come out exactly for the empty text and for a lone `<START>` */
  lemma {:induction false} ParseMesExamplesEmptyIff(s: string)
    ensures ParseMesExamples(s) == [] <==> s == "" || s == StartTag
  {
    if |s| != 0 && s != StartTag {
      SplitAtLeadingTag(HeadedText(s));
    }
  }

  /** Text without a leading `<START>` and with no tag inside becomes one block, with
      the heading prepended */
  lemma {:induction false} ParseMesExamplesSingleBlock(s: string)
    requires s != "" && !StartsWith(s, StartTag)
    requires FirstMatch(Trim(s), StartTag, 0, true).None?
    ensures ParseMesExamples(s) == [BlockHeading + Trim(s) + "\n"]
  {
    var t := Trim(s);
    assert s != StartTag;
    assert HeadedText(s) == BlockHeading + t;
    SplitHeadedText(t);
    BlocksOfTwo("", "\n" + t);
    TrimAfterNewline(s);
  }

  /** A heading in front of a text with no tag splits into an empty piece and the rest */
  lemma {:induction false} SplitHeadedText(t: string)
    requires FirstMatch(t, StartTag, 0, true).None?
    ensures Split(BlockHeading + t, StartTag, true) == ["", "\n" + t]
  {
    SplitLeadingTag(BlockHeading + t);
    assert (BlockHeading + t)[|StartTag|..] == "\n" + t;
    NoTagAfterNewline(t);
  }

  lemma {:induction false} BlocksOfTwo(a: string, b: string)
    ensures Blocks([a, b]) == [BlockHeading + Trim(b) + "\n"]
  {
    var r := Blocks([a, b]);
    assert |r| == 1;
    assert r[0] == BlockHeading + Trim([a, b][1]) + "\n";
  }

  lemma {:induction false} TrimAfterNewline(s: string)
    ensures Trim("\n" + Trim(s)) == Trim(s)
  {
    TrimLeadingSpace('\n', Trim(s));
    TrimIdempotent(s);
  }

  /** A text starting with the tag splits into an empty piece and the split of the rest */
  lemma {:induction false} SplitLeadingTag(text: string)
    requires StartsWith(text, StartTag)
    ensures Split(text, StartTag, true) == [""] + Split(text[|StartTag|..], StartTag, true)
  {
    assert text[..|StartTag|] == StartTag;
    assert Matches(text, StartTag, 0, true);
  }

  /** A leading newline adds no tag match to a text that has none */
  lemma {:induction false} NoTagAfterNewline(t: string)
    requires FirstMatch(t, StartTag, 0, true).None?
    ensures FirstMatch("\n" + t, StartTag, 0, true).None?
    ensures Split("\n" + t, StartTag, true) == ["\n" + t]
  {
    forall j: nat
      ensures !Matches("\n" + t, StartTag, j, true)
    {
      NoTagAtAfterNewline(t, j);
    }
  }

  lemma {:induction false} NoTagAtAfterNewline(t: string, j: nat)
    requires FirstMatch(t, StartTag, 0, true).None?
    ensures !Matches("\n" + t, StartTag, j, true)
  {
    if j == 0 {
      NoTagAtNewline(t);
    } else {
      MatchesAfterChar('\n', t, StartTag, j - 1, true);
    }
  }

  lemma {:induction false} NoTagAtNewline(t: string)
    ensures !Matches("\n" + t, StartTag, 0, true)
  {
    var rest := "\n" + t;
    if |StartTag| <= |rest| {
      assert Lower(rest[0..|StartTag|])[0] == '\n';
    }
  }

  // ------------------------------------------------- response text extraction

  /** A completion response: a bare string, or an object whose five candidate text
      paths are each absent (`null`/`undefined`) or a string */
  datatype ResponseData =
    | TextResponse(text: string)
    | ObjectResponse(choiceMessageContent: Option<string>, choiceText: Option<string>, topText: Option<string>,
                     messageContentText: Option<string>, toolPlan: Option<string>)

  function Paths(d: ResponseData): seq<Option<string>>
    requires d.ObjectResponse?
  {
    [d.choiceMessageContent, d.choiceText, d.topText, d.messageContentText, d.toolPlan]
  }

  /** Path `k` is the first one present */
  predicate FirstPresentAt(ps: seq<Option<string>>, k: nat) {
    k < |ps| && ps[k].Some? && forall j :: 0 <= j < k ==> ps[j].None?
  }

  /** `extractMessageFromData`: a string is returned as is; otherwise the `??` chain over
      the five paths, with `''` when all are absent */
  function ExtractMessageFromData(d: ResponseData): (r: string)
    ensures d.TextResponse? ==> r == d.text
    ensures d.ObjectResponse? ==>
              (exists k: nat :: FirstPresentAt(Paths(d), k) && r == Paths(d)[k].value)
              || ((forall k :: 0 <= k < 5 ==> Paths(d)[k].None?) && r == "")
  {
    match d
    case TextResponse(text) => text
    case ObjectResponse(a, b, c, e, f) =>
      if a.Some? then (assert FirstPresentAt(Paths(d), 0); a.value)
      else if b.Some? then (assert FirstPresentAt(Paths(d), 1); b.value)
      else if c.Some? then (assert FirstPresentAt(Paths(d), 2); c.value)
      else if e.Some? then (assert FirstPresentAt(Paths(d), 3); e.value)
      else if f.Some? then (assert FirstPresentAt(Paths(d), 4); f.value)
      else ""
  }

  /** Only absence falls through: an empty string at an earlier path is the result */
  lemma {:induction false} EmptyEarlierPathWins(d: ResponseData)
    requires d.ObjectResponse? && d.choiceMessageContent == Some("")
    ensures ExtractMessageFromData(d) == ""
  {
  }

  // ------------------------------------------------------------ roles, input

  /** `getPromptRole`: role codes 0, 1, 2; any other code is the system role */
  function GetPromptRole(code: int): (r: Role)
    ensures 0 <= code < 3 ==> RoleCode(r) == code
    ensures !(0 <= code < 3) ==> r == System
  {
    if code == 0 then System
    else if code == 1 then User
    else if code == 2 then Assistant
    else System
  }

  /** `getPromptRole` inverts `roleTypes` */
  lemma {:induction false} GetPromptRoleInvertsRoleCode(r: Role)
    ensures GetPromptRole(RoleCode(r)) == r
  {
  }

  /** `processUserInput`: an empty input is replaced by the trimmed `send_if_empty`
      setting, then the user-input regex scripts (`regex`) run */
  function ProcessUserInput(input: string, sendIfEmpty: string, regex: string -> string): (r: string)
    ensures input != "" ==> r == regex(input)
    ensures input == "" ==> r == regex(Trim(sendIfEmpty))
  {
    regex(if input == "" then Trim(sendIfEmpty) else input)
  }

  // --------------------------------------------------- extension prompt store

  /** An entry of the host's `extension_prompts` */
  datatype ExtensionPrompt = ExtensionPrompt(value: string, position: int, depth: int, scan: bool, role: int)

  /** The host's `extension_prompt_types.IN_PROMPT` and `IN_CHAT` */
  const InPrompt: int := 0
  const InChat: int := 1

  const TempUserMessage: string := "TEMP_USER_MESSAGE"

  predicate AnyPrefixed(key: string, prefixes: seq<string>) {
    exists p :: p in prefixes && StartsWith(key, p)
  }

  /** The store with every key starting with one of `prefixes` deleted */
  function WithoutPrefixed(m: map<string, ExtensionPrompt>, prefixes: seq<string>): (r: map<string, ExtensionPrompt>)
    ensures forall k :: k in r <==> k in m && !AnyPrefixed(k, prefixes)
    ensures forall k :: k in r ==> r[k] == m[k]
  {
    map k | k in m && !AnyPrefixed(k, prefixes) :: m[k]
  }

  /** Clearing is idempotent, and clearing `'INJECTION'` keeps the temporary user
      message */
  lemma {:induction false} ClearingProperties(m: map<string, ExtensionPrompt>, prefixes: seq<string>)
    ensures WithoutPrefixed(WithoutPrefixed(m, prefixes), prefixes) == WithoutPrefixed(m, prefixes)
    ensures TempUserMessage in m ==> TempUserMessage in WithoutPrefixed(m, ["INJECTION"])
  {
    if TempUserMessage in m {
      assert TempUserMessage[0] != "INJECTION"[0];
      assert forall p :: p in ["INJECTION"] ==> p == "INJECTION";
    }
  }

  /** The host's extension-prompt registry (`extension_prompts`) */
  class ExtensionPromptStore {
    var prompts: map<string, ExtensionPrompt>

    constructor(prompts: map<string, ExtensionPrompt>)
      ensures this.prompts == prompts
    {
      this.prompts := prompts;
    }

    /** `setExtensionPrompt(key, value, position, depth, scan, role)` */
    method Set(key: string, value: string, position: int, depth: int, scan: bool, role: int)
      modifies this
      ensures prompts == old(prompts)[key := ExtensionPrompt(value, position, depth, scan, role)]
    {
      prompts := prompts[key := ExtensionPrompt(value, position, depth, scan, role)];
    }

    /** `addTemporaryUserMessage`: scanned, in-prompt, depth 0, role code 1 */
    method AddTemporaryUserMessage(content: string)
      modifies this
      ensures prompts == old(prompts)[TempUserMessage := ExtensionPrompt(content, InPrompt, 0, true, 1)]
    {
      Set(TempUserMessage, content, InPrompt, 0, true, 1);
    }

    /** `removeTemporaryUserMessage`: the entry stays, with an empty value */
    method RemoveTemporaryUserMessage()
      modifies this
      ensures prompts == old(prompts)[TempUserMessage := ExtensionPrompt("", InPrompt, 0, true, 1)]
    {
      Set(TempUserMessage, "", InPrompt, 0, true, 1);
    }

    /** `clearInjectionPrompts(prefixes)`: deletes the keys with one of the prefixes */
    method ClearInjectionPrompts(prefixes: seq<string>)
      modifies this
      ensures prompts == WithoutPrefixed(old(prompts), prefixes)
    {
      ghost var original := prompts;
      var keys := prompts.Keys;
      while keys != {}
        invariant keys <= original.Keys
        invariant forall k :: k in prompts <==> k in original && (k in keys || !AnyPrefixed(k, prefixes))
        invariant forall k :: k in prompts ==> prompts[k] == original[k]
        decreases keys
      {
        var k :| k in keys;
        if AnyPrefixed(k, prefixes) {
          prompts := prompts - {k};
        }
        keys := keys - {k};
      }
    }
  }

  // ------------------------------------------------------------------ images

  /** The host's image services: `isDataURL`, and fetching plus base64 encoding, which
      may fail (`None`) */
  datatype ImageHost = ImageHost(isDataUrl: string -> bool, encode: ImageSource -> Option<string>)

  /** `convertFileToBase64`: a data-URL string is passed through, anything else is
      fetched and encoded */
  function ConvertFileToBase64(img: ImageSource, host: ImageHost): (r: Option<string>)
    ensures img.ImageText? && host.isDataUrl(img.text) ==> r == Some(img.text)
    ensures !(img.ImageText? && host.isDataUrl(img.text)) ==> r == host.encode(img)
  {
    if img.ImageText? && host.isDataUrl(img.text) then Some(img.text) else host.encode(img)
  }

  /** `oai_settings.inline_image_quality || 'low'` */
  function ImageQuality(setting: string): (q: string)
    ensures Truthy(q)
    ensures Truthy(setting) ==> q == setting
  {
    if Truthy(setting) then setting else "low"
  }

  /** The `image_url` part one image contributes: none when conversion fails or yields
      an empty string */
  function ImagePart(img: ImageSource, host: ImageHost, quality: string): seq<ContentPart> {
    match ConvertFileToBase64(img, host)
    case Some(url) => if Truthy(url) then [ImageUrlPart(url, quality)] else []
    case None => []
  }

  /** The converted images, in input order, failures skipped */
  function ImageParts(imgs: seq<ImageSource>, host: ImageHost, quality: string): (r: seq<ContentPart>)
    ensures |r| <= |imgs|
    ensures forall i :: 0 <= i < |r| ==> r[i].ImageUrlPart? && r[i].detail == quality && Truthy(r[i].url)
  {
    if imgs == [] then [] else ImagePart(imgs[0], host, quality) + ImageParts(imgs[1..], host, quality)
  }

  lemma {:induction false} ImagePartsAppend(a: seq<ImageSource>, b: seq<ImageSource>, host: ImageHost, quality: string)
    ensures ImageParts(a + b, host, quality) == ImageParts(a, host, quality) + ImageParts(b, host, quality)
  {
    if a == [] {
      assert a + b == b;
    } else {
      assert (a + b)[0] == a[0];
      assert (a + b)[1..] == a[1..] + b;
      ImagePartsAppend(a[1..], b, host, quality);
      calc {
        ImageParts(a + b, host, quality);
        ImagePart(a[0], host, quality) + ImageParts(a[1..] + b, host, quality);
        ImagePart(a[0], host, quality) + (ImageParts(a[1..], host, quality) + ImageParts(b, host, quality));
        (ImagePart(a[0], host, quality) + ImageParts(a[1..], host, quality)) + ImageParts(b, host, quality);
      }
    }
  }

  /** A failing image is skipped without affecting the others */
  lemma {:induction false} FailedImageSkipped(pre: seq<ImageSource>, img: ImageSource, post: seq<ImageSource>, host: ImageHost, quality: string)
    requires ConvertFileToBase64(img, host).None?
    ensures ImageParts(pre + [img] + post, host, quality) == ImageParts(pre, host, quality) + ImageParts(post, host, quality)
  {
    ImagePartsAppend(pre + [img], post, host, quality);
    ImagePartsAppend(pre, [img], host, quality);
  }

  /** Non-empty data URLs pass through unchanged, one part each, in order */
  lemma {:induction false} DataUrlsPassThrough(imgs: seq<ImageSource>, host: ImageHost, quality: string)
    requires forall i :: 0 <= i < |imgs| ==> imgs[i].ImageText? && host.isDataUrl(imgs[i].text) && imgs[i].text != ""
    ensures ImageParts(imgs, host, quality) == seq(|imgs|, i requires 0 <= i < |imgs| => ImageUrlPart(imgs[i].text, quality))
  {
    if imgs != [] {
      DataUrlsPassThrough(imgs[1..], host, quality);
    }
  }

  /** `processImageArrayDirectly`: the text part first, then the converted images */
  function ProcessImageArrayDirectly(input: string, imgs: seq<ImageSource>, host: ImageHost, qualitySetting: string)
    : (r: seq<ContentPart>)
    ensures |r| >= 1 && r[0] == TextPart(input)
    ensures forall i :: 1 <= i < |r| ==> r[i].ImageUrlPart?
    ensures r[1..] == ImageParts(imgs, host, ImageQuality(qualitySetting))
  {
    [TextPart(input)] + ImageParts(imgs, host, ImageQuality(qualitySetting))
  }

  // ------------------------------------------------- image-array marker handler

  const ImageMarker: string := "__IMG_ARRAY_MARKER_"

  /** A message of the chat the host hands to `chat_completion_prompt_ready` listeners */
  datatype WireMessage = WireMessage(role: string, content: Content)

  /** A user message whose string content contains the marker */
  predicate IsMarked(m: WireMessage) {
    m.role == "user" && m.content.Plain? && Contains(m.content.text, ImageMarker)
  }

  /** The last marked message */
  function LastMarked(chat: seq<WireMessage>): (r: Option<nat>)
    ensures r.Some? ==> r.value < |chat| && IsMarked(chat[r.value])
    ensures r.Some? ==> forall j :: r.value < j < |chat| ==> !IsMarked(chat[j])
    ensures r.None? ==> forall j :: 0 <= j < |chat| ==> !IsMarked(chat[j])
  {
    if chat == [] then None
    else if IsMarked(chat[|chat| - 1]) then Some(|chat| - 1)
    else LastMarked(chat[..|chat| - 1])
  }

  /** The marked message rewritten: the first marker removed from its text, followed by
      the converted images */
  function Rewritten(m: WireMessage, imgs: seq<ImageSource>, host: ImageHost, quality: string): (r: WireMessage)
    requires m.content.Plain?
    ensures r.role == m.role && r.content.Parts?
    ensures r.content.parts == [TextPart(ReplaceFirst(m.content.text, ImageMarker, ""))] + ImageParts(imgs, host, quality)
  {
    m.(content := Parts([TextPart(ReplaceFirst(m.content.text, ImageMarker, ""))] + ImageParts(imgs, host, quality)))
  }

  /** Removing the first marker from an input with the marker appended gives the input
      back when the input has no underscore (the marker cannot start inside it) */
  lemma {:induction false} MarkerRemovalRestoresInput(input: string)
    requires '_' !in input
    ensures ReplaceFirst(input + ImageMarker, ImageMarker, "") == input
  {
    var s := input + ImageMarker;
    forall j: nat | j < |input|
      ensures !OccursAt(s, ImageMarker, j)
    {
      assert s[j] == input[j];
    }
    assert OccursAt(s, ImageMarker, |input|);
    assert IndexOf(s, ImageMarker) == Some(|input|);
    assert s[..|input|] == input;
  }

  datatype PromiseState = Pending | Resolved | Rejected(reason: string)

  /** The object `setupImageArrayProcessing` returns, with the state its closures share:
      the promise, the timeout and whether the one-shot listener is still attached */
  class ImageArraySetup {
    const images: seq<ImageSource>
    const userInputWithMarker: string
    var promise: PromiseState
    /** `timeoutId !== null` */
    var timerPending: bool
    /** `isHandlerRegistered` */
    var handlerRegistered: bool
    /** The handler is still attached to the event bus (it detaches itself after firing once) */
    var listening: bool

    constructor(input: string, images: seq<ImageSource>)
      ensures this.images == images && userInputWithMarker == input + ImageMarker
      ensures promise == Pending && !timerPending && handlerRegistered && listening
    {
      this.images := images;
      userInputWithMarker := input + ImageMarker;
      promise := Pending;
      timerPending := false;
      handlerRegistered := true;
      listening := true;
    }

    /** `resolveImageProcessing`: a promise settles once */
    method Resolve()
      modifies this
      ensures promise == if old(promise).Pending? then Resolved else old(promise)
      ensures timerPending == old(timerPending) && handlerRegistered == old(handlerRegistered)
      ensures listening == old(listening)
    {
      if promise.Pending? {
        promise := Resolved;
      }
    }

    /** `rejectImageProcessing(reason)` */
    method Reject(reason: string)
      modifies this
      ensures promise == if old(promise).Pending? then Rejected(reason) else old(promise)
      ensures timerPending == old(timerPending) && handlerRegistered == old(handlerRegistered)
      ensures listening == old(listening)
    {
      if promise.Pending? {
        promise := Rejected(reason);
      }
    }

    /** The 30-second timeout firing */
    method Timeout()
      requires timerPending
      modifies this
      ensures !timerPending
      ensures promise == if old(promise).Pending? then Rejected("Image processing timed out") else old(promise)
      ensures handlerRegistered == old(handlerRegistered) && listening == old(listening)
    {
      timerPending := false;
      Reject("Image processing timed out");
    }

    /** `imageArrayHandler`: scanning from the last message backwards, the first marked
        user message is rewritten and the promise resolves; with no marked message the
        chat is unchanged, the promise still resolves and the timeout stays armed */
    method Handle(chat: array<WireMessage>, host: ImageHost, qualitySetting: string)
      requires listening
      modifies this, chat
      ensures LastMarked(old(chat[..])).None? ==> chat[..] == old(chat[..]) && timerPending
      ensures LastMarked(old(chat[..])).Some? ==>
                var k := LastMarked(old(chat[..])).value;
                chat[..] == old(chat[..])[k := Rewritten(old(chat[k]), images, host, ImageQuality(qualitySetting))]
                && !timerPending
      ensures promise == if old(promise).Pending? then Resolved else old(promise)
      ensures !listening && handlerRegistered == old(handlerRegistered)
    {
      listening := false;
      timerPending := true;
      var i := chat.Length - 1;
      while i >= 0
        invariant -1 <= i < chat.Length
        invariant chat[..] == old(chat[..])
        invariant forall j :: i < j < chat.Length ==> !IsMarked(chat[j])
        invariant promise == old(promise) && timerPending && !listening && handlerRegistered == old(handlerRegistered)
      {
        var message := chat[i];
        if message.role == "user" && message.content.Plain? && Contains(message.content.text, ImageMarker) {
          assert LastMarked(chat[..]) == Some(i) by {
            LastMarkedIs(chat[..], i);
          }
          chat[i] := Rewritten(message, images, host, ImageQuality(qualitySetting));
          timerPending := false;
          Resolve();
          return;
        }
        i := i - 1;
      }
      Resolve();
    }

    /** `cleanup`: clears the timeout and detaches the handler once */
    method Cleanup()
      modifies this
      ensures !timerPending
      ensures !handlerRegistered
      ensures listening == (old(listening) && !old(handlerRegistered))
      ensures promise == old(promise)
    {
      timerPending := false;
      if handlerRegistered {
        listening := false;
        handlerRegistered := false;
      }
    }
  }

  /** A marked message with no marked message after it is the last marked one */
  lemma {:induction false} LastMarkedIs(chat: seq<WireMessage>, i: nat)
    requires i < |chat| && IsMarked(chat[i])
    requires forall j :: i < j < |chat| ==> !IsMarked(chat[j])
    ensures LastMarked(chat) == Some(i)
  {
    if i != |chat| - 1 {
      LastMarkedIs(chat[..|chat| - 1], i);
    }
  }
}
