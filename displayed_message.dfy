/** Resolution and validation of the `message_id` option of
    `formatAsDisplayedMessage`: the keywords `'last'`, `'last_user'` and
    `'last_char'` resolve through the host's last-message search, a number is taken
    as it is, and anything outside `[0, last]` is an error. The host formatter is
    represented by the arguments it would receive. */
module DisplayedMessage {
  import opened Wrappers
  import opened Strings

  /** A chat message as the search sees it. `swipeInProgress` holds for a message that
      has swipes and whose current swipe is not among them yet (`swipe_id >=
      swipes.length`), that is, a swipe still being generated. */
  datatype ChatMessage = ChatMessage(name: string, isUser: bool, isSystem: bool, swipeInProgress: bool)

  /** The `message_id` option: one of the three keywords, a number, or any other value */
  datatype MessageIdOption = Last | LastUser | LastChar | Index(id: int) | Other(text: string)

  /** What `messageFormatting` is called with */
  datatype FormatCall = FormatCall(text: string, name: string, isSystem: bool, isUser: bool, messageId: nat)

  predicate IsUserMessage(m: ChatMessage) { m.isUser && !m.isSystem }

  predicate IsCharMessage(m: ChatMessage) { !m.isUser && !m.isSystem }

  predicate AnyMessage(m: ChatMessage) { true }

  /** A message the search may return: it passes `filter` and is not mid-swipe */
  predicate Eligible(m: ChatMessage, filter: ChatMessage -> bool) {
    !m.swipeInProgress && filter(m)
  }

  /** The host's `getLastMessageId({ filter })`, searching backwards and skipping a
      message whose swipe is in progress: the highest eligible index */
  function LastMessageId(chat: seq<ChatMessage>, filter: ChatMessage -> bool): (r: Option<nat>)
    ensures r.Some? ==> r.value < |chat| && Eligible(chat[r.value], filter)
    ensures r.Some? ==> forall j :: r.value < j < |chat| ==> !Eligible(chat[j], filter)
    ensures r.None? ==> forall j :: 0 <= j < |chat| ==> !Eligible(chat[j], filter)
  {
    if chat == [] then None
    else if Eligible(chat[|chat| - 1], filter) then Some(|chat| - 1)
    else LastMessageId(chat[..|chat| - 1], filter)
  }

  /** A filtered search never goes past the unfiltered one */
  lemma {:induction false} FilteredBelowLast(chat: seq<ChatMessage>, filter: ChatMessage -> bool)
    requires LastMessageId(chat, filter).Some?
    ensures LastMessageId(chat, AnyMessage).Some?
    ensures LastMessageId(chat, filter).value <= LastMessageId(chat, AnyMessage).value
  {
    var f := LastMessageId(chat, filter).value;
    assert Eligible(chat[f], AnyMessage);
  }

  /** With no message mid-swipe, the unfiltered search finds the newest message */
  lemma {:induction false} NoSwipeLastIsNewest(chat: seq<ChatMessage>)
    requires forall j :: 0 <= j < |chat| ==> !chat[j].swipeInProgress
    ensures chat == [] <==> LastMessageId(chat, AnyMessage).None?
    ensures chat != [] ==> LastMessageId(chat, AnyMessage) == Some(|chat| - 1)
  {
    if chat != [] {
      assert Eligible(chat[|chat| - 1], AnyMessage);
    }
  }

  /** How `You provided: ${message_id}` shows the option */
  function OptionText(option: MessageIdOption): (r: string)
    ensures option.Index? ==> r == IntToString(option.id)
    ensures option.Other? ==> r == option.text
  {
    match option
    case Last => "last"
    case LastUser => "last_user"
    case LastChar => "last_char"
    case Index(id) => IntToString(id)
    case Other(text) => text
  }

  /** The errors `formatAsDisplayedMessage` raises */
  function InvalidIdError(option: MessageIdOption): string {
    "The provided message_id is invalid. Please provide 'last', 'last_user', 'last_char', or a message index. You provided: "
    + OptionText(option)
  }

  function NoMessageError(option: MessageIdOption): string {
    "No message index found. You provided: " + OptionText(option)
  }

  /** A keyword whose search finds nothing; the option is still the keyword */
  const NoUserError := "No user message index found. You provided: last_user"
  const NoCharError := "No character message index found. You provided: last_char"

  /** The range error names the resolved id, followed by a space */
  function OutOfRangeError(last: nat, id: int): string {
    "The provided message_id is not within [0, " + IntToString(last) + "]. You provided: " + IntToString(id) + " "
  }

  /** The id a keyword or number resolves to, before the range check against `last` */
  function ResolveMessageId(option: MessageIdOption, chat: seq<ChatMessage>, last: nat): (r: Result<int>)
    requires !option.Other?
    ensures option.Index? ==> r == Ok(option.id)
    ensures option.Last? ==> r == Ok(last)
    ensures option.LastUser? ==> match LastMessageId(chat, IsUserMessage)
                                 case None => r == Err(NoUserError)
                                 case Some(id) => r == Ok(id as int)
    ensures option.LastChar? ==> match LastMessageId(chat, IsCharMessage)
                                 case None => r == Err(NoCharError)
                                 case Some(id) => r == Ok(id as int)
  {
    match option
    case Last => Ok(last)
    case LastUser =>
      (match LastMessageId(chat, IsUserMessage)
       case None => Err(NoUserError)
       case Some(id) => Ok(id))
    case LastChar =>
      (match LastMessageId(chat, IsCharMessage)
       case None => Err(NoCharError)
       case Some(id) => Ok(id))
    case Index(id) => Ok(id)
  }

  /** The message id `formatAsDisplayedMessage` settles on, with its error messages: an
      invalid option, no eligible message, a keyword whose search finds nothing, or an
      id outside `[0, last]` */
  function ResolvedMessageId(option: MessageIdOption, chat: seq<ChatMessage>): (r: Result<nat>)
    ensures option.Other? ==> r == Err(InvalidIdError(option))
    ensures !option.Other? && LastMessageId(chat, AnyMessage).None? ==> r == Err(NoMessageError(option))
    ensures chat == [] ==> r.Err?
    ensures r.Ok? ==> r.value <= LastMessageId(chat, AnyMessage).value < |chat|
  {
    if option.Other? then
      Err(InvalidIdError(option))
    else
      match LastMessageId(chat, AnyMessage)
      case None => Err(NoMessageError(option))
      case Some(last) =>
        var resolved := ResolveMessageId(option, chat, last);
        if resolved.Err? then Err(resolved.message)
        else if resolved.value < 0 || resolved.value > last then Err(OutOfRangeError(last, resolved.value))
        else Ok(resolved.value as nat)
  }

  /** What each option resolves to: a number is accepted exactly when it lies in
      `[0, last]`, `'last'` is the newest message not mid-swipe, and
      `'last_user'`/`'last_char'` are the newest such message of that sender, an error
      when there is none */
  lemma {:induction false} ResolvedByOption(option: MessageIdOption, chat: seq<ChatMessage>)
    ensures option.Index? ==> var r := ResolvedMessageId(option, chat);
                              var last := LastMessageId(chat, AnyMessage);
                              (r.Ok? <==> last.Some? && 0 <= option.id <= last.value) && (r.Ok? ==> r.value == option.id)
    ensures option.Index? && LastMessageId(chat, AnyMessage).Some?
            && !(0 <= option.id <= LastMessageId(chat, AnyMessage).value) ==>
              ResolvedMessageId(option, chat) == Err(OutOfRangeError(LastMessageId(chat, AnyMessage).value, option.id))
    ensures option.Last? ==> var r := ResolvedMessageId(option, chat);
                             match LastMessageId(chat, AnyMessage)
                             case None => r.Err?
                             case Some(last) => r == Ok(last)
    ensures option.LastUser? ==> match LastMessageId(chat, IsUserMessage)
                                 case None => ResolvedMessageId(option, chat).Err?
                                 case Some(id) => ResolvedMessageId(option, chat) == Ok(id)
    ensures option.LastChar? ==> match LastMessageId(chat, IsCharMessage)
                                 case None => ResolvedMessageId(option, chat).Err?
                                 case Some(id) => ResolvedMessageId(option, chat) == Ok(id)
  {
    if option.LastUser? && LastMessageId(chat, IsUserMessage).Some? {
      FilteredBelowLast(chat, IsUserMessage);
    }
    if option.LastChar? && LastMessageId(chat, IsCharMessage).Some? {
      FilteredBelowLast(chat, IsCharMessage);
    }
  }

  /** With no message mid-swipe, `'last'` is the newest message and a number resolves
      exactly when it indexes the chat */
  lemma {:induction false} ResolvedWithoutSwipes(option: MessageIdOption, chat: seq<ChatMessage>)
    requires forall j :: 0 <= j < |chat| ==> !chat[j].swipeInProgress
    ensures option.Index? ==> var r := ResolvedMessageId(option, chat);
                              (r.Ok? <==> 0 <= option.id < |chat|) && (r.Ok? ==> r.value == option.id)
    ensures option.Last? ==> var r := ResolvedMessageId(option, chat);
                             (r.Ok? <==> chat != []) && (r.Ok? ==> r.value == |chat| - 1)
  {
    NoSwipeLastIsNewest(chat);
    ResolvedByOption(option, chat);
  }

  /** `formatAsDisplayedMessage`: the formatter is called with the text and the sender
      fields of the resolved message, or the resolution's error is raised */
  function FormatAsDisplayedMessage(text: string, option: MessageIdOption, chat: seq<ChatMessage>): (r: Result<FormatCall>)
    ensures r.Err? <==> ResolvedMessageId(option, chat).Err?
    ensures r.Err? ==> r.message == ResolvedMessageId(option, chat).message
    ensures r.Ok? ==> var id := ResolvedMessageId(option, chat).value;
                      r.value.messageId == id && r.value.text == text && r.value.name == chat[id].name
                      && r.value.isSystem == chat[id].isSystem && r.value.isUser == chat[id].isUser
  {
    match ResolvedMessageId(option, chat)
    case Err(e) => Err(e)
    case Ok(id) =>
      var m := chat[id];
      Ok(FormatCall(text, m.name, m.isSystem, m.isUser, id))
  }
}
