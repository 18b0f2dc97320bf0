/** The `Messages` component: the header, count and list it derives from the
    store, the send form's disabled rule, and `formHandler`, which sends the
    input through the socket API and clears it. */
module Messages {
  import opened ChatTypes
  import opened Text
  import opened Projections

  /** The signed-in user as the authentication hook gives it. */
  datatype User = User(username: string)

  /** The header: the current channel's name, or the loading text while the
      store has no channel with the current id. */
  datatype ChannelHeading = Loading | Heading(name: string)

  function CurrentChannelHeading(channels: seq<Channel>, currentChannelId: Option<int>): (h: ChannelHeading)
    ensures h == Loading <==> forall c :: c in channels ==> Some(c.id) != currentChannelId
    ensures h.Heading? ==> exists c :: c in channels && Some(c.id) == currentChannelId && c.name == h.name
    ensures forall j :: 0 <= j < |channels| && Some(channels[j].id) == currentChannelId
                        && (forall i :: 0 <= i < j ==> Some(channels[i].id) != currentChannelId)
                        ==> h == Heading(channels[j].name)
  {
    match FindChannel(channels, currentChannelId)
    case None => Loading
    case Some(c) => Heading(c.name)
  }

  /** `disabled={!inputValue}`: only the empty string disables the button. */
  predicate SubmitDisabled(inputValue: string) {
    inputValue == ""
  }

  /** The disabled rule does not trim: whitespace-only input is blank yet
      can be submitted, while a disabled input is always blank. */
  lemma SubmitDisabledIgnoresWhitespace(inputValue: string)
    ensures SubmitDisabled(inputValue) ==> Blank(inputValue)
    ensures Blank(" ") && !SubmitDisabled(" ")
  {
    assert AllWhitespace(" ");
  }

  /** `msg.username === user.username` in MessageItem. */
  predicate IsCurrentUser(msg: Message, user: User) {
    msg.username == user.username
  }

  /** A message this user sent through the form, once echoed back into the
      store under the draft's sender, is shown as the current user's, and as
      no other user's. */
  lemma OwnEchoIsCurrentUser(d: MessageDraft, user: User, other: User, m: Message)
    requires d.username == user.username
    requires m.username == d.username
    ensures IsCurrentUser(m, user)
    ensures IsCurrentUser(m, other) <==> other.username == user.username
  {
  }

  /** The message list and its count agree: the count is the length of the
      list shown, which lists exactly the current channel's messages; a
      message outside the channel changes neither when appended. */
  lemma ListAndCountAgree(messages: seq<Message>, currentChannelId: Option<int>, m: Message)
    ensures MessageCount(messages, currentChannelId) == |ChannelMessages(messages, currentChannelId)|
    ensures !InChannel(m, currentChannelId) ==>
              ChannelMessages(messages + [m], currentChannelId) == ChannelMessages(messages, currentChannelId)
    ensures InChannel(m, currentChannelId) ==>
              MessageCount(messages + [m], currentChannelId) == MessageCount(messages, currentChannelId) + 1
  {
    ChannelMessagesAppend(messages, [m], currentChannelId);
    assert ChannelMessages([m], currentChannelId) == ChannelMessages([], currentChannelId)
             + (if InChannel(m, currentChannelId) then [m] else []);
  }

  /** The send form: the controlled input and what it has sent through
      `chatApi.sendMessage`. */
  class MessageForm {
    var inputValue: string
    var sent: seq<MessageDraft>

    constructor ()
      ensures inputValue == "" && sent == []
    {
      inputValue := "";
      sent := [];
    }

    /** controlInput: the input's `onChange`. */
    method ControlInput(value: string)
      modifies this`inputValue
      ensures inputValue == value
    {
      inputValue := value;
    }

    /** formHandler: sends exactly one message, the cleaned input for the
        current channel under the user's name, then empties the input. It
        checks nothing itself; only the disabled button keeps an empty input
        from being sent. */
    method Submit(currentChannelId: Option<int>, user: User, clean: string -> string)
      modifies this
      ensures sent == old(sent) + [MessageDraft(clean(old(inputValue)), currentChannelId, user.username)]
      ensures inputValue == ""
    {
      var body := inputValue;
      var messageData := MessageDraft(clean(body), currentChannelId, user.username);
      sent := sent + [messageData];
      inputValue := "";
    }
  }
}
