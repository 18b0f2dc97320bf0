/** The `Chat` component: its handlers as guarded transitions over the
    component state, with every socket emit and Redux dispatch appended to one
    effect log, and the two views it renders from the store. */
module Chat {
  import opened ChatTypes
  import opened Text
  import opened Projections

  /** The warnings the handlers show, one per translation key they use. */
  datatype Warning =
    | NotSelectedChannel   // chat.errors.notSelectedChannel
    | EmptyMessage         // chat.errors.empetyMess
    | EmptyChannelName     // chat.errors.empetyChan
    | ChannelExists        // chat.errors.alreadyChan
    | DeleteDefaultChannel // chat.errors.deleteDefaultChan
    | RenameDefaultChannel // chat.errors.renameDefaultChan

  /** Payloads of the incoming `removeChannel` and `renameChannel` events. */
  datatype ChannelRef = ChannelRef(id: int)
  datatype ChannelRename = ChannelRename(id: int, name: string)

  /** What the component emits on the socket. */
  datatype Emit =
    | NewMessage(draft: MessageDraft)
    | NewChannel(channel: Channel)
    | RemoveChannel(id: Option<int>, name: string)
    | RenameChannel(id: Option<int>, name: string)

  /** What the component dispatches to the store, with the arguments as
      passed; the reducers that interpret them are not part of this model. */
  datatype Action =
    | AddMessage(message: Message)
    | AddChannel(channel: Channel)
    | RemoveChannelEvent(removed: ChannelRef)
    | RemoveChannelById(id: Option<int>)
    | RenameChannelEvent(renamed: ChannelRename)
    | RenameChannelArgs(id: Option<int>, name: string)

  datatype Effect = Emitted(event: Emit) | Dispatched(action: Action)

  /** The decision a handler takes: the warning it shows, or the event it emits. */
  datatype Outcome = Rejected(warning: Warning) | Accepted(event: Emit)

  /** The client-side policy every emitted event obeys: messages go to a
      selected channel; created and renamed channels carry a trimmed,
      non-empty name; the default channels are never removed or renamed;
      a created channel is removable. */
  predicate EmitPolicy(e: Emit) {
    match e
    case NewMessage(d) => Selected(d.channelId)
    case NewChannel(c) => c.removable && TrimmedName(c.name)
    case RemoveChannel(id, _) => !Protected(id)
    case RenameChannel(id, name) => !Protected(id) && TrimmedName(name)
  }

  /** Every event in the effect log obeys the emit policy. */
  predicate LogKeepsPolicy(effects: seq<Effect>) {
    forall k :: 0 <= k < |effects| && effects[k].Emitted? ==> EmitPolicy(effects[k].event)
  }

  /** Appending a dispatch, or an event that obeys the policy, keeps the log
      within the policy. */
  lemma LogAppend(effects: seq<Effect>, f: Effect)
    requires LogKeepsPolicy(effects)
    requires f.Emitted? ==> EmitPolicy(f.event)
    ensures LogKeepsPolicy(effects + [f])
  {
    forall k | 0 <= k < |effects + [f]| && (effects + [f])[k].Emitted?
      ensures EmitPolicy((effects + [f])[k].event)
    {
      if k < |effects| {
        assert (effects + [f])[k] == effects[k];
      }
    }
  }

  /** `channels.map((chan) => chan.name)`. */
  function Names(channels: seq<Channel>): seq<string> {
    seq(|channels|, k requires 0 <= k < |channels| => channels[k].name)
  }

  lemma NameTaken(channels: seq<Channel>, name: string)
    ensures name in Names(channels) <==> exists c :: c in channels && c.name == name
  {
    var names := Names(channels);
    if name in names {
      var k :| 0 <= k < |names| && names[k] == name;
      assert channels[k] in channels;
    }
    if c :| c in channels && c.name == name {
      var k :| 0 <= k < |channels| && channels[k] == c;
      assert names[k] == name;
    }
  }

  /** handleSendMessage: selection first, then the trimmed text; the emitted
      body is the cleaned UNtrimmed text. */
  function SendOutcome(selected: Option<int>, text: string, username: string,
                       clean: string -> string): (o: Outcome)
    ensures o.Accepted? <==> Selected(selected) && !AllWhitespace(text)
    ensures o.Accepted? ==> EmitPolicy(o.event)
  {
    if !Selected(selected) then Rejected(NotSelectedChannel)
    else if Blank(text) then Rejected(EmptyMessage)
    else Accepted(NewMessage(MessageDraft(clean(text), selected, username)))
  }

  /** handleAddChannel: the trimmed name must be non-empty and the UNtrimmed
      name must not be an existing name; the proposed id is `|channels| + 1`. */
  function AddOutcome(channels: seq<Channel>, name: string, username: string): (o: Outcome)
    ensures o.Accepted? <==> !AllWhitespace(name) && forall c :: c in channels ==> c.name != name
    ensures o.Accepted? ==> EmitPolicy(o.event)
  {
    NameTaken(channels, name);
    if Blank(name) then Rejected(EmptyChannelName)
    else if name in Names(channels) then Rejected(ChannelExists)
    else
      TrimOfNonBlankIsTrimmedName(name);
      Accepted(NewChannel(Channel(|channels| + 1, Trim(name), username, true)))
  }

  /** handleConfirmDelete: only the default ids are refused; a missing
      selection passes the check. */
  function DeleteOutcome(selected: Option<int>, name: string): (o: Outcome)
    ensures o.Accepted? <==> !Protected(selected)
    ensures o.Accepted? ==> EmitPolicy(o.event)
  {
    if !Protected(selected) then
      Accepted(RemoveChannel(selected, Trim(name)))
    else
      Rejected(DeleteDefaultChannel)
  }

  /** handleRenameChannel: empty name, then default channel, then duplicate. */
  function RenameOutcome(channels: seq<Channel>, selected: Option<int>, name: string): (o: Outcome)
    ensures o.Accepted? <==> !AllWhitespace(name) && !Protected(selected)
                             && forall c :: c in channels ==> c.name != name
    ensures o.Accepted? ==> EmitPolicy(o.event)
  {
    NameTaken(channels, name);
    if Blank(name) then Rejected(EmptyChannelName)
    else if Protected(selected) then
      Rejected(RenameDefaultChannel)
    else if name in Names(channels) then Rejected(ChannelExists)
    else
      TrimOfNonBlankIsTrimmedName(name);
      Accepted(RenameChannel(selected, Trim(name)))
  }

  lemma SendDecision(selected: Option<int>, text: string, username: string, clean: string -> string)
    ensures !Selected(selected) ==> SendOutcome(selected, text, username, clean) == Rejected(NotSelectedChannel)
    ensures Selected(selected) && AllWhitespace(text) ==>
              SendOutcome(selected, text, username, clean) == Rejected(EmptyMessage)
    ensures Selected(selected) && !AllWhitespace(text) ==>
              SendOutcome(selected, text, username, clean)
              == Accepted(NewMessage(MessageDraft(clean(text), selected, username)))
  {
  }

  lemma AddDecision(channels: seq<Channel>, name: string, username: string)
    ensures AllWhitespace(name) ==> AddOutcome(channels, name, username) == Rejected(EmptyChannelName)
    ensures !AllWhitespace(name) && (exists c :: c in channels && c.name == name) ==>
              AddOutcome(channels, name, username) == Rejected(ChannelExists)
    ensures AddOutcome(channels, name, username).Accepted? ==>
              AddOutcome(channels, name, username)
              == Accepted(NewChannel(Channel(|channels| + 1, Trim(name), username, true)))
  {
    NameTaken(channels, name);
  }

  lemma DeleteDecision(selected: Option<int>, name: string)
    ensures Protected(selected) ==> DeleteOutcome(selected, name) == Rejected(DeleteDefaultChannel)
    ensures !Protected(selected) ==> DeleteOutcome(selected, name) == Accepted(RemoveChannel(selected, Trim(name)))
  {
  }

  lemma RenameDecision(channels: seq<Channel>, selected: Option<int>, name: string)
    ensures AllWhitespace(name) ==> RenameOutcome(channels, selected, name) == Rejected(EmptyChannelName)
    ensures !AllWhitespace(name) && Protected(selected) ==>
              RenameOutcome(channels, selected, name) == Rejected(RenameDefaultChannel)
    ensures !AllWhitespace(name) && !Protected(selected) && (exists c :: c in channels && c.name == name) ==>
              RenameOutcome(channels, selected, name) == Rejected(ChannelExists)
    ensures RenameOutcome(channels, selected, name).Accepted? ==>
              RenameOutcome(channels, selected, name) == Accepted(RenameChannel(selected, Trim(name)))
  {
    NameTaken(channels, name);
  }

  /** The duplicate test compares the untrimmed name while the stored name is
      trimmed, so a whitespace-padded copy of an existing name is accepted
      and emits that existing name again. */
  lemma PaddedDuplicateIsAccepted(channels: seq<Channel>, name: string, pad: string, username: string)
    requires name != [] && !IsWhitespace(name[0]) && !IsWhitespace(name[|name| - 1])
    requires exists c :: c in channels && c.name == name
    requires pad != [] && AllWhitespace(pad)
    requires forall c :: c in channels ==> c.name != pad + name
    ensures AddOutcome(channels, pad + name, username)
            == Accepted(NewChannel(Channel(|channels| + 1, name, username, true)))
  {
    TrimUnique(pad, name, []);
    assert pad + name + [] == pad + name;
    NameTaken(channels, pad + name);
  }

  /** The proposed id `|channels| + 1` can be the id of a channel that
      already exists, once a channel below it has been removed. */
  lemma ProposedIdCanCollide(username: string)
    ensures var channels := [Channel(1, "general", "admin", false), Channel(3, "ops", "bob", true)];
            var o := AddOutcome(channels, "dev", username);
            o.Accepted? && o.event.NewChannel? && o.event.channel.id == channels[1].id
  {
    assert !IsWhitespace("dev"[0]);
  }

  /** The title over the message list (Chat.jsx): a prompt when nothing is
      selected, else the name of the first channel with the selected id,
      which is missing (rendered as `undefined`) when no channel has it. */
  datatype Heading = ChooseChannel | ChannelTitle(name: Option<string>)

  function ChatHeading(channels: seq<Channel>, selected: Option<int>): (h: Heading)
    ensures h == ChooseChannel <==> !Selected(selected)
    ensures h.ChannelTitle? ==> (h.name.None? <==> forall c :: c in channels ==> Some(c.id) != selected)
    ensures h.ChannelTitle? ==>
              forall j :: 0 <= j < |channels| && Some(channels[j].id) == selected
                          && (forall i :: 0 <= i < j ==> Some(channels[i].id) != selected)
                          ==> h.name == Some(channels[j].name)
  {
    if !Selected(selected) then ChooseChannel
    else
      match FindChannel(channels, selected)
      case None => ChannelTitle(None)
      case Some(c) => ChannelTitle(Some(c.name))
  }

  /** The message list (Chat.jsx): no list while the selection is `null`,
      otherwise the selected channel's messages. The filter's
      `selectedChannel === null ||` disjunct is dead inside that branch. */
  function MessageList(messages: seq<Message>, selected: Option<int>): (r: Option<seq<Message>>)
    ensures r.None? <==> selected.None?
    ensures r.Some? ==> forall m :: m in r.value <==> m in messages && Some(m.channelId) == selected
    ensures r.Some? ==> |r.value| == MessageCount(messages, selected)
    ensures r.Some? ==> |r.value| == |ChannelPositions(messages, selected)|
                        && forall k :: 0 <= k < |r.value| ==>
                             r.value[k] == messages[ChannelPositions(messages, selected)[k]]
  {
    ChannelMessagesIsSubsequence(messages, selected);
    if selected.None? then None else Some(ChannelMessages(messages, selected))
  }

  /** Channel id 0 is falsy: sending refuses it and the title asks for a
      channel, yet the list is shown, filtered on channel 0. */
  lemma ZeroIdIsUnselected(channels: seq<Channel>, messages: seq<Message>, text: string,
                           username: string, clean: string -> string)
    ensures SendOutcome(Some(0), text, username, clean) == Rejected(NotSelectedChannel)
    ensures ChatHeading(channels, Some(0)) == ChooseChannel
    ensures MessageList(messages, Some(0)) == Some(ChannelMessages(messages, Some(0)))
  {
  }

  /** The component: the store slice it reads, its React state, and the log
      of everything it emits and dispatches. */
  class ChatView {
    const username: string
    var channels: seq<Channel>
    var messages: seq<Message>
    var selectedChannel: Option<int>
    var messageText: string
    /** The DOM value of the uncontrolled message input. */
    var sendBox: string
    var newChannelName: string
    var warning: Option<Warning>
    var warningMessage: Option<Warning>
    var showAddChannel: bool
    var showRenameChannel: bool
    var showDeleteChannel: bool
    var effects: seq<Effect>

    /** Every event the component has emitted obeys the emit policy. */
    ghost predicate Valid()
      reads this
    {
      LogKeepsPolicy(effects)
    }

    /** Mounting with the store's current channels and messages. */
    constructor (username: string, channels: seq<Channel>, messages: seq<Message>)
      ensures Valid()
      ensures this.username == username && this.channels == channels && this.messages == messages
      ensures selectedChannel == None && messageText == "" && sendBox == "" && newChannelName == ""
      ensures warning == None && warningMessage == None
      ensures !showAddChannel && !showRenameChannel && !showDeleteChannel
      ensures effects == []
    {
      this.username := username;
      this.channels := channels;
      this.messages := messages;
      selectedChannel := None;
      messageText, sendBox, newChannelName := "", "", "";
      warning, warningMessage := None, None;
      showAddChannel, showRenameChannel, showDeleteChannel := false, false, false;
      effects := [];
    }

    /** The store has changed and `useSelector` hands the component its new
        channels and messages. */
    method StoreChanged(channels: seq<Channel>, messages: seq<Message>)
      requires Valid()
      modifies this`channels, this`messages
      ensures Valid()
      ensures this.channels == channels && this.messages == messages
    {
      this.channels := channels;
      this.messages := messages;
    }

    /** Incoming `newMessage`: only dispatched to the store. */
    method OnNewMessage(payload: Message)
      requires Valid()
      modifies this`effects
      ensures Valid()
      ensures effects == old(effects) + [Dispatched(AddMessage(payload))]
    {
      LogAppend(effects, Dispatched(AddMessage(payload)));
      effects := effects + [Dispatched(AddMessage(payload))];
    }

    /** Incoming `newChannel`: dispatched, and the selection follows it. */
    method OnNewChannel(payload: Channel)
      requires Valid()
      modifies this`effects, this`selectedChannel
      ensures Valid()
      ensures effects == old(effects) + [Dispatched(AddChannel(payload))]
      ensures selectedChannel == Some(payload.id)
    {
      LogAppend(effects, Dispatched(AddChannel(payload)));
      effects := effects + [Dispatched(AddChannel(payload))];
      selectedChannel := Some(payload.id);
    }

    /** Incoming `removeChannel`: only dispatched; the selection is kept. */
    method OnRemoveChannel(payload: ChannelRef)
      requires Valid()
      modifies this`effects
      ensures Valid()
      ensures effects == old(effects) + [Dispatched(RemoveChannelEvent(payload))]
    {
      LogAppend(effects, Dispatched(RemoveChannelEvent(payload)));
      effects := effects + [Dispatched(RemoveChannelEvent(payload))];
    }

    /** Incoming `renameChannel`: only dispatched. */
    method OnRenameChannel(payload: ChannelRename)
      requires Valid()
      modifies this`effects
      ensures Valid()
      ensures effects == old(effects) + [Dispatched(RenameChannelEvent(payload))]
    {
      LogAppend(effects, Dispatched(RenameChannelEvent(payload)));
      effects := effects + [Dispatched(RenameChannelEvent(payload))];
    }

    /** handleChannelClick: selects without any check. */
    method HandleChannelClick(channelId: int)
      requires Valid()
      modifies this`selectedChannel
      ensures Valid()
      ensures selectedChannel == Some(channelId)
    {
      selectedChannel := Some(channelId);
    }

    /** The `onChange` of the message input. */
    method TypeMessage(text: string)
      requires Valid()
      modifies this`messageText, this`sendBox
      ensures Valid()
      ensures messageText == text && sendBox == text
    {
      messageText, sendBox := text, text;
    }

    /** The `onChange` of the channel-name input of the add and rename forms. */
    method TypeChannelName(name: string)
      requires Valid()
      modifies this`newChannelName
      ensures Valid()
      ensures newChannelName == name
    {
      newChannelName := name;
    }

    method ShowAddChannel()
      requires Valid()
      modifies this`showAddChannel
      ensures Valid() && showAddChannel
    {
      showAddChannel := true;
    }

    method CloseAddChannel()
      requires Valid()
      modifies this`showAddChannel
      ensures Valid() && !showAddChannel
    {
      showAddChannel := false;
    }

    method ShowRenameChannel()
      requires Valid()
      modifies this`showRenameChannel
      ensures Valid() && showRenameChannel
    {
      showRenameChannel := true;
    }

    method CloseRenameChannel()
      requires Valid()
      modifies this`showRenameChannel
      ensures Valid() && !showRenameChannel
    {
      showRenameChannel := false;
    }

    /** handleDeleteChannel: opens the confirmation dialog. */
    method ShowDeleteChannel()
      requires Valid()
      modifies this`showDeleteChannel
      ensures Valid() && showDeleteChannel
    {
      showDeleteChannel := true;
    }

    /** handleCancelDelete. */
    method CancelDelete()
      requires Valid()
      modifies this`showDeleteChannel
      ensures Valid() && !showDeleteChannel
    {
      showDeleteChannel := false;
    }

    /** handleSendMessage: nothing is dispatched; the message reaches the
        store only through the server's `newMessage` echo. A send clears the
        input box but not `messageText`. */
    method HandleSendMessage(clean: string -> string)
      requires Valid()
      modifies this`effects, this`warningMessage, this`sendBox
      ensures Valid()
      ensures var o := SendOutcome(selectedChannel, messageText, username, clean);
              match o
              case Rejected(w) =>
                effects == old(effects) && warningMessage == Some(w) && sendBox == old(sendBox)
              case Accepted(e) =>
                effects == old(effects) + [Emitted(e)] && warningMessage == None && sendBox == ""
    {
      if !Selected(selectedChannel) {
        warningMessage := Some(NotSelectedChannel);
        return;
      }
      if Blank(messageText) {
        warningMessage := Some(EmptyMessage);
        return;
      }
      var event := NewMessage(MessageDraft(clean(messageText), selectedChannel, username));
      assert SendOutcome(selectedChannel, messageText, username, clean) == Accepted(event);
      LogAppend(effects, Emitted(event));
      effects := effects + [Emitted(event)];
      sendBox := "";
      warningMessage := None;
    }

    /** handleAddChannel: emits the new channel and selects its proposed id
        at once, without waiting for the echo. */
    method HandleAddChannel()
      requires Valid()
      modifies this`effects, this`warning, this`selectedChannel, this`newChannelName, this`showAddChannel
      ensures Valid()
      ensures var o := AddOutcome(channels, old(newChannelName), username);
              match o
              case Rejected(w) =>
                && effects == old(effects) && warning == Some(w)
                && selectedChannel == old(selectedChannel) && newChannelName == old(newChannelName)
                && showAddChannel == old(showAddChannel)
              case Accepted(e) =>
                && effects == old(effects) + [Emitted(e)] && warning == None
                && selectedChannel == Some(|channels| + 1) && newChannelName == ""
                && !showAddChannel
    {
      var name := newChannelName;
      if Blank(name) {
        assert AddOutcome(channels, name, username) == Rejected(EmptyChannelName);
        warning := Some(EmptyChannelName);
        return;
      }
      if name in Names(channels) {
        assert AddOutcome(channels, name, username) == Rejected(ChannelExists);
        warning := Some(ChannelExists);
        return;
      }
      var channel := Channel(|channels| + 1, Trim(name), username, true);
      TrimOfNonBlankIsTrimmedName(name);
      assert EmitPolicy(NewChannel(channel));
      LogAppend(effects, Emitted(NewChannel(channel)));
      effects := effects + [Emitted(NewChannel(channel))];
      selectedChannel := Some(channel.id);
      warning := None;
      newChannelName := "";
      showAddChannel := false;
    }

    /** handleConfirmDelete: emits, clears the selection and dispatches the
        removal of the channel that WAS selected. */
    method HandleConfirmDelete()
      requires Valid()
      modifies this`effects, this`selectedChannel, this`showDeleteChannel, this`warning
      ensures Valid()
      ensures var o := DeleteOutcome(old(selectedChannel), newChannelName);
              match o
              case Rejected(w) =>
                && effects == old(effects) && warning == Some(w)
                && selectedChannel == old(selectedChannel) && showDeleteChannel == old(showDeleteChannel)
              case Accepted(e) =>
                && effects == old(effects) + [Emitted(e), Dispatched(RemoveChannelById(old(selectedChannel)))]
                && selectedChannel == None && !showDeleteChannel && warning == None
    {
      var id := selectedChannel;
      if !Protected(id) {
        var event := RemoveChannel(id, Trim(newChannelName));
        assert DeleteOutcome(id, newChannelName) == Accepted(event);
        LogAppend(effects, Emitted(event));
        effects := effects + [Emitted(event)];
        selectedChannel := None;
        showDeleteChannel := false;
        warning := None;
        LogAppend(effects, Dispatched(RemoveChannelById(id)));
        effects := effects + [Dispatched(RemoveChannelById(id))];
      } else {
        assert DeleteOutcome(id, newChannelName) == Rejected(DeleteDefaultChannel);
        warning := Some(DeleteDefaultChannel);
      }
    }

    /** handleRenameChannel: emits, then dispatches `renameChannel` with the
        selected id and the trimmed name as its two arguments. */
    method HandleRenameChannel()
      requires Valid()
      modifies this`effects, this`newChannelName, this`showRenameChannel, this`warning
      ensures Valid()
      ensures var o := RenameOutcome(channels, selectedChannel, old(newChannelName));
              match o
              case Rejected(w) =>
                && effects == old(effects) && warning == Some(w)
                && newChannelName == old(newChannelName) && showRenameChannel == old(showRenameChannel)
              case Accepted(e) =>
                && effects == old(effects)
                   + [Emitted(e), Dispatched(RenameChannelArgs(selectedChannel, Trim(old(newChannelName))))]
                && newChannelName == "" && !showRenameChannel && warning == None
    {
      var name := newChannelName;
      if Blank(name) {
        assert RenameOutcome(channels, selectedChannel, name) == Rejected(EmptyChannelName);
        warning := Some(EmptyChannelName);
        return;
      }
      if Protected(selectedChannel) {
        assert RenameOutcome(channels, selectedChannel, name) == Rejected(RenameDefaultChannel);
        warning := Some(RenameDefaultChannel);
        return;
      }
      if name in Names(channels) {
        assert RenameOutcome(channels, selectedChannel, name) == Rejected(ChannelExists);
        warning := Some(ChannelExists);
        return;
      }
      var event := RenameChannel(selectedChannel, Trim(name));
      TrimOfNonBlankIsTrimmedName(name);
      assert EmitPolicy(event);
      LogAppend(effects, Emitted(event));
      effects := effects + [Emitted(event)];
      newChannelName := "";
      showRenameChannel := false;
      warning := None;
      var action := RenameChannelArgs(selectedChannel, Trim(name));
      LogAppend(effects, Dispatched(action));
      effects := effects + [Dispatched(action)];
    }
  }

  /** A name with no surrounding whitespace that no channel has is accepted
      as it is. */
  lemma FreshNameAccepted(channels: seq<Channel>, name: string, username: string)
    requires name != [] && !IsWhitespace(name[0]) && !IsWhitespace(name[|name| - 1])
    requires forall c :: c in channels ==> c.name != name
    ensures AddOutcome(channels, name, username)
            == Accepted(NewChannel(Channel(|channels| + 1, name, username, true)))
  {
    TrimUnique([], name, []);
    assert [] + name + [] == name;
    NameTaken(channels, name);
  }

  /** Two adds of the same name before the server's echo both emit: the
      duplicate test reads the store, which the add itself does not change. */
  method AddTwiceBeforeEcho(username: string) returns (emits: nat)
    ensures emits == 2
  {
    var defaults := [Channel(1, "general", "admin", false), Channel(2, "random", "admin", false)];
    var view := new ChatView(username, defaults, []);
    var expected := Accepted(NewChannel(Channel(3, "ops", username, true)));
    FreshNameAccepted(defaults, "ops", username);
    view.TypeChannelName("ops");
    view.HandleAddChannel();
    assert view.effects == [Emitted(expected.event)];
    view.TypeChannelName("ops");
    view.HandleAddChannel();
    assert view.selectedChannel == Some(3);
    emits := |view.effects|;
  }
}
