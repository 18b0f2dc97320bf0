# react-chat client: action mediator and projections

A model of the chat client's two React components, `Chat` and `Messages`:
how each user action is validated before anything leaves the client, what
the client emits on the socket and dispatches to the Redux store, and which
channel, message list and count it shows.

- `text.dfy` (module `Text`): JavaScript's `trim` over ECMAScript's
  whitespace and line-terminator characters, and the blank test `!s.trim()`.
  `Trim` and `TrimSplits` together characterise the result, and
  `TrimUnique` is an independent reference definition.
- `chat_types.dfy` (module `ChatTypes`): channels, stored messages,
  outgoing message records, JavaScript truthiness of a selected id (`null`
  and `0` are "nothing selected") and the two default channels 1 and 2.
- `projections.dfy` (module `Projections`): `find` over channels and
  `filter`/`length` over messages, shared by both components. The filtered
  list is proved to be exactly the order-preserving subsequence of the
  channel's messages.
- `chat.dfy` (module `Chat`): one decision function per handler
  (`SendOutcome`, `AddOutcome`, `DeleteOutcome`, `RenameOutcome`) giving
  either the warning shown or the event emitted, and the class `ChatView`
  whose handler methods are proved against them. Every emit and every
  dispatch goes into one effect log, in order. `ChatView.Valid()` is the
  invariant every handler keeps: every emitted event obeys `EmitPolicy`.
  So no message goes out without a selected channel, no blank or untrimmed
  channel name goes out, nothing goes out that removes or renames channel 1
  or 2, and every created channel is removable.
- `messages.dfy` (module `Messages`): the header, the disabled rule of the
  send button, the current-user highlight, and `MessageForm`, whose `Submit`
  is `formHandler`.

Behaviour of the code that the contracts pin down:
- The duplicate-name test compares the untrimmed input, but the trimmed
  name is what gets emitted. So `" general"` is accepted next to `"general"`
  and a second channel named `general` is proposed
  (`PaddedDuplicateIsAccepted`).
- The proposed id is `channels.length + 1`. It can equal the id of an
  existing channel (`ProposedIdCanCollide`).
- Channel id `0` counts as not selected when sending and in the title. The
  message list is still shown for it (`ZeroIdIsUnselected`).
- A successful send clears the input box but not the `messageText` state.
  The message reaches the store only through the server's echo.
- Delete and rename do not require a selection. A `null` selection passes
  the protected-channel test and is emitted as the id.
- Rename checks for an empty name first, for a protected channel second and
  for a duplicate name third (`RenameDecision`).
- Adding the same name twice before the server echoes it emits twice
  (`AddTwiceBeforeEcho`), because the store is unchanged until the echo.
- Nothing keeps the selection among the store's channels. An add selects an
  id that the store does not have yet, and an incoming removal leaves the
  selection as it is.
- The handlers do not consult the store's error state.
- Where several channels share an id, both headings show the first of them.

`Profanity.clean` / `leoProfanity.clean` is the parameter
`clean: string -> string`. Nothing is assumed about it.

## Model

| member | source | states |
|---|---|---|
| `Text.Trim` | frontend/src/components/Chat.jsx:143 | `s.trim()`: the result has no whitespace at either end, is no longer than the input, and is empty exactly when the input is all whitespace |
| `Text.TrimSplits` | frontend/src/components/Chat.jsx:143 | the input is a whitespace prefix, then the trimmed result, then a whitespace suffix |
| `Text.LeadingWhitespace` | frontend/src/components/Chat.jsx:206 | the longest all-whitespace prefix that `trim` drops at the front |
| `Text.TrailingWhitespace` | frontend/src/components/Chat.jsx:268 | the longest all-whitespace suffix that `trim` drops at the end |
| `Text.Blank` | frontend/src/components/Chat.jsx:143 | `!s.trim()`: the trimmed string is empty |
| `Text.TrimUnique` | frontend/src/components/Chat.jsx:192 | reference definition: any non-empty string without whitespace at its ends, padded with whitespace, trims back to itself |
| `Text.TrimIdempotent` | frontend/src/components/Chat.jsx:248 | trimming a trimmed name changes nothing |
| `Text.TrimOfNonBlankIsTrimmedName` | frontend/src/components/Chat.jsx:204-206 | a name that passed the blank test is stored non-empty and trimmed |
| `Projections.FindChannel` | frontend/src/components/Messages.jsx:116 | `find`: absent exactly when no channel has the id; otherwise a channel with that id, namely the first one |
| `Projections.FindIndex` | frontend/src/components/Chat.jsx:436 | the position of the first channel with the id, the number of channels when none has it |
| `Projections.InChannel` | frontend/src/components/Messages.jsx:118 | `msg.channelId === id`, with a missing id matching no message |
| `Projections.ChannelMessages` | frontend/src/components/Messages.jsx:117-119 | the filtered list holds exactly the store's messages of the channel and is no longer than the store's list |
| `Projections.ChannelPositions` | frontend/src/components/Messages.jsx:117-119 | strictly increasing positions, each holding a message of the channel, covering every such message |
| `Projections.ChannelMessagesIsSubsequence` | frontend/src/components/Messages.jsx:117-119 | the filtered list is the messages at those positions, in store order |
| `Projections.ChannelMessagesAppend` | frontend/src/components/Chat.jsx:455-460 | filtering a concatenation is concatenating the filtered parts |
| `Projections.MessageCount` | frontend/src/components/Messages.jsx:120 | `count` is the number of positions holding the channel's messages, at most the number of messages |
| `ChatTypes.Selected` | frontend/src/components/Chat.jsx:137 | JavaScript truthiness of the selected id: neither `null` nor `0` |
| `ChatTypes.Protected` | frontend/src/components/Chat.jsx:254 | `selectedChannel === 1 or 2`, the negation of the test at line 227 |
| `Chat.Names` | frontend/src/components/Chat.jsx:190 | `channels.map((chan) => chan.name)`, in channel order |
| `Chat.NameTaken` | frontend/src/components/Chat.jsx:190-198 | `names.includes(name)` holds exactly when some channel has that exact, untrimmed name |
| `Chat.SendOutcome` | frontend/src/components/Chat.jsx:137-157 | a send is emitted exactly when a truthy channel id is selected and the text is not all whitespace; what it emits obeys the emit policy |
| `Chat.AddOutcome` | frontend/src/components/Chat.jsx:190-211 | an add is emitted exactly when the name is not all whitespace and no channel has that exact name; the channel it emits is removable with a trimmed, non-empty name |
| `Chat.DeleteOutcome` | frontend/src/components/Chat.jsx:227-240 | a delete is emitted exactly when the selection is not channel 1 or 2, and never for them |
| `Chat.RenameOutcome` | frontend/src/components/Chat.jsx:248-269 | a rename is emitted exactly when the name is not all whitespace, the selection is not channel 1 or 2, and no channel has that exact name |
| `Chat.SendDecision` | frontend/src/components/Chat.jsx:137-154 | no selection wins over empty text; whitespace-only text is refused; otherwise the emitted record is `{clean(untrimmed text), selected id, username}` |
| `Chat.AddDecision` | frontend/src/components/Chat.jsx:192-209 | an all-whitespace name gives the empty-name warning; a taken name gives the exists warning; an accepted add proposes id `channels.length + 1`, the trimmed name, the user as creator, removable |
| `Chat.DeleteDecision` | frontend/src/components/Chat.jsx:227-239 | channels 1 and 2 give the default-channel warning; any other selection, `null` included, emits its id with the trimmed name field |
| `Chat.RenameDecision` | frontend/src/components/Chat.jsx:248-269 | the three checks in the code's order, empty name, then default channel, then duplicate; an accepted rename emits the selected id and the trimmed name |
| `Chat.PaddedDuplicateIsAccepted` | frontend/src/components/Chat.jsx:198-206 | an existing name with leading whitespace added (and not itself taken) passes the duplicate test and emits the existing name again, with id `channels.length + 1` |
| `Chat.ProposedIdCanCollide` | frontend/src/components/Chat.jsx:205 | the proposed id `length + 1` can be the id of an existing channel |
| `Chat.FreshNameAccepted` | frontend/src/components/Chat.jsx:204-211 | a name without surrounding whitespace that no channel has is emitted unchanged with id `channels.length + 1` |
| `Chat.ChatHeading` | frontend/src/components/Chat.jsx:434-439 | the prompt exactly when no truthy id is selected; otherwise the title, whose name is missing exactly when no channel has the id, and else is the name of the first channel with that id |
| `Chat.MessageList` | frontend/src/components/Chat.jsx:446-460 | no list exactly while the selection is `null`; otherwise exactly the selected channel's messages, as many as `MessageCount`, in store order: the messages at `ChannelPositions` |
| `Chat.ZeroIdIsUnselected` | frontend/src/components/Chat.jsx:137 | with id 0 selected, sending is refused as not selected and the title prompts for a channel, yet the list for channel 0 is shown |
| `Chat.AddTwiceBeforeEcho` | frontend/src/components/Chat.jsx:198-211 | two adds of the same new name before the echo both emit |
| `Chat.ChatView.constructor` | frontend/src/components/Chat.jsx:29-40 | mounting: no selection, empty inputs, no warnings, dialogs closed, nothing emitted or dispatched |
| `Chat.ChatView.StoreChanged` | frontend/src/components/Chat.jsx:29-31 | the store's channels and messages as `useSelector` delivers them; nothing else changes |
| `Chat.ChatView.OnNewMessage` | frontend/src/components/Chat.jsx:54-56 | an incoming message only dispatches `addMessage(payload)` |
| `Chat.ChatView.OnNewChannel` | frontend/src/components/Chat.jsx:58-61 | an incoming channel dispatches `addChannel(payload)` and selects its id |
| `Chat.ChatView.OnRemoveChannel` | frontend/src/components/Chat.jsx:64-66 | an incoming removal only dispatches `removeChannel(payload)`; the selection stays |
| `Chat.ChatView.OnRenameChannel` | frontend/src/components/Chat.jsx:68-70 | an incoming rename only dispatches `renameChannel(payload)` |
| `Chat.ChatView.HandleChannelClick` | frontend/src/components/Chat.jsx:130-132 | a click selects the channel's id, unchecked |
| `Chat.ChatView.TypeMessage` | frontend/src/components/Chat.jsx:482 | typing sets `messageText` and the input box |
| `Chat.ChatView.TypeChannelName` | frontend/src/components/Chat.jsx:391 | typing in the add or rename form sets `newChannelName` |
| `Chat.ChatView.ShowAddChannel` | frontend/src/components/Chat.jsx:167-169 | opens the add dialog |
| `Chat.ChatView.CloseAddChannel` | frontend/src/components/Chat.jsx:163-165 | closes the add dialog |
| `Chat.ChatView.ShowRenameChannel` | frontend/src/components/Chat.jsx:175-177 | opens the rename dialog |
| `Chat.ChatView.CloseRenameChannel` | frontend/src/components/Chat.jsx:171-173 | closes the rename dialog |
| `Chat.ChatView.ShowDeleteChannel` | frontend/src/components/Chat.jsx:183-185 | opens the delete confirmation |
| `Chat.ChatView.CancelDelete` | frontend/src/components/Chat.jsx:179-181 | closes the delete confirmation |
| `Chat.ChatView.HandleSendMessage` | frontend/src/components/Chat.jsx:134-161 | refused: nothing emitted, the warning set; accepted: exactly one `newMessage` emitted, the box cleared, the warning cleared; never a dispatch, and the store, the selection and `messageText` are untouched; the emit policy is kept |
| `Chat.ChatView.HandleAddChannel` | frontend/src/components/Chat.jsx:187-220 | refused: nothing emitted, the warning set, selection and name kept; accepted: one `newChannel` emitted, the proposed id selected, the name reset, the dialog closed; the emit policy is kept |
| `Chat.ChatView.HandleConfirmDelete` | frontend/src/components/Chat.jsx:222-241 | for channels 1 and 2 nothing is emitted or dispatched and the selection stays; otherwise `removeChannel` is emitted, the selection cleared and `removeChannel(old selection)` dispatched, in that order |
| `Chat.ChatView.HandleRenameChannel` | frontend/src/components/Chat.jsx:243-276 | refused: nothing emitted or dispatched; accepted: `renameChannel` emitted, then `renameChannel(selected id, trimmed name)` dispatched with both arguments; the name reset and the selection kept |
| `Messages.CurrentChannelHeading` | frontend/src/components/Messages.jsx:73 | the loading text exactly when no channel has the current id; otherwise the name of the first channel with that id |
| `Messages.SubmitDisabled` | frontend/src/components/Messages.jsx:39 | `disabled={!inputValue}`: only the empty string disables the button |
| `Messages.IsCurrentUser` | frontend/src/components/Messages.jsx:14 | `username === user.username` |
| `Messages.SubmitDisabledIgnoresWhitespace` | frontend/src/components/Messages.jsx:39 | a disabled button means an empty input; whitespace-only input is blank yet leaves the button enabled |
| `Messages.OwnEchoIsCurrentUser` | frontend/src/components/Messages.jsx:14 | the echo of a draft sent under the user's name is highlighted for that user and for no user with another name |
| `Messages.ListAndCountAgree` | frontend/src/components/Messages.jsx:117-120 | the count is the length of the displayed list; appending another channel's message changes neither; appending one of this channel's adds one |
| `Messages.MessageForm.constructor` | frontend/src/components/Messages.jsx:122 | the input starts empty and nothing is sent |
| `Messages.MessageForm.ControlInput` | frontend/src/components/Messages.jsx:124-127 | the input takes the typed value |
| `Messages.MessageForm.Submit` | frontend/src/components/Messages.jsx:94-107 | exactly one message is sent, `{clean(input), current id, user.username}`, and the input is reset to empty |

## Left out

- Rendering, the spinner, the error screens, toasts and translated strings. Warnings are an enumeration and do not carry their text. The 401 comparison only chooses between two error screens.
- Socket transport: connecting, each handler opening its own connection, and disconnecting on unmount. An emit is an entry in the effect log, and `chatApi.sendMessage` is an entry in `MessageForm.sent`.
- The Redux reducers and selectors, and the `fetchChatData` thunk with its token from `localStorage`: they are not part of this model. A dispatch is recorded with its arguments. No store update is assumed, so the effect of `renameChannel(id, name)` receiving two arguments is not stated.
- `username` from `localStorage`: a fixed string. A missing (`null`) username is not modelled.
- JavaScript truthiness of `NaN`, and ids that are not numbers.
- `leo-profanity`'s `clean`: a parameter about which nothing is assumed, so no idempotence is claimed.
- `e.target.value = ''` in `formHandler` sets a property of the form element and has no modelled effect.
- The pluralised count string, and the NotFound pages, which are static.
