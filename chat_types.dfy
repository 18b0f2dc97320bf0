/** The entities the chat store holds and the records sent over the socket. */
module ChatTypes {

  datatype Option<T> = None | Some(value: T)

  /** A channel as the store and the `newChannel` event carry it. */
  datatype Channel = Channel(id: int, name: string, creator: string, removable: bool)

  /** A message as the store holds it once the server has assigned its id. */
  datatype Message = Message(id: int, channelId: int, username: string, body: string)

  /** An outgoing `newMessage` record: the server assigns the id. The channel
      is whatever id the sender had selected, which may be missing. */
  datatype MessageDraft = MessageDraft(body: string, channelId: Option<int>, username: string)

  /** The two channels seeded by the server, which the client refuses to
      remove or rename. */
  const GeneralChannelId: int := 1
  const RandomChannelId: int := 2

  /** JavaScript truthiness of a selected channel id: `null` and `0` are
      falsy, any other number is truthy. */
  predicate Selected(id: Option<int>) {
    id.Some? && id.value != 0
  }

  /** `id === 1 || id === 2`. */
  predicate Protected(id: Option<int>) {
    id == Some(GeneralChannelId) || id == Some(RandomChannelId)
  }
}
