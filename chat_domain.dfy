/** The records the chat service reads and writes: rooms with their members,
    and messages. Timestamps (Java `Instant`) are integers on one time line. */
module ChatDomain {
  import opened Wrappers

  type Time = int

  /** The structured card of a "card" message. Its fields are not part of
      this model, so it is left abstract. */
  type Card(==, !new)

  /** The untyped `msg` value a client sends: a string, or any other value
      (an object, a number, an array, a boolean), all of which `RawObject`
      stands for. */
  datatype Raw = RawText(text: string) | RawObject(fields: map<string, Raw>)

  /** What a stored message carries: a decoded card or plain text. */
  datatype Payload = CardMsg(card: Card) | TextMsg(text: string)

  /** How an operation of the service fails. `ChatroomNotFound` and
      `InvalidExit` are the service's own error statuses. `InvalidPayload`
      stands for the exception of the card conversion and for the failed cast
      of a non-string value to text. `StoreUnavailable` stands for a failed
      save of the reactive message store. */
  datatype Error = ChatroomNotFound | InvalidExit | InvalidPayload | StoreUnavailable

  /** A member of a room: entry time, optional exit time, unread counter. */
  datatype Member = Member(memberId: string, enterTime: Time, exitTime: Option<Time>, unreadCount: nat)

  datatype ChatRoom = ChatRoom(id: string, requestId: string, members: seq<Member>, createdAt: Time)

  /** A stored message; `createdAt` is the time the store assigned on save. */
  datatype Message = Message(roomId: string, sender: string, msgType: string, msg: Payload, createdAt: Time)

  /** The body of a send request. */
  datatype ChatRequest = ChatRequest(roomId: string, msgType: string, msg: Raw)

  /** The type tag that selects card decoding. */
  const CardType: string := "card"
}
