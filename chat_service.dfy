/** The chat service: a room store keyed by room id, an append-only message
    log, and the three operations of the service over them. */
module ChatService {
  import opened Wrappers
  import opened ChatDomain
  import opened Members
  import opened MessageQuery

  /** What a paged read returns: the page's messages and the slice's flag. */
  datatype ChatPage = ChatPage(chats: seq<Message>, last: bool)

  /** The payload of a send: a decoded card when the type tag is "card",
      otherwise the raw value read as text. A card that does not decode, or a
      non-card value that is not a string, fails with `InvalidPayload`. */
  function DecodePayload(msgType: string, raw: Raw, decodeCard: Raw -> Option<Card>): (r: Result<Payload, Error>)
    ensures r.Success? && r.value.CardMsg? <==> msgType == CardType && decodeCard(raw).Some?
    ensures r.Success? && r.value.CardMsg? ==> r.value.card == decodeCard(raw).value
    ensures r.Success? && r.value.TextMsg? <==> msgType != CardType && raw.RawText?
    ensures r.Success? && r.value.TextMsg? ==> r.value.text == raw.text
    ensures r.Failure? ==> r.error == InvalidPayload
  {
    if msgType == CardType then
      match decodeCard(raw)
      case Some(card) => Success(CardMsg(card))
      case None => Failure(InvalidPayload)
    else
      match raw
      case RawText(text) => Success(TextMsg(text))
      case RawObject(_) => Failure(InvalidPayload)
  }

  class ChatServiceImpl {
    /** The room repository: each room stored under its own id. */
    var rooms: map<string, ChatRoom>
    /** The message repository, in the order messages were saved. */
    var messages: seq<Message>
    /** The member-window check applied to each member on a send. */
    const isEnterTimeBeforeExitTime: WindowCheck
    /** The conversion of a raw value into a card; `None` when it fails. */
    const decodeCard: Raw -> Option<Card>

    ghost predicate Valid()
      reads this
    {
      forall id :: id in rooms ==> rooms[id].id == id
    }

    constructor (initialRooms: map<string, ChatRoom>, initialMessages: seq<Message>,
                 present: WindowCheck, decode: Raw -> Option<Card>)
      requires forall id :: id in initialRooms ==> initialRooms[id].id == id
      ensures Valid()
      ensures rooms == initialRooms && messages == initialMessages
      ensures isEnterTimeBeforeExitTime == present && decodeCard == decode
    {
      rooms := initialRooms;
      messages := initialMessages;
      isEnterTimeBeforeExitTime := present;
      decodeCard := decode;
    }

    /** The room-and-member lookup that gates both reads. */
    predicate HasRoomWithMember(roomId: string, uuid: string)
      reads this
    {
      roomId in rooms && IsMember(rooms[roomId].members, uuid)
    }

    /** The membership gate of the streaming read. The stream itself is not
        part of this model. */
    method GetChatByStream(roomId: string, uuid: string) returns (r: Result<ChatRoom, Error>)
      requires Valid()
      ensures r.Success? <==> roomId in rooms && IsMember(rooms[roomId].members, uuid)
      ensures r.Success? ==> r.value == rooms[roomId] && r.value.id == roomId
      ensures r.Failure? ==> r.error == ChatroomNotFound
    {
      if !HasRoomWithMember(roomId, uuid) {
        return Failure(ChatroomNotFound);
      }
      r := Success(rooms[roomId]);
    }

    /** A page of the room's history, bounded by the requester's entry time. */
    method GetChatByPage(roomId: string, uuid: string, page: PageRequest) returns (r: Result<ChatPage, Error>)
      requires Valid()
      ensures r.Failure? <==> !(roomId in rooms && IsMember(rooms[roomId].members, uuid))
      ensures r.Failure? ==> r.error == ChatroomNotFound
      ensures r.Success? ==>
                var enter := FindEnterTimeByUuid(rooms[roomId].members, uuid);
                && enter.Success?
                && (forall i :: FirstMatch(rooms[roomId].members, uuid, i) ==> enter.value == rooms[roomId].members[i].enterTime)
                && (forall m :: m in r.value.chats ==> m in messages && m.roomId == roomId && m.createdAt < enter.value)
                && Sorted(r.value.chats, page.direction)
                && |r.value.chats| <= page.size
                && r.value.last == (|Before(messages, roomId, enter.value)| <= Offset(page) + page.size)
                && r.value.chats == FindByRoomIdAndCreatedAtBefore(messages, roomId, enter.value, page).content
    {
      if !HasRoomWithMember(roomId, uuid) {
        return Failure(ChatroomNotFound);
      }
      var chatRoom := rooms[roomId];
      var enter := FindEnterTimeByUuid(chatRoom.members, uuid);
      assert enter.Success?;
      var chats := FindByRoomIdAndCreatedAtBefore(messages, roomId, enter.value, page);
      r := Success(ChatPage(chats.content, chats.isLast));
    }

    /** Sends a message: looks the room up, decodes the payload, writes the
        room back with the rebuilt member list, then appends the message,
        time-stamped `now` by the store. `storeAccepts` is whether the message
        store takes the write. */
    method SendChat(req: ChatRequest, uuid: string, now: Time, storeAccepts: bool) returns (r: Result<Message, Error>)
      requires Valid()
      modifies this
      ensures Valid()
      ensures req.roomId !in old(rooms) ==>
                r == Failure(ChatroomNotFound) && rooms == old(rooms) && messages == old(messages)
      ensures req.roomId in old(rooms) && DecodePayload(req.msgType, req.msg, decodeCard).Failure? ==>
                r == Failure(InvalidPayload) && rooms == old(rooms) && messages == old(messages)
      ensures req.roomId in old(rooms) && DecodePayload(req.msgType, req.msg, decodeCard).Success? ==>
                var room := old(rooms)[req.roomId];
                var msg := Message(req.roomId, uuid, req.msgType, DecodePayload(req.msgType, req.msg, decodeCard).value, now);
                && rooms == old(rooms)[req.roomId := ChatRoom(room.id, room.requestId,
                                                              UpdateMembers(room.members, uuid, isEnterTimeBeforeExitTime),
                                                              room.createdAt)]
                && (storeAccepts ==> r == Success(msg) && messages == old(messages) + [msg])
                && (!storeAccepts ==> r == Failure(StoreUnavailable) && messages == old(messages))
    {
      if req.roomId !in rooms {
        return Failure(ChatroomNotFound);
      }
      var chatRoom := rooms[req.roomId];

      var payload := DecodePayload(req.msgType, req.msg, decodeCard);
      if payload.Failure? {
        return Failure(payload.error);
      }

      var members := UpdateMembers(chatRoom.members, uuid, isEnterTimeBeforeExitTime);
      rooms := rooms[chatRoom.id := ChatRoom(chatRoom.id, chatRoom.requestId, members, chatRoom.createdAt)];

      if !storeAccepts {
        return Failure(StoreUnavailable);
      }
      var msg := Message(req.roomId, uuid, req.msgType, payload.value, now);
      messages := messages + [msg];
      r := Success(msg);
    }
  }

  /** A client of the send contract: in a room where A and B entered at
      time 0 and have not left, A's message raises B's counter to 1 and leaves
      A's at 0; a send to an unknown room changes nothing. */
  method SendScenario()
  {
    var stillIn: WindowCheck := (enter: Time, exit: Option<Time>) => exit.None?;
    var noCards: Raw -> Option<Card> := (raw: Raw) => None;
    var room := ChatRoom("r", "req", [Member("a", 0, None, 0), Member("b", 0, None, 0)], 0);
    var service := new ChatServiceImpl(map["r" := room], [], stillIn, noCards);

    var sent := service.SendChat(ChatRequest("r", "text", RawText("hi")), "a", 5, true);
    assert sent.Success? && sent.value.msg == TextMsg("hi");
    assert service.messages == [sent.value];
    assert service.rooms["r"].members[0].unreadCount == 0;
    assert service.rooms["r"].members[1].unreadCount == 1;

    var lost := service.SendChat(ChatRequest("nowhere", "text", RawText("x")), "b", 6, true);
    assert lost == Failure(ChatroomNotFound);
    assert |service.messages| == 1;
  }

  /** A client of the paged read: a member who entered at time 0 does not see
      a message of time 5, and someone who is not a member is turned away. */
  method PageScenario()
  {
    var stillIn: WindowCheck := (enter: Time, exit: Option<Time>) => exit.None?;
    var noCards: Raw -> Option<Card> := (raw: Raw) => None;
    var hi := Message("r", "a", "text", TextMsg("hi"), 5);
    var room := ChatRoom("r", "req", [Member("a", 0, None, 0), Member("c", 10, None, 0)], 0);
    var service := new ChatServiceImpl(map["r" := room], [hi], stillIn, noCards);

    var early := service.GetChatByPage("r", "a", PageRequest(0, 3, Desc));
    assert FindEnterTimeByUuid(room.members, "a") == Success(0);
    assert early.Success? && early.value.chats == [];

    var stranger := service.GetChatByPage("r", "z", PageRequest(0, 3, Desc));
    assert !IsMember(room.members, "z");
    assert stranger == Failure(ChatroomNotFound);
  }
}
