# Chat service: room and message bookkeeping

A Dafny model of the message-delivery core of a chat backend, the service
class `ChatServiceImpl`. The service keeps two stores: rooms, each with an
ordered member list, and a log of messages. Each member has an entry time, an
optional exit time and an unread counter. The model covers the service's
three operations:

- **send** (`SendChat`). It looks the room up and decodes the payload by its
  type tag. It then rebuilds the member list, so that every member other than
  the sender who passes the member-window check gets one more unread message.
  It writes the whole room back, then appends the message.
- **paged history** (`GetChatByPage`). A room-and-member gate comes first.
  The requester's entry time is looked up. The result is one page of the
  room's messages created strictly before that time, with the slice's `last`
  flag.
- **stream gate** (`GetChatByStream`). Only the room-and-member check that
  precedes the live stream is modelled.

Files:

- `wrappers.dfy`: `Option` and `Result`.
- `chat_domain.dfy`: rooms, members, messages, payloads, error statuses.
- `members.dfy`: the member-list rebuild of a send and the entry-time lookup,
  as pure functions, with lemmas.
- `message_query.dfy`: what the repository query
  `findByRoomIdAndCreatedAtBefore` means. It filters the log by room and by a
  strict cutoff, sorts on `createdAt`, and cuts the result into pages.
- `chat_service.dfy`: the service class. It holds `rooms: map<string, ChatRoom>`
  and `messages: seq<Message>`, and has two scenario clients.

Parameters of the model:

- `Member.isEnterTimeBeforeExitTime` is a parameter of type
  `(Time, Option<Time>) -> bool`, applied to the member's entry and exit time.
  Its definition is not part of this model.
- Card decoding (`ObjectMapper.convertValue`) is a parameter
  `Raw -> Option<Card>`, where `None` stands for a decoding exception. `Card`
  is an abstract type.
- The store's clock is the `now` argument of `SendChat`.
- The page request (`page`, `size`, direction of the sort on `createdAt`) is
  an argument. The HTTP layer's default is page size 3, newest first.
- Whether the message store takes the write is the `storeAccepts` argument.
- The room query `findByIdAndMemberId(roomId, uuid)` is read by what its name
  derives: the room with that id, if it has a member with that id.

Behaviour worth noting (the model follows the code throughout):

- The paged read returns the messages created strictly **before** the
  requester's entry time. So a member pages only through history from before
  they entered, never through messages sent after they joined.
- An unknown member and an unknown room both fail with `ChatroomNotFound`.
  There is no separate membership error.
- The room is written before the message is appended, and nothing undoes
  that write. If the append fails (`storeAccepts == false`), the raised
  unread counters stay written.
- The call to the window check passes no time. Whether the check reads the
  clock itself is unknown. The model takes it as a function of the member's
  entry and exit time only.

## Model

| member | source | states |
|---|---|---|
| `ChatService.DecodePayload` | src/main/java/com/mfc/chatting/chat/application/ChatServiceImpl.java:71-79 | The payload is a card exactly when the tag is "card" and decoding succeeds, and then it is the decoded card. It is text exactly when the tag is not "card" and the value is a string, and then it is that string. Every other case fails with `InvalidPayload`. |
| `Members.UpdateMembers` | src/main/java/com/mfc/chatting/chat/application/ChatServiceImpl.java:81-93 | The rebuilt list has the same length and order. Each member keeps its id, entry time and exit time. An eligible member (not the sender, window check holds) has unread count old + 1. Every other member is returned unchanged. |
| `Members.SenderUnchanged` | src/main/java/com/mfc/chatting/chat/application/ChatServiceImpl.java:83 | The sender's own record is never changed by their send. |
| `Members.UpdateMembersKeepsUniqueIds` | src/main/java/com/mfc/chatting/chat/application/ChatServiceImpl.java:81-93 | If member ids were unique in the room, they still are after a send. |
| `Members.UpdateMembersTotal` | src/main/java/com/mfc/chatting/chat/application/ChatServiceImpl.java:81-93 | The room's total unread count grows by exactly the number of eligible members. |
| `Members.FindEnterTimeByUuid` | src/main/java/com/mfc/chatting/chat/application/ChatServiceImpl.java:110-116 | The result is the entry time of the first member whose id matches. It fails, with `InvalidExit`, exactly when no member matches. |
| `Members.EnterTimeUnaffectedBySend` | src/main/java/com/mfc/chatting/chat/application/ChatServiceImpl.java:84-88 | After a send, the entry-time lookup gives the same result for every id, so a send never moves anyone's pagination cutoff. |
| `Members.SendAllUnread` | src/main/java/com/mfc/chatting/chat/application/ChatServiceImpl.java:81-100 | Sends into one room applied one after another lose no update. A member whose window check holds gains one unread message per send by someone else. Any other member keeps their count. |
| `MessageQuery.Before` | src/main/java/com/mfc/chatting/chat/application/ChatServiceImpl.java:54-55 | The selected messages are exactly the log's messages in the room created strictly before the cutoff, with their multiplicities. |
| `MessageQuery.Insert` | src/main/java/com/mfc/chatting/chat/presentation/ChatController.java:56 | Inserting into a sorted list gives a sorted list that holds the old elements plus the new one. |
| `MessageQuery.SortByCreatedAt` | src/main/java/com/mfc/chatting/chat/presentation/ChatController.java:56 | The result is sorted on `createdAt` in the requested direction and is a permutation of the input. |
| `MessageQuery.ResultsAreSelected` | src/main/java/com/mfc/chatting/chat/application/ChatServiceImpl.java:54-55 | The sorted results are as many as the selected messages, and each is a selected message of the log. |
| `MessageQuery.FindByRoomIdAndCreatedAtBefore` | src/main/java/com/mfc/chatting/chat/application/ChatServiceImpl.java:54-55 | A page has at most `size` messages. Each is in the log, in the room, and created strictly before the cutoff. The page is sorted in the requested direction. Its length is what remains of the sorted results from offset page × size, capped at `size`, and its k-th message is the result at that offset + k. `isLast` holds exactly when no selected message lies beyond this page. |
| `MessageQuery.PageHoldsPosition` | src/main/java/com/mfc/chatting/chat/application/ChatServiceImpl.java:54-55 | Page `p` holds every result whose position lies in its window of `size` positions. |
| `MessageQuery.LastIffNextPageEmpty` | src/main/java/com/mfc/chatting/chat/application/ChatServiceImpl.java:62 | A slice is the last exactly when the next page is empty. |
| `MessageQuery.EveryResultOnSomePage` | src/main/java/com/mfc/chatting/chat/application/ChatServiceImpl.java:54-55 | Under one fixed order among messages with equal `createdAt`, used by every page query, every selected message appears on some page. |
| `ChatService.ChatServiceImpl.GetChatByStream` | src/main/java/com/mfc/chatting/chat/application/ChatServiceImpl.java:41-43 | The gate passes exactly when the room exists and has a member with the requester's id. Otherwise it fails with `ChatroomNotFound`. |
| `ChatService.ChatServiceImpl.GetChatByPage` | src/main/java/com/mfc/chatting/chat/application/ChatServiceImpl.java:50-64 | It fails with `ChatroomNotFound` exactly when the gate fails, and never with `InvalidExit`. Otherwise the cutoff is the entry time of the requester's first record. Every returned message is in the log, in the room, and created strictly before that cutoff. The page is sorted and holds at most `size` messages. `last` is the slice's flag. |
| `ChatService.ChatServiceImpl.SendChat` | src/main/java/com/mfc/chatting/chat/application/ChatServiceImpl.java:67-108 | An unknown room fails with `ChatroomNotFound`, and a payload that does not decode fails with `InvalidPayload`. Both write nothing. Otherwise the room is stored again with the same id, requestId and createdAt, and its member list is the `UpdateMembers` rebuild. The message appended and returned has sender = uuid, roomId = the request's room, type = the request's tag, the decoded payload and `createdAt` = `now`. If the store refuses the message, the result is `StoreUnavailable`: the room write remains and no message is appended. The room-id invariant of the store is kept. |

## Left out

- The live stream of `getChatByStream` (`Flux`, its scheduler and live tailing) is asynchronous delivery. Only its membership gate is modelled. The unused `now` argument goes with it.
- The lost-update race of the whole-room write under concurrent sends is concurrency, so it is not expressible here. `SendAllUnread` covers sends applied one after another only.
- `Member.isEnterTimeBeforeExitTime` has no definition in the model. It is a parameter over the entry and exit time. Card decoding and the `Card` type are abstract too.
- Null values are not modelled: a null `msg`, type tag or member id, and the null payload that a null card value would store.
- `unreadCount` is an unbounded natural number, so Java integer overflow is not modelled.
- Message ids assigned by the store are not modelled. Messages are compared by value: two messages with equal fields are one value, told apart only by how many times they occur (the multisets of `Before` and `SortByCreatedAt`) and by position inside a page (`IsWindow`).
- Among messages with equal `createdAt`, the page order is the model's own choice (log order). The database leaves this order unspecified.
- EveryResultOnSomePage: holds only because every page query of the model orders ties the same way. The source sorts on `createdAt` alone and runs one query per page, so a message tied across a page boundary may be skipped or shown twice.
- The only sort is on `createdAt`, ascending or descending. Other sort keys a client could request are not modelled.
- Failures of the room store itself are not modelled, and neither is the debug printout of the number of messages returned.
- The HTTP controller (header binding, DTO/VO mapping) is transport glue. The Kafka configuration is infrastructure wiring. Neither is modelled.
