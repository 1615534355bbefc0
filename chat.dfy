/** The conversation store of src/stores/chat.ts: an ordered list of
    chatrooms, the current-room pointer, the "assistant is typing" flag and
    the search string. Ids, clock readings and random choices are passed in
    by the caller; the delayed assistant reply is its own step,
    `ChatStore.DeliverReply`. */
module Chat {
  import opened Types
  import opened Seqs
  import Text

  /** The canned assistant replies. */
  const AiResponses: seq<string> := [
    "I'm Gemini, your AI assistant. How can I help you today?",
    "That's an interesting question! Let me think about that...",
    "I understand what you're asking. Here's my perspective on this topic:",
    "Great question! Based on what you've shared, I'd suggest:",
    "I'm here to help! Could you provide a bit more context so I can give you a better answer?",
    "That's a complex topic. Let me break it down for you:",
    "I appreciate you sharing that with me. Here's what I think:",
    "Thanks for the question! This is something I encounter often, and here's my take:"
  ]

  const DefaultChatId: string := "default-chat"
  const DefaultChatTitle: string := "General Chat"
  const DayMs: int := 86400000
  const HourMs: int := 3600000

  /** How many older messages one `loadMoreMessages` call invents. */
  const OlderBatchSize: nat := 10

  /** The three demo messages of the default room, dated from `now`. */
  function SeedMessages(now: int): (seed: seq<Message>)
    ensures |seed| == 3
  {
    [ Message("msg-1", SeedGreeting, false, now - DayMs, None),
      Message("msg-2", SeedQuestion, true, now - 86340000, None),
      Message("msg-3", SeedAnswer, false, now - 86330000, None) ]
  }

  const SeedGreeting: string := "Hi there! I'm your AI assistant Gemini. How can I help you today?"
  const SeedQuestion: string := "Hello! Can you help me with some coding questions?"
  const SeedAnswer: string :=
    "Of course! I'd be happy to help you with coding questions. What specific programming topic or problem would you like assistance with?"

  /** The cached last message, when present, is the last element of the
      message list. */
  predicate LastIsLast(room: Chatroom) {
    room.lastMessage.Some? ==>
      |room.messages| > 0 && room.lastMessage.value == room.messages[|room.messages| - 1]
  }

  predicate AllLastIsLast(rooms: seq<Chatroom>) {
    forall k :: 0 <= k < |rooms| ==> LastIsLast(rooms[k])
  }

  /** The room the store starts with. */
  function DefaultRoom(now: int): (r: Chatroom)
    ensures r.id == DefaultChatId && r.title == DefaultChatTitle
    ensures |r.messages| == 3 && r.lastMessage == Some(r.messages[2])
    ensures LastIsLast(r)
  {
    var seed := SeedMessages(now);
    Chatroom(DefaultChatId, DefaultChatTitle, seed, now - DayMs, Some(seed[|seed| - 1]))
  }

  /** A room made by `addChatroom`: the title exactly as given, no messages
      and no cached last message. */
  function NewRoom(id: string, title: string, now: int): Chatroom {
    Chatroom(id, title, [], now, None)
  }

  /** The argument of `addMessage`: a message without id and timestamp. */
  datatype MessageData = MessageData(content: string, isUser: bool, image: Option<string>)

  /** The message `addMessage` stores for `data`. */
  function Stamp(data: MessageData, id: string, now: int): Message {
    Message(id, data.content, data.isUser, now, data.image)
  }

  /** The assistant message the delayed reply stores, response `k` of the
      canned list. */
  function AiReply(k: nat, id: string, now: int): (m: Message)
    requires k < |AiResponses|
    ensures m.content in AiResponses && !m.isUser && m.image == None
  {
    Message(id, AiResponses[k], false, now, None)
  }

  /** The `i`-th invented older message: two days and `i` hours before `now`. */
  function OlderMessage(i: nat, id: string, isUser: bool, now: int): Message {
    Message(id, "This is an older message #" + Text.NatToString(i + 1), isUser,
            now - 2 * DayMs - i * HourMs, None)
  }

  /** The batch `loadMoreMessages` prepends; `coins[i]` stands for the
      random author flag of message `i`. */
  function OlderMessages(ids: seq<string>, coins: seq<bool>, now: int): (batch: seq<Message>)
    requires |ids| == |coins|
    ensures |batch| == |ids|
    ensures forall i :: 0 <= i < |batch| ==> batch[i].id == ids[i] && batch[i].isUser == coins[i]
  {
    seq(|ids|, i requires 0 <= i < |ids| => OlderMessage(i, ids[i], coins[i], now))
  }

  /** The two rewrites the store applies to one room. */
  datatype RoomEdit = Append(message: Message) | Prepend(batch: seq<Message>)

  function ApplyEdit(room: Chatroom, e: RoomEdit): Chatroom {
    match e
    case Append(m) => room.(messages := room.messages + [m], lastMessage := Some(m))
    case Prepend(b) => room.(messages := b + room.messages)
  }

  /** `rooms.map(room => room.id === id ? edit(room) : room)` */
  function EditRoom(rooms: seq<Chatroom>, id: string, e: RoomEdit): (r: seq<Chatroom>)
    ensures |r| == |rooms|
  {
    if rooms == [] then []
    else [if rooms[0].id == id then ApplyEdit(rooms[0], e) else rooms[0]] + EditRoom(rooms[1..], id, e)
  }

  /** Every room with the target id is rewritten and every other room is
      left exactly as it was, at the same position. */
  lemma {:induction false} EditRoomAt(rooms: seq<Chatroom>, id: string, e: RoomEdit, k: nat)
    requires k < |rooms|
    ensures EditRoom(rooms, id, e)[k] == if rooms[k].id == id then ApplyEdit(rooms[k], e) else rooms[k]
  {
    if k > 0 {
      EditRoomAt(rooms[1..], id, e, k - 1);
    }
  }

  /** When no room has the target id the list is unchanged. */
  lemma {:induction false} EditMissingRoom(rooms: seq<Chatroom>, id: string, e: RoomEdit)
    requires forall k :: 0 <= k < |rooms| ==> rooms[k].id != id
    ensures EditRoom(rooms, id, e) == rooms
  {
    if rooms != [] {
      EditMissingRoom(rooms[1..], id, e);
    }
  }

  /** Both rewrites keep the cached last message equal to the last element. */
  lemma EditKeepsLastIsLast(rooms: seq<Chatroom>, id: string, e: RoomEdit)
    requires AllLastIsLast(rooms)
    ensures AllLastIsLast(EditRoom(rooms, id, e))
  {
    forall k | 0 <= k < |rooms| ensures LastIsLast(EditRoom(rooms, id, e)[k]) {
      EditRoomAt(rooms, id, e, k);
      if rooms[k].id == id && e.Prepend? {
        var ms := rooms[k].messages;
        if ms != [] {
          assert (e.batch + ms)[|e.batch + ms| - 1] == ms[|ms| - 1];
        }
      }
    }
  }

  /** `addMessage` grows the target room by exactly the new message, at the
      end, and caches it as the last message. */
  lemma AppendEffect(rooms: seq<Chatroom>, id: string, m: Message, k: nat)
    requires k < |rooms| && rooms[k].id == id
    ensures EditRoom(rooms, id, Append(m))[k].messages == rooms[k].messages + [m]
    ensures EditRoom(rooms, id, Append(m))[k].lastMessage == Some(m)
    ensures EditRoom(rooms, id, Append(m))[k].(messages := rooms[k].messages, lastMessage := rooms[k].lastMessage) == rooms[k]
  {
    EditRoomAt(rooms, id, Append(m), k);
  }

  /** A user turn followed by its delayed reply grows the room by exactly
      two messages, user first, and caches the reply. */
  lemma UserTurnThenReply(rooms: seq<Chatroom>, id: string, u: Message, a: Message, k: nat)
    requires k < |rooms| && rooms[k].id == id
    ensures EditRoom(EditRoom(rooms, id, Append(u)), id, Append(a))[k].messages == rooms[k].messages + [u, a]
    ensures EditRoom(EditRoom(rooms, id, Append(u)), id, Append(a))[k].lastMessage == Some(a)
  {
    var mid := EditRoom(rooms, id, Append(u));
    EditRoomAt(rooms, id, Append(u), k);
    EditRoomAt(mid, id, Append(a), k);
    assert rooms[k].messages + [u] + [a] == rooms[k].messages + [u, a];
  }

  /** `loadMoreMessages` puts the batch in front: the old messages are the
      suffix after it, and the cached last message does not change. */
  lemma PrependEffect(rooms: seq<Chatroom>, id: string, batch: seq<Message>, k: nat)
    requires k < |rooms| && rooms[k].id == id
    ensures EditRoom(rooms, id, Prepend(batch))[k].messages == batch + rooms[k].messages
    ensures EditRoom(rooms, id, Prepend(batch))[k].messages[|batch|..] == rooms[k].messages
    ensures EditRoom(rooms, id, Prepend(batch))[k].lastMessage == rooms[k].lastMessage
  {
    EditRoomAt(rooms, id, Prepend(batch), k);
    assert (batch + rooms[k].messages)[|batch|..] == rooms[k].messages;
  }

  /** The filter predicate of `deleteChatroom`. */
  function NotId(id: string): Chatroom -> bool {
    (room: Chatroom) => room.id != id
  }

  /** `rooms.filter(room => room.id !== id)`: no room with the id is left,
      and the list never grows. */
  function RemoveRoom(rooms: seq<Chatroom>, id: string): (r: seq<Chatroom>)
    ensures |r| <= |rooms|
    ensures forall k :: 0 <= k < |r| ==> r[k].id != id
  {
    var kept := Filter(rooms, NotId(id));
    forall k | 0 <= k < |kept| ensures kept[k].id != id {
      FilterMembership(rooms, NotId(id), kept[k]);
    }
    kept
  }

  /** Deleting keeps exactly the rooms with another id, each as often as
      before, and the relative order of the kept rooms. */
  lemma RemoveRoomExact(rooms: seq<Chatroom>, id: string, room: Chatroom)
    ensures room in RemoveRoom(rooms, id) <==> room in rooms && room.id != id
    ensures multiset(RemoveRoom(rooms, id))[room] == if room.id != id then multiset(rooms)[room] else 0
  {
    FilterMembership(rooms, NotId(id), room);
    FilterCount(rooms, NotId(id), room);
  }

  lemma RemoveRoomOrder(front: seq<Chatroom>, back: seq<Chatroom>, id: string)
    ensures RemoveRoom(front + back, id) == RemoveRoom(front, id) + RemoveRoom(back, id)
  {
    FilterConcat(front, back, NotId(id));
  }

  /** `updatedChatrooms[0]?.id || null`: an empty-string id is falsy too. */
  function FirstIdOrNull(remaining: seq<Chatroom>): (r: Option<string>)
    ensures r.Some? ==> |remaining| > 0 && r.value == remaining[0].id && r.value != ""
    ensures r.None? <==> remaining == [] || remaining[0].id == ""
  {
    if |remaining| > 0 && remaining[0].id != "" then Some(remaining[0].id) else None
  }

  /** The current-room pointer after deleting `id`. */
  function PointerAfterDelete(current: Option<string>, id: string, remaining: seq<Chatroom>): (r: Option<string>)
    ensures current != Some(id) ==> r == current
    ensures current == Some(id) ==> r.None? || (|remaining| > 0 && r == Some(remaining[0].id))
  {
    if current == Some(id) then FirstIdOrNull(remaining) else current
  }

  /** After a delete the pointer never names the deleted id; it is unchanged
      unless it named that id, and then it names the first remaining room,
      or is null when no room remains or that room's id is the empty
      string. */
  lemma PointerAfterDeleteFacts(rooms: seq<Chatroom>, current: Option<string>, id: string)
    ensures PointerAfterDelete(current, id, RemoveRoom(rooms, id)) != Some(id)
    ensures current != Some(id) ==> PointerAfterDelete(current, id, RemoveRoom(rooms, id)) == current
    ensures current == Some(id) && (exists k :: 0 <= k < |rooms| && rooms[k].id != id) ==>
      |RemoveRoom(rooms, id)| > 0
    ensures current == Some(id) && |RemoveRoom(rooms, id)| > 0 && RemoveRoom(rooms, id)[0].id != "" ==>
      PointerAfterDelete(current, id, RemoveRoom(rooms, id)) == Some(RemoveRoom(rooms, id)[0].id)
    ensures current == Some(id) && |RemoveRoom(rooms, id)| > 0 && RemoveRoom(rooms, id)[0].id == "" ==>
      PointerAfterDelete(current, id, RemoveRoom(rooms, id)) == None
    ensures current == Some(id) && (forall k :: 0 <= k < |rooms| ==> rooms[k].id == id) ==>
      PointerAfterDelete(current, id, RemoveRoom(rooms, id)) == None
  {
    if exists k :: 0 <= k < |rooms| && rooms[k].id != id {
      var k :| 0 <= k < |rooms| && rooms[k].id != id;
      RemoveRoomExact(rooms, id, rooms[k]);
    }
    if forall k :: 0 <= k < |rooms| ==> rooms[k].id == id {
      FilterEmptyIff(rooms, NotId(id));
    }
  }

  class ChatStore {
    var chatrooms: seq<Chatroom>
    var currentChatroomId: Option<string>
    var isTyping: bool
    var searchQuery: string

    /** Every room's cached last message is its last message. */
    ghost predicate Valid()
      reads this
    {
      AllLastIsLast(chatrooms)
    }

    /** The initial state: only the default room, which is current. */
    constructor (now: int)
      ensures Valid()
      ensures chatrooms == [DefaultRoom(now)]
      ensures currentChatroomId == Some(DefaultChatId)
      ensures !isTyping && searchQuery == ""
    {
      chatrooms := [DefaultRoom(now)];
      currentChatroomId := Some(DefaultChatId);
      isTyping := false;
      searchQuery := "";
    }

    /** `addChatroom`: a new empty room in front, made current. */
    method AddChatroom(title: string, freshId: string, now: int)
      requires Valid()
      modifies this
      ensures Valid()
      ensures chatrooms == [NewRoom(freshId, title, now)] + old(chatrooms)
      ensures currentChatroomId == Some(freshId)
      ensures isTyping == old(isTyping) && searchQuery == old(searchQuery)
    {
      var room := NewRoom(freshId, title, now);
      chatrooms := [room] + chatrooms;
      currentChatroomId := Some(room.id);
    }

    /** `deleteChatroom`: drops every room with `id` and repairs the pointer.
        The store itself refuses nothing. */
    method DeleteChatroom(id: string)
      requires Valid()
      modifies this
      ensures Valid()
      ensures chatrooms == RemoveRoom(old(chatrooms), id)
      ensures currentChatroomId == PointerAfterDelete(old(currentChatroomId), id, chatrooms)
      ensures isTyping == old(isTyping) && searchQuery == old(searchQuery)
    {
      var updated := RemoveRoom(chatrooms, id);
      forall k | 0 <= k < |updated| ensures LastIsLast(updated[k]) {
        RemoveRoomExact(chatrooms, id, updated[k]);
      }
      var newCurrent := if currentChatroomId == Some(id) then FirstIdOrNull(updated) else currentChatroomId;
      chatrooms, currentChatroomId := updated, newCurrent;
    }

    /** `setCurrentChatroom`: stores the id without checking it exists. */
    method SetCurrentChatroom(id: string)
      modifies this`currentChatroomId
      ensures currentChatroomId == Some(id)
    {
      currentChatroomId := Some(id);
    }

    /** `addMessage`: appends the stamped message to the room with
        `roomId` and caches it; a user message also raises `isTyping`,
        which the matching `DeliverReply` lowers. */
    method AddMessage(roomId: string, data: MessageData, freshId: string, now: int)
      requires Valid()
      modifies this
      ensures Valid()
      ensures chatrooms == EditRoom(old(chatrooms), roomId, Append(Stamp(data, freshId, now)))
      ensures isTyping == (data.isUser || old(isTyping))
      ensures currentChatroomId == old(currentChatroomId) && searchQuery == old(searchQuery)
    {
      var message := Stamp(data, freshId, now);
      EditKeepsLastIsLast(chatrooms, roomId, Append(message));
      chatrooms := EditRoom(chatrooms, roomId, Append(message));
      if data.isUser {
        isTyping := true;
      }
    }

    /** The body of the timer `addMessage` schedules for a user message:
        appends canned reply `k` to the room with `roomId`, if it still
        exists, and lowers `isTyping` in any case. */
    method DeliverReply(roomId: string, k: nat, freshId: string, now: int)
      requires Valid()
      requires k < |AiResponses|
      modifies this
      ensures Valid()
      ensures chatrooms == EditRoom(old(chatrooms), roomId, Append(AiReply(k, freshId, now)))
      ensures !isTyping
      ensures currentChatroomId == old(currentChatroomId) && searchQuery == old(searchQuery)
    {
      var reply := AiReply(k, freshId, now);
      EditKeepsLastIsLast(chatrooms, roomId, Append(reply));
      chatrooms, isTyping := EditRoom(chatrooms, roomId, Append(reply)), false;
    }

    /** `setTyping` */
    method SetTyping(typing: bool)
      modifies this`isTyping
      ensures isTyping == typing
    {
      isTyping := typing;
    }

    /** `setSearchQuery`: stores the query verbatim. */
    method SetSearchQuery(query: string)
      modifies this`searchQuery
      ensures searchQuery == query
    {
      searchQuery := query;
    }

    /** `loadMoreMessages`: puts a batch of ten invented older messages in
        front of the room with `roomId`; `ids` and `coins` stand for the
        generated ids and the random author flags. */
    method LoadMoreMessages(roomId: string, ids: seq<string>, coins: seq<bool>, now: int)
      requires Valid()
      requires |ids| == OlderBatchSize && |coins| == OlderBatchSize
      modifies this
      ensures Valid()
      ensures chatrooms == EditRoom(old(chatrooms), roomId, Prepend(OlderMessages(ids, coins, now)))
      ensures currentChatroomId == old(currentChatroomId)
      ensures isTyping == old(isTyping) && searchQuery == old(searchQuery)
    {
      var batch := OlderMessages(ids, coins, now);
      EditKeepsLastIsLast(chatrooms, roomId, Prepend(batch));
      chatrooms := EditRoom(chatrooms, roomId, Prepend(batch));
    }
  }
}
