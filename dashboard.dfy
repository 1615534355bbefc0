/** The logic of src/components/dashboard/Dashboard.tsx: the title search,
    the "no chats found" condition, chatroom creation with a trimmed title
    and the guard against deleting the last chatroom. */
module Dashboard {
  import opened Types
  import opened Seqs
  import Text
  import Chat

  /** `chatroom.title.toLowerCase().includes(searchQuery.toLowerCase())` */
  predicate TitleMatches(room: Chatroom, query: string) {
    Text.Contains(Text.Lower(room.title), Text.Lower(query))
  }

  function MatchesQuery(query: string): Chatroom -> bool {
    (room: Chatroom) => TitleMatches(room, query)
  }

  /** `filteredChatrooms`: only matching rooms, never more than there are. */
  function FilteredChatrooms(rooms: seq<Chatroom>, query: string): (r: seq<Chatroom>)
    ensures |r| <= |rooms|
    ensures forall k :: 0 <= k < |r| ==> TitleMatches(r[k], query)
  {
    var kept := Filter(rooms, MatchesQuery(query));
    forall k | 0 <= k < |kept| ensures TitleMatches(kept[k], query) {
      FilterMembership(rooms, MatchesQuery(query), kept[k]);
    }
    kept
  }

  /** The search keeps exactly the rooms whose folded title contains the
      folded query, each as often as before. */
  lemma FilteredExact(rooms: seq<Chatroom>, query: string, room: Chatroom)
    ensures room in FilteredChatrooms(rooms, query) <==> room in rooms && TitleMatches(room, query)
    ensures multiset(FilteredChatrooms(rooms, query))[room] ==
      if TitleMatches(room, query) then multiset(rooms)[room] else 0
  {
    assert MatchesQuery(query)(room) == TitleMatches(room, query);
    FilterMembership(rooms, MatchesQuery(query), room);
    FilterCount(rooms, MatchesQuery(query), room);
  }

  /** The search keeps the rooms' relative order. */
  lemma FilteredOrder(front: seq<Chatroom>, back: seq<Chatroom>, query: string)
    ensures FilteredChatrooms(front + back, query) ==
      FilteredChatrooms(front, query) + FilteredChatrooms(back, query)
  {
    FilterConcat(front, back, MatchesQuery(query));
  }

  /** An empty query keeps every room. */
  lemma EmptyQueryKeepsAll(rooms: seq<Chatroom>)
    ensures FilteredChatrooms(rooms, "") == rooms
  {
    forall k | 0 <= k < |rooms| ensures MatchesQuery("")(rooms[k]) {
      Text.ContainsEmpty(Text.Lower(rooms[k].title));
    }
    FilterAllPass(rooms, MatchesQuery(""));
  }

  /** The search is case-insensitive: "gen" finds "General Chat" but not
      "Random". */
  lemma SearchExample(a: Chatroom, b: Chatroom)
    requires a.title == "General Chat" && b.title == "Random"
    ensures FilteredChatrooms([a, b], "gen") == [a]
  {
    var p := MatchesQuery("gen");
    assert Text.Lower("gen") == "gen";
    assert Text.Lower(a.title)[..3] == "gen";
    assert p(a);
    assert Text.Lower(b.title) == "random";
    forall i ensures !Text.OccursAt("random", "gen", i) {
      if 0 <= i <= 3 {
        assert "random"[i..i + 3][0] == "random"[i] != 'g';
      }
    }
    Text.ContainsIff("random", "gen");
    assert !p(b);
    assert [a, b][1..] == [b];
    assert [b][1..] == [];
    assert Filter([b], p) == [] + Filter([], p);
    assert Filter([a, b], p) == [a] + Filter([b], p);
  }

  /** "No chats found" is shown for a non-empty query with no match: that
      is, exactly when the query is non-empty and no room's title matches
      it. */
  predicate ShowsNoChatsFound(rooms: seq<Chatroom>, query: string)
    ensures ShowsNoChatsFound(rooms, query) <==>
      query != "" && forall k :: 0 <= k < |rooms| ==> !TitleMatches(rooms[k], query)
  {
    FilterEmptyIff(rooms, MatchesQuery(query));
    query != "" && |FilteredChatrooms(rooms, query)| == 0
  }

  /** The Create button is disabled while the trimmed title is empty, which
      is exactly while the title is all white space. */
  predicate CreateDisabled(title: string)
    ensures CreateDisabled(title) <==> forall k :: 0 <= k < |title| ==> Text.IsJsSpace(title[k])
  {
    Text.TrimEmptyIff(title);
    Text.Trim(title) == ""
  }

  /** The guard `handleDeleteChatroom` applies when the trash button is
      clicked, before any confirmation. */
  predicate DeleteGuardPasses(rooms: seq<Chatroom>) {
    |rooms| > 1
  }

  /** Ids are distinct. */
  predicate DistinctIds(rooms: seq<Chatroom>) {
    forall i, j :: 0 <= i < j < |rooms| ==> rooms[i].id != rooms[j].id
  }

  /** With distinct ids, a delete applied to the list its guard saw keeps
      at least one room. */
  lemma GuardedDeleteKeepsARoom(rooms: seq<Chatroom>, id: string)
    requires DeleteGuardPasses(rooms) && DistinctIds(rooms)
    ensures |Chat.RemoveRoom(rooms, id)| >= 1
  {
    var keep := if rooms[0].id != id then rooms[0] else rooms[1];
    Chat.RemoveRoomExact(rooms, id, keep);
  }

  /** The delete as written: two rooms, both trash buttons clicked while
      both rooms exist, so both guards pass; confirming both toasts then
      leaves no room at all. */
  lemma TwoConfirmedDeletesEmptyTheList(a: Chatroom, b: Chatroom)
    requires a.id != b.id
    ensures DeleteGuardPasses([a, b])
    ensures Chat.RemoveRoom(Chat.RemoveRoom([a, b], a.id), b.id) == []
  {
    var notA, notB := Chat.NotId(a.id), Chat.NotId(b.id);
    assert !notA(a) && notA(b) && !notB(b);
    assert [a, b][1..] == [b];
    assert [b][1..] == [];
    assert Filter([b], notA) == [b] + Filter([], notA);
    assert Filter([a, b], notA) == [] + Filter([b], notA);
    assert Filter([b], notB) == [] + Filter([], notB);
  }

  /** The confirmation with the guard checked again against the list at
      confirmation time. */
  function RecheckedDelete(rooms: seq<Chatroom>, id: string): (r: seq<Chatroom>)
    ensures DistinctIds(rooms) && |rooms| >= 1 ==> |r| >= 1
    ensures DeleteGuardPasses(rooms) ==> r == Chat.RemoveRoom(rooms, id)
    ensures !DeleteGuardPasses(rooms) ==> r == rooms
  {
    if DeleteGuardPasses(rooms) then
      var r := Chat.RemoveRoom(rooms, id);
      assert DistinctIds(rooms) ==> |r| >= 1 by {
        if DistinctIds(rooms) {
          GuardedDeleteKeepsARoom(rooms, id);
        }
      }
      r
    else rooms
  }

  /** The dashboard's own state beside the chat store it drives.
      `pendingDeletes` holds the ids of the delete confirmations on screen,
      one entry per confirmation toast. */
  class DashboardView {
    var showNewChatroomForm: bool
    var isCreatingChatroom: bool
    var pendingDeletes: multiset<string>
    const store: Chat.ChatStore

    constructor (store: Chat.ChatStore)
      ensures this.store == store
      ensures !showNewChatroomForm && !isCreatingChatroom && pendingDeletes == multiset{}
    {
      this.store := store;
      showNewChatroomForm := false;
      isCreatingChatroom := false;
      pendingDeletes := multiset{};
    }

    /** `handleCreateChatroom`: creates a room with the trimmed title and
        closes the form; the busy flag is down again afterwards. */
    method HandleCreateChatroom(title: string, freshId: string, now: int)
      requires store.Valid()
      modifies this, store
      ensures store.Valid()
      ensures store.chatrooms == [Chat.NewRoom(freshId, Text.Trim(title), now)] + old(store.chatrooms)
      ensures store.currentChatroomId == Some(freshId)
      ensures store.isTyping == old(store.isTyping) && store.searchQuery == old(store.searchQuery)
      ensures !showNewChatroomForm && !isCreatingChatroom && pendingDeletes == old(pendingDeletes)
    {
      isCreatingChatroom := true;
      store.AddChatroom(Text.Trim(title), freshId, now);
      showNewChatroomForm := false;
      isCreatingChatroom := false;
    }

    /** `handleDeleteChatroom`, the trash button: refused when at most one
        room exists; otherwise a confirmation for `id` is put on screen. The
        store is not touched. */
    method HandleDeleteChatroom(id: string) returns (refused: bool)
      modifies this`pendingDeletes
      ensures refused <==> !DeleteGuardPasses(store.chatrooms)
      ensures pendingDeletes == if refused then old(pendingDeletes) else old(pendingDeletes) + multiset{id}
    {
      if |store.chatrooms| <= 1 {
        return true;
      }
      pendingDeletes := pendingDeletes + multiset{id};
      refused := false;
    }

    /** The confirmation's Delete action: deletes `id` from the store as the
        store then is, without checking the room count again. */
    method ConfirmDelete(id: string)
      requires store.Valid()
      requires id in pendingDeletes
      modifies this`pendingDeletes, store
      ensures store.Valid()
      ensures store.chatrooms == Chat.RemoveRoom(old(store.chatrooms), id)
      ensures store.currentChatroomId == Chat.PointerAfterDelete(old(store.currentChatroomId), id, store.chatrooms)
      ensures store.isTyping == old(store.isTyping) && store.searchQuery == old(store.searchQuery)
      ensures pendingDeletes == old(pendingDeletes) - multiset{id}
    {
      store.DeleteChatroom(id);
      pendingDeletes := pendingDeletes - multiset{id};
    }

    /** The confirmation's Cancel action: the toast goes, nothing else
        changes. */
    method CancelDelete(id: string)
      modifies this`pendingDeletes
      ensures pendingDeletes == old(pendingDeletes) - multiset{id}
    {
      pendingDeletes := pendingDeletes - multiset{id};
    }
  }
}
