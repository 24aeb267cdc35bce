/** The chat-room list handlers of `chatRoomHandlers.jsx`: switching rooms, and
    deleting a room with the current selection moved to a surviving room. */
module ChatRoomHandlers {
  import opened Wrappers
  import opened ChatRoomManager

  datatype SwitchResult = SwitchResult(currentChatRoomId: Option<int>, showChatRoomList: bool)

  /** Switching selects the room and closes the room list. */
  function SwitchChatRoom(roomId: int): (r: SwitchResult)
    ensures r.currentChatRoomId == Some(roomId) && !r.showChatRoomList
  {
    SwitchResult(Some(roomId), false)
  }

  datatype DeleteResult = DeleteResult(chatRooms: seq<ChatRoom>, currentChatRoomId: Option<int>)

  /** The delete handler. `captured` is the room list the handler was created
      with, from which the next selection is chosen; `latest` is the list at the
      time the state update runs, from which the room is removed. */
  function DeleteChatRoom(captured: seq<ChatRoom>, latest: seq<ChatRoom>,
                          currentChatRoomId: Option<int>, roomId: int): (r: DeleteResult)
    ensures r.chatRooms == DeleteChatRoomById(latest, roomId)
    ensures currentChatRoomId != Some(roomId) ==> r.currentChatRoomId == currentChatRoomId
    ensures currentChatRoomId == Some(roomId) ==>
              (r.currentChatRoomId.None? <==> forall i :: 0 <= i < |captured| ==> captured[i].id == roomId)
    ensures currentChatRoomId == Some(roomId) && r.currentChatRoomId.Some? ==>
              exists i :: 0 <= i < |captured| && captured[i].id == r.currentChatRoomId.value && captured[i].id != roomId
                          && forall j :: 0 <= j < i ==> captured[j].id == roomId
  {
    FirstKeptRoom(captured, roomId);
    var remaining := DeleteChatRoomById(captured, roomId);
    var next := if currentChatRoomId != Some(roomId) then currentChatRoomId
                else if |remaining| > 0 then Some(remaining[0].id)
                else None;
    DeleteResult(DeleteChatRoomById(latest, roomId), next)
  }

  /** The first room a deletion keeps is the list's first room with another
      id, and none is kept only when every room has the deleted id. */
  lemma {:induction false} FirstKeptRoom(rooms: seq<ChatRoom>, roomId: int)
    ensures DeleteChatRoomById(rooms, roomId) == [] <==> forall i :: 0 <= i < |rooms| ==> rooms[i].id == roomId
    ensures DeleteChatRoomById(rooms, roomId) != [] ==>
              exists i :: 0 <= i < |rooms| && rooms[i] == DeleteChatRoomById(rooms, roomId)[0] && rooms[i].id != roomId
                          && forall j :: 0 <= j < i ==> rooms[j].id == roomId
  {
    if rooms != [] {
      FirstKeptRoom(rooms[1..], roomId);
      assert forall i :: 1 <= i < |rooms| ==> rooms[i] == rooms[1..][i - 1];
      if rooms[0].id == roomId && DeleteChatRoomById(rooms[1..], roomId) != [] {
        var i :| 0 <= i < |rooms[1..]| && rooms[1..][i] == DeleteChatRoomById(rooms[1..], roomId)[0]
                 && rooms[1..][i].id != roomId && forall j :: 0 <= j < i ==> rooms[1..][j].id == roomId;
        assert rooms[i + 1] == DeleteChatRoomById(rooms, roomId)[0];
      }
    }
  }

  /** The selection refers to a room of the list, or is empty. */
  predicate SelectionValid(rooms: seq<ChatRoom>, current: Option<int>)
  {
    current.Some? ==> exists i :: 0 <= i < |rooms| && rooms[i].id == current.value
  }

  /** Deleting the current room moves the selection to another room, never to the
      deleted id, and empties it only when no room is left. */
  lemma DeleteCurrentMovesSelection(rooms: seq<ChatRoom>, roomId: int)
    ensures var r := DeleteChatRoom(rooms, rooms, Some(roomId), roomId);
            && r.currentChatRoomId != Some(roomId)
            && (r.currentChatRoomId.None? <==> r.chatRooms == [])
            && (r.chatRooms != [] ==> r.currentChatRoomId == Some(r.chatRooms[0].id))
  {
    var r := DeleteChatRoom(rooms, rooms, Some(roomId), roomId);
    DeleteKeepsOthers(rooms, roomId);
    if r.chatRooms != [] {
      assert r.chatRooms[0] in r.chatRooms;
    }
  }

  /** With an up-to-date list, deletion keeps the selection valid: the selected
      room, when not the deleted one, survives. */
  lemma DeleteKeepsSelectionValid(rooms: seq<ChatRoom>, current: Option<int>, roomId: int)
    requires SelectionValid(rooms, current)
    ensures var r := DeleteChatRoom(rooms, rooms, current, roomId);
            SelectionValid(r.chatRooms, r.currentChatRoomId)
  {
    var r := DeleteChatRoom(rooms, rooms, current, roomId);
    DeleteKeepsOthers(rooms, roomId);
    if current.Some? && current != Some(roomId) {
      var i :| 0 <= i < |rooms| && rooms[i].id == current.value;
      assert rooms[i] in r.chatRooms;
      var j :| 0 <= j < |r.chatRooms| && r.chatRooms[j] == rooms[i];
    } else if r.currentChatRoomId.Some? {
      assert r.chatRooms != [];
    }
  }

  /** With a stale capture the chosen next room can be one that is no longer in
      the list: here the captured list still holds room 2, which a concurrent
      update already removed. */
  lemma StaleCaptureCanSelectMissingRoom(room1: ChatRoom, room2: ChatRoom)
    requires room1.id == 1 && room2.id == 2
    ensures var r := DeleteChatRoom([room1, room2], [room1], Some(1), 1);
            r.chatRooms == [] && r.currentChatRoomId == Some(2)
            && !SelectionValid(r.chatRooms, r.currentChatRoomId)
  {
    DeleteOne(room1, 1);
    DeleteDistributes([room1], [room2], 1);
    assert [room1, room2] == [room1] + [room2];
    DeleteOne(room2, 1);
  }
}
