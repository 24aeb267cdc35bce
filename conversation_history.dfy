/** The saved-room history panel of `ConversationHistory.jsx`: drag-and-drop
    reordering, the drag markers, and the local removal after a delete. */
module ConversationHistory {
  import opened Wrappers

  /** Removal of the element at `i`, as `splice(i, 1)` does. */
  function RemoveAt<T>(s: seq<T>, i: nat): (r: seq<T>)
    requires i < |s|
    ensures |r| == |s| - 1
  {
    s[..i] + s[i + 1..]
  }

  /** Insertion of `x` before position `i`, as `splice(i, 0, x)` does. */
  function InsertAt<T>(s: seq<T>, i: nat, x: T): (r: seq<T>)
    requires i <= |s|
    ensures |r| == |s| + 1
  {
    s[..i] + [x] + s[i..]
  }

  /** The reorder of a drop: the dragged element is taken out and put back at
      the drop index. */
  function Move<T>(s: seq<T>, from: nat, to: nat): seq<T>
    requires from < |s| && to < |s|
  {
    InsertAt(RemoveAt(s, from), to, s[from])
  }

  /** Element by element: a move shifts the elements between the two indices by
      one place towards `from` and leaves the rest where they were. */
  lemma MoveIndex<T>(s: seq<T>, from: nat, to: nat)
    requires from < |s| && to < |s|
    ensures |Move(s, from, to)| == |s| && Move(s, from, to)[to] == s[from]
    ensures forall k :: 0 <= k < |s| && (k < from || k > to) && (k < to || k > from) ==> Move(s, from, to)[k] == s[k]
    ensures forall k :: from <= k < to ==> Move(s, from, to)[k] == s[k + 1]
    ensures forall k :: to < k <= from ==> Move(s, from, to)[k] == s[k - 1]
  {
  }

  /** A drop is a permutation of the list. */
  lemma MovePermutes<T>(s: seq<T>, from: nat, to: nat)
    requires from < |s| && to < |s|
    ensures multiset(Move(s, from, to)) == multiset(s)
  {
    var r := RemoveAt(s, from);
    assert s == s[..from] + [s[from]] + s[from + 1..];
    assert r[..to] + r[to..] == r;
    calc {
      multiset(Move(s, from, to));
      multiset(r[..to]) + multiset([s[from]]) + multiset(r[to..]);
      multiset(r) + multiset([s[from]]);
      multiset(s[..from]) + multiset(s[from + 1..]) + multiset([s[from]]);
      multiset(s);
    }
  }

  /** Taking the dropped element out again gives the list without the dragged
      element: every other room keeps its relative order. */
  lemma MoveKeepsOthersInOrder<T>(s: seq<T>, from: nat, to: nat)
    requires from < |s| && to < |s|
    ensures RemoveAt(Move(s, from, to), to) == RemoveAt(s, from)
  {
    var r := RemoveAt(s, from);
    var m := Move(s, from, to);
    assert m[..to] == r[..to];
    assert m[to + 1..] == r[to..];
    assert r[..to] + r[to..] == r;
  }

  /** The in-place splice pair on a copy of the list: the elements between the
      two indices shift by one and the dragged element lands at `to`. */
  method MoveWithin<T>(a: array<T>, from: nat, to: nat)
    requires from < a.Length && to < a.Length
    modifies a
    ensures a[..] == Move(old(a[..]), from, to)
  {
    ghost var s := a[..];
    MoveIndex(s, from, to);
    var dragged := a[from];
    if from < to {
      var i := from;
      while i < to
        invariant from <= i <= to
        invariant forall k :: from <= k < i ==> a[k] == s[k + 1]
        invariant forall k :: 0 <= k < a.Length && (k < from || k >= i) ==> a[k] == s[k]
      {
        a[i] := a[i + 1];
        i := i + 1;
      }
    } else {
      var i := from;
      while i > to
        invariant to <= i <= from
        invariant forall k :: i < k <= from ==> a[k] == s[k - 1]
        invariant forall k :: 0 <= k < a.Length && (k <= i || k > from) ==> a[k] == s[k]
      {
        a[i] := a[i - 1];
        i := i - 1;
      }
    }
    a[to] := dragged;
    assert forall k :: 0 <= k < a.Length ==> a[k] == Move(s, from, to)[k];
  }

  /** A saved room as the panel lists it. */
  datatype HistoryRoom = HistoryRoom(roomId: string, name: string)

  /** The rooms without those carrying `roomId`, in their order. */
  function WithoutRoom(rooms: seq<HistoryRoom>, roomId: string): seq<HistoryRoom>
  {
    if rooms == [] then []
    else
      var rest := WithoutRoom(rooms[1..], roomId);
      if rooms[0].roomId == roomId then rest else [rooms[0]] + rest
  }

  /** Exactly the rooms with another id are kept. */
  lemma {:induction false} WithoutRoomKeepsOthers(rooms: seq<HistoryRoom>, roomId: string)
    ensures forall room :: room in WithoutRoom(rooms, roomId) <==> room in rooms && room.roomId != roomId
    ensures |WithoutRoom(rooms, roomId)| <= |rooms|
    decreases |rooms|
  {
    if rooms != [] {
      WithoutRoomKeepsOthers(rooms[1..], roomId);
      WithoutRoomUnfold(rooms, roomId);
      assert rooms == [rooms[0]] + rooms[1..];
    }
  }

  /** Removal acts on each part of the list separately, so the kept rooms keep
      their relative order. */
  lemma {:induction false} WithoutRoomDistributes(a: seq<HistoryRoom>, b: seq<HistoryRoom>, roomId: string)
    ensures WithoutRoom(a + b, roomId) == WithoutRoom(a, roomId) + WithoutRoom(b, roomId)
    decreases |a|
  {
    if a == [] {
      assert a + b == b;
    } else {
      var ab := a + b;
      assert ab[0] == a[0] && ab[1..] == a[1..] + b;
      WithoutRoomDistributes(a[1..], b, roomId);
      WithoutRoomUnfold(ab, roomId);
      WithoutRoomUnfold(a, roomId);
    }
  }

  lemma WithoutRoomUnfold(rooms: seq<HistoryRoom>, roomId: string)
    requires rooms != []
    ensures WithoutRoom(rooms, roomId)
            == (if rooms[0].roomId == roomId then [] else [rooms[0]]) + WithoutRoom(rooms[1..], roomId)
  {
  }

  class HistoryPanel {
    var chatRooms: seq<HistoryRoom>
    var draggedItem: Option<nat>
    var dragOverItem: Option<nat>
    /** The room ids sent to the backend for deletion, in order. */
    var deleteRequests: seq<string>

    constructor(loaded: seq<HistoryRoom>)
      ensures chatRooms == loaded && draggedItem.None? && dragOverItem.None? && deleteRequests == []
    {
      chatRooms := loaded;
      draggedItem := None;
      dragOverItem := None;
      deleteRequests := [];
    }

    method DragStart(index: nat)
      modifies this`draggedItem
      ensures draggedItem == Some(index)
    {
      draggedItem := Some(index);
    }

    /** Drag-over and drag-enter mark the hovered item, unless it is the dragged one. */
    method DragOver(index: nat)
      modifies this`dragOverItem
      ensures dragOverItem == if draggedItem == Some(index) then old(dragOverItem) else Some(index)
    {
      if draggedItem != Some(index) {
        dragOverItem := Some(index);
      }
    }

    /** Leaving clears the marker only when the pointer left the item itself
        (`leftItem`), not when it moved onto one of its children. */
    method DragLeave(leftItem: bool)
      modifies this`dragOverItem
      ensures dragOverItem == if leftItem then None else old(dragOverItem)
    {
      if leftItem {
        dragOverItem := None;
      }
    }

    method DragEnd()
      modifies this`draggedItem, this`dragOverItem
      ensures draggedItem.None? && dragOverItem.None?
    {
      draggedItem := None;
      dragOverItem := None;
    }

    /** A drop with no dragged item, or onto the dragged item's own index,
        leaves the list alone; any other drop moves the dragged room to the drop
        index. Both markers are cleared either way. The indices are rendered
        positions of the current list. */
    method Drop(dropIndex: nat)
      requires dropIndex < |chatRooms|
      requires draggedItem.Some? ==> draggedItem.value < |chatRooms|
      modifies this`chatRooms, this`draggedItem, this`dragOverItem
      ensures draggedItem.None? && dragOverItem.None?
      ensures old(draggedItem).None? || old(draggedItem) == Some(dropIndex) ==> chatRooms == old(chatRooms)
      ensures old(draggedItem).Some? && old(draggedItem) != Some(dropIndex) ==>
                chatRooms == Move(old(chatRooms), old(draggedItem).value, dropIndex)
    {
      if draggedItem.None? || draggedItem == Some(dropIndex) {
        draggedItem := None;
        dragOverItem := None;
        return;
      }
      var copy := new HistoryRoom[|chatRooms|](i requires 0 <= i < |chatRooms| reads this => chatRooms[i]);
      assert copy[..] == chatRooms;
      MoveWithin(copy, draggedItem.value, dropIndex);
      chatRooms := copy[..];
      draggedItem := None;
      dragOverItem := None;
    }

    /** A confirmed delete asks the backend first; only once it succeeds
        (`backendOk`) are the rooms with that id removed locally. */
    method Delete(roomId: string, confirmed: bool, backendOk: bool)
      modifies this`chatRooms, this`deleteRequests
      ensures deleteRequests == old(deleteRequests) + (if confirmed then [roomId] else [])
      ensures chatRooms == if confirmed && backendOk then WithoutRoom(old(chatRooms), roomId) else old(chatRooms)
    {
      if confirmed {
        deleteRequests := deleteRequests + [roomId];
        if backendOk {
          chatRooms := WithoutRoom(chatRooms, roomId);
        }
      }
    }
  }
}
