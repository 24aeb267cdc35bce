/** The chat-room list algebra of the player page: rooms are bucketed by the
    whole second of the video at which they were opened, and the page only ever
    replaces the list by a new one built with find, map and filter. */
module ChatRoomManager {
  import opened Wrappers
  import opened Text

  datatype Sender = User | Ai

  /** A chat message; `timestamp` is the creation instant in milliseconds, and
      `text` is `None` for a reply that resolved to null or undefined. */
  datatype Message = Message(id: int, text: Option<string>, sender: Sender, timestamp: int)

  /** A chat room. `id` is the creation instant (`Date.now()`), `frameTime` the
      instant the frame was captured, and `videoCurrentTime` the playback position
      in seconds, absent (null) for rooms that carry none. */
  datatype ChatRoom = ChatRoom(
    id: int,
    name: string,
    messages: seq<Message>,
    capturedFrame: string,
    frameTime: int,
    videoCurrentTime: Option<real>)

  datatype FindOrCreateResult = FindOrCreateResult(room: ChatRoom, isNew: bool)

  /** The greeting every new room starts with. */
  const SeedText: string := "이 화면에 대해 궁금한 것이 있으시면 언제든 물어보세요!"

  /** JavaScript's truncating remainder `a % b` for a positive divisor. */
  function JsRemainder(a: real, b: real): (r: real)
    requires b > 0.0
  {
    var q := a / b;
    var t := if q >= 0.0 then q.Floor else -((-q).Floor);
    a - b * t as real
  }

  /** The `(minutes, remainingSeconds)` pair `formatVideoTime` prints:
      `Math.floor(s / 60)` and `Math.floor(s % 60)`. For a playback position
      they split its whole seconds into minutes and seconds below 60. */
  function VideoTimeParts(seconds: real): (p: (int, int))
    ensures seconds >= 0.0 ==>
              p.0 == seconds.Floor / 60 && p.1 == seconds.Floor % 60 && 0 <= p.1 < 60
  {
    var minutes := (seconds / 60.0).Floor;
    var remaining := JsRemainder(seconds, 60.0).Floor;
    FloorParts(seconds);
    (minutes, remaining)
  }

  lemma FloorParts(s: real)
    ensures s >= 0.0 ==> (s / 60.0).Floor == s.Floor / 60
    ensures s >= 0.0 ==> JsRemainder(s, 60.0).Floor == s.Floor % 60
  {
    if s >= 0.0 {
      var f := s.Floor;
      var q, r := f / 60, f % 60;
      assert f == 60 * q + r;
      assert q as real <= s / 60.0 < q as real + 1.0;
      assert (s / 60.0).Floor == q;
      assert JsRemainder(s, 60.0) == s - 60.0 * q as real;
      assert r as real <= s - 60.0 * q as real < r as real + 1.0;
    }
  }

  /** `formatVideoTime`: `MM:SS`, each part zero-padded to at least two digits. */
  function FormatVideoTime(seconds: real): string
  {
    var p := VideoTimeParts(seconds);
    PadStart(IntToString(p.0), 2, '0') + ":" + PadStart(IntToString(p.1), 2, '0')
  }

  function FirstColon(s: string): (k: Option<nat>)
    ensures k.Some? ==> k.value < |s| && s[k.value] == ':'
  {
    if s == [] then None
    else if s[0] == ':' then Some(0)
    else match FirstColon(s[1..]) case None => None case Some(k) => Some(k + 1)
  }

  /** Reads a `MM:SS` label back into its minutes and seconds. */
  function ParseVideoTime(s: string): Option<(nat, nat)>
  {
    match FirstColon(s)
    case None => None
    case Some(k) =>
      if AllDigits(s[..k]) && AllDigits(s[k + 1..]) then
        Some((ParseDigits(s[..k]), ParseDigits(s[k + 1..])))
      else None
  }

  lemma {:induction false} FirstColonAfterDigits(a: string, b: string)
    requires AllDigits(a)
    ensures FirstColon(a + ":" + b) == Some(|a|)
    decreases |a|
  {
    var s := a + ":" + b;
    if a != [] {
      assert s[1..] == a[1..] + ":" + b;
      FirstColonAfterDigits(a[1..], b);
    }
  }

  lemma PaddedDigits(n: nat)
    ensures AllDigits(PadStart(NatToString(n), 2, '0'))
    ensures ParseDigits(PadStart(NatToString(n), 2, '0')) == n
  {
    var s := NatToString(n);
    ParseNatToString(n);
    if |s| < 2 {
      ParseLeadingZeros(2 - |s|, s);
    }
  }

  /** For a playback position, the label reads back as the minutes and seconds
      of its whole second: no information about the bucket is lost. */
  lemma FormatVideoTimeReadsBack(seconds: real)
    requires seconds >= 0.0
    ensures ParseVideoTime(FormatVideoTime(seconds)) == Some((seconds.Floor / 60, seconds.Floor % 60))
  {
    var p := VideoTimeParts(seconds);
    var m: nat, sec: nat := p.0, p.1;
    var a := PadStart(NatToString(m), 2, '0');
    var b := PadStart(NatToString(sec), 2, '0');
    assert FormatVideoTime(seconds) == a + ":" + b;
    LabelReadsBack(m, sec);
  }

  lemma LabelReadsBack(m: nat, sec: nat)
    ensures var a := PadStart(NatToString(m), 2, '0');
            var b := PadStart(NatToString(sec), 2, '0');
            ParseVideoTime(a + ":" + b) == Some((m, sec))
  {
    PaddedDigits(m);
    PaddedDigits(sec);
    ParseJoined(PadStart(NatToString(m), 2, '0'), PadStart(NatToString(sec), 2, '0'));
  }

  lemma ParseJoined(a: string, b: string)
    requires AllDigits(a) && AllDigits(b)
    ensures ParseVideoTime(a + ":" + b) == Some((ParseDigits(a), ParseDigits(b)))
  {
    var s := a + ":" + b;
    FirstColonAfterDigits(a, b);
    assert s[..|a|] == a;
    assert s[|a| + 1..] == b;
  }

  /** Two playback positions get the same room name exactly when they fall in the
      same whole second, the bucket `findChatRoomByTime` matches on. */
  lemma SameNameIffSameBucket(s: real, t: real)
    requires s >= 0.0 && t >= 0.0
    ensures FormatVideoTime(s) == FormatVideoTime(t) <==> s.Floor == t.Floor
  {
    FormatVideoTimeReadsBack(s);
    FormatVideoTimeReadsBack(t);
    var fs, ft := s.Floor, t.Floor;
    if FormatVideoTime(s) == FormatVideoTime(t) {
      assert fs / 60 == ft / 60 && fs % 60 == ft % 60;
      assert fs == 60 * (fs / 60) + fs % 60;
      assert ft == 60 * (ft / 60) + ft % 60;
    }
  }

  /** A room matches a query time when it carries a time in the same whole second. */
  predicate InBucket(room: ChatRoom, t: real)
  {
    room.videoCurrentTime.Some? && room.videoCurrentTime.value.Floor == t.Floor
  }

  /** `findChatRoomByTime`: the first room, in list order, in the query's bucket. */
  function FindChatRoomByTime(rooms: seq<ChatRoom>, t: real): (r: Option<ChatRoom>)
    ensures r.None? <==> forall i :: 0 <= i < |rooms| ==> !InBucket(rooms[i], t)
    ensures r.Some? ==>
              exists i :: 0 <= i < |rooms| && rooms[i] == r.value && InBucket(rooms[i], t)
                          && forall j :: 0 <= j < i ==> !InBucket(rooms[j], t)
  {
    if rooms == [] then None
    else if InBucket(rooms[0], t) then Some(rooms[0])
    else
      var r := FindChatRoomByTime(rooms[1..], t);
      assert forall i :: 1 <= i < |rooms| ==> rooms[i] == rooms[1..][i - 1];
      r
  }

  /** `createNewChatRoom`: `id` is the creation instant and `now` the seed
      message's timestamp. */
  function CreateNewChatRoom(capturedFrame: string, frameTime: int, videoCurrentTime: real,
                             id: int, now: int): (r: ChatRoom)
    ensures r.id == id && r.name == FormatVideoTime(videoCurrentTime)
    ensures r.messages == [Message(1, Some(SeedText), Ai, now)]
    ensures r.capturedFrame == capturedFrame && r.frameTime == frameTime
    ensures r.videoCurrentTime == Some(videoCurrentTime) && InBucket(r, videoCurrentTime)
  {
    ChatRoom(id, FormatVideoTime(videoCurrentTime), [Message(1, Some(SeedText), Ai, now)],
             capturedFrame, frameTime, Some(videoCurrentTime))
  }

  /** `findOrCreateChatRoom`: an existing room in the bucket is returned as it is;
      only when there is none is a new room built. */
  function FindOrCreateChatRoom(rooms: seq<ChatRoom>, capturedFrame: string, frameTime: int,
                                videoCurrentTime: real, id: int, now: int): (r: FindOrCreateResult)
    ensures r.isNew <==> forall i :: 0 <= i < |rooms| ==> !InBucket(rooms[i], videoCurrentTime)
    ensures !r.isNew ==> r.room in rooms && Some(r.room) == FindChatRoomByTime(rooms, videoCurrentTime)
    ensures r.isNew ==> r.room == CreateNewChatRoom(capturedFrame, frameTime, videoCurrentTime, id, now)
    ensures InBucket(r.room, videoCurrentTime)
  {
    match FindChatRoomByTime(rooms, videoCurrentTime)
    case Some(room) => FindOrCreateResult(room, false)
    case None => FindOrCreateResult(CreateNewChatRoom(capturedFrame, frameTime, videoCurrentTime, id, now), true)
  }

  /** The list after a resolution: a new room is appended, an existing one is not. */
  function AfterResolve(rooms: seq<ChatRoom>, r: FindOrCreateResult): seq<ChatRoom>
  {
    if r.isNew then rooms + [r.room] else rooms
  }

  /** Resolving a second time in the same bucket, against the list the first
      resolution produced, returns the very same room (its frame and time are not
      replaced) and creates nothing. */
  lemma ResolveIdempotent(rooms: seq<ChatRoom>, f1: string, ft1: int, t1: real, id1: int, now1: int,
                          f2: string, ft2: int, t2: real, id2: int, now2: int)
    requires t1.Floor == t2.Floor
    ensures var r1 := FindOrCreateChatRoom(rooms, f1, ft1, t1, id1, now1);
            var r2 := FindOrCreateChatRoom(AfterResolve(rooms, r1), f2, ft2, t2, id2, now2);
            r2 == FindOrCreateResult(r1.room, false)
  {
    var r1 := FindOrCreateChatRoom(rooms, f1, ft1, t1, id1, now1);
    var after := AfterResolve(rooms, r1);
    FindFirstOf(after, t2, if r1.isNew then |rooms| else IndexIn(rooms, r1.room, t1));
  }

  /** The position of the room `FindChatRoomByTime` picks. */
  function IndexIn(rooms: seq<ChatRoom>, room: ChatRoom, t: real): (k: nat)
    requires FindChatRoomByTime(rooms, t) == Some(room)
    ensures k < |rooms| && rooms[k] == room && InBucket(room, t)
    ensures forall j :: 0 <= j < k ==> !InBucket(rooms[j], t)
  {
    var k :| 0 <= k < |rooms| && rooms[k] == room && InBucket(rooms[k], t)
             && forall j :: 0 <= j < k ==> !InBucket(rooms[j], t);
    k
  }

  /** If position `k` is the first in the bucket, that room is the one found. */
  lemma {:induction false} FindFirstOf(rooms: seq<ChatRoom>, t: real, k: nat)
    requires k < |rooms| && InBucket(rooms[k], t)
    requires forall j :: 0 <= j < k ==> !InBucket(rooms[j], t)
    ensures FindChatRoomByTime(rooms, t) == Some(rooms[k])
    decreases k
  {
    if k > 0 {
      FindFirstOf(rooms[1..], t, k - 1);
    }
  }

  /** `getCurrentChatRoom`: the first room whose id is the current id;
      a null current id matches nothing. */
  function GetCurrentChatRoom(rooms: seq<ChatRoom>, currentId: Option<int>): (r: Option<ChatRoom>)
    ensures r.None? <==> forall i :: 0 <= i < |rooms| ==> currentId != Some(rooms[i].id)
    ensures r.Some? ==>
              exists i :: 0 <= i < |rooms| && rooms[i] == r.value && currentId == Some(rooms[i].id)
                          && forall j :: 0 <= j < i ==> currentId != Some(rooms[j].id)
  {
    if rooms == [] then None
    else if currentId == Some(rooms[0].id) then Some(rooms[0])
    else
      var r := GetCurrentChatRoom(rooms[1..], currentId);
      assert forall i :: 1 <= i < |rooms| ==> rooms[i] == rooms[1..][i - 1];
      r
  }

  function WithMessage(room: ChatRoom, message: Message): ChatRoom
  {
    room.(messages := room.messages + [message])
  }

  /** `addMessageToChatRoom`: the same rooms in the same order; those with the
      id get the message at the end of their messages, the others are untouched. */
  function AddMessageToChatRoom(rooms: seq<ChatRoom>, roomId: int, message: Message): (r: seq<ChatRoom>)
    ensures |r| == |rooms|
    ensures forall i :: 0 <= i < |rooms| && rooms[i].id == roomId ==> r[i] == WithMessage(rooms[i], message)
    ensures forall i :: 0 <= i < |rooms| && rooms[i].id != roomId ==> r[i] == rooms[i]
  {
    if rooms == [] then []
    else
      var head := if rooms[0].id == roomId then WithMessage(rooms[0], message) else rooms[0];
      var rest := AddMessageToChatRoom(rooms[1..], roomId, message);
      assert forall i :: 1 <= i < |rooms| ==> rooms[i] == rooms[1..][i - 1];
      [head] + rest
  }

  /** After appending to room `id`, the current room (with that id) is the old one
      with the message at the end. */
  lemma {:induction false} CurrentRoomAfterAdd(rooms: seq<ChatRoom>, id: int, message: Message)
    ensures GetCurrentChatRoom(AddMessageToChatRoom(rooms, id, message), Some(id))
            == match GetCurrentChatRoom(rooms, Some(id))
               case None => None
               case Some(room) => Some(WithMessage(room, message))
    decreases |rooms|
  {
    if rooms != [] {
      var r := AddMessageToChatRoom(rooms, id, message);
      assert r[1..] == AddMessageToChatRoom(rooms[1..], id, message);
      CurrentRoomAfterAdd(rooms[1..], id, message);
    }
  }

  /** `deleteChatRoomById`: the rooms whose id differs, in their order. */
  function DeleteChatRoomById(rooms: seq<ChatRoom>, roomId: int): seq<ChatRoom>
  {
    if rooms == [] then []
    else
      var rest := DeleteChatRoomById(rooms[1..], roomId);
      if rooms[0].id == roomId then rest else [rooms[0]] + rest
  }

  /** Exactly the rooms with another id are kept. */
  lemma {:induction false} DeleteKeepsOthers(rooms: seq<ChatRoom>, roomId: int)
    ensures forall room :: room in DeleteChatRoomById(rooms, roomId) <==> room in rooms && room.id != roomId
    ensures |DeleteChatRoomById(rooms, roomId)| <= |rooms|
    decreases |rooms|
  {
    if rooms != [] {
      DeleteKeepsOthers(rooms[1..], roomId);
      DeleteUnfold(rooms, roomId);
      assert rooms == [rooms[0]] + rooms[1..];
    }
  }

  /** A list without the id is left as it is. */
  lemma {:induction false} DeleteAbsentIsIdentity(rooms: seq<ChatRoom>, roomId: int)
    requires forall i :: 0 <= i < |rooms| ==> rooms[i].id != roomId
    ensures DeleteChatRoomById(rooms, roomId) == rooms
    decreases |rooms|
  {
    if rooms != [] {
      DeleteAbsentIsIdentity(rooms[1..], roomId);
      DeleteUnfold(rooms, roomId);
      assert rooms == [rooms[0]] + rooms[1..];
    }
  }

  /** Deleting acts on each part of a list separately: together with the
      one-room case this fixes the result, that is, exactly the rooms with the
      id go and the others keep their relative order. */
  lemma {:induction false} DeleteDistributes(a: seq<ChatRoom>, b: seq<ChatRoom>, roomId: int)
    ensures DeleteChatRoomById(a + b, roomId) == DeleteChatRoomById(a, roomId) + DeleteChatRoomById(b, roomId)
    decreases |a|
  {
    if a == [] {
      assert a + b == b;
    } else {
      var ab := a + b;
      assert ab[0] == a[0] && ab[1..] == a[1..] + b;
      DeleteDistributes(a[1..], b, roomId);
      DeleteUnfold(ab, roomId);
      DeleteUnfold(a, roomId);
    }
  }

  lemma DeleteUnfold(rooms: seq<ChatRoom>, roomId: int)
    requires rooms != []
    ensures DeleteChatRoomById(rooms, roomId)
            == (if rooms[0].id == roomId then [] else [rooms[0]]) + DeleteChatRoomById(rooms[1..], roomId)
  {
  }

  lemma DeleteOne(room: ChatRoom, roomId: int)
    ensures DeleteChatRoomById([room], roomId) == if room.id == roomId then [] else [room]
  {
    assert [room][1..] == [];
  }
}
