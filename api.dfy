/** The endpoints of `main.py` that own behaviour beyond a database call:
    the `X-User-ID` check, saving a conversation (validation and the shared
    frame file name), searching the caller's conversations, and saving and
    deleting chat rooms with the cascade to their conversations. The
    `user_conversations` and `user_chat_rooms` collections are fields of a
    `Backend`; embeddings, similarities, clocks and files are inputs. */
module Api {
  import opened Wrappers
  import opened Text
  import opened Ranking
  import CM = ConversationManager

  datatype HttpError = HttpError(status: int, detail: string)

  const UserIdRequired := "X-User-ID header is required"

  /** `get_user_id_from_request`: the header value, or 401 when it is missing
      or empty. */
  function GetUserId(header: Option<string>): (r: Result<string, HttpError>)
    ensures r.Failure? <==> !StrTruthy(header)
    ensures r.Failure? ==> r.error == HttpError(401, UserIdRequired)
    ensures r.Success? ==> header == Some(r.value)
  {
    if !StrTruthy(header) then Failure(HttpError(401, UserIdRequired)) else Success(header.value)
  }

  /** A document of `user_conversations`. */
  datatype StoredConversation = StoredConversation(
    oid: nat,
    userId: string,
    conversationId: string,
    question: string,
    answer: string,
    questionImage: Option<string>,
    timestamp: real,
    combinedEmbedding: seq<real>,
    imagePath: Option<string>,
    videoId: Option<string>,
    sharedFrame: bool,
    createdAt: real)

  /** `save_conversation`'s checks, in order: the caller, then a question and
      an answer that are not blank. */
  function CheckSave(header: Option<string>, question: string, answer: string): (r: Result<string, HttpError>)
    ensures r.Failure? <==> !StrTruthy(header) || IsBlankPy(question) || IsBlankPy(answer)
    ensures r.Failure? && r.error.status == 401 <==> !StrTruthy(header)
    ensures r.Failure? && r.error.status == 400 <==> StrTruthy(header) && (IsBlankPy(question) || IsBlankPy(answer))
    ensures r.Success? ==> header == Some(r.value)
  {
    var user := GetUserId(header);
    if user.Failure? then Failure(user.error)
    else if Strip(question) == "" then (StripShape(question); Failure(HttpError(400, "Question cannot be empty")))
    else if Strip(answer) == "" then (StripShape(question); StripShape(answer); Failure(HttpError(400, "Answer cannot be empty")))
    else (StripShape(question); StripShape(answer); Success(user.value))
  }

  /** `int(timestamp * 1000)`: truncation, which is the floor for the positive
      timestamps it is used on. */
  function Millis(timestamp: real): int
    requires timestamp > 0.0
  {
    (timestamp * 1000.0).Floor
  }

  /** The shared file name for a question image: one name per video and
      millisecond when the video is known and the timestamp positive,
      otherwise one per image digest. */
  function FrameFilename(videoId: Option<string>, timestamp: real, md5Hex: string): string
  {
    if StrTruthy(videoId) && timestamp > 0.0 then
      "frame_" + videoId.value + "_" + IntToString(Millis(timestamp)) + ".jpg"
    else "frame_unknown_" + PySliceTo(md5Hex, 12) + ".jpg"
  }

  /** The number of decimal digits a string ends with. */
  function TrailingDigits(x: string): nat
  {
    if x != [] && IsDigit(x[|x| - 1]) then 1 + TrailingDigits(x[..|x| - 1]) else 0
  }

  lemma {:induction false} TrailingDigitsAfterUnderscore(v: string, d: string)
    requires AllDigits(d)
    ensures TrailingDigits(v + "_" + d) == |d|
    decreases |d|
  {
    var x := v + "_" + d;
    if d != [] {
      TrailingDigitsAfterUnderscore(v, d[..|d| - 1]);
      assert x[..|x| - 1] == v + "_" + d[..|d| - 1];
    } else {
      assert x == v + "_";
    }
  }

  /** If `v + "_" + d` is written two ways with digit suffixes, the ways agree:
      the last underscore separates them. */
  lemma SplitAtLastUnderscore(v1: string, d1: string, v2: string, d2: string)
    requires AllDigits(d1) && AllDigits(d2)
    requires v1 + "_" + d1 == v2 + "_" + d2
    ensures v1 == v2 && d1 == d2
  {
    var x := v1 + "_" + d1;
    TrailingDigitsAfterUnderscore(v1, d1);
    TrailingDigitsAfterUnderscore(v2, d2);
    assert d1 == x[|x| - |d1|..] == d2;
    assert v1 == x[..|v1|] == v2;
  }

  /** Two images with known videos and positive timestamps share a file
      exactly when they have the same video and the same millisecond. */
  lemma SharedNamesMatchFrames(v1: string, t1: real, h1: string, v2: string, t2: real, h2: string)
    requires v1 != "" && v2 != "" && t1 > 0.0 && t2 > 0.0
    ensures (FrameFilename(Some(v1), t1, h1) == FrameFilename(Some(v2), t2, h2))
            <==> (v1 == v2 && Millis(t1) == Millis(t2))
  {
    var d1 := NatToString(Millis(t1));
    var d2 := NatToString(Millis(t2));
    var n1 := FrameFilename(Some(v1), t1, h1);
    var n2 := FrameFilename(Some(v2), t2, h2);
    if n1 == n2 {
      assert n1 == "frame_" + (v1 + "_" + d1) + ".jpg";
      assert n2 == "frame_" + (v2 + "_" + d2) + ".jpg";
      assert v1 + "_" + d1 == n1[6..|n1| - 4];
      assert v2 + "_" + d2 == n2[6..|n2| - 4];
      SplitAtLastUnderscore(v1, d1, v2, d2);
      ParseNatToString(Millis(t1));
      ParseNatToString(Millis(t2));
    }
  }

  /** What a successful save inserts, before the image step. */
  function NewConversation(oid: nat, user: string, question: string, answer: string, questionImage: Option<string>,
                           timestamp: real, uuid: string, embedding: seq<real>, now: real): StoredConversation
  {
    StoredConversation(oid, user, "conv_" + PySliceTo(uuid, 8), Strip(question), Strip(answer), questionImage,
                       timestamp, embedding, None, None, false, now)
  }

  /** The image step: with a truthy image whose decoding and write succeed
      (`md5Hex` is the digest of the decoded bytes), the record gains the shared
      path, the video id and the shared flag; a failure leaves it as it was. */
  function WithImage(c: StoredConversation, videoId: Option<string>, md5Hex: Option<string>): StoredConversation
  {
    if StrTruthy(c.questionImage) && md5Hex.Some? then
      c.(imagePath := Some(FrameFilename(videoId, c.timestamp, md5Hex.value)), videoId := videoId, sharedFrame := true)
    else c
  }

  datatype SaveConversationReply = SaveConversationReply(conversationId: string, documentId: string)

  /** A conversation id is `conv_` and at most eight characters of the uuid. */
  lemma ConversationIdShape(uuid: string)
    ensures var id := "conv_" + PySliceTo(uuid, 8);
            id[..5] == "conv_" && 5 <= |id| <= 13
  {
  }

  /** A saved record carries the caller, stripped non-empty question and answer
      and its `conv_` id; the shared path is set exactly when an image was given
      and processed. */
  lemma SavedRecordShape(oid: nat, header: Option<string>, question: string, answer: string, questionImage: Option<string>,
                         timestamp: real, videoId: Option<string>, uuid: string, embedding: seq<real>, now: real,
                         md5Hex: Option<string>)
    requires CheckSave(header, question, answer).Success?
    ensures var c := WithImage(NewConversation(oid, CheckSave(header, question, answer).value, question, answer,
                                               questionImage, timestamp, uuid, embedding, now), videoId, md5Hex);
            && Some(c.userId) == header
            && c.question == Strip(question) && c.answer == Strip(answer)
            && c.question != "" && c.answer != ""
            && !IsPyWhitespace(c.question[0]) && !IsPyWhitespace(c.question[|c.question| - 1])
            && !IsPyWhitespace(c.answer[0]) && !IsPyWhitespace(c.answer[|c.answer| - 1])
            && c.conversationId[..5] == "conv_" && |c.conversationId| <= 13
            && (c.imagePath.Some? <==> StrTruthy(questionImage) && md5Hex.Some?)
            && c.oid == oid && c.timestamp == timestamp
  {
    StripShape(question);
    StripShape(answer);
    ConversationIdShape(uuid);
  }

  /** A document of `user_chat_rooms`, keyed by (user, room). */
  datatype RoomKey = RoomKey(userId: string, roomId: string)

  datatype ChatRoomSaveRequest = ChatRoomSaveRequest(
    roomId: string,
    name: string,
    messages: seq<map<string, string>>,
    capturedFrame: Option<string>,
    frameTime: Option<string>,
    videoCurrentTime: Option<real>,
    videoId: Option<string>)

  datatype ChatRoomRecord = ChatRoomRecord(
    oid: nat,
    userId: string,
    roomId: string,
    name: string,
    description: string,
    messages: seq<map<string, string>>,
    capturedFrame: Option<string>,
    frameTime: Option<string>,
    videoCurrentTime: Option<real>,
    videoId: Option<string>,
    messageCount: nat,
    isArchived: bool,
    createdAt: real,
    updatedAt: real)

  /** The `chat_room_data` a save writes. Both timestamps are the current time,
      also on an update. */
  function RoomData(oid: nat, user: string, req: ChatRoomSaveRequest, now: real): ChatRoomRecord
  {
    ChatRoomRecord(oid, user, req.roomId, req.name, "", req.messages, req.capturedFrame, req.frameTime,
                   req.videoCurrentTime, req.videoId, |req.messages|, false, now, now)
  }

  datatype RoomStatus = Updated | Created(documentId: string)

  datatype RoomSaveOutcome = RoomSaveOutcome(rooms: map<RoomKey, ChatRoomRecord>, nextOid: nat, status: RoomStatus)

  /** `save_chat_room`: replace the (user, room) record keeping its `_id`, or
      insert one under a fresh ObjectId. A missing caller is reported as 500,
      because the handler's generic `except` catches the 401. */
  function SavedRoom(rooms: map<RoomKey, ChatRoomRecord>, nextOid: nat, header: Option<string>,
                     req: ChatRoomSaveRequest, now: real): Result<RoomSaveOutcome, HttpError>
  {
    var user := GetUserId(header);
    if user.Failure? then Failure(HttpError(500, "401: " + UserIdRequired))
    else
      var key := RoomKey(user.value, req.roomId);
      if key in rooms then
        Success(RoomSaveOutcome(rooms[key := RoomData(rooms[key].oid, user.value, req, now)], nextOid, Updated))
      else
        Success(RoomSaveOutcome(rooms[key := RoomData(nextOid, user.value, req, now)], nextOid + 1,
                                Created(CM.OidText(nextOid))))
  }

  /** A room save fails only without a caller, and then as 500; it reports
      `updated` exactly when the key existed, writes that key's record with the
      request's fields and `message_count = len(messages)`, keeps its `_id`
      on an update, and leaves every other key as it was. */
  lemma SaveRoomUpserts(rooms: map<RoomKey, ChatRoomRecord>, nextOid: nat, header: Option<string>,
                        req: ChatRoomSaveRequest, now: real)
    ensures SavedRoom(rooms, nextOid, header, req, now).Failure? <==> !StrTruthy(header)
    ensures SavedRoom(rooms, nextOid, header, req, now).Failure? ==> SavedRoom(rooms, nextOid, header, req, now).error.status == 500
    ensures SavedRoom(rooms, nextOid, header, req, now).Success? ==>
              var o := SavedRoom(rooms, nextOid, header, req, now).value;
              var key := RoomKey(header.value, req.roomId);
              && (o.status == Updated <==> key in rooms)
              && o.rooms.Keys == rooms.Keys + {key}
              && o.rooms[key].messageCount == |req.messages| && o.rooms[key].messages == req.messages
              && o.rooms[key].userId == header.value && o.rooms[key].roomId == req.roomId
              && o.rooms[key].videoCurrentTime == req.videoCurrentTime && o.rooms[key].capturedFrame == req.capturedFrame
              && (key in rooms ==> o.rooms[key].oid == rooms[key].oid)
              && (forall k :: k in rooms && k != key ==> k in o.rooms && o.rooms[k] == rooms[k])
  {
    if StrTruthy(header) {
      var key := RoomKey(header.value, req.roomId);
      var oid := if key in rooms then rooms[key].oid else nextOid;
      var written := rooms[key := RoomData(oid, header.value, req, now)];
      assert SavedRoom(rooms, nextOid, header, req, now).value.rooms == written;
      assert written[key] == RoomData(oid, header.value, req, now);
    }
  }

  /** A second save of the same room updates it. */
  lemma SaveRoomTwiceUpdates(rooms: map<RoomKey, ChatRoomRecord>, nextOid: nat, header: Option<string>,
                             req: ChatRoomSaveRequest, now: real, later: real)
    requires SavedRoom(rooms, nextOid, header, req, now).Success?
    ensures var o := SavedRoom(rooms, nextOid, header, req, now).value;
            var again := SavedRoom(o.rooms, o.nextOid, header, req, later);
            again.Success? && again.value.status == Updated && again.value.rooms.Keys == o.rooms.Keys
            && again.value.nextOid == o.nextOid
  {
  }

  /** Whether deleting a room reaches its conversations: it has a frame, or a
      video with a time. */
  predicate Cascades(room: ChatRoomRecord)
  {
    StrTruthy(room.capturedFrame) || (StrTruthy(room.videoId) && room.videoCurrentTime.Some?)
  }

  /** The cascade's `delete_query`: the caller's conversations, at the room's
      time when it has one. */
  predicate CascadeHits(room: ChatRoomRecord, user: string, c: StoredConversation)
  {
    c.userId == user && (room.videoCurrentTime.Some? ==> c.timestamp == room.videoCurrentTime.value)
  }

  function KeepUnless(convs: seq<StoredConversation>, room: ChatRoomRecord, user: string): (r: seq<StoredConversation>)
    ensures |r| <= |convs|
    ensures forall c :: c in r <==> c in convs && !CascadeHits(room, user, c)
  {
    if convs == [] then []
    else
      var rest := KeepUnless(convs[1..], room, user);
      assert forall c :: c in convs <==> c == convs[0] || c in convs[1..];
      if CascadeHits(room, user, convs[0]) then rest else [convs[0]] + rest
  }

  datatype RoomDeleteOutcome = RoomDeleteOutcome(
    rooms: map<RoomKey, ChatRoomRecord>,
    conversations: seq<StoredConversation>,
    conversationsDeleted: nat)

  /** `delete_chat_room`: 401 without a caller, 404 when the (user, room)
      record is absent; otherwise the record is removed and, when the room
      cascades, the conversations its query matches. */
  function DeletedRoom(rooms: map<RoomKey, ChatRoomRecord>, convs: seq<StoredConversation>,
                       header: Option<string>, roomId: string): Result<RoomDeleteOutcome, HttpError>
  {
    var user := GetUserId(header);
    if user.Failure? then Failure(user.error)
    else
      var key := RoomKey(user.value, roomId);
      if key !in rooms then Failure(HttpError(404, "Chat room not found or access denied"))
      else
        var room := rooms[key];
        var kept := if Cascades(room) then KeepUnless(convs, room, user.value) else convs;
        Success(RoomDeleteOutcome(rooms - {key}, kept, |convs| - |kept|))
  }

  /** A room delete fails with 401 without a caller and 404 for an absent
      room. Otherwise only that key goes, and a conversation is removed exactly
      when the room cascades and the conversation is the caller's at the room's
      time, or any of the caller's when the room has no time. Other users'
      conversations always stay. */
  lemma DeleteRoomCascade(rooms: map<RoomKey, ChatRoomRecord>, convs: seq<StoredConversation>,
                          header: Option<string>, roomId: string)
    ensures var r := DeletedRoom(rooms, convs, header, roomId);
            && (r.Failure? && r.error.status == 401 <==> !StrTruthy(header))
            && (r.Failure? && r.error.status == 404 <==> StrTruthy(header) && RoomKey(header.value, roomId) !in rooms)
            && (r.Success? ==>
                  var key := RoomKey(header.value, roomId);
                  var room := rooms[key];
                  && r.value.rooms.Keys == rooms.Keys - {key}
                  && (forall k :: k in r.value.rooms ==> r.value.rooms[k] == rooms[k])
                  && r.value.conversationsDeleted == |convs| - |r.value.conversations|
                  && (forall c :: c in convs ==>
                        (c !in r.value.conversations <==> Cascades(room) && CascadeHits(room, header.value, c)))
                  && (forall c :: c in r.value.conversations ==> c in convs)
                  && (forall c :: c in convs && c.userId != header.value ==> c in r.value.conversations)
                  && (Cascades(room) && room.videoCurrentTime.None? ==>
                        forall c :: c in r.value.conversations ==> c.userId != header.value))
  {
  }

  /** The minimum similarity the conversation search keeps. */
  const MinSimilarity: real := 0.4

  datatype ConvSearchRequest = ConvSearchRequest(query: string, topK: int)

  datatype SearchHit = SearchHit(
    conversationId: string,
    question: string,
    answer: string,
    questionImage: Option<string>,
    score: real,
    timestamp: real)

  function HitScore(h: SearchHit): real { h.score }

  /** The similarity used for a stored conversation, or none when computing
      it raised (the conversation is then skipped). */
  function Scored(s: CM.Similarity): Option<real>
  {
    match s
    case Finite(v) => Some(v)
    case NotFinite => Some(0.0)
    case Raised => None
  }

  /** A conversation the search reports: the caller's, with an embedding,
      scored and at least 0.4. */
  predicate Reported(c: StoredConversation, user: string, similarity: StoredConversation -> CM.Similarity)
  {
    c.userId == user && c.combinedEmbedding != []
    && Scored(similarity(c)).Some? && Scored(similarity(c)).value >= MinSimilarity
  }

  function HitOf(c: StoredConversation, similarity: StoredConversation -> CM.Similarity): SearchHit
    requires Scored(similarity(c)).Some?
  {
    SearchHit(c.conversationId, c.question, c.answer, c.questionImage, Scored(similarity(c)).value, c.timestamp)
  }

  function UserHits(convs: seq<StoredConversation>, user: string, similarity: StoredConversation -> CM.Similarity): seq<SearchHit>
  {
    if convs == [] then []
    else
      var last := convs[|convs| - 1];
      UserHits(convs[..|convs| - 1], user, similarity)
      + (if Reported(last, user, similarity) then [HitOf(last, similarity)] else [])
  }

  /** What `search_conversations` answers. */
  function SearchedConversations(convs: seq<StoredConversation>, header: Option<string>, req: ConvSearchRequest,
                                 similarity: StoredConversation -> CM.Similarity): Result<seq<SearchHit>, HttpError>
  {
    var user := GetUserId(header);
    if user.Failure? then Failure(user.error)
    else if req.query == "" then Failure(HttpError(400, "Query cannot be empty"))
    else if req.topK <= 0 || req.topK > 100 then Failure(HttpError(400, "top_k must be between 1 and 100"))
    else Success(PySliceTo(SortDesc(UserHits(convs, user.value, similarity), HitScore), req.topK))
  }

  lemma {:induction false} UserHitsExactly(convs: seq<StoredConversation>, user: string, similarity: StoredConversation -> CM.Similarity)
    ensures forall h :: h in UserHits(convs, user, similarity) <==>
              exists c :: c in convs && Reported(c, user, similarity) && h == HitOf(c, similarity)
    decreases |convs|
  {
    if convs != [] {
      var init := convs[..|convs| - 1];
      UserHitsExactly(init, user, similarity);
      assert convs == init + [convs[|convs| - 1]];
      assert forall c :: c in convs <==> c in init || c == convs[|convs| - 1];
    }
  }

  /** The search fails with 401 without a caller and with 400 for an empty
      query or `top_k` outside 1..100, and succeeds otherwise. */
  lemma SearchRejects(convs: seq<StoredConversation>, header: Option<string>, req: ConvSearchRequest,
                      similarity: StoredConversation -> CM.Similarity)
    ensures var r := SearchedConversations(convs, header, req, similarity);
            && (r.Failure? && r.error.status == 401 <==> !StrTruthy(header))
            && (r.Failure? && r.error.status == 400 <==> StrTruthy(header) && (req.query == "" || req.topK <= 0 || req.topK > 100))
            && (r.Failure? <==> !StrTruthy(header) || req.query == "" || req.topK <= 0 || req.topK > 100)
  {
  }

  /** Every hit of a successful search is one of the caller's conversations
      with an embedding and a similarity of at least 0.4 (0 when not
      finite). */
  lemma SearchReportsOwn(convs: seq<StoredConversation>, user: string, topK: int,
                         similarity: StoredConversation -> CM.Similarity)
    ensures var out := PySliceTo(SortDesc(UserHits(convs, user, similarity), HitScore), topK);
            && (forall h :: h in out ==> exists c :: c in convs && Reported(c, user, similarity) && h == HitOf(c, similarity))
            && (forall h :: h in out ==> h.score >= MinSimilarity)
  {
    var hits := UserHits(convs, user, similarity);
    UserHitsExactly(convs, user, similarity);
    var sorted := SortDesc(hits, HitScore);
    PrefixKeeps(sorted, topK, HitScore, HitKey);
    forall h | h in sorted
      ensures h in hits
    {
      assert h in multiset(sorted);
    }
  }

  /** A successful search returns at most `top_k` hits in descending order,
      and a reportable conversation left out scores no higher than any hit
      returned. */
  lemma SearchReportsBest(convs: seq<StoredConversation>, user: string, topK: int,
                          similarity: StoredConversation -> CM.Similarity)
    requires 0 < topK
    ensures var out := PySliceTo(SortDesc(UserHits(convs, user, similarity), HitScore), topK);
            && SortedDesc(out, HitScore)
            && |out| <= topK
            && (forall c, h :: (c in convs && Reported(c, user, similarity) && HitOf(c, similarity) !in out && h in out)
                               ==> HitOf(c, similarity).score <= h.score)
  {
    var hits := UserHits(convs, user, similarity);
    UserHitsExactly(convs, user, similarity);
    SortDescSorted(hits, HitScore);
    var sorted := SortDesc(hits, HitScore);
    PrefixKeeps(sorted, topK, HitScore, HitKey);
    CutKeepsBest(sorted, topK, HitScore);
    forall c | c in convs && Reported(c, user, similarity)
      ensures HitOf(c, similarity) in sorted
    {
      assert HitOf(c, similarity) in hits;
      assert HitOf(c, similarity) in multiset(hits);
    }
  }

  /** A successful search answers with the ranked cut of the caller's hits. */
  lemma SearchAnswers(convs: seq<StoredConversation>, header: Option<string>, req: ConvSearchRequest,
                      similarity: StoredConversation -> CM.Similarity)
    requires SearchedConversations(convs, header, req, similarity).Success?
    ensures 0 < req.topK <= 100 && header.Some?
    ensures SearchedConversations(convs, header, req, similarity).value
            == PySliceTo(SortDesc(UserHits(convs, header.value, similarity), HitScore), req.topK)
  {
  }

  function HitKey(h: SearchHit): string { h.conversationId }

  /** Every stored `_id` was handed out before `nextOid`. */
  predicate OidsBelow(convs: seq<StoredConversation>, rooms: map<RoomKey, ChatRoomRecord>, nextOid: nat)
  {
    && (forall c :: c in convs ==> c.oid < nextOid)
    && (forall key :: key in rooms ==> rooms[key].oid < nextOid)
  }

  /** Storing a conversation under the next `_id` keeps every `_id` below the
      advanced counter. */
  lemma InsertKeepsOidsBelow(convs: seq<StoredConversation>, rooms: map<RoomKey, ChatRoomRecord>, nextOid: nat,
                             c: StoredConversation)
    requires OidsBelow(convs, rooms, nextOid) && c.oid == nextOid
    ensures OidsBelow(convs + [c], rooms, nextOid + 1)
  {
  }

  /** A room save keeps every `_id` below the counter. */
  lemma SaveRoomKeepsOidsBelow(convs: seq<StoredConversation>, rooms: map<RoomKey, ChatRoomRecord>, nextOid: nat,
                               header: Option<string>, req: ChatRoomSaveRequest, now: real)
    requires OidsBelow(convs, rooms, nextOid)
    ensures var o := SavedRoom(rooms, nextOid, header, req, now);
            o.Success? ==> OidsBelow(convs, o.value.rooms, o.value.nextOid)
  {
  }

  /** A room delete keeps every `_id` below the counter. */
  lemma DeleteRoomKeepsOidsBelow(convs: seq<StoredConversation>, rooms: map<RoomKey, ChatRoomRecord>, nextOid: nat,
                                 header: Option<string>, roomId: string)
    requires OidsBelow(convs, rooms, nextOid)
    ensures var o := DeletedRoom(rooms, convs, header, roomId);
            o.Success? ==> OidsBelow(o.value.conversations, o.value.rooms, nextOid)
  {
  }

  /** The two collections main.py writes. */
  class Backend {
    var conversations: seq<StoredConversation>
    var chatRooms: map<RoomKey, ChatRoomRecord>
    var nextOid: nat

    /** Every stored document's `_id` was handed out before `nextOid`, so the
        next one is fresh. */
    ghost predicate Valid()
      reads this
    {
      OidsBelow(conversations, chatRooms, nextOid)
    }

    constructor()
      ensures Valid()
      ensures conversations == [] && chatRooms == map[] && nextOid == 0
    {
      conversations := [];
      chatRooms := map[];
      nextOid := 0;
    }

    /** `POST /conversations/save`. */
    method SaveConversation(header: Option<string>, question: string, answer: string, questionImage: Option<string>,
                            timestamp: real, videoId: Option<string>, uuid: string, embedding: seq<real>, now: real,
                            md5Hex: Option<string>)
      returns (r: Result<SaveConversationReply, HttpError>)
      requires Valid()
      modifies this`conversations, this`nextOid
      ensures Valid()
      ensures var check := CheckSave(header, question, answer);
              if check.Failure? then
                r == Failure(check.error) && conversations == old(conversations) && nextOid == old(nextOid)
              else
                var c := WithImage(NewConversation(old(nextOid), check.value, question, answer, questionImage,
                                                   timestamp, uuid, embedding, now), videoId, md5Hex);
                && conversations == old(conversations) + [c] && nextOid == old(nextOid) + 1
                && r == Success(SaveConversationReply(c.conversationId, CM.OidText(c.oid)))
    {
      var check := CheckSave(header, question, answer);
      if check.Failure? {
        return Failure(check.error);
      }
      var record := NewConversation(nextOid, check.value, question, answer, questionImage, timestamp, uuid, embedding, now);
      var inserted := nextOid;
      var before := conversations;
      InsertKeepsOidsBelow(before, chatRooms, nextOid, WithImage(record, videoId, md5Hex));
      conversations := before + [record];
      nextOid := nextOid + 1;
      if StrTruthy(questionImage) && md5Hex.Some? {
        // The `update_one` on the inserted document.
        conversations := before + [WithImage(record, videoId, md5Hex)];
      }
      return Success(SaveConversationReply(record.conversationId, CM.OidText(inserted)));
    }

    /** `POST /conversations/search`, the loop over the caller's conversations. */
    method SearchConversations(header: Option<string>, req: ConvSearchRequest, similarity: StoredConversation -> CM.Similarity)
      returns (r: Result<seq<SearchHit>, HttpError>)
      ensures r == SearchedConversations(conversations, header, req, similarity)
    {
      var user := GetUserId(header);
      if user.Failure? {
        return Failure(user.error);
      }
      if req.query == "" {
        return Failure(HttpError(400, "Query cannot be empty"));
      }
      if req.topK <= 0 || req.topK > 100 {
        return Failure(HttpError(400, "top_k must be between 1 and 100"));
      }
      var convs := conversations;
      var results: seq<SearchHit> := [];
      for i := 0 to |convs|
        invariant results == UserHits(convs[..i], user.value, similarity)
      {
        assert convs[..i + 1][..i] == convs[..i];
        var conv := convs[i];
        if conv.userId != user.value || conv.combinedEmbedding == [] {
          continue;
        }
        var s := similarity(conv);
        if s.Raised? {
          continue;
        }
        var score := if s.NotFinite? then 0.0 else s.value;
        if score >= MinSimilarity {
          results := results + [SearchHit(conv.conversationId, conv.question, conv.answer, conv.questionImage, score, conv.timestamp)];
        }
      }
      assert convs[..|convs|] == convs;
      results := SortDesc(results, HitScore);
      return Success(PySliceTo(results, req.topK));
    }

    /** `POST /chatrooms/save`. */
    method SaveChatRoom(header: Option<string>, req: ChatRoomSaveRequest, now: real)
      returns (r: Result<RoomStatus, HttpError>)
      requires Valid()
      modifies this`chatRooms, this`nextOid
      ensures Valid()
      ensures var o := SavedRoom(old(chatRooms), old(nextOid), header, req, now);
              if o.Failure? then r == Failure(o.error) && chatRooms == old(chatRooms) && nextOid == old(nextOid)
              else r == Success(o.value.status) && chatRooms == o.value.rooms && nextOid == o.value.nextOid
    {
      SaveRoomKeepsOidsBelow(conversations, chatRooms, nextOid, header, req, now);
      var user := GetUserId(header);
      if user.Failure? {
        return Failure(HttpError(500, "401: " + UserIdRequired));
      }
      var key := RoomKey(user.value, req.roomId);
      if key in chatRooms {
        chatRooms := chatRooms[key := RoomData(chatRooms[key].oid, user.value, req, now)];
        return Success(Updated);
      }
      chatRooms := chatRooms[key := RoomData(nextOid, user.value, req, now)];
      r := Success(Created(CM.OidText(nextOid)));
      nextOid := nextOid + 1;
    }

    /** `DELETE /chatrooms/{room_id}`. */
    method DeleteChatRoom(header: Option<string>, roomId: string)
      returns (r: Result<nat, HttpError>)
      requires Valid()
      modifies this`chatRooms, this`conversations
      ensures Valid()
      ensures var o := DeletedRoom(old(chatRooms), old(conversations), header, roomId);
              if o.Failure? then r == Failure(o.error) && chatRooms == old(chatRooms) && conversations == old(conversations)
              else r == Success(o.value.conversationsDeleted) && chatRooms == o.value.rooms && conversations == o.value.conversations
    {
      var user := GetUserId(header);
      if user.Failure? {
        return Failure(user.error);
      }
      DeleteRoomKeepsOidsBelow(conversations, chatRooms, nextOid, header, roomId);
      var key := RoomKey(user.value, roomId);
      if key !in chatRooms {
        return Failure(HttpError(404, "Chat room not found or access denied"));
      }
      var room := chatRooms[key];
      chatRooms := chatRooms - {key};
      var deleted := 0;
      if Cascades(room) {
        var kept := KeepUnless(conversations, room, user.value);
        deleted := |conversations| - |kept|;
        conversations := kept;
      }
      return Success(deleted);
    }
  }
}
