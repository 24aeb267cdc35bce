/** The video event handlers of `videoHandlers.jsx`. The module-level timing
    variables shared by all handlers are the fields of a `PlaybackSession`; the
    React state they set is the `PlayerPage`. `Date.now()` is the `now` argument
    of every event, and a `setTimeout` callback is a pending entry that the
    environment fires, no earlier than its deadline, by calling the matching
    `Fire` method. */
module VideoHandlers {
  import opened Wrappers
  import opened ChatRoomManager
  import opened Page

  /** Delay after `seeked` before the seeking flag is cleared. */
  const SeekSettleDelay: int := 200
  /** A pause this soon after the last seek start is taken as part of the seek. */
  const SeekSuppressWindow: int := 500
  /** A pause this soon after the last accepted pause is ignored. */
  const RepeatPauseWindow: int := 1000
  /** Delay between an accepted pause and the room resolution it triggers. */
  const PauseDelay: int := 300

  /** The pending pause timeout, with what its closure captured when it was set. */
  datatype PendingPause = PendingPause(deadline: int, chatRooms: seq<ChatRoom>, videoId: Option<string>)

  /** Whether the pause handler returns early for a pause at `now`. */
  predicate PauseSuppressed(isUserSeeking: bool, lastSeekTime: int, lastPauseTime: int, now: int)
  {
    isUserSeeking || now - lastSeekTime < SeekSuppressWindow || now - lastPauseTime < RepeatPauseWindow
  }

  /** No two rooms of the list share a whole-second bucket. */
  predicate UniqueBuckets(rooms: seq<ChatRoom>)
  {
    forall i, j :: 0 <= i < j < |rooms| && rooms[i].videoCurrentTime.Some? && rooms[j].videoCurrentTime.Some? ==>
      rooms[i].videoCurrentTime.value.Floor != rooms[j].videoCurrentTime.value.Floor
  }

  /** The effect of `handleManualPause` on the page: without a frame nothing
      changes; with one, the bucket is resolved against `captured`, a new room is
      appended to the page's list as it is and saved when there is a video id,
      and the resolved room becomes current. */
  twostate predicate ManualPauseDone(page: PlayerPage, captured: seq<ChatRoom>, frame: Option<string>,
                                     videoCurrentTime: real, videoId: Option<string>, newId: int, now: int)
    reads page
  {
    if !StrTruthy(frame) then
      page.chatRooms == old(page.chatRooms) && page.currentChatRoomId == old(page.currentChatRoomId)
      && page.outbox == old(page.outbox)
    else
      var res := FindOrCreateChatRoom(captured, frame.value, now, videoCurrentTime, newId, now);
      && page.chatRooms == AfterResolve(old(page.chatRooms), res)
      && page.currentChatRoomId == Some(res.room.id)
      && page.outbox == old(page.outbox) + (if res.isNew && StrTruthy(videoId) then [SaveChatRoom(res.room, videoId)] else [])
  }

  /** `handleManualPause`. `frame` is what `captureVideoFrame` returned, `newId`
      and `now` the `Date.now()` and `new Date()` of the room's creation. */
  method HandleManualPause(page: PlayerPage, captured: seq<ChatRoom>, frame: Option<string>,
                           videoCurrentTime: real, videoId: Option<string>, newId: int, now: int)
    modifies page`chatRooms, page`currentChatRoomId, page`outbox
    ensures ManualPauseDone(page, captured, frame, videoCurrentTime, videoId, newId, now)
  {
    if StrTruthy(frame) {
      var res := FindOrCreateChatRoom(captured, frame.value, now, videoCurrentTime, newId, now);
      if res.isNew {
        page.chatRooms := page.chatRooms + [res.room];
        if StrTruthy(videoId) {
          page.outbox := page.outbox + [SaveChatRoom(res.room, videoId)];
        }
      }
      page.currentChatRoomId := Some(res.room.id);
    }
  }

  /** The play/pause button: with a video element and URL, a pause first
      resolves the room, then the playing flag flips. */
  method Toggle(page: PlayerPage, hasElement: bool, frame: Option<string>, videoCurrentTime: real,
                newId: int, now: int)
    modifies page`isPlaying, page`chatRooms, page`currentChatRoomId, page`outbox
    ensures !(hasElement && StrTruthy(page.videoUrl)) ==>
              page.isPlaying == old(page.isPlaying) && page.chatRooms == old(page.chatRooms)
              && page.currentChatRoomId == old(page.currentChatRoomId) && page.outbox == old(page.outbox)
    ensures hasElement && StrTruthy(page.videoUrl) ==> page.isPlaying == !old(page.isPlaying)
    ensures hasElement && StrTruthy(page.videoUrl) && old(page.isPlaying) ==>
              ManualPauseDone(page, old(page.chatRooms), frame, videoCurrentTime, page.videoId, newId, now)
    ensures hasElement && StrTruthy(page.videoUrl) && !old(page.isPlaying) ==>
              page.chatRooms == old(page.chatRooms) && page.currentChatRoomId == old(page.currentChatRoomId)
              && page.outbox == old(page.outbox)
  {
    if hasElement && StrTruthy(page.videoUrl) {
      var wasPlaying := page.isPlaying;
      if wasPlaying {
        HandleManualPause(page, page.chatRooms, frame, videoCurrentTime, page.videoId, newId, now);
      }
      page.isPlaying := !wasPlaying;
    }
  }

  /** The upload handler for a chosen file (`fileType` its MIME type). A video
      replaces the file and URL, stops playback, clears the rooms and the
      selection, and takes the video id the upload returns (`uploadedId`, absent
      when the upload fails or returns none). Anything else changes nothing. */
  method Upload(page: PlayerPage, fileName: string, fileType: string, newUrl: string, uploadedId: Option<string>)
    modifies page`videoFile, page`videoUrl, page`videoId, page`isPlaying, page`chatRooms, page`currentChatRoomId
    ensures |fileType| >= 6 && fileType[..6] == "video/" ==>
              && page.videoFile == Some(fileName) && page.videoUrl == Some(newUrl)
              && !page.isPlaying && page.chatRooms == [] && page.currentChatRoomId.None?
              && page.videoId == (if StrTruthy(uploadedId) then uploadedId else None)
    ensures !(|fileType| >= 6 && fileType[..6] == "video/") ==>
              && page.videoFile == old(page.videoFile) && page.videoUrl == old(page.videoUrl)
              && page.videoId == old(page.videoId) && page.isPlaying == old(page.isPlaying)
              && page.chatRooms == old(page.chatRooms) && page.currentChatRoomId == old(page.currentChatRoomId)
  {
    if |fileType| >= 6 && fileType[..6] == "video/" {
      page.videoFile := Some(fileName);
      page.videoUrl := Some(newUrl);
      page.isPlaying := false;
      page.chatRooms := [];
      page.currentChatRoomId := None;
      page.videoId := None;
      if StrTruthy(uploadedId) {
        page.videoId := uploadedId;
      }
    }
  }

  /** The module-level variables of the handlers, with the `seeked` timers still
      pending and the time of the latest event. */
  class PlaybackSession {
    var lastSeekTime: int
    var isUserSeeking: bool
    var pauseTimeout: Option<PendingPause>
    var lastPauseTime: int
    /** Deadlines of the pending flag-clearing timers, one per `seeked`. */
    var seekClears: seq<int>
    var clock: int

    /** A pending pause is always the one set by the last accepted pause. */
    ghost predicate Valid()
      reads this
    {
      && lastSeekTime <= clock && lastPauseTime <= clock
      && (pauseTimeout.Some? ==> pauseTimeout.value.deadline == lastPauseTime + PauseDelay)
    }

    constructor()
      ensures Valid()
      ensures lastSeekTime == 0 && !isUserSeeking && pauseTimeout.None? && lastPauseTime == 0
      ensures seekClears == [] && clock == 0
    {
      lastSeekTime, isUserSeeking, pauseTimeout, lastPauseTime := 0, false, None, 0;
      seekClears, clock := [], 0;
    }

    /** `seeking`: the flag is set, the seek time recorded and a pending pause cancelled. */
    method Seeking(now: int)
      requires Valid() && clock <= now
      modifies this
      ensures Valid() && clock == now
      ensures isUserSeeking && lastSeekTime == now && pauseTimeout.None?
      ensures lastPauseTime == old(lastPauseTime) && seekClears == old(seekClears)
    {
      isUserSeeking := true;
      lastSeekTime := now;
      pauseTimeout := None;
      clock := now;
    }

    /** `seeked`: a timer to clear the flag 200 ms later; nothing else changes. */
    method Seeked(now: int)
      requires Valid() && clock <= now
      modifies this
      ensures Valid() && clock == now
      ensures seekClears == old(seekClears) + [now + SeekSettleDelay]
      ensures isUserSeeking == old(isUserSeeking) && lastSeekTime == old(lastSeekTime)
      ensures pauseTimeout == old(pauseTimeout) && lastPauseTime == old(lastPauseTime)
    {
      seekClears := seekClears + [now + SeekSettleDelay];
      clock := now;
    }

    /** A due flag-clearing timer fires: the flag is cleared, whatever seek is
        in progress by then. */
    method FireSeekClear(i: nat, now: int)
      requires Valid() && clock <= now
      requires i < |seekClears| && seekClears[i] <= now
      modifies this
      ensures Valid() && clock == now
      ensures !isUserSeeking && seekClears == old(seekClears[..i] + seekClears[i + 1..])
      ensures lastSeekTime == old(lastSeekTime) && pauseTimeout == old(pauseTimeout)
      ensures lastPauseTime == old(lastPauseTime)
    {
      isUserSeeking := false;
      seekClears := seekClears[..i] + seekClears[i + 1..];
      clock := now;
    }

    /** `pause`: playback stops; unless the pause is taken as part of a seek or
        as a repeat, it is recorded and the delayed resolution is (re)scheduled
        with the room list and video id the handler captured. */
    method Pause(page: PlayerPage, now: int, capturedRooms: seq<ChatRoom>, capturedVideoId: Option<string>)
      requires Valid() && clock <= now
      modifies this, page`isPlaying
      ensures Valid() && clock == now && !page.isPlaying
      ensures isUserSeeking == old(isUserSeeking) && lastSeekTime == old(lastSeekTime)
      ensures seekClears == old(seekClears)
      ensures PauseSuppressed(old(isUserSeeking), old(lastSeekTime), old(lastPauseTime), now) ==>
                lastPauseTime == old(lastPauseTime) && pauseTimeout == old(pauseTimeout)
      ensures !PauseSuppressed(old(isUserSeeking), old(lastSeekTime), old(lastPauseTime), now) ==>
                lastPauseTime == now
                && pauseTimeout == Some(PendingPause(now + PauseDelay, capturedRooms, capturedVideoId))
    {
      page.isPlaying := false;
      clock := now;
      if isUserSeeking || now - lastSeekTime < SeekSuppressWindow {
        return;
      }
      if now - lastPauseTime < RepeatPauseWindow {
        return;
      }
      lastPauseTime := now;
      pauseTimeout := Some(PendingPause(now + PauseDelay, capturedRooms, capturedVideoId));
    }

    /** `play`: playback starts and a pending pause is cancelled. */
    method Play(page: PlayerPage, now: int)
      requires Valid() && clock <= now
      modifies this, page`isPlaying
      ensures Valid() && clock == now && page.isPlaying && pauseTimeout.None?
      ensures isUserSeeking == old(isUserSeeking) && lastSeekTime == old(lastSeekTime)
      ensures lastPauseTime == old(lastPauseTime) && seekClears == old(seekClears)
    {
      page.isPlaying := true;
      pauseTimeout := None;
      clock := now;
    }

    /** The pending pause fires: if the element is still paused and no seek is
        in progress, the room is resolved with the captured list and video id;
        the timeout is cleared in every case. */
    method FirePauseTimeout(page: PlayerPage, now: int, elementPaused: bool, frame: Option<string>,
                            videoCurrentTime: real, newId: int)
      requires Valid() && clock <= now
      requires pauseTimeout.Some? && pauseTimeout.value.deadline <= now
      modifies this, page`chatRooms, page`currentChatRoomId, page`outbox
      ensures Valid() && clock == now && pauseTimeout.None?
      ensures isUserSeeking == old(isUserSeeking) && lastSeekTime == old(lastSeekTime)
      ensures lastPauseTime == old(lastPauseTime) && seekClears == old(seekClears)
      ensures elementPaused && !isUserSeeking ==>
                ManualPauseDone(page, old(pauseTimeout.value.chatRooms), frame, videoCurrentTime,
                                old(pauseTimeout.value.videoId), newId, now)
      ensures !(elementPaused && !isUserSeeking) ==>
                page.chatRooms == old(page.chatRooms) && page.currentChatRoomId == old(page.currentChatRoomId)
                && page.outbox == old(page.outbox)
    {
      var pending := pauseTimeout.value;
      if elementPaused && !isUserSeeking {
        HandleManualPause(page, pending.chatRooms, frame, videoCurrentTime, pending.videoId, newId, now);
      }
      pauseTimeout := None;
      clock := now;
    }
  }

  /** Resolution against the current list keeps at most one room per bucket, and
      the resolved room is in the resulting list. */
  lemma PauseKeepsBucketsUnique(rooms: seq<ChatRoom>, frame: string, t: real, id: int, now: int)
    requires UniqueBuckets(rooms)
    ensures var res := FindOrCreateChatRoom(rooms, frame, now, t, id, now);
            UniqueBuckets(AfterResolve(rooms, res)) && res.room in AfterResolve(rooms, res)
  {
    var res := FindOrCreateChatRoom(rooms, frame, now, t, id, now);
    var after := AfterResolve(rooms, res);
    if res.isNew {
      assert after[|rooms|] == res.room;
      forall i, j | 0 <= i < j < |after| && after[i].videoCurrentTime.Some? && after[j].videoCurrentTime.Some?
        ensures after[i].videoCurrentTime.value.Floor != after[j].videoCurrentTime.value.Floor
      {
        if j == |rooms| {
          assert after[i] == rooms[i] && !InBucket(rooms[i], t);
        } else {
          assert after[i] == rooms[i] && after[j] == rooms[j];
        }
      }
    }
  }

  /** A resolution against a stale list can add a second room to a bucket: the
      latest list already holds a room for the second, the captured one does not. */
  lemma StaleResolutionDuplicatesBucket(room: ChatRoom, frame: string, t: real, id: int, now: int)
    requires InBucket(room, t)
    ensures var res := FindOrCreateChatRoom([], frame, now, t, id, now);
            res.isNew && !UniqueBuckets(AfterResolve([room], res))
  {
    var res := FindOrCreateChatRoom([], frame, now, t, id, now);
    var after := AfterResolve([room], res);
    assert after[0] == room && after[1] == res.room;
  }

  /** An accepted pause with the element still paused yields exactly one room
      for the paused second, selected, and saved when there is a video id. */
  method PauseThenFireCreatesRoom(frame: string, videoId: string, t: real)
    returns (page: PlayerPage, session: PlaybackSession)
    requires frame != "" && videoId != "" && t >= 0.0
    ensures |page.chatRooms| == 1 && InBucket(page.chatRooms[0], t)
    ensures page.chatRooms[0].name == FormatVideoTime(t) && page.chatRooms[0].capturedFrame == frame
    ensures page.currentChatRoomId == Some(5000) && !page.isPlaying && session.pauseTimeout.None?
    ensures page.outbox == [SaveChatRoom(page.chatRooms[0], Some(videoId))]
  {
    page := new PlayerPage();
    session := new PlaybackSession();
    page.videoId := Some(videoId);
    session.Pause(page, 2000, page.chatRooms, page.videoId);
    session.FirePauseTimeout(page, 2300, true, Some(frame), t, 5000);
  }

  /** A pause while seeking, or within 500 ms of the seek start, schedules nothing. */
  method PauseDuringSeekIsIgnored() returns (session: PlaybackSession)
    ensures session.pauseTimeout.None? && session.lastPauseTime == 0
  {
    var page := new PlayerPage();
    session := new PlaybackSession();
    session.Seeking(5000);
    session.Seeked(5100);
    session.Pause(page, 5150, [], None);
    assert session.pauseTimeout.None?;
    session.FireSeekClear(0, 5300);
    session.Pause(page, 5400, [], None);
  }

  /** A second pause within a second of an accepted one is ignored, and a play
      in between has cancelled the first: nothing is pending. */
  method RepeatPauseIsIgnored() returns (session: PlaybackSession)
    ensures session.pauseTimeout.None? && session.lastPauseTime == 5000
  {
    var page := new PlayerPage();
    session := new PlaybackSession();
    session.Pause(page, 5000, [], None);
    assert session.pauseTimeout.Some?;
    session.Play(page, 5100);
    session.Pause(page, 5500, [], None);
  }

  /** The timer of an earlier `seeked` clears the flag in the middle of a later
      seek, so a pause 600 ms after that later seek start is accepted. */
  method EarlierSeekedClearsLaterSeek() returns (session: PlaybackSession)
    ensures session.pauseTimeout == Some(PendingPause(1700 + PauseDelay, [], None))
  {
    var page := new PlayerPage();
    session := new PlaybackSession();
    session.Seeking(1000);
    session.Seeked(1050);
    session.Seeking(1100);
    assert session.isUserSeeking && session.seekClears == [1250];
    session.FireSeekClear(0, 1250);
    session.Pause(page, 1700, [], None);
  }
}
