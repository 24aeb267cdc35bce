/** The chat input handlers of `messageHandlers.jsx`: sending a question, and
    submitting the OpenAI key. Message ids are positions: the n-th message of a
    room is meant to carry id n. */
module MessageHandlers {
  import opened Wrappers
  import opened Text
  import opened ChatRoomManager
  import opened OpenAi
  import opened Page

  const ErrorReplyText: string := "죄송합니다. 응답을 생성하는 중 오류가 발생했습니다."
  const NoKeyReplyText: string := "OpenAI API 키를 입력해주세요. 그래야 영상에 대한 질문에 답변할 수 있습니다."
  const WelcomeText: string := "OpenAI API가 연결되었습니다! 이제 영상에 대해 더 정확한 답변을 드릴 수 있습니다."
  /** Delay of the reply given when no key is set. */
  const NoKeyReplyDelay: int := 500

  /** How the awaited model call ended: it returned (with the HTTP exchange's
      outcome), or it threw. `callOpenAI` catches whatever its exchange raises,
      so `Threw` stands only for the handler's own catch around the call. */
  datatype AiCall = Returned(outcome: HttpOutcome) | Threw

  /** What follows an attempted conversation save: whether `saveConversation`
      resolved (`stored`), and whether the handler was created with an
      `onConversationSaved` callback (`notify`). */
  datatype SaveFeedback = SaveFeedback(stored: bool, notify: bool)

  /** Whether the send handler returns before doing anything. */
  predicate SendIgnored(input: string, rooms: seq<ChatRoom>, current: Option<int>)
  {
    IsBlankJs(input) || !IdTruthy(current) || GetCurrentChatRoom(rooms, current).None?
  }

  /** The user message that carries `question` into `room`. */
  function Question(room: ChatRoom, question: string, now: int): (m: Message)
    ensures m.id == |room.messages| + 1 && m.sender == User && m.timestamp == now
    ensures m.text == Some(question)
  {
    Message(|room.messages| + 1, Some(question), User, now)
  }

  /** The AI message that answers the question in `room`: what the model call
      resolved to (null included), or the error text when the call threw. */
  function ReplyMessage(room: ChatRoom, ai: AiCall, now: int): (m: Message)
    ensures m.id == |room.messages| + 2 && m.sender == Ai && m.timestamp == now
    ensures ai.Returned? ==> m.text == ReplyText(ai.outcome)
    ensures ai.Threw? ==> m.text == Some(ErrorReplyText)
  {
    Message(|room.messages| + 2, if ai.Returned? then ReplyText(ai.outcome) else Some(ErrorReplyText), Ai, now)
  }

  /** The conversation save after a reply: `saveConversation` throws before any
      request for an answer that is null, undefined or empty, or for a null
      time; once the save resolves, the callback is called if there is one. */
  function ConversationSave(question: string, answer: Option<string>, room: ChatRoom,
                            feedback: SaveFeedback): (sent: seq<Outgoing>)
    ensures |sent| > 0 <==> StrTruthy(answer) && room.videoCurrentTime.Some?
    ensures |sent| > 0 ==> sent[0] == SaveConversation(question, answer.value, room.capturedFrame,
                                                       room.videoCurrentTime.value)
    ensures NotifyConversationSaved in sent <==>
              StrTruthy(answer) && room.videoCurrentTime.Some? && feedback.stored && feedback.notify
  {
    if StrTruthy(answer) && room.videoCurrentTime.Some?
    then [SaveConversation(question, answer.value, room.capturedFrame, room.videoCurrentTime.value)]
         + (if feedback.stored && feedback.notify then [NotifyConversationSaved] else [])
    else []
  }

  /** The requests a send issues after the user message is saved, with a key
      set. The model is asked with the arguments as the handler passes them. */
  function RepliesOutbox(room: ChatRoom, question: string, videoFile: Option<string>,
                         videoId: Option<string>, ai: AiCall, feedback: SaveFeedback, now: int): seq<Outgoing>
  {
    var request := RequestAsCalled(question, videoFile, room.capturedFrame);
    match ai
    case Threw => [AskModel(request)]
    case Returned(outcome) =>
      var reply := ReplyMessage(room, ai, now);
      [AskModel(request), SaveChatRoom(WithMessage(WithMessage(room, Question(room, question, now)), reply), videoId)]
      + ConversationSave(question, reply.text, room, feedback)
  }

  /** The effect of a send that passed the guard, with `room` the current room
      `id` as found and `question` the input: the question is appended and saved,
      and the input cleared. With a key set, the model is asked and its reply
      (or the error message if the call throws) appended; without one, a fixed
      reply is scheduled 500 ms later. */
  twostate predicate SendDone(page: PlayerPage, room: ChatRoom, id: int, question: string,
                              ai: AiCall, feedback: SaveFeedback, now: int)
    reads page
  {
    var user := Question(room, question, now);
    var afterUser := AddMessageToChatRoom(old(page.chatRooms), id, user);
    var saved := old(page.outbox) + [SaveChatRoom(WithMessage(room, user), page.videoId)];
    && page.inputMessage == ""
    && (page.isApiKeySet ==>
          && page.chatRooms == AddMessageToChatRoom(afterUser, id, ReplyMessage(room, ai, now))
          && !page.isLoading && page.scheduled == old(page.scheduled)
          && page.outbox == saved + RepliesOutbox(room, question, page.videoFile, page.videoId, ai, feedback, now))
    && (!page.isApiKeySet ==>
          && page.chatRooms == afterUser && page.isLoading == old(page.isLoading)
          && page.scheduled == old(page.scheduled)
                               + [ScheduledReply(now + NoKeyReplyDelay, id, |room.messages| + 2, NoKeyReplyText)]
          && page.outbox == saved)
  }

  /** The send handler. It is created without the key: the model is called
      with the question, the video file and the room's frame only. */
  method SendMessage(page: PlayerPage, ai: AiCall, feedback: SaveFeedback, now: int)
    modifies page`chatRooms, page`inputMessage, page`isLoading, page`scheduled, page`outbox
    ensures SendIgnored(old(page.inputMessage), old(page.chatRooms), page.currentChatRoomId) ==>
              && page.chatRooms == old(page.chatRooms) && page.inputMessage == old(page.inputMessage)
              && page.isLoading == old(page.isLoading) && page.scheduled == old(page.scheduled)
              && page.outbox == old(page.outbox)
    ensures !SendIgnored(old(page.inputMessage), old(page.chatRooms), page.currentChatRoomId) ==>
              SendDone(page, GetCurrentChatRoom(old(page.chatRooms), page.currentChatRoomId).value,
                       page.currentChatRoomId.value, old(page.inputMessage), ai, feedback, now)
  {
    if IsBlankJs(page.inputMessage) || !IdTruthy(page.currentChatRoomId) {
      return;
    }
    var found := GetCurrentChatRoom(page.chatRooms, page.currentChatRoomId);
    if found.None? {
      return;
    }
    Deliver(page, found.value, page.currentChatRoomId.value, ai, feedback, now);
  }

  /** The part of the send handler after the guard. */
  method Deliver(page: PlayerPage, room: ChatRoom, id: int, ai: AiCall, feedback: SaveFeedback, now: int)
    modifies page`chatRooms, page`inputMessage, page`isLoading, page`scheduled, page`outbox
    ensures SendDone(page, room, id, old(page.inputMessage), ai, feedback, now)
  {
    var question := page.inputMessage;
    var user := Question(room, question, now);
    var roomAfterUser := WithMessage(room, user);
    page.chatRooms := AddMessageToChatRoom(page.chatRooms, id, user);
    page.outbox := page.outbox + [SaveChatRoom(roomAfterUser, page.videoId)];
    page.inputMessage := "";
    if page.isApiKeySet {
      Answer(page, room, id, question, ai, feedback, now);
    } else {
      page.scheduled := page.scheduled
                        + [ScheduledReply(now + NoKeyReplyDelay, id, |room.messages| + 2, NoKeyReplyText)];
    }
  }

  /** The keyed branch of the send handler, once `question` is in room `id`:
      the model is asked, and what it resolved to (or the error message when
      the call throws) is appended with the saves that follow it. */
  method Answer(page: PlayerPage, room: ChatRoom, id: int, question: string, ai: AiCall,
                feedback: SaveFeedback, now: int)
    modifies page`chatRooms, page`isLoading, page`outbox
    ensures page.chatRooms == AddMessageToChatRoom(old(page.chatRooms), id, ReplyMessage(room, ai, now))
    ensures page.outbox == old(page.outbox)
                           + RepliesOutbox(room, question, page.videoFile, page.videoId, ai, feedback, now)
    ensures !page.isLoading
  {
    page.isLoading := true;
    var asked := [AskModel(RequestAsCalled(question, page.videoFile, room.capturedFrame))];
    match ai {
      case Returned(outcome) =>
        var reply := Message(|room.messages| + 2, ReplyText(outcome), Ai, now);
        page.chatRooms := AddMessageToChatRoom(page.chatRooms, id, reply);
        asked := asked + [SaveChatRoom(WithMessage(WithMessage(room, Question(room, question, now)), reply), page.videoId)];
        if StrTruthy(reply.text) && room.videoCurrentTime.Some? {
          asked := asked + [SaveConversation(question, reply.text.value, room.capturedFrame, room.videoCurrentTime.value)];
          if feedback.stored && feedback.notify {
            asked := asked + [NotifyConversationSaved];
          }
        }
      case Threw =>
        var failure := Message(|room.messages| + 2, Some(ErrorReplyText), Ai, now);
        page.chatRooms := AddMessageToChatRoom(page.chatRooms, id, failure);
    }
    page.outbox := page.outbox + asked;
    page.isLoading := false;
  }

  /** A due scheduled reply fires against the room list as it is then. */
  method FireScheduledReply(page: PlayerPage, i: nat, now: int)
    requires i < |page.scheduled| && page.scheduled[i].deadline <= now
    modifies page`chatRooms, page`scheduled
    ensures var s := old(page.scheduled[i]);
            page.chatRooms == AddMessageToChatRoom(old(page.chatRooms), s.roomId, Message(s.messageId, Some(s.text), Ai, now))
    ensures page.scheduled == old(page.scheduled[..i] + page.scheduled[i + 1..])
  {
    var s := page.scheduled[i];
    page.chatRooms := AddMessageToChatRoom(page.chatRooms, s.roomId, Message(s.messageId, Some(s.text), Ai, now));
    page.scheduled := page.scheduled[..i] + page.scheduled[i + 1..];
  }

  /** The key submit handler, with `saveApiKey` taken from
      `api/users/openaiKeys.jsx` where it is defined. A non-blank key is sent
      to the backend; once it is stored (`stored`), the key counts as set and,
      when a room is current, a welcome message is appended to it. A failed
      store changes nothing else. */
  method ApiKeySubmit(page: PlayerPage, apiKey: string, stored: bool, now: int)
    modifies page`isApiKeySet, page`chatRooms, page`outbox
    ensures IsBlankJs(apiKey) ==>
              page.isApiKeySet == old(page.isApiKeySet) && page.chatRooms == old(page.chatRooms)
              && page.outbox == old(page.outbox)
    ensures !IsBlankJs(apiKey) ==> page.outbox == old(page.outbox) + [SaveApiKey(apiKey)]
    ensures !IsBlankJs(apiKey) && !stored ==>
              page.isApiKeySet == old(page.isApiKeySet) && page.chatRooms == old(page.chatRooms)
    ensures !IsBlankJs(apiKey) && stored ==>
              && page.isApiKeySet
              && var room := GetCurrentChatRoom(old(page.chatRooms), page.currentChatRoomId);
                 page.chatRooms == if IdTruthy(page.currentChatRoomId) && room.Some?
                                   then AddMessageToChatRoom(old(page.chatRooms), page.currentChatRoomId.value,
                                                             Message(|room.value.messages| + 1, Some(WelcomeText), Ai, now))
                                   else old(page.chatRooms)
  {
    if !IsBlankJs(apiKey) {
      page.outbox := page.outbox + [SaveApiKey(apiKey)];
      if stored {
        page.isApiKeySet := true;
        if IdTruthy(page.currentChatRoomId) && |page.chatRooms| > 0 {
          var found := GetCurrentChatRoom(page.chatRooms, page.currentChatRoomId);
          if found.Some? {
            var welcome := Message(|found.value.messages| + 1, Some(WelcomeText), Ai, now);
            page.chatRooms := AddMessageToChatRoom(page.chatRooms, page.currentChatRoomId.value, welcome);
          }
        }
      }
    }
  }

  /** The key submit handler as written: it imports `saveApiKey` from
      `../api/auth`, which exports no such name, so the awaited call throws
      before any request is made and the handler's catch only reports the
      failure. Whatever the key, the page keeps its key flag, its rooms and its
      outbox. */
  method ApiKeySubmitAsWritten(page: PlayerPage, apiKey: string, now: int)
    modifies page`isApiKeySet, page`chatRooms, page`outbox
    ensures page.isApiKeySet == old(page.isApiKeySet)
    ensures page.chatRooms == old(page.chatRooms) && page.outbox == old(page.outbox)
  {
  }

  /** With a current room, submitting the key "sk-1" through the handler as
      written leaves the page without a key, sends nothing and welcomes no
      one, where the corrected handler, once the key is stored, sends it,
      marks it as set and appends the welcome message. */
  method KeySubmitAsWrittenNeverStoresKey() returns (asWritten: PlayerPage, corrected: PlayerPage)
    ensures !asWritten.isApiKeySet && asWritten.outbox == [] && |asWritten.chatRooms| == 1
    ensures |asWritten.chatRooms[0].messages| == 1
    ensures corrected.isApiKeySet && corrected.outbox == [SaveApiKey("sk-1")] && |corrected.chatRooms| == 1
    ensures |corrected.chatRooms[0].messages| == 2
    ensures corrected.chatRooms[0].messages[1] == Message(2, Some(WelcomeText), Ai, 3000)
  {
    var room := CreateNewChatRoom("frame", 1000, 12.5, 7, 1000);
    asWritten := SubmitKeyToOnlyRoom(room, false);
    corrected := SubmitKeyToOnlyRoom(room, true);
    AddToOnlyRoom(room, Message(2, Some(WelcomeText), Ai, 3000));
  }

  /** A fresh page whose only room is current, after "sk-1" was submitted at
      3000 ms through the handler as written or, with the store succeeding,
      through the corrected one. */
  method SubmitKeyToOnlyRoom(room: ChatRoom, corrected: bool) returns (page: PlayerPage)
    requires room.id != 0
    ensures !corrected ==> !page.isApiKeySet && page.outbox == [] && page.chatRooms == [room]
    ensures corrected ==> && page.isApiKeySet && page.outbox == [SaveApiKey("sk-1")]
                          && page.chatRooms == AddMessageToChatRoom([room], room.id, Message(|room.messages| + 1, Some(WelcomeText), Ai, 3000))
  {
    page := new PlayerPage();
    page.chatRooms := [room];
    page.currentChatRoomId := Some(room.id);
    if corrected {
      assert "sk-1"[0] == 's' && !IsJsWhitespace('s');
      assert GetCurrentChatRoom([room], Some(room.id)) == Some(room);
      ApiKeySubmit(page, "sk-1", true, 3000);
    } else {
      ApiKeySubmitAsWritten(page, "sk-1", 3000);
    }
  }

  /** Each message carries its 1-based position as its id. */
  predicate NumberedMessages(room: ChatRoom)
  {
    forall i :: 0 <= i < |room.messages| ==> room.messages[i].id == i + 1
  }

  /** A send with a key set leaves the current room with the question and then
      the reply at its end. */
  lemma KeyedSendAppendsQuestionAndReply(rooms: seq<ChatRoom>, room: ChatRoom, id: int, user: Message, reply: Message)
    requires GetCurrentChatRoom(rooms, Some(id)) == Some(room)
    ensures var after := AddMessageToChatRoom(AddMessageToChatRoom(rooms, id, user), id, reply);
            GetCurrentChatRoom(after, Some(id)) == Some(WithMessage(WithMessage(room, user), reply))
  {
    var mid := AddMessageToChatRoom(rooms, id, user);
    AddToFoundRoom(rooms, room, id, user);
    AddToFoundRoom(mid, WithMessage(room, user), id, reply);
  }

  lemma AddToFoundRoom(rooms: seq<ChatRoom>, room: ChatRoom, id: int, message: Message)
    requires GetCurrentChatRoom(rooms, Some(id)) == Some(room)
    ensures GetCurrentChatRoom(AddMessageToChatRoom(rooms, id, message), Some(id)) == Some(WithMessage(room, message))
  {
    CurrentRoomAfterAdd(rooms, id, message);
  }

  /** A 2xx reply whose content is null or missing is appended and saved with
      the room, and is never saved as a conversation nor announced to the
      callback. */
  lemma NullReplyIsNotSavedAsConversation(room: ChatRoom, question: string, videoFile: Option<string>,
                                          videoId: Option<string>, status: int, feedback: SaveFeedback, now: int)
    requires 200 <= status < 300
    ensures var ai := Returned(Response(status, Parsed(None)));
            && ReplyMessage(room, ai, now).text.None?
            && RepliesOutbox(room, question, videoFile, videoId, ai, feedback, now)
               == [AskModel(RequestAsCalled(question, videoFile, room.capturedFrame)),
                   SaveChatRoom(WithMessage(WithMessage(room, Question(room, question, now)),
                                            ReplyMessage(room, ai, now)), videoId)]
  {
  }

  /** Numbering the question and the reply n+1 and n+2, as the handler does,
      keeps a numbered room numbered. */
  lemma QuestionAndReplyKeepNumbering(room: ChatRoom, text: string, ai: AiCall, now: int)
    requires NumberedMessages(room)
    ensures NumberedMessages(WithMessage(WithMessage(room, Question(room, text, now)),
                                         ReplyMessage(room, ai, now)))
  {
  }

  /** Without a key, two sends less than 500 ms apart give two messages the
      same id: the second question and the first delayed reply are both
      numbered from the room as it was after the first question. */
  method QuickSendsWithoutKeyRepeatAnId(frame: string) returns (page: PlayerPage)
    ensures |page.chatRooms| == 1 && !NumberedMessages(page.chatRooms[0])
    ensures |page.chatRooms[0].messages| == 4
    ensures page.chatRooms[0].messages[2].id == page.chatRooms[0].messages[3].id == 3
  {
    var twice;
    page, twice := TwoQuickSends(frame);
    FireScheduledReply(page, 0, 2500);
    AddToOnlyRoom(twice, Message(3, Some(NoKeyReplyText), Ai, 2500));
    var thrice := WithMessage(twice, Message(3, Some(NoKeyReplyText), Ai, 2500));
    assert page.chatRooms == [thrice];
    assert thrice.messages[2] == Message(3, Some("b"), User, 2200);
    assert thrice.messages[3].id != 3 + 1;
  }

  /** Two keyless sends, 200 ms apart, to a fresh room: both questions are in
      the room and the first delayed reply, numbered 3, is due first. */
  method TwoQuickSends(frame: string) returns (page: PlayerPage, twice: ChatRoom)
    ensures fresh(page)
    ensures page.chatRooms == [twice] && twice.id == 7 && |twice.messages| == 3
    ensures twice.messages[2] == Message(3, Some("b"), User, 2200)
    ensures |page.scheduled| == 2 && page.scheduled[0] == ScheduledReply(2500, 7, 3, NoKeyReplyText)
  {
    page := new PlayerPage();
    var room := CreateNewChatRoom(frame, 1000, 12.5, 7, 1000);
    page.chatRooms := [room];
    page.currentChatRoomId := Some(7);
    SendToOnlyRoom(page, room, "a", 2000);
    var once := WithMessage(room, Message(2, Some("a"), User, 2000));
    assert page.scheduled == [ScheduledReply(2500, 7, 3, NoKeyReplyText)];
    SendToOnlyRoom(page, once, "b", 2200);
    twice := WithMessage(once, Message(3, Some("b"), User, 2200));
  }

  /** One keyless send of a one-letter question to the page's only room. */
  method SendToOnlyRoom(page: PlayerPage, room: ChatRoom, text: string, now: int)
    requires page.chatRooms == [room] && page.currentChatRoomId == Some(room.id) && room.id != 0
    requires !page.isApiKeySet && |text| == 1 && 'a' <= text[0] <= 'z'
    modifies page`chatRooms, page`inputMessage, page`isLoading, page`scheduled, page`outbox
    ensures page.chatRooms == [WithMessage(room, Question(room, text, now))]
    ensures page.scheduled == old(page.scheduled)
              + [ScheduledReply(now + NoKeyReplyDelay, room.id, |room.messages| + 2, NoKeyReplyText)]
  {
    page.inputMessage := text;
    assert !IsJsWhitespace(text[0]);
    assert GetCurrentChatRoom([room], Some(room.id)) == Some(room);
    SendMessage(page, Threw, SaveFeedback(false, false), now);
    AddToOnlyRoom(room, Question(room, text, now));
  }

  lemma AddToOnlyRoom(room: ChatRoom, message: Message)
    ensures AddMessageToChatRoom([room], room.id, message) == [WithMessage(room, message)]
  {
  }
}
