/** The React state of the video chat page that the handlers read and set, held
    as one object, together with the ordered log of the requests the page hands
    to the backend and to OpenAI. */
module Page {
  import opened Wrappers
  import opened ChatRoomManager
  import opened OpenAi

  /** A request issued by the page, in the order issued. */
  datatype Outgoing =
    | SaveChatRoom(room: ChatRoom, videoId: Option<string>)
    | AskModel(request: ChatRequest)
    | SaveConversation(question: string, answer: string, questionImage: string, timestamp: real)
    | SaveApiKey(apiKey: string)
    /** The send handler's `onConversationSaved` callback, called once a
        conversation is stored. */
    | NotifyConversationSaved

  /** A reply the page scheduled with `setTimeout`: when `deadline` is reached,
      an AI message with this id and text, stamped with the firing time, is
      appended to room `roomId` of the list as it is then. */
  datatype ScheduledReply = ScheduledReply(deadline: int, roomId: int, messageId: int, text: string)

  /** JavaScript truthiness of the nullable numeric room id: 0 is falsy. */
  predicate IdTruthy(id: Option<int>) { id.Some? && id.value != 0 }

  class PlayerPage {
    /** The uploaded file, by name. */
    var videoFile: Option<string>
    var videoUrl: Option<string>
    var videoId: Option<string>
    var isPlaying: bool
    var chatRooms: seq<ChatRoom>
    var currentChatRoomId: Option<int>
    var showChatRoomList: bool
    var inputMessage: string
    var isLoading: bool
    var isApiKeySet: bool
    var scheduled: seq<ScheduledReply>
    var outbox: seq<Outgoing>

    constructor()
      ensures videoFile.None? && videoUrl.None? && videoId.None?
      ensures !isPlaying && chatRooms == [] && currentChatRoomId.None? && !showChatRoomList
      ensures inputMessage == "" && !isLoading && !isApiKeySet
      ensures scheduled == [] && outbox == []
    {
      videoFile, videoUrl, videoId := None, None, None;
      isPlaying := false;
      chatRooms := [];
      currentChatRoomId := None;
      showChatRoomList := false;
      inputMessage := "";
      isLoading := false;
      isApiKeySet := false;
      scheduled := [];
      outbox := [];
    }
  }
}
