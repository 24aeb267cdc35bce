/** The two browser-side helpers of `openai.jsx`: the frame-capture size rule
    and the construction of the chat-completion request. Pixels, the data URL
    and the network call itself are collaborators; their outcomes are inputs. */
module OpenAi {
  import opened Wrappers

  /** The JavaScript values that can reach `callOpenAI`'s parameters. */
  datatype JsValue = Undefined | Null | Str(s: string) | FileObject(name: string)

  predicate Truthy(v: JsValue)
  {
    match v
    case Undefined => false
    case Null => false
    case Str(s) => s != ""
    case FileObject(_) => true
  }

  /** What a template literal `${v}` prints for `v`. */
  function TemplateText(v: JsValue): string
  {
    match v
    case Undefined => "undefined"
    case Null => "null"
    case Str(s) => s
    case FileObject(_) => "[object File]"
  }

  /** What `${v.name}` prints for a truthy `v`: a string has no `name`. */
  function NameText(v: JsValue): string
    requires Truthy(v)
  {
    if v.FileObject? then v.name else "undefined"
  }

  /** The page's `videoFile` state (a `File` or null) as a JavaScript value. */
  function VideoFileValue(videoFile: Option<string>): JsValue
  {
    if videoFile.Some? then FileObject(videoFile.value) else Null
  }

  datatype Role = System | UserRole
  datatype ContentPart = TextPart(text: string) | ImagePart(url: JsValue, detail: string)
  datatype Content = Plain(text: string) | Parts(parts: seq<ContentPart>)
  datatype ApiMessage = ApiMessage(role: Role, content: Content)
  datatype ChatRequest = ChatRequest(
    authorization: string,
    model: string,
    messages: seq<ApiMessage>,
    maxTokens: int,
    temperature: real)

  const SystemPrefix: string :=
    "당신은 비디오 분석 전문 AI입니다. 사용자가 업로드한 영상에 대해 질문하면 도움이 되는 답변을 해주세요. 현재 업로드된 영상: "
  const NoVideoText: string := "없음"
  const FrameNote: string := ". 현재 일시정지된 화면의 스크린샷이 함께 제공됩니다."
  const Apology: string := "죄송합니다. API 호출 중 오류가 발생했습니다. API 키를 확인해주세요."
  const ModelName: string := "gpt-4o-mini"

  function SystemPrompt(videoFile: JsValue, capturedFrame: JsValue): string
  {
    SystemPrefix + (if Truthy(videoFile) then NameText(videoFile) else NoVideoText)
    + (if Truthy(capturedFrame) then FrameNote else "")
  }

  /** The message list `callOpenAI` sends: the system message, then the user turn,
      which carries the frame as a second, high-detail part when there is one. */
  function Messages(message: string, videoFile: JsValue, capturedFrame: JsValue): (ms: seq<ApiMessage>)
    ensures |ms| == 2 && ms[0].role == System && ms[1].role == UserRole
    ensures ms[0].content == Plain(SystemPrompt(videoFile, capturedFrame))
    ensures ms[1].content.Parts? <==> Truthy(capturedFrame)
  {
    var user := if Truthy(capturedFrame)
                then Parts([TextPart(message), ImagePart(capturedFrame, "high")])
                else Plain(message);
    [ApiMessage(System, Plain(SystemPrompt(videoFile, capturedFrame))), ApiMessage(UserRole, user)]
  }

  /** The request `callOpenAI(message, apiKey, videoFile, capturedFrame)` sends. */
  function Request(message: string, apiKey: JsValue, videoFile: JsValue, capturedFrame: JsValue): (r: ChatRequest)
    ensures r.authorization == "Bearer " + TemplateText(apiKey)
    ensures r.model == ModelName && r.maxTokens == 500 && r.temperature == 0.7
  {
    ChatRequest("Bearer " + TemplateText(apiKey), ModelName, Messages(message, videoFile, capturedFrame), 500, 0.7)
  }

  /** A response body as `data.choices[0].message.content` reads it:
      `Unreadable` when that read throws (the body is not JSON, or it has no
      first choice or that choice no message), otherwise the content field,
      `None` when it is null or missing. */
  datatype Body = Unreadable | Parsed(content: Option<string>)

  /** What the HTTP exchange produced: a network failure, or a status and a body. */
  datatype HttpOutcome = NetworkError | Response(status: int, body: Body)

  /** Whether `callOpenAI` returns what the body holds: a 2xx status whose body
      reads without throwing. */
  predicate Delivered(outcome: HttpOutcome)
  {
    outcome.Response? && 200 <= outcome.status < 300 && outcome.body.Parsed?
  }

  /** The value `callOpenAI` resolves to, `None` standing for null or undefined:
      the content field itself, whatever it holds, when the exchange delivered a
      body; the fixed apology when the network failed, the status was not 2xx or
      reading the body threw. */
  function ReplyText(outcome: HttpOutcome): (reply: Option<string>)
    ensures Delivered(outcome) ==> reply == outcome.body.content
    ensures !Delivered(outcome) ==> reply == Some(Apology)
    ensures reply.None? <==> Delivered(outcome) && outcome.body.content.None?
  {
    match outcome
    case Response(status, Parsed(content)) => if 200 <= status < 300 then content else Some(Apology)
    case _ => Some(Apology)
  }

  /** `callOpenAI`: builds the message list with `push` and never throws. */
  method CallOpenAI(message: string, apiKey: JsValue, videoFile: JsValue, capturedFrame: JsValue, outcome: HttpOutcome)
    returns (request: ChatRequest, reply: Option<string>)
    ensures request == Request(message, apiKey, videoFile, capturedFrame)
    ensures Delivered(outcome) ==> reply == outcome.body.content
    ensures !Delivered(outcome) ==> reply == Some(Apology)
  {
    var messages := [ApiMessage(System, Plain(SystemPrompt(videoFile, capturedFrame)))];
    if Truthy(capturedFrame) {
      messages := messages + [ApiMessage(UserRole, Parts([TextPart(message), ImagePart(capturedFrame, "high")]))];
    } else {
      messages := messages + [ApiMessage(UserRole, Plain(message))];
    }
    request := ChatRequest("Bearer " + TemplateText(apiKey), ModelName, messages, 500, 0.7);
    match outcome {
      case Response(status, Parsed(content)) =>
        reply := if 200 <= status < 300 then content else Some(Apology);
      case _ =>
        reply := Some(Apology);
    }
  }

  /** With a frame, the user turn is the question followed by the frame as a
      high-detail image; without one it is the plain question. */
  lemma UserTurnShape(message: string, videoFile: JsValue, capturedFrame: JsValue)
    ensures var ms := Messages(message, videoFile, capturedFrame);
            ms[1].content == if Truthy(capturedFrame)
                             then Parts([TextPart(message), ImagePart(capturedFrame, "high")])
                             else Plain(message)
  {
  }

  /** The call in the send-message handler passes three arguments,
      `(currentMessage, videoFile, capturedFrame)`, to the four parameters
      `(message, apiKey, videoFile, capturedFrame)`. */
  function RequestAsCalled(message: string, videoFile: Option<string>, capturedFrame: string): ChatRequest
  {
    Request(message, VideoFileValue(videoFile), Str(capturedFrame), Undefined)
  }

  /** As called: whatever frame the room holds, the user turn is plain text, the
      prompt names the frame's missing `name` property, and the bearer token is
      the file object (or null) instead of a key. */
  lemma AsCalledRequestDropsFrame(message: string, videoFile: Option<string>, capturedFrame: string)
    ensures var r := RequestAsCalled(message, videoFile, capturedFrame);
            && r.messages[1].content == Plain(message)
            && r.authorization == "Bearer " + (if videoFile.Some? then "[object File]" else "null")
            && (capturedFrame != "" ==> r.messages[0].content == Plain(SystemPrefix + "undefined"))
  {
  }

  /** The call the handler evidently means: the key, the video file and the
      room's frame in their own parameters. */
  function RequestIntended(message: string, apiKey: string, videoFile: Option<string>, capturedFrame: string): ChatRequest
  {
    Request(message, Str(apiKey), VideoFileValue(videoFile), Str(capturedFrame))
  }

  /** Called as intended, a room's non-empty frame reaches the model as a
      high-detail image after the question, under the caller's key. */
  lemma IntendedRequestCarriesFrame(message: string, apiKey: string, videoFile: Option<string>, capturedFrame: string)
    requires capturedFrame != ""
    ensures var r := RequestIntended(message, apiKey, videoFile, capturedFrame);
            && r.messages[1].content == Parts([TextPart(message), ImagePart(Str(capturedFrame), "high")])
            && r.authorization == "Bearer " + apiKey
            && r.messages[0].content == Plain(SystemPrompt(VideoFileValue(videoFile), Str(capturedFrame)))
  {
  }

  /** The video element as `captureVideoFrame` sees it. */
  datatype VideoElement = VideoElement(videoWidth: nat, videoHeight: nat)

  /** The size of a captured frame: the size it is drawn at, and the canvas size,
      which the canvas truncates to whole pixels. */
  datatype FrameSize = FrameSize(drawWidth: real, drawHeight: real, canvasWidth: int, canvasHeight: int)

  const MaxFrameSide: real := 512.0

  function Min(a: real, b: real): real { if a <= b then a else b }

  /** `captureVideoFrame`: null without a video element or URL, or while a video
      dimension is 0, or when the canvas refuses to export (`exportOk` false);
      otherwise the frame keeps its size when both sides fit in 512 and is scaled
      by `min(512/w, 512/h)` when not. */
  method CaptureVideoFrame(video: Option<VideoElement>, videoUrl: Option<string>, exportOk: bool)
    returns (r: Option<FrameSize>)
    ensures r.None? <==> video.None? || videoUrl.None? || videoUrl.value == ""
                         || video.value.videoWidth == 0 || video.value.videoHeight == 0 || !exportOk
    ensures r.Some? ==> r.value.canvasWidth == r.value.drawWidth.Floor
                        && r.value.canvasHeight == r.value.drawHeight.Floor
    ensures r.Some? && video.value.videoWidth <= 512 && video.value.videoHeight <= 512 ==>
              r.value.drawWidth == video.value.videoWidth as real
              && r.value.drawHeight == video.value.videoHeight as real
    ensures r.Some? && (video.value.videoWidth > 512 || video.value.videoHeight > 512) ==>
              && r.value.drawWidth <= MaxFrameSide && r.value.drawHeight <= MaxFrameSide
              && (r.value.drawWidth == MaxFrameSide || r.value.drawHeight == MaxFrameSide)
              && r.value.drawWidth * video.value.videoHeight as real
                 == r.value.drawHeight * video.value.videoWidth as real
  {
    if video.None? || videoUrl.None? || videoUrl.value == "" {
      return None;
    }
    var v := video.value;
    if v.videoWidth == 0 || v.videoHeight == 0 {
      return None;
    }
    var videoWidth := v.videoWidth as real;
    var videoHeight := v.videoHeight as real;
    if videoWidth > MaxFrameSide || videoHeight > MaxFrameSide {
      var ratio := Min(MaxFrameSide / videoWidth, MaxFrameSide / videoHeight);
      ScaledFits(v.videoWidth as real, v.videoHeight as real);
      videoWidth := videoWidth * ratio;
      videoHeight := videoHeight * ratio;
    }
    if !exportOk {
      return None;
    }
    r := Some(FrameSize(videoWidth, videoHeight, videoWidth.Floor, videoHeight.Floor));
  }

  lemma ScaledFits(w: real, h: real)
    requires w > 0.0 && h > 0.0
    ensures var ratio := Min(MaxFrameSide / w, MaxFrameSide / h);
            && w * ratio <= MaxFrameSide && h * ratio <= MaxFrameSide
            && (w * ratio == MaxFrameSide || h * ratio == MaxFrameSide)
            && (w * ratio) * h == (h * ratio) * w
  {
    var rw, rh := MaxFrameSide / w, MaxFrameSide / h;
    assert w * rw == MaxFrameSide;
    assert h * rh == MaxFrameSide;
    if rw <= rh {
      assert h * rw <= h * rh;
    } else {
      assert w * rh <= w * rw;
    }
  }
}
