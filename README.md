# Video chat assistant: verified model of the room pipeline and the backend ranking

This project models the logic of a video question-answering web application.
Pausing the video captures the current frame and files it into a chat room,
one room per whole second of playback. The user then asks questions in that
room, which are meant to go to an OpenAI chat model with the room's frame
attached; as the call is written the frame never reaches the model (see
"## Findings"). The backend
stores the question/answer pairs, ranks stored conversations by a given
similarity score, and keeps the user's chat rooms with a cascade delete.

Modules, one per source file:

- `ChatRoomManager` (`chat_room_manager.dfy`): the room-list algebra.
  - `MM:SS` labels and whole-second buckets.
  - Find-or-create, appending a message, deleting by id, the current room.
- `ChatRoomHandlers` (`chat_room_handlers.dfy`): switching rooms, and the
  delete handler's choice of the next current room.
- `Page` (`page.dfy`): the React state of the player page as one object
  `PlayerPage`. It also holds the ordered log of outgoing requests and the
  pending `setTimeout` replies.
- `VideoHandlers` (`video_handlers.dfy`): the manual-pause, toggle and upload
  handlers on the page.
  - The class `PlaybackSession` holds the module-level seek/pause variables,
    driven by events that carry an explicit clock.
  - Pending timers are deadlines that an explicit `Fire…` method fires.
- `MessageHandlers` (`message_handlers.dfy`): the send-message and API-key
  handlers. The model call's outcome and the persistence calls' outcomes are inputs.
- `OpenAi` (`openai.jsx` → `openai.dfy`): the frame resize rule of
  `captureVideoFrame` and the request `callOpenAI` builds.
- `ConversationHistory` (`conversation_history.dfy`): drag-and-drop reordering
  with an in-place splice on an array, the drag markers, and the local removal
  after a delete.
- `VideoThumbnails` (`video_thumbnails.dfy`): the thumbnail capture schedule
  and the nearest-thumbnail scan.
- `Ranking` (`ranking.dfy`): Python's stable `sort(key=…, reverse=True)` and the
  slice `s[:k]`, shared by the backend searches.
- `Retrieval` (`retrieval.dfy`): the post-processing of `MultimodalRetriever`.
  - `search`: field choice, candidate filter, threshold, ranking.
  - `hybrid_search`: the merge dictionary and the weighted sum.
- `ConversationManager` (`conversation_manager.dfy`): the `conversations`
  collection as a class. Covers the upsert by (question, answer, timestamp),
  the search loop and the delete.
- `Api` (`api.dfy`): the `main.py` endpoints as a class `Backend` over the
  `user_conversations` list and the `user_chat_rooms` map keyed by
  (user, room).
  - The `X-User-ID` check.
  - Saving a conversation, with validation and the shared frame name.
  - The conversation search.
  - The chat-room upsert and the delete cascade.
- `Text`, `Wrappers`: decimal strings, `padStart`, JavaScript `trim` and
  Python `strip` white space, `Option`/`Result`, and the truthiness of an
  optional string.

Conventions:

- Times are integer milliseconds for clocks. Playback positions, scores and
  sizes are mathematical reals.
- Similarities and embeddings are given per document as a function argument.
- `Date.now()` and `new Date()` are explicit parameters.
- The outcome of every network call is an input.

## Model

| member | source | states |
|---|---|---|
| ChatRoomManager.VideoTimeParts | front/src/utils/chatRoomManager.jsx:2-6 | for a non-negative position the two printed parts are the whole minutes and the remaining whole seconds, the seconds in 0..59; minutes are not capped |
| ChatRoomManager.FormatVideoTimeReadsBack | front/src/utils/chatRoomManager.jsx:2-6 | the `MM:SS` label parses back to exactly (floor(s)/60, floor(s)%60): both parts are zero-padded digit strings around one colon |
| ChatRoomManager.LabelReadsBack | front/src/utils/chatRoomManager.jsx:4-5 | any minutes/seconds pair printed with `padStart(2,'0')` and joined by a colon reads back as that pair |
| ChatRoomManager.SameNameIffSameBucket | front/src/utils/chatRoomManager.jsx:2-6 | two positions get the same room name exactly when they have the same whole second |
| ChatRoomManager.FindChatRoomByTime | front/src/utils/chatRoomManager.jsx:9-12 | none exactly when no room has a non-null time in the query's second; otherwise the first such room in list order |
| ChatRoomManager.CreateNewChatRoom | front/src/utils/chatRoomManager.jsx:15-31 | the new room has the given id, name `formatVideoTime(t)`, exactly one seed message (id 1, from the AI), and the given frame, frame time and position |
| ChatRoomManager.FindOrCreateChatRoom | front/src/utils/chatRoomManager.jsx:34-45 | `isNew` exactly when no room is in the bucket; an existing room is the one found, unchanged; a new one is `createNewChatRoom`'s; the room is always in the bucket |
| ChatRoomManager.ResolveIdempotent | front/src/utils/chatRoomManager.jsx:34-45 | resolving again in the same second against the list the first resolution produced returns the same room, not new |
| ChatRoomManager.GetCurrentChatRoom | front/src/utils/chatRoomManager.jsx:48-50 | none exactly when no room has the current id; otherwise the first room with that id |
| ChatRoomManager.AddMessageToChatRoom | front/src/utils/chatRoomManager.jsx:53-55 | same length and order; rooms with the id get the message at the end; every other room is identical |
| ChatRoomManager.CurrentRoomAfterAdd | front/src/utils/chatRoomManager.jsx:48-55 | after appending to room `id`, the current room with that id is the old one with the message at the end |
| ChatRoomManager.DeleteKeepsOthers | front/src/utils/chatRoomManager.jsx:58-60 | a room is kept exactly when it was in the list and its id differs, and the list never grows |
| ChatRoomManager.DeleteAbsentIsIdentity | front/src/utils/chatRoomManager.jsx:58-60 | a list holding no room with the id is returned unchanged |
| ChatRoomManager.DeleteDistributes | front/src/utils/chatRoomManager.jsx:58-60 | deletion of a concatenation is the concatenation of the deletions, so the kept rooms keep their relative order |
| ChatRoomManager.DeleteOne | front/src/utils/chatRoomManager.jsx:58-60 | a one-room list loses its room exactly when the id matches |
| ChatRoomHandlers.SwitchChatRoom | front/src/utils/chatRoomHandlers.jsx:4-9 | the chosen id becomes current and the room list closes |
| ChatRoomHandlers.DeleteChatRoom | front/src/utils/chatRoomHandlers.jsx:12-31 | the new list is the latest list without the id; deleting a room that is not current keeps the current id; deleting the current room selects the first room of the captured list with another id, and none exactly when every captured room has the deleted id |
| ChatRoomHandlers.FirstKeptRoom | front/src/utils/chatRoomHandlers.jsx:15-24 | the first room a deletion keeps is the first room with another id, and none is kept exactly when every room has the deleted id |
| ChatRoomHandlers.DeleteCurrentMovesSelection | front/src/utils/chatRoomHandlers.jsx:20-27 | deleting the current room never leaves its id current; the selection is empty exactly when no room is left, and otherwise it is the first remaining room |
| ChatRoomHandlers.DeleteKeepsSelectionValid | front/src/utils/chatRoomHandlers.jsx:15-29 | with an up-to-date list, a selection that named a room of the list still does after any delete |
| ChatRoomHandlers.StaleCaptureCanSelectMissingRoom | front/src/utils/chatRoomHandlers.jsx:15-24 | when the handler's captured list is stale, the room it selects next can be one no longer in the list |
| VideoHandlers.HandleManualPause | front/src/utils/videoHandlers.jsx:13-38 | no frame: nothing changes; otherwise the room is resolved against the captured list, a new room is appended to the current list and saved only with a truthy video id, and the room becomes current |
| VideoHandlers.Toggle | front/src/utils/videoHandlers.jsx:41-63 | without element or URL nothing changes; otherwise playing flips; a pause runs the manual-pause effect directly, with no seek or repeat check; a play touches no room |
| VideoHandlers.Upload | front/src/utils/videoHandlers.jsx:154-210 | a `video/` file sets file and URL, stops playback, clears rooms, selection and video id, then takes the returned id when truthy; any other file changes nothing |
| VideoHandlers.PlaybackSession.constructor | front/src/utils/videoHandlers.jsx:7-10 | all four module variables start at 0/false/null and no timer is pending |
| VideoHandlers.PlaybackSession.Seeking | front/src/utils/videoHandlers.jsx:66-79 | sets the seeking flag and the seek time to now and cancels the pending pause; nothing else changes |
| VideoHandlers.PlaybackSession.Seeked | front/src/utils/videoHandlers.jsx:82-92 | adds a flag-clearing timer due 200 ms later and changes nothing else |
| VideoHandlers.PlaybackSession.FireSeekClear | front/src/utils/videoHandlers.jsx:87-90 | a due clearing timer clears the flag whatever seek is in progress, and is removed from the pending ones |
| VideoHandlers.PlaybackSession.Pause | front/src/utils/videoHandlers.jsx:95-139 | playback stops; a pause while seeking, within 500 ms of the seek start or within 1000 ms of the last accepted pause changes nothing else; otherwise the pause time is now and the single pending timeout is replaced by one due 300 ms later with the captured list and video id |
| VideoHandlers.PlaybackSession.Play | front/src/utils/videoHandlers.jsx:142-151 | playback starts and the pending pause is cancelled |
| VideoHandlers.PlaybackSession.FirePauseTimeout | front/src/utils/videoHandlers.jsx:131-137 | the manual-pause effect with the captured list runs only if the element is paused and no seek is in progress; the timeout is cleared in every case |
| VideoHandlers.PauseKeepsBucketsUnique | front/src/utils/videoHandlers.jsx:13-38 | resolving against the current list keeps at most one room per second, and the resolved room is in the list |
| VideoHandlers.StaleResolutionDuplicatesBucket | front/src/utils/videoHandlers.jsx:19-22 | resolving against a stale captured list and appending to the latest one can give a second room for the same second |
| VideoHandlers.PauseThenFireCreatesRoom | front/src/utils/videoHandlers.jsx:95-137 | an accepted pause whose timer fires while paused yields one room for that second, current, named by its `MM:SS` label and saved |
| VideoHandlers.PauseDuringSeekIsIgnored | front/src/utils/videoHandlers.jsx:109-114 | a pause during a seek and one within 500 ms of its start schedule nothing |
| VideoHandlers.RepeatPauseIsIgnored | front/src/utils/videoHandlers.jsx:116-121 | a play cancels the first pause's timer and a pause within a second of it is ignored, so nothing is pending |
| VideoHandlers.EarlierSeekedClearsLaterSeek | front/src/utils/videoHandlers.jsx:82-92 | the never-cancelled timer of an earlier seek clears the flag during a later seek, so a pause 600 ms after that later seek start is accepted |
| MessageHandlers.Question | front/src/utils/messageHandlers.jsx:30-35 | the question message has id `messages.length + 1`, the user as sender and the input as its text |
| MessageHandlers.ReplyMessage | front/src/utils/messageHandlers.jsx:60-65 | the AI message has id `messages.length + 2`; its text is what the call resolved to, null included, when it returned, and the error text when it threw |
| MessageHandlers.ConversationSave | front/src/utils/messageHandlers.jsx:80-96 | a conversation request is sent exactly when the answer is a non-empty string and the room has a time, and carries the question, the answer, the room's frame and its time; the `onConversationSaved` callback is called exactly when that request was sent, it resolved and the handler has a callback |
| MessageHandlers.SendMessage | front/src/utils/messageHandlers.jsx:20-119 | blank input, a falsy current id or a current id not in the list change nothing; otherwise the effect of `Deliver` on the room found |
| MessageHandlers.Deliver | front/src/utils/messageHandlers.jsx:30-118 | the question (id length+1, from the user) is appended to the current room and saved, and the input cleared; with a key, the effect of `Answer`; without a key, the fixed reply with id length+2 is scheduled 500 ms later |
| MessageHandlers.Answer | front/src/utils/messageHandlers.jsx:55-106 | the model is asked with the three arguments as passed, `(question, videoFile, capturedFrame)`; what it resolved to (or the error text) is appended with id length+2; a returned reply is saved with the room and then as in `ConversationSave`; loading ends false |
| MessageHandlers.FireScheduledReply | front/src/utils/messageHandlers.jsx:109-117 | the due reply is appended to its room in the list as it is when it fires, and removed from the pending ones |
| MessageHandlers.ApiKeySubmit | front/src/utils/messageHandlers.jsx:132-160 | with `saveApiKey` taken from the module that defines it: a blank key does nothing; otherwise the key is sent; once stored, the key counts as set and a welcome message is appended only when a current room exists; a failed store changes nothing else |
| MessageHandlers.ApiKeySubmitAsWritten | front/src/utils/messageHandlers.jsx:132-160 | as written, the call to the unbound `saveApiKey` throws into the catch: the key flag, the rooms and the outbox are unchanged for every key |
| MessageHandlers.KeySubmitAsWrittenNeverStoresKey | front/src/utils/messageHandlers.jsx:132-160 | with a current room and the key "sk-1", the handler as written leaves the key unset, sends nothing and adds no message, while the corrected one sends the key, sets it and appends the welcome message with id 2 |
| MessageHandlers.NullReplyIsNotSavedAsConversation | front/src/utils/messageHandlers.jsx:58-96 | a 2xx reply with null or missing content is appended as a message without text and saved with the room; no conversation is saved and the callback is not called |
| MessageHandlers.KeyedSendAppendsQuestionAndReply | front/src/utils/messageHandlers.jsx:43-67 | after a keyed send the current room is the old one with the question and then the reply at its end |
| MessageHandlers.QuestionAndReplyKeepNumbering | front/src/utils/messageHandlers.jsx:30-65 | numbering the question and its reply length+1 and length+2 keeps the messages of a numbered room numbered by position |
| MessageHandlers.TwoQuickSends | front/src/utils/messageHandlers.jsx:30-118 | two sends without a key, 200 ms apart, into a new room leave three messages and two replies scheduled, the first for 2500 ms with id 3 |
| MessageHandlers.QuickSendsWithoutKeyRepeatAnId | front/src/utils/messageHandlers.jsx:107-118 | without a key, two sends less than 500 ms apart give the second question and the first delayed reply the same id |
| OpenAi.Messages | front/src/utils/openai.jsx:3-33 | two messages, the system prompt first; the user turn has parts exactly when a frame is given |
| OpenAi.UserTurnShape | front/src/utils/openai.jsx:10-33 | with a frame the user turn is the question followed by the frame as a high-detail image; otherwise the plain question |
| OpenAi.Request | front/src/utils/openai.jsx:35-47 | bearer authorisation from the key, model `gpt-4o-mini`, 500 tokens, temperature 0.7 |
| OpenAi.ReplyText | front/src/utils/openai.jsx:49-58 | on a 2xx status whose body has a first choice with a message, the content field as it is, null or missing included; the fixed apology on a network failure, another status or a body that throws when read; null exactly in the first case with null content |
| OpenAi.CallOpenAI | front/src/utils/openai.jsx:1-59 | the request built by `push` is `Request`'s; it never throws, and resolves to the content field (null or missing included) on a 2xx status with a readable body, to the apology otherwise |
| OpenAi.AsCalledRequestDropsFrame | front/src/utils/messageHandlers.jsx:58 | called with the three arguments the send handler passes, the user turn is the plain question whatever the frame, the bearer token is the file object or null instead of a key, and a non-empty frame makes the prompt name `undefined` as the video |
| OpenAi.IntendedRequestCarriesFrame | front/src/utils/openai.jsx:3-33 | called with the key, file and frame in their own parameters, a non-empty frame reaches the model as a high-detail image under the caller's key |
| OpenAi.CaptureVideoFrame | front/src/utils/openai.jsx:61-105 | null exactly without element or URL, with a zero dimension, or when export fails; a frame with both sides at most 512 keeps its size; a larger one is scaled so both sides are at most 512, one side is exactly 512 and the aspect ratio is kept; the canvas takes the whole-pixel part |
| OpenAi.ScaledFits | front/src/utils/openai.jsx:85-89 | scaling by min(512/w, 512/h) fits both sides, reaches 512 on one of them, and keeps the aspect ratio |
| ConversationHistory.MoveIndex | front/src/components/ConversationHistory.jsx:90-95 | after a move the dragged room is at the drop index, the rooms between the two indices shift by one, and the rest stay where they were |
| ConversationHistory.MovePermutes | front/src/components/ConversationHistory.jsx:90-97 | a move is a permutation of the list |
| ConversationHistory.MoveKeepsOthersInOrder | front/src/components/ConversationHistory.jsx:94-95 | taking the dropped room out again gives the list without the dragged room: the others keep their relative order |
| ConversationHistory.MoveWithin | front/src/components/ConversationHistory.jsx:90-96 | the in-place splice pair on the copied array leaves it equal to the move of its old contents |
| ConversationHistory.WithoutRoomKeepsOthers | front/src/components/ConversationHistory.jsx:42 | a room is kept exactly when it was listed and its `room_id` differs |
| ConversationHistory.WithoutRoomDistributes | front/src/components/ConversationHistory.jsx:42 | removal splits over concatenation, so the kept rooms keep their order |
| ConversationHistory.HistoryPanel.DragStart | front/src/components/ConversationHistory.jsx:51-55 | the dragged item is the index |
| ConversationHistory.HistoryPanel.DragOver | front/src/components/ConversationHistory.jsx:57-72 | drag-over and drag-enter mark the index, unless it is the dragged item |
| ConversationHistory.HistoryPanel.DragLeave | front/src/components/ConversationHistory.jsx:74-79 | the marker is cleared only when the pointer left the item itself |
| ConversationHistory.HistoryPanel.DragEnd | front/src/components/ConversationHistory.jsx:102-105 | both markers are cleared |
| ConversationHistory.HistoryPanel.Drop | front/src/components/ConversationHistory.jsx:81-100 | no dragged item, or a drop on its own index, keeps the list; otherwise the list is the move of the dragged room to the drop index; both markers are cleared either way |
| ConversationHistory.HistoryPanel.Delete | front/src/components/ConversationHistory.jsx:35-48 | a confirmed delete is sent to the backend; only after it succeeds are the rooms with that id removed, the rest in order; otherwise the list is unchanged |
| VideoThumbnails.SafeInterval | front/src/utils/videoThumbnails.js:99 | the interval used is positive: the given one when positive, 5 seconds otherwise |
| VideoThumbnails.CaptureTimes | front/src/utils/videoThumbnails.js:90-110 | the loop's times are the schedule: the stepped times, then the duration when it is not already last and the cap allows |
| VideoThumbnails.StepsShape | front/src/utils/videoThumbnails.js:100-106 | stepped times start at the start time, rise by the interval, stay below the duration and under the cap, and strictly increase |
| VideoThumbnails.NoDurationNoTimes | front/src/utils/videoThumbnails.js:91-96 | a zero or non-finite duration gives no times |
| VideoThumbnails.ScheduleShape | front/src/utils/videoThumbnails.js:99-110 | the schedule starts at 0, rises by the safe interval, strictly increases, stays below the duration except a final entry equal to it, never exceeds the cap, and ends with the duration exactly when the stepped times left room under the cap |
| VideoThumbnails.GetClosestThumbnail | front/src/utils/videoThumbnails.js:124-141 | null exactly for a missing or empty list; otherwise a thumbnail at minimal distance from t, the earliest on a tie |
| Text.NatToString | back/src/api/main.py:753 | a non-empty digit string, one digit exactly below 10 |
| Text.ParseNatToString | back/src/api/main.py:753 | the decimal rendering reads back as the number |
| Text.PadStart | front/src/utils/chatRoomManager.jsx:4-5 | `padStart`: the width or the string's length, the string at the end and pad characters before it |
| Text.ParseLeadingZeros | front/src/utils/chatRoomManager.jsx:4-5 | leading zeros do not change the value a digit string denotes |
| Text.StripShape | back/src/api/main.py:704-707 | `strip()` is empty exactly for white space; otherwise the result has no white space at either end |
| Ranking.SortDesc | back/src/utils/retrieval.py:83-84 | the sort keeps the length and the multiset of elements |
| Ranking.SortDescSorted | back/src/utils/retrieval.py:83-84 | the sort's result is in descending score order and a permutation of its input |
| Ranking.InsertDescSorted | back/src/utils/retrieval.py:83-84 | inserting into a descending list keeps it descending |
| Ranking.SortDescDistinct | back/src/utils/retrieval.py:161 | sorting keeps distinct identities distinct |
| Ranking.PySliceTo | back/src/utils/retrieval.py:86 | `s[:k]` is a prefix of length min(k, len) for k ≥ 0 and len + k (at least 0) for negative k |
| Ranking.PrefixKeeps | back/src/utils/retrieval.py:86 | a prefix of a sorted, duplicate-free list is sorted and duplicate-free, and only holds elements of the list |
| Ranking.CutKeepsBest | back/src/utils/retrieval.py:83-86 | cutting a sorted list keeps the best: everything cut off scores no higher than everything kept |
| Retrieval.ChooseField | back/src/utils/retrieval.py:21-33 | multimodal with text and image, text with text only, image with image only, and an error exactly with neither |
| Retrieval.CandidatesExactly | back/src/utils/retrieval.py:35-47 | a document is a candidate exactly when it is in the collection, has the content type when one is given, and every metadata filter entry equals its metadata |
| Retrieval.Search | back/src/utils/retrieval.py:49-86 | the loop over the candidates computes `Searched`: the field chosen, kept candidates scored, ranked and cut to `top_k` |
| Retrieval.HitsExactly | back/src/utils/retrieval.py:54-80 | a result is collected exactly when its document is a candidate with the chosen embedding that passes the threshold, scored by its similarity |
| Retrieval.SearchResultsShape | back/src/utils/retrieval.py:49-86 | results are matching candidates with the chosen embedding, above a truthy threshold, with distance 1 − score, in descending order and at most `top_k` |
| Retrieval.IndexOfKey | back/src/utils/retrieval.py:119-148 | finds the dictionary entry with the key, and none exactly when the key is absent |
| Retrieval.FilePreserves | back/src/utils/retrieval.py:122-148 | filing keeps one entry per key, each under its own document's key, and leaves the key present |
| Retrieval.FileAllPreserves | back/src/utils/retrieval.py:122-148 | filing a whole result list keeps one entry per key, each under its own document's key |
| Retrieval.LastUnderIsLast | back/src/utils/retrieval.py:124-148 | the last result filed under a key is the one at the last position with that key, and there is one exactly when some result has the key |
| Retrieval.FirstUnderIsFirst | back/src/utils/retrieval.py:124-148 | the first result filed under a key is the one at the first position with that key, and it exists exactly when a last one does |
| Retrieval.FileAllFiled | back/src/utils/retrieval.py:124-148 | filing one side's results in order: every entry already present keeps its place, key and document, with this side's score replaced by the weighted score of the last result under its key when there is one; each new key is appended once, with the first such result's document, the last one's weighted score on this side and 0 on the other; every result's key is present |
| Retrieval.FileAllLength | back/src/utils/retrieval.py:124-148 | filing adds at most one entry per result |
| Retrieval.MergeScores | back/src/utils/retrieval.py:119-148 | the merge dictionary's keys are exactly the keys of the text and image results; each entry's text score is w times the score of the last text result under its key and its image score 1 − w times that of the last image result, 0 for a side with none; its document is that of the first text result under the key, else of the first image result |
| Retrieval.CombineAll | back/src/utils/retrieval.py:150-158 | each entry gives one result whose score is text score plus image score and whose distance is 1 − score |
| Retrieval.FileResults | back/src/utils/retrieval.py:122-148 | the merge loop of one side computes `FileAll` |
| Retrieval.SideSearch | back/src/utils/retrieval.py:122-138 | no results for a falsy input, otherwise the sub-search on that side for `2*top_k` results |
| Retrieval.MergeResults | back/src/utils/retrieval.py:119-148 | the two merge loops file the text results with weight w, then the image results with 1 − w |
| Retrieval.HybridSearch | back/src/utils/retrieval.py:115-162 | each truthy input runs its sub-search with `2*top_k`; both are merged with weights w and 1 − w; the combined results are ranked and cut to `top_k` (the ranking of `Merged`, whose scores Retrieval.HybridShape states) |
| Retrieval.MergedWellFormed | back/src/utils/retrieval.py:119-148 | the merge dictionary has one entry per key, each under its own document's key |
| Retrieval.CombinedDistinct | back/src/utils/retrieval.py:150-158 | combined results name each document once |
| Retrieval.RankedShape | back/src/utils/retrieval.py:150-162 | ranking and cutting the combined entries keeps one result per document, descending, at most `top_k`, each from one entry |
| Retrieval.RankedMerge | back/src/utils/retrieval.py:150-162 | each ranked result of a merge scores w·(last text score for its key) + (1 − w)·(last image score for it), a missing side counting 0, has distance 1 − score and the first document filed under the key; with `top_k` at least the number of results, every key of either side is ranked |
| Retrieval.HybridShape | back/src/utils/retrieval.py:115-162 | a hybrid search names each document at most once, is descending and has at most `top_k` results; each result scores w times the last text score for its document plus 1 − w times the last image score, a side without one counting 0, with distance 1 − score and the first document found under its id; with `top_k` at least the size of both sub-searches, every document either side found is returned |
| ConversationManager.OidTextReadsBack | back/src/utils/conversation_manager.py:71-78 | the text of an ObjectId is a digit string that reads back as its number |
| ConversationManager.OidTextInjective | back/src/utils/conversation_manager.py:71-78 | two ObjectIds have the same text exactly when they are equal |
| ConversationManager.FindKey | back/src/utils/conversation_manager.py:46-51 | the first document matching (question, answer, timestamp), and none exactly when no document does |
| ConversationManager.FindKeyAt | back/src/utils/conversation_manager.py:46-51 | the first match at position i is found at i |
| ConversationManager.SaveTouchesOne | back/src/utils/conversation_manager.py:38-78 | a save grows the collection by at most one; the returned id is that of a document with the key and the new embedding; every other document is kept |
| ConversationManager.SaveAgainSameId | back/src/utils/conversation_manager.py:46-78 | saving the same triple again adds no document, allocates no id and returns the same id |
| ConversationManager.SaveKeepsInvariants | back/src/utils/conversation_manager.py:65-78 | saves keep ids unique and ObjectIds fresh, and keep one document per key |
| ConversationManager.ConversationManager.constructor | back/src/utils/conversation_manager.py:21-36 | the manager starts over a stored collection with unique ids |
| ConversationManager.ConversationManager.SaveConversation | back/src/utils/conversation_manager.py:38-78 | the collection, the id counter and the returned id are those of `Saved`, and ids stay unique and fresh |
| ConversationManager.ConversationManager.SearchConversations | back/src/utils/conversation_manager.py:80-176 | the loop computes `Searched` over the stored conversations |
| ConversationManager.HitsExactly | back/src/utils/conversation_manager.py:100-161 | a result appears exactly for a listable conversation (truthy id, user and conversation ids, non-empty embedding), with its similarity or 0 |
| ConversationManager.SearchShape | back/src/utils/conversation_manager.py:80-176 | error exactly for a falsy query; a blank query finds nothing; results are sorted, at most `top_k`, each from a listable conversation with its score; with no threshold, every listable conversation is returned when `top_k` covers the collection |
| ConversationManager.OwnSavesAreNeverListed | back/src/utils/conversation_manager.py:53-121 | a collection built by this manager's saves has no `user_id`, so its search lists nothing |
| ConversationManager.FirstMatch | back/src/utils/conversation_manager.py:178-180 | the first document the filter matches, and none exactly when none does |
| ConversationManager.RemoveFirst | back/src/utils/conversation_manager.py:178-180 | `deleted` exactly when some document matches; then one fewer document, otherwise the collection is unchanged |
| ConversationManager.SavedIdIsNotDeletable | back/src/utils/conversation_manager.py:178-180 | as written, when every stored `_id` is an ObjectId, deleting by the id a save just returned removes nothing and answers false |
| ConversationManager.RemoveOnlyMatch | back/src/utils/conversation_manager.py:178-180 | when the first match is the only one, `delete_one` leaves no matching document |
| ConversationManager.DeleteByUniqueId | back/src/utils/conversation_manager.py:178-180 | among unique ObjectIds, deleting by an id's text removes one document and leaves none with that id |
| ConversationManager.SavedIdIsDeletable | back/src/utils/conversation_manager.py:178-180 | deleting by id text, the id a save returned deletes exactly one conversation and, ids being unique, none with that id is left |
| ConversationManager.ConversationManager.DeleteConversation | back/src/utils/conversation_manager.py:178-180 | the collection and the result are those of deleting by id text; the id counter is unchanged; ids stay unique and below the counter |
| ConversationManager.DeleteKeepsIdsFresh | back/src/utils/conversation_manager.py:178-180 | removing the first matching document keeps the ids unique and below the counter |
| Api.GetUserId | back/src/api/main.py:99-103 | 401 exactly when the header is missing or empty; otherwise its value |
| Api.CheckSave | back/src/api/main.py:701-707 | failure exactly without a caller or with a blank question or answer: 401 for the caller, then 400 for the texts |
| Api.TrailingDigitsAfterUnderscore | back/src/api/main.py:753 | the digits after the last underscore are all the trailing digits |
| Api.SplitAtLastUnderscore | back/src/api/main.py:753 | a video id and a digit suffix joined by an underscore are recovered from the join |
| Api.SharedNamesMatchFrames | back/src/api/main.py:751-757 | with known videos and positive timestamps, two images share a file name exactly when they have the same video and the same millisecond |
| Api.ConversationIdShape | back/src/api/main.py:713 | a conversation id is `conv_` followed by at most eight characters |
| Api.SavedRecordShape | back/src/api/main.py:704-779 | a saved record has the caller, the stripped non-empty question and answer, its `conv_` id, and a shared image path exactly when an image was given and processed |
| Api.SaveRoomUpserts | back/src/api/main.py:914-975 | fails only without a caller, as 500; `updated` exactly when (user, room) existed; only that key's record changes, with the request's fields, `message_count = len(messages)`, and the same `_id` on an update |
| Api.SaveRoomTwiceUpdates | back/src/api/main.py:944-963 | a second save of the same room updates it and adds no key |
| Api.KeepUnless | back/src/api/main.py:1069-1096 | a conversation is kept exactly when the cascade query does not match it |
| Api.DeleteRoomCascade | back/src/api/main.py:1039-1114 | 401 without a caller and 404 for an absent room; otherwise only that key goes, and a conversation is removed exactly when the room cascades and it is the caller's at the room's time, or any of the caller's when the room has no time; other users' conversations stay |
| Api.UserHitsExactly | back/src/api/main.py:818-863 | a hit appears exactly for a caller's conversation with an embedding whose similarity (0 when not finite) is at least 0.4 and did not raise |
| Api.SearchRejects | back/src/api/main.py:801-808 | 401 without a caller, 400 for an empty query or `top_k` outside 1..100, success otherwise |
| Api.SearchReportsOwn | back/src/api/main.py:818-867 | every hit is one of the caller's conversations with an embedding and a similarity of at least 0.4 |
| Api.SearchReportsBest | back/src/api/main.py:847-867 | hits are descending, at most `top_k`, and a reportable conversation left out scores no higher than any hit |
| Api.SearchAnswers | back/src/api/main.py:795-880 | a successful search had a caller and `top_k` in 1..100, and answers the ranked cut of the caller's hits |
| Api.Backend.constructor | back/src/api/main.py:68-69 | both collections start empty, every `_id` below the counter |
| Api.Backend.SaveConversation | back/src/api/main.py:691-792 | a failed check changes nothing and returns its error; otherwise one record is appended (with the image step) under the counter's id, above every stored `_id`, and the reply carries its conversation id and document id; every `_id` stays below the counter |
| Api.Backend.SearchConversations | back/src/api/main.py:795-880 | the loop computes `SearchedConversations` |
| Api.Backend.SaveChatRoom | back/src/api/main.py:914-975 | the rooms, the id counter and the reply are those of `SavedRoom`; a failure changes nothing; every `_id` stays below the counter |
| Api.Backend.DeleteChatRoom | back/src/api/main.py:1039-1114 | the rooms, the conversations and the deleted count are those of `DeletedRoom`; a failure changes nothing; every `_id` stays below the counter |

## Left out

- Rendering, authentication and logging are not modelled. The HTTP client wrappers are modelled as the outgoing requests they send; their own checks are covered by the three entries below.
- `saveConversation` (front/src/api/conversation.jsx:4-23) throws before any request on an empty question, on an answer that is not a non-empty string (a null reply included) and on a null timestamp. The model keeps this: `MessageHandlers.ConversationSave` sends nothing then.
- `saveConversation` trims the question and the answer before sending them. The logged `SaveConversation` request carries the texts untrimmed; the backend strips them again on save (Api.SavedRecordShape).
- `saveConversation` takes four parameters, so the video id the send handler passes fifth (front/src/utils/messageHandlers.jsx:81-87) is dropped. The logged request has no video id, and the per-video shared frame name of `main.py` is never reached from this client.
- `saveApiKey` (front/src/api/users/openaiKeys.jsx:4) is modelled as the logged `SaveApiKey` request, its outcome an input. The module that imports it from `../api/auth` could also fail to load under strict ES-module linking; the model takes the import as an undefined binding (see "## Findings").
- `alert` dialogs (the failed key store, the history and upload errors) are user-interface output and are not modelled.
- Concurrency and async interleaving: each handler runs to completion in one step. The awaited persistence calls are log entries. Their outcome does not change the page; the one effect it has is the `onConversationSaved` callback, logged as `NotifyConversationSaved`.
- Real timers and `Date.now()`: clocks are parameters, and each pending `setTimeout` is a deadline that an explicit method fires.
- VideoHandlers.PlaybackSession.FirePauseTimeout: the `pauseTimeout = null` that runs after the awaited manual pause is taken as immediate. A pause accepted during that await is not modelled.
- Canvas pixels, `toDataURL` and `URL.createObjectURL` are inputs: `exportOk`, the frame string, the new URL.
- The seek-and-capture event loop of the thumbnail module is a browser event loop.
- ConversationHistory.HistoryPanel.Drop: requires the drop index and the dragged index to be positions of the current list. The component only renders such indices; stale indices after a concurrent reload are not modelled.
- `formatDate` is locale- and clock-dependent.
- Floating point: times, sizes and scores are mathematical reals, so rounding, NaN and infinity are absent. A NaN or infinite similarity is the `NotFinite` case of `Similarity`.
- Embeddings and the similarity computation are given per document as a function. The query embedding and its errors are not part of this model.
- ConversationManager.OidText: an ObjectId's 24-character text is rendered as the zero-padded decimal of a counter, not as hexadecimal. Only its injectivity and read-back are relied on.
- Api.Backend.SaveConversation: the image file write, the `UPLOAD_DIR` prefix and the base64 decoding are left out. The stored path is the file name. A decode or write failure is `md5Hex` being absent, and the md5 digest is an input.
- Api.Backend.SaveChatRoom: the `video_context` object of the saved chat-room record (back/src/api/main.py:926-935), which repeats the video id, time and frame, is not modelled.
- Api.Backend.DeleteChatRoom: the image files removed by the cascade and the `images_deleted` count are not modelled.
- Retrieval.Search: a stored document that fails `Document(**doc)` validation raises in the source; the model takes every stored document as well-formed.
- Ranking.SortDesc: stability (equal scores keep their input order) holds by construction, since only strictly higher scores move ahead, but it is not stated as a lemma.
- MessageHandlers.SendMessage: `callOpenAI` catches everything its exchange raises, so the handler's catch around it (front/src/utils/messageHandlers.jsx:97-105) is never reached; the `Threw` outcome and its error text are kept only because the handler has that branch. A throw from `saveChatRoom` is caught and changes nothing, so it is not an input; the outcome of `saveConversation` is an input only for the callback it gates.
- The other `main.py` endpoints (uploads, RAG, API-key storage, listings), the Pydantic schemas and the data-ingestion helper are plumbing over the database and the embedder.

## Findings

| source | as written | input that shows it | evidently intended | confidence | as-written member | corrected member |
|---|---|---|---|---|---|---|
| front/src/utils/messageHandlers.jsx:58 | `callOpenAI(currentMessage, videoFile, capturedFrame)` passes three arguments to the four parameters `(message, apiKey, videoFile, capturedFrame)` of front/src/utils/openai.jsx:1 | any keyed send from a room with a non-empty frame: the bearer token is the `File` object (or null), the prompt names `undefined` as the video, and the frame is never attached | the key, the video file and the room's frame in their own parameters, so the frame reaches the model as a high-detail image; the handler is not given the key, so it would have to be passed in first | high, not executed | OpenAi.AsCalledRequestDropsFrame (on OpenAi.RequestAsCalled) | OpenAi.IntendedRequestCarriesFrame (on OpenAi.RequestIntended) |
| front/src/utils/messageHandlers.jsx:5 | `saveApiKey` is imported from `../api/auth`, which exports only `login`; the function is defined in front/src/api/users/openaiKeys.jsx:4 | submit any non-blank key: the call at line 137 throws, the catch at lines 155-158 only alerts, no request is sent, the key never counts as set and no welcome message appears | import `saveApiKey` from `../api/users/openaiKeys`, so that the key is stored and the page marks it as set | high, not executed | MessageHandlers.KeySubmitAsWrittenNeverStoresKey (on MessageHandlers.ApiKeySubmitAsWritten) | MessageHandlers.ApiKeySubmit |
| back/src/utils/conversation_manager.py:179 | `delete_one({"_id": conversation_id})` compares the string with the stored `_id`, an ObjectId, while `save_conversation` returns `str(ObjectId)` (lines 71-78) | save any conversation into an empty collection, then delete it by the returned id: nothing is removed and the result is false | delete by the id the save returned (`ObjectId(conversation_id)`) | high, not executed | ConversationManager.SavedIdIsNotDeletable (on ConversationManager.DeletedAsWritten) | ConversationManager.SavedIdIsDeletable (on ConversationManager.DeletedById, which ConversationManager.ConversationManager.DeleteConversation uses) |

Other behaviours of the source, modelled as written:

- The multimodal manager's own saves insert documents without `user_id` and `conversation_id`. Its search builds `ConversationData`, which requires both, so it skips every such document (ConversationManager.OwnSavesAreNeverListed).
- `save_chat_room` catches its own 401 in the generic handler and answers 500. `created_at` is rewritten on every update.
- `main.py`'s conversation search skips a conversation whose similarity raises. The manager's search scores it 0 instead.
- The play/pause button runs the manual pause directly, and the element's own `pause` event then also schedules one. Both resolve against the list captured at render time, so one second can get two rooms (VideoHandlers.StaleResolutionDuplicatesBucket).
