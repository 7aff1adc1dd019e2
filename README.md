# AI tutor backend: a verified model

This project models the core of a FastAPI backend for a voice-and-chat AI tutor:

- `Sessions` (`sessions.py`): the in-memory session store, a map from session id to the ordered list of
  conversation turns.
- `Rag` (`rag.py`): the answer engine. It does three things:
  - chooses the language-model provider (Groq first, then OpenAI);
  - turns vector-store hits into one context block and assembles the chat messages, with a
    fixed tutor prompt, an optional context message, the last 8 turns and the query;
  - degrades model failures to fixed fallback texts, in its synchronous and streaming
    answers.
- `Utils` (`utils.py`) and `Emotion` (`emotion.py`): the two keyword mood taggers.
- `App` (`main.py`): the request handlers. `/healthz`, `/query` and `/chat`, plus one round
  of the `/ws/chat` streaming protocol (`start`, `token`…, `final`).
- `TtsWs` (`tts_ws.py`): one request of the `/ws/tts` protocol. It picks the synthesis
  engine, writes the clip to a temporary file, sends that file back in 4096-byte binary
  frames with an `end` event after them, and removes the file.
- `Text` and `Common`: shared vocabulary. `Text` holds the Python string operations the
  code relies on (`lower`, `strip`, `in`, `join`, `+=`). `Common` holds `Option`, `Result`
  and bytes, plus the model of a client that disconnects.

The external services are parameters, not code:

- `Search`: the vector store's `similarity_search` result, or its error.
- `Completion`: the text of a non-streaming model call, or `None` when the call raises.
- `StreamCompletion`: the deltas of a streaming call, and whether the stream raised after
  them.
- The two TTS engines: each writes a clip, or raises and may leave a partial file.
- `disconnectAt`: the number of messages of a round the client still receives. The send
  after those raises.

The session store, the backend and the temporary directory are classes, because the source
updates them in place. Their methods are proved against functions on values (`AppendTurn`,
`TtsRound`, …), and the properties are proved about those functions. The loops of the source
are methods with loop invariants:

- the message-assembly loop (`BuildMessages`);
- the token relay of `/ws/chat` (`RelayChunks`);
- the read-and-send frame loop of `/ws/tts` (`StreamFile`).

## Model

| member | source | states |
|---|---|---|
| Sessions.SessionStore.constructor | backend/app/sessions.py:5-6 | a new store holds no session |
| Sessions.SessionStore.GetHistory | backend/app/sessions.py:8-9 | returns the session's turns, and the empty list for an unknown id, without inserting it |
| Sessions.SessionStore.Append | backend/app/sessions.py:11-12 | the new store is the old one with the turn at the tail of that session (created if absent) |
| Sessions.SessionStore.Clear | backend/app/sessions.py:14-15 | the new store is the old one with that session present and empty |
| Sessions.Lookup | backend/app/sessions.py:9 | the stored history for an id the store holds, and the empty list for any other id |
| Sessions.AppendTurn | backend/app/sessions.py:11-12 | keys grow by the id; the id's history is the old one plus the turn; every other session is unchanged |
| Sessions.ClearSession | backend/app/sessions.py:14-15 | the id is present with an empty history; every other session is unchanged |
| Sessions.ReplayPerSession | backend/app/sessions.py:4-15 | after any sequence of appends and clears, a session's history depends only on its own history and the operations addressed to it |
| Sessions.SessionAfterAppends | backend/app/sessions.py:11-12 | appending turns one by one to a history gives that history followed by the turns |
| Sessions.AppendsReadBackInOrder | backend/app/sessions.py:8-12 | turns appended one after another are read back in insertion order, after the existing ones |
| Sessions.UntouchedSessionAbsent | backend/app/sessions.py:8-9 | a session no operation addressed stays absent and reads as empty |
| Sessions.ClearThenAppends | backend/app/sessions.py:11-15 | after a clear, the history is exactly the turns appended since |
| Rag.NewRagService | backend/app/rag.py:45-89 | fails with the fixed error exactly when neither Groq nor OpenAI has a key and an imported client; Groq exactly when usable; model names and max tokens from their settings or defaults; a vector store exactly when the libraries imported and it opened |
| Rag.PassageTexts | backend/app/rag.py:101 | keeps only non-empty page contents, each taken from some hit, no more than there are hits |
| Rag.PassageTextsSnoc | backend/app/rag.py:101 | the filter keeps rank order: a further hit adds its text, if any, at the end |
| Rag.RetrieveContext | backend/app/rag.py:96-104 | "" without a vector store or when the search raises, otherwise the non-empty passages joined by a blank line; "" exactly when one of these holds or no passage has text |
| Rag.Recent | backend/app/rag.py:118 | `history[-8:]`: the last min(n, 8) turns, as a suffix |
| Rag.Messages | backend/app/rag.py:109-123 | the list has 2 + (1 if context) + min(n, 8) messages, the tutor prompt first and the query last as a user message |
| Rag.MessagesContext | backend/app/rag.py:114-116 | the context message is second exactly when the context is non-empty, and the system messages are exactly the prompt and that one |
| Rag.MessagesWindow | backend/app/rag.py:118-120 | the messages after the system ones are the last min(n, 8) turns in order; role "assistant" is kept, any other or missing role becomes "user", and missing text becomes "" |
| Rag.RoleOf | backend/app/rag.py:119 | "assistant" exactly when the turn's role is "assistant"; "user" for any other or missing role |
| Rag.TurnMessage | backend/app/rag.py:119-120 | a history turn becomes an "assistant" message exactly when it is an assistant turn, never a system message, with the turn's text or "" when it has none |
| Rag.BuildMessages | backend/app/rag.py:109-123 | the append loop produces exactly the message list `Messages` describes |
| Rag.AnswerRequest | backend/app/rag.py:170-187 | the request carries the model name and the messages over the retrieved context; `max_tokens` is passed exactly for Groq |
| Rag.AnswerWithHistory | backend/app/rag.py:170-191 | the model's reply stripped, or the fixed fallback when the call raises |
| Rag.AnswerSingle | backend/app/rag.py:147-168 | its own fallback when the call raises; otherwise the same text as answering with an empty history |
| Rag.StreamRequest | backend/app/rag.py:201-213 | a streaming request for the configured model, with `max_tokens`, carrying the same messages as the non-streaming one |
| Rag.YieldedDeltas | backend/app/rag.py:217-223 | yields only non-empty deltas, each one a delta the stream carried |
| Rag.YieldedDeltasSnoc | backend/app/rag.py:217-223 | one more delta from the stream is yielded once, after all earlier ones, exactly when it is non-empty; so the deltas come out in stream order |
| Rag.YieldedDeltasConcat | backend/app/rag.py:217-223 | skipping empty and missing deltas loses no text |
| Rag.StreamAnswer | backend/app/rag.py:196-226 | non-Groq: the one non-streaming answer; Groq: the non-empty deltas, then one fallback chunk if the stream raised |
| Rag.GroqStreamChunks | backend/app/rag.py:215-226 | every Groq chunk is non-empty, and a failed stream ends with the fallback chunk |
| Rag.StreamConvergesToAnswer | backend/app/rag.py:196-226 | for a provider whose stream completes and spells out its non-streaming (already stripped) reply, the streamed chunks concatenate to `answer_with_history` |
| Text.Lower | backend/app/utils.py:14 | `lower()` keeps the length and maps each character on its own |
| Text.Strip | backend/app/main.py:156 | the result is the slice of the input between a whitespace-only prefix and a whitespace-only suffix, and neither of its ends is whitespace; it is "" exactly when the input is all whitespace |
| Text.ContainsIgnoringCase | backend/app/utils.py:14-17 | a keyword written in any case inside the text occurs in the lower-cased text |
| Text.Join | backend/app/rag.py:101 | joining a single part gives that part |
| Text.JoinSnoc | backend/app/rag.py:101 | joining one more part adds the separator and that part at the end |
| Text.JoinLength | backend/app/rag.py:101 | the joined length is the parts' total plus one separator between each pair |
| Text.JoinEmptyIff | backend/app/rag.py:101 | joined non-empty parts give "" exactly when there are none |
| Text.Concat | backend/app/main.py:171-173 | the accumulated response is as long as all chunks together |
| Text.ConcatSnoc | backend/app/main.py:173 | `full += chunk` appends exactly that chunk |
| Utils.AnyKeyword | backend/app/utils.py:16-18 | true exactly when one of the keywords occurs in the text |
| Utils.FirstMatch | backend/app/utils.py:15-18 | the index of an entry with a matching keyword such that no earlier entry matches; none exactly when no entry matches |
| Utils.TableEmotion | backend/app/utils.py:14-18 | the table scan yields a label exactly when some entry has a keyword in the lower-cased text, and the label is one of the table's |
| Utils.PickEmotion | backend/app/utils.py:13-20 | the first label in table order with a keyword in the lower-cased text, else one of "neutral" and "explaining"; always one of the four labels |
| Utils.TableEmotionIsFirstMatch | backend/app/utils.py:6-18 | when entry i is the first with a matching keyword, its label is the result, and i is not the keyword-less "neutral" entry |
| Utils.TableEmotionLabels | backend/app/utils.py:6-11 | the table scan never yields "neutral" |
| Utils.HappyKeywordWins | backend/app/utils.py:6-18 | a "happy" keyword in any case makes the tag "happy", whatever other keywords occur |
| Emotion.DetectEmotion | backend/app/emotion.py:2-10 | "empathetic" exactly when a sad word occurs; "cheerful" exactly when a happy word and no sad word occurs; else "neutral" |
| Emotion.SadWordWins | backend/app/emotion.py:6-7 | a sad word in any case gives "empathetic", even with happy words present |
| Emotion.HappyWordWithoutSadIsCheerful | backend/app/emotion.py:8-9 | a happy word in any case with no sad word gives "cheerful" |
| App.ChatSessionId | backend/app/main.py:151 | the query parameter when it is present and non-empty, else "default"; never "" |
| App.Send | backend/app/main.py:159-180 | a `send_json` reaches the client and is added to what it received exactly when the client is still there; otherwise nothing is added and the connection is found closed |
| App.RejectQuery | backend/app/main.py:158-164 | a failed check sends one error message, which a client still there receives; the loop goes on exactly then |
| App.OpenStream | backend/app/main.py:169-174 | `start` and then one token per chunk reach a client that stays, and the response is the chunks' concatenation; a client that leaves received a prefix of those messages |
| App.RelayChunks | backend/app/main.py:171-174 | a client that stays gets one token per chunk in order, and the response is their concatenation; a client that leaves got the tokens before that point |
| App.ChatAppendsTurnPair | backend/app/main.py:95-96 | after `/chat`, the session's history is the old one plus the user turn and then the assistant turn; other sessions are unchanged |
| App.RoundStoresOnlyDeliveredAnswers | backend/app/main.py:169-177 | a `/ws/chat` round changes the store exactly when every token reached the client, and then the session gains exactly the user turn and the assistant turn holding the whole answer |
| App.RoundEndsWithFinal | backend/app/main.py:169-180 | a client still there at the end of a round received `start`, then `Token(chunks[i])` for each chunk in stream order, then `final` carrying the whole answer |
| App.Backend.constructor | backend/app/main.py:45-46 | an empty session store and no answer engine |
| App.Backend.Startup | backend/app/main.py:52-60 | the answer engine is the configured service, or absent when configuration fails; startup itself never fails |
| App.Backend.HealthCheck | backend/app/main.py:66-71 | status "ok", with the answer engine reported available exactly when it exists |
| App.Backend.QueryEndpoint | backend/app/main.py:77-84 | a 500 error without an answer engine; otherwise the history-free answer with a mood tag picked for it; no session is touched |
| App.Backend.ChatEndpoint | backend/app/main.py:87-99 | a 500 error and no change without an answer engine; otherwise the answer from the history before the call, then the user and assistant turns appended in that order, with the reply text equal to the stored answer |
| App.Backend.WsChatStep | backend/app/main.py:153-180 | the engine check comes before the empty-query check; each failure sends one error, keeps the loop going only if it was delivered, and changes no session; otherwise the round relays the engine's stream for the stripped query and the session's history before the round, as `StreamReply` does |
| App.Backend.StreamReply | backend/app/main.py:169-180 | `start`, then one token per stream chunk; the turns are appended only once every token was sent, the assistant turn being the concatenation, which `final` carries with its mood tag; a client that leaves earlier leaves the store unchanged |
| TtsWs.CoquiModelName | backend/app/tts_ws.py:27 | the setting when it is set, else the default VCTK model |
| TtsWs.LoadBackends | backend/app/tts_ws.py:8-41 | Coqui is loaded only if it imported; a first load that succeeds loads it, otherwise the retry decides |
| TtsWs.SelectEngine | backend/app/tts_ws.py:65-78 | Coqui exactly when it is available and loaded; pyttsx3 exactly when Coqui is not and pyttsx3 is available; none otherwise |
| TtsWs.Chunks | backend/app/tts_ws.py:81-82 | no more frames than the file has bytes, and no frame at all exactly for an empty file |
| TtsWs.ChunksFrame | backend/app/tts_ws.py:81-83 | the frames concatenate to the file; every frame is non-empty and at most 4096 bytes, and all but the last are exactly 4096 |
| TtsWs.ChunkCount | backend/app/tts_ws.py:81-83 | a file of n bytes gives ceil(n / 4096) frames, none for an empty file |
| TtsWs.FramingUnique | backend/app/tts_ws.py:81-83 | any split with those sizes is the one the read loop produces |
| TtsWs.TenThousandByteClip | backend/app/tts_ws.py:81-83 | a 10000-byte clip gives frames of 4096, 4096 and 1808 bytes |
| TtsWs.StreamFile | backend/app/tts_ws.py:81-83 | the read-and-send loop delivers the frames of the file in order, or the prefix the client took before leaving |
| TtsWs.TempDir.constructor | backend/app/tts_ws.py:63 | the model's starting state: an empty directory, in which the freshly named output path of a request is not present |
| TtsWs.TempDir.Write | backend/app/tts_ws.py:67-75 | the output path holds the written clip, or whatever a failed engine left there |
| TtsWs.TempDir.Remove | backend/app/tts_ws.py:87 | the path is no longer in the directory |
| TtsWs.SendError | backend/app/tts_ws.py:58-60 | one `{"error": …}` message, received exactly when the client is still there |
| TtsWs.ErrorRound | backend/app/tts_ws.py:58-91 | an error reply touches no file; the client gets that one error or nothing; the connection goes on exactly when the handler continues and the message was delivered |
| TtsWs.AudioRound | backend/app/tts_ws.py:80-87 | the connection goes on exactly when the file was removed, and then `end` was the last message; otherwise no `end` was sent and the file still holds the clip; no other path appears or disappears |
| TtsWs.TtsRound | backend/app/tts_ws.py:53-91 | text that strips to nothing touches no file; an `end` event means the connection goes on and the output file is gone; no path but the output path appears or disappears |
| TtsWs.TtsStep | backend/app/tts_ws.py:53-91 | the messages sent, whether the loop goes on and the directory afterwards are those of `TtsRound` |
| TtsWs.EmptyTextKeepsConnection | backend/app/tts_ws.py:58-60 | text that is empty after stripping gets exactly one "Empty text" error, no file, and the connection stays open |
| TtsWs.BackendPrecedence | backend/app/tts_ws.py:65-78 | with Coqui usable, pyttsx3 has no influence; otherwise Coqui has none; with neither, exactly one "No TTS backend installed" error |
| TtsWs.WrittenRequestStreamsClip | backend/app/tts_ws.py:58-87 | a request with non-blank text whose chosen engine writes a clip is exactly the streaming of that clip that `AudioRound` describes |
| TtsWs.WrittenClipIsStreamed | backend/app/tts_ws.py:81-87 | a written clip reaches a staying client as its frames (sizes and count as above) followed by one `end`, and then the file is removed and no other file changes |
| TtsWs.DisconnectLeavesFile | backend/app/tts_ws.py:81-91 | a client that leaves during streaming gets a prefix of the frames, the connection ends, and the temporary file stays |
| TtsWs.CoquiFailureContinues | backend/app/tts_ws.py:66-70 | a failed Coqui synthesis gets one "TTS failed: …" error, the connection stays open, and any partial file stays |
| TtsWs.UnexpectedErrorCloses | backend/app/tts_ws.py:72-91 | an exception in the pyttsx3 path gets one error with its message and closes the connection |
| TtsWs.OnlyOutPathChanges | backend/app/tts_ws.py:63-87 | a request changes no file but its own output path |

## Behaviour that may be unexpected

- One might expect the temporary audio file to be removed on every exit path. The code
  removes it only after the `end` event was sent. A client that leaves mid-stream, a failed
  Coqui synthesis that left a partial file, and an exception in the pyttsx3 path all leave
  the file behind (`TtsWs.DisconnectLeavesFile`, `TtsWs.CoquiFailureContinues`).
- One might expect the streaming and non-streaming answers to agree. The code strips the
  non-streaming reply but forwards stream deltas as they are. The two agree only when the
  model's reply has no surrounding whitespace, which is the hypothesis of
  `Rag.StreamConvergesToAnswer`.

## Left out

- Network, process and file I/O are inputs, not code: the vector store, the Groq and OpenAI
  clients, the TTS engines, the WebSocket transport and the random choice in
  `pick_emotion`. `PickEmotion` leaves that choice open between its two fallback labels.
- Concurrency and the event loop are not modelled. Each handler call is one atomic step on
  the shared state; `run_in_executor` and the async generator's laziness are not modelled.
  The stream's history is read before the round's appends, as in the code.
- Sampling temperature: a fixed float passed to every call, with no effect on any property
  modelled here.
- `_extract_content` (`rag.py:128-142`), which digs the text out of a client response
  object by reflection. Its result is the `Completion` input.
- The outer `while True` receive loops of both WebSockets: one request is modelled. JSON
  parsing and payloads whose fields are not strings, which raise in the source, are not
  modelled either.
- App.Backend.WsChatStep: the generic `except Exception` branch of `/ws/chat` is not
  modelled. It could only be reached through the parts above.
- Text.Lower: only ASCII letters are lower-cased, where Python lower-cases all of Unicode.
- Text.Strip: only ASCII whitespace and the information separators are stripped, where
  Python strips all Unicode whitespace.
- Rag.NewRagService: the environment variables are taken as already parsed. The `int()`
  and `float()` conversions of `RAG_MAX_TOKENS` and `RAG_TEMPERATURE` raise at import on
  malformed values, and that is not modelled.
- Sessions.SessionStore.GetHistory: `get_history` returns the stored list itself, so a
  caller could change the session through it. The model returns the history as a value.
  The handlers modelled here never write through that list, and each has finished reading
  it before its own appends to the session.
- TtsWs.TtsStep: a pyttsx3 engine that returns without writing the file is folded into
  `Raised`, because reading the missing file raises in the outer handler. Partial writes by
  a failing engine are only as precise as the `leftover` input.
- The `/stt` and `/tts` REST endpoints, `stt.py`, `tts.py`, `llm.py`, `ingest.py`,
  `models.py`, the routing and CORS set-up, and the frontend are not part of this model.
