/** The request handlers of the backend: the health check, the one-shot `/query`, the
    session-aware `/chat`, and one round of the `/ws/chat` WebSocket loop.  They share one
    session store and the answer engine, which is absent when no provider could be
    configured at startup.

    A client that goes away in the middle of a WebSocket round is modelled by
    `disconnectAt`: the number of messages of this round the client still receives; the
    send after those raises `WebSocketDisconnect`, which ends the handler silently. */
module App {
  import opened Common
  import opened Text
  import opened Sessions
  import opened Rag
  import opened Utils

  /** The JSON body of a REST reply: `{text, emotion}`, or `{error}` with an HTTP status. */
  datatype Reply = Answer(text: string, emotion: string) | ErrorReply(error: string, status: int)

  /** The `/healthz` body. */
  datatype Health = Health(status: string, ragAvailable: bool)

  /** A JSON message of the `/ws/chat` protocol, by its `type`. */
  datatype WsMessage = Start | Token(text: string) | Final(text: string, emotion: string) | WsError(message: string)

  const RagNotConfigured := "RAG not configured. Set GROQ_API_KEY."
  const WsRagNotConfigured := "RAG not configured."
  const WsEmptyQuery := "Empty query"
  const DefaultSessionId := "default"

  /** `query_params.get("session_id") or "default"`: a missing or empty parameter selects
      the "default" session; any other value is used as it is. */
  function ChatSessionId(param: Option<string>): (id: string)
    ensures Truthy(param) ==> id == param.value
    ensures !Truthy(param) ==> id == DefaultSessionId
    ensures id != ""
  {
    if Truthy(param) then param.value else DefaultSessionId
  }

  /** `send_json(m)` after `sent`: the message goes out, or the connection is found closed. */
  function Send(sent: seq<WsMessage>, m: WsMessage, disconnectAt: Option<nat>): (r: (seq<WsMessage>, bool))
    ensures r.1 <==> Delivers(|sent| + 1, disconnectAt)
    ensures r.1 ==> r.0 == sent + [m]
    ensures !r.1 ==> r.0 == sent
  {
    if Delivers(|sent| + 1, disconnectAt) then (sent + [m], true) else (sent, false)
  }

  function TokenMessages(chunks: seq<string>): seq<WsMessage> {
    seq(|chunks|, i requires 0 <= i < |chunks| => Token(chunks[i]))
  }

  /** The `async for` loop of `/ws/chat`: each chunk is added to the full response and sent
      as one `token` message, in stream order.  When the client stays, every chunk is sent
      and the full response is their concatenation; when it leaves, the tokens up to that
      point have been sent. */
  method RelayChunks(chunks: seq<string>, sentBefore: nat, disconnectAt: Option<nat>)
    returns (tokens: seq<WsMessage>, full: string, connected: bool)
    requires Delivers(sentBefore, disconnectAt)
    ensures connected <==> Delivers(sentBefore + |chunks|, disconnectAt)
    ensures connected ==> tokens == TokenMessages(chunks) && full == Concat(chunks)
    ensures !connected ==> sentBefore + |tokens| == disconnectAt.value
                           && tokens == TokenMessages(chunks)[..|tokens|]
  {
    tokens, full, connected := [], "", true;
    var i := 0;
    while i < |chunks|
      invariant 0 <= i <= |chunks|
      invariant Delivers(sentBefore + i, disconnectAt)
      invariant tokens == TokenMessages(chunks)[..i]
      invariant full == Concat(chunks[..i])
    {
      ConcatSnoc(chunks[..i], chunks[i]);
      assert chunks[..i + 1] == chunks[..i] + [chunks[i]];
      full := full + chunks[i];
      if !Delivers(sentBefore + i + 1, disconnectAt) {
        connected := false;
        return;
      }
      tokens := tokens + [Token(chunks[i])];
      i := i + 1;
    }
    assert chunks[..i] == chunks;
  }

  /** The streaming part of a `/ws/chat` round: `start`, then one `token` per chunk.  The
      client that stays received exactly those messages, and `full` is the whole answer;
      one that left received a prefix of them. */
  method OpenStream(chunks: seq<string>, disconnectAt: Option<nat>)
    returns (sent: seq<WsMessage>, full: string, connected: bool)
    ensures connected <==> Delivers(1 + |chunks|, disconnectAt)
    ensures connected ==> sent == [Start] + TokenMessages(chunks) && full == Concat(chunks)
    ensures !connected ==> sent == Delivered([Start] + TokenMessages(chunks), disconnectAt)
  {
    ghost var streamed := [Start] + TokenMessages(chunks);
    var r := Send([], Start, disconnectAt);
    sent, connected := r.0, r.1;
    full := "";
    if !connected {
      return;
    }
    var tokens;
    tokens, full, connected := RelayChunks(chunks, |sent|, disconnectAt);
    sent := sent + tokens;
    if !connected {
      assert sent == streamed[..disconnectAt.value];
      return;
    }
    assert sent == streamed;
  }

  /** After `/chat`, the session's history is its old history followed by the user turn and
      then the assistant turn; every other session is as it was. */
  lemma ChatAppendsTurnPair(store: Store, id: string, query: string, answer: string)
    ensures var s := AppendTurn(AppendTurn(store, id, UserTurn(query)), id, AssistantTurn(answer));
            && Lookup(s, id) == Lookup(store, id) + [UserTurn(query), AssistantTurn(answer)]
            && forall other :: other != id ==> Lookup(s, other) == Lookup(store, other)
  {
    assert Lookup(store, id) + [UserTurn(query)] + [AssistantTurn(answer)]
        == Lookup(store, id) + [UserTurn(query), AssistantTurn(answer)];
  }

  /** What a `/ws/chat` round that passed its checks did with the answer stream `chunks`,
      from the store `before` to the store `after`: the client received `start` and one
      `token` per chunk, in order; when it received all of them, the user turn and the
      assistant turn -- exactly the concatenated chunks -- were appended, and `final` carries
      that text and its mood tag; when it left earlier, it received a prefix of those
      messages and the store is as it was. */
  ghost predicate RelayedRound(chunks: seq<string>, sessionId: string, userText: string, before: Store, after: Store,
                               disconnectAt: Option<nat>, sent: seq<WsMessage>, connected: bool)
  {
    var streamed := [Start] + TokenMessages(chunks);
    if Delivers(|streamed|, disconnectAt) then
      && after == AppendTurn(AppendTurn(before, sessionId, UserTurn(userText)), sessionId, AssistantTurn(Concat(chunks)))
      && (connected <==> Delivers(|streamed| + 1, disconnectAt))
      && |sent| == (if connected then |streamed| + 1 else |streamed|)
      && sent[..|streamed|] == streamed
      && (connected ==> sent[|streamed|].Final? && sent[|streamed|].text == Concat(chunks)
                        && IsPickedEmotion(Concat(chunks), sent[|streamed|].emotion))
    else
      && after == before
      && sent == Delivered(streamed, disconnectAt)
      && !connected
  }

  /** A streamed round changes the store exactly when the client received every token, and
      then the session gains exactly the user turn and the assistant turn holding the whole
      answer. */
  lemma RoundStoresOnlyDeliveredAnswers(chunks: seq<string>, sessionId: string, userText: string,
                                        before: Store, after: Store, disconnectAt: Option<nat>,
                                        sent: seq<WsMessage>, connected: bool)
    requires RelayedRound(chunks, sessionId, userText, before, after, disconnectAt, sent, connected)
    ensures after != before <==> Delivers(1 + |chunks|, disconnectAt)
    ensures after != before ==>
              Lookup(after, sessionId) == Lookup(before, sessionId) + [UserTurn(userText), AssistantTurn(Concat(chunks))]
  {
    assert |[Start] + TokenMessages(chunks)| == 1 + |chunks|;
    if Delivers(1 + |chunks|, disconnectAt) {
      ChatAppendsTurnPair(before, sessionId, userText, Concat(chunks));
      assert |Lookup(after, sessionId)| == |Lookup(before, sessionId)| + 2;
    }
  }

  /** A client still there at the end of a streamed round received `start`, one token per
      chunk and `final`, whose text is the whole answer that was stored. */
  lemma RoundEndsWithFinal(chunks: seq<string>, sessionId: string, userText: string,
                           before: Store, after: Store, disconnectAt: Option<nat>,
                           sent: seq<WsMessage>, connected: bool)
    requires RelayedRound(chunks, sessionId, userText, before, after, disconnectAt, sent, connected)
    requires connected
    ensures |sent| == |chunks| + 2 && sent[0] == Start
    ensures sent[1..|sent| - 1] == TokenMessages(chunks)
    ensures sent[|sent| - 1].Final? && sent[|sent| - 1].text == Concat(chunks)
  {
    var streamed := [Start] + TokenMessages(chunks);
    assert Delivers(|streamed|, disconnectAt);
    assert sent[0] == sent[..|streamed|][0] == Start;
  }

  /** A `/ws/chat` round whose answer stream is the one the engine produces for the user's
      text and the session's history before the round. */
  ghost predicate StreamedRound(svc: RagService, sessionId: string, userText: string, before: Store, after: Store,
                                search: Search, complete: Completion, streamComplete: StreamCompletion,
                                disconnectAt: Option<nat>, sent: seq<WsMessage>, connected: bool)
  {
    RelayedRound(StreamAnswer(svc, userText, Lookup(before, sessionId), search, complete, streamComplete),
                 sessionId, userText, before, after, disconnectAt, sent, connected)
  }

  /** The `error` message a round that fails its checks sends; the loop goes on when the
      client took it. */
  method RejectQuery(message: string, disconnectAt: Option<nat>) returns (sent: seq<WsMessage>, connected: bool)
    ensures sent == Delivered([WsError(message)], disconnectAt)
    ensures connected <==> Delivers(1, disconnectAt)
  {
    var r := Send([], WsError(message), disconnectAt);
    sent, connected := r.0, r.1;
  }

  /** The application: the shared session store and the optional answer engine. */
  class Backend {
    const sessions: SessionStore
    var rag: Option<RagService>

    constructor ()
      ensures fresh(sessions) && sessions.store == map[] && rag == None
    {
      sessions := new SessionStore();
      rag := None;
    }

    /** `startup_event`: a configuration error leaves the service without an answer engine
        instead of stopping it. */
    method Startup(env: Environment, vectorDbOpens: bool)
      modifies this
      ensures rag == NewRagService(env, vectorDbOpens).ToOption()
    {
      var created := NewRagService(env, vectorDbOpens);
      rag := if created.Success? then Some(created.value) else None;
    }

    /** `/healthz`: always "ok"; the answer engine is reported available exactly when it
        was configured. */
    function HealthCheck(): (h: Health)
      reads this
      ensures h.status == "ok"
      ensures h.ragAvailable <==> rag.Some?
    {
      Health("ok", rag.Some?)
    }

    /** `/query`: without an answer engine, a 500 error; otherwise the history-free answer
        and its mood tag.  It has no access to the session store. */
    method QueryEndpoint(query: string, search: Search, complete: Completion) returns (reply: Reply)
      ensures rag.None? ==> reply == ErrorReply(RagNotConfigured, 500)
      ensures rag.Some? ==> reply.Answer? && reply.text == AnswerSingle(rag.value, query, search, complete)
      ensures rag.Some? ==> IsPickedEmotion(reply.text, reply.emotion)
    {
      if rag.None? {
        return ErrorReply(RagNotConfigured, 500);
      }
      var text := AnswerSingle(rag.value, query, search, complete);
      var emotion := PickEmotion(text);
      reply := Answer(text, emotion);
    }

    /** `/chat`: without an answer engine, a 500 error and no change to any session.
        Otherwise the answer is computed from the history as it was before the call, then
        the user turn and the assistant turn are appended, in that order, and the returned
        text is the appended answer. */
    method ChatEndpoint(sessionId: string, query: string, search: Search, complete: Completion)
      returns (reply: Reply)
      modifies sessions
      ensures rag.None? ==> reply == ErrorReply(RagNotConfigured, 500)
                            && sessions.store == old(sessions.store)
      ensures rag.Some? ==>
                var answer := AnswerWithHistory(rag.value, query, Lookup(old(sessions.store), sessionId),
                                                search, complete);
                && reply.Answer? && reply.text == answer
                && IsPickedEmotion(answer, reply.emotion)
                && sessions.store == AppendTurn(AppendTurn(old(sessions.store), sessionId, UserTurn(query)),
                                                sessionId, AssistantTurn(answer))
    {
      if rag.None? {
        return ErrorReply(RagNotConfigured, 500);
      }
      var history := sessions.GetHistory(sessionId);
      var answer := AnswerWithHistory(rag.value, query, history, search, complete);
      sessions.Append(sessionId, UserTurn(query));
      sessions.Append(sessionId, AssistantTurn(answer));
      assert rag.Some?;
      var emotion := PickEmotion(answer);
      reply := Answer(answer, emotion);
    }

    /** One round of `/ws/chat` for the payload's `query`, stripped.  Without an answer
        engine (checked first) or with an empty query, one error message and no change to
        any session; the loop goes on.  Otherwise the round is `StreamReply`'s. */
    method WsChatStep(sessionId: string, query: Option<string>, search: Search, complete: Completion,
                      streamComplete: StreamCompletion, disconnectAt: Option<nat>)
      returns (sent: seq<WsMessage>, connected: bool)
      modifies sessions
      ensures var userText := Strip(query.GetOr(""));
              if rag.None? || userText == "" then
                && sessions.store == old(sessions.store)
                && sent == Delivered([WsError(if rag.None? then WsRagNotConfigured else WsEmptyQuery)], disconnectAt)
                && (connected <==> Delivers(1, disconnectAt))
              else
                StreamedRound(rag.value, sessionId, userText, old(sessions.store), sessions.store,
                              search, complete, streamComplete, disconnectAt, sent, connected)
    {
      ghost var before := sessions.store;
      var userText := Strip(query.GetOr(""));
      if rag.None? || userText == "" {
        sent, connected := RejectQuery(if rag.None? then WsRagNotConfigured else WsEmptyQuery, disconnectAt);
        return;
      }
      var svc := rag.value;
      var history := sessions.GetHistory(sessionId);
      var chunks := StreamAnswer(svc, userText, history, search, complete, streamComplete);
      sent, connected := StreamReply(sessionId, userText, chunks, disconnectAt);
      assert RelayedRound(chunks, sessionId, userText, before, sessions.store, disconnectAt, sent, connected);
      assert chunks == StreamAnswer(svc, userText, Lookup(before, sessionId), search, complete, streamComplete);
      assert StreamedRound(svc, sessionId, userText, before, sessions.store,
                           search, complete, streamComplete, disconnectAt, sent, connected);
      assert rag == Some(svc);
    }

    /** The answering part of a `/ws/chat` round, given the answer stream: `start`, one
        `token` per chunk, then the two turns are appended and `final` carries the
        concatenated chunks and their mood tag. */
    method StreamReply(sessionId: string, userText: string, chunks: seq<string>, disconnectAt: Option<nat>)
      returns (sent: seq<WsMessage>, connected: bool)
      modifies sessions
      ensures rag == old(rag)
      ensures RelayedRound(chunks, sessionId, userText, old(sessions.store), sessions.store,
                           disconnectAt, sent, connected)
    {
      var full;
      sent, full, connected := OpenStream(chunks, disconnectAt);
      if !connected {
        return;
      }
      sessions.Append(sessionId, UserTurn(userText));
      sessions.Append(sessionId, AssistantTurn(full));
      var emotion := PickEmotion(full);
      var r := Send(sent, Final(full, emotion), disconnectAt);
      sent, connected := r.0, r.1;
    }
  }
}
