/** The answer engine: which language-model provider is used, how retrieved passages become
    one context block, how the chat messages sent to the model are assembled, and how
    failures of the model call degrade to fixed fallback texts.

    The vector store, the Groq and OpenAI clients and their responses are not modelled;
    they enter as inputs: `Search` is what `similarity_search(query, k)` returns or raises,
    `Completion` is the text a non-streaming call returns (or `None` when it raises), and
    `StreamCompletion` is the sequence of per-chunk deltas of a streaming call together with
    whether the stream failed after them. */
module Rag {
  import opened Common
  import opened Text
  import opened Sessions

  // ---------------------------------------------------------------------------
  // Provider selection (RagService.__init__)
  // ---------------------------------------------------------------------------

  datatype Provider = Groq | OpenAI

  /** What `__init__` reads from the process: environment variables (already parsed where
      the module parses them) and which client libraries imported. */
  datatype Environment = Environment(
    groqApiKey: Option<string>,
    openaiApiKey: Option<string>,
    groqModel: Option<string>,
    openaiModel: Option<string>,
    maxTokens: Option<int>,
    groqInstalled: bool,
    openaiInstalled: bool,
    vectorStoreInstalled: bool)

  const DefaultGroqModel := "llama-3.1-8b-instant"
  const DefaultOpenAIModel := "gpt-4o-mini"
  const DefaultMaxTokens := 512
  const NoProviderError := "\U{274C} No valid LLM provider found. Set GROQ_API_KEY or OPENAI_API_KEY."

  /** A Python value that is neither `None` nor the empty string. */
  predicate Truthy(v: Option<string>) {
    v.Some? && v.value != ""
  }

  /** The configured service.  Its fields are set once, by construction, and never change. */
  datatype RagService = RagService(
    provider: Provider,
    modelName: string,
    maxTokens: int,
    hasVectorDb: bool)

  predicate GroqUsable(env: Environment) {
    Truthy(env.groqApiKey) && env.groqInstalled
  }

  predicate OpenAIUsable(env: Environment) {
    Truthy(env.openaiApiKey) && env.openaiInstalled
  }

  /** `RagService()`: Groq when its key is set and its library imported, otherwise OpenAI on
      the same terms, otherwise a configuration error.  `vectorDbOpens` says whether opening
      the Chroma collection succeeds; the service has a vector store only when the libraries
      imported and it opened. */
  function NewRagService(env: Environment, vectorDbOpens: bool): (r: Result<RagService>)
    ensures r.Failure? <==> !GroqUsable(env) && !OpenAIUsable(env)
    ensures r.Failure? ==> r.error == NoProviderError
    ensures r.Success? ==> (r.value.provider == Groq <==> GroqUsable(env))
    ensures r.Success? && r.value.provider == Groq ==> r.value.modelName == env.groqModel.GetOr(DefaultGroqModel)
    ensures r.Success? && r.value.provider == OpenAI ==> r.value.modelName == env.openaiModel.GetOr(DefaultOpenAIModel)
    ensures r.Success? ==> r.value.maxTokens == env.maxTokens.GetOr(DefaultMaxTokens)
    ensures r.Success? ==> (r.value.hasVectorDb <==> env.vectorStoreInstalled && vectorDbOpens)
  {
    var hasDb := env.vectorStoreInstalled && vectorDbOpens;
    var maxTokens := env.maxTokens.GetOr(DefaultMaxTokens);
    if GroqUsable(env) then
      Success(RagService(Groq, env.groqModel.GetOr(DefaultGroqModel), maxTokens, hasDb))
    else if OpenAIUsable(env) then
      Success(RagService(OpenAI, env.openaiModel.GetOr(DefaultOpenAIModel), maxTokens, hasDb))
    else
      Failure(NoProviderError)
  }

  // ---------------------------------------------------------------------------
  // Context retrieval (_retrieve_context)
  // ---------------------------------------------------------------------------

  /** A search hit; `page_content` may be missing. */
  datatype Passage = Passage(pageContent: Option<string>)

  /** `similarity_search(query, k)`: the ranked hits, or the error it raised. */
  type Search = (string, nat) -> Result<seq<Passage>>

  const ContextTopK := 4
  const ContextSeparator := "\n\n"

  /** The non-empty page contents of `docs`, in rank order. */
  function PassageTexts(docs: seq<Passage>): (texts: seq<string>)
    ensures |texts| <= |docs|
    ensures forall i :: 0 <= i < |texts| ==> texts[i] != ""
    ensures forall t :: t in texts ==> Passage(Some(t)) in docs
  {
    if docs == [] then []
    else
      (if Truthy(docs[0].pageContent) then [docs[0].pageContent.value] else [])
      + PassageTexts(docs[1..])
  }

  /** Filtering keeps rank order: a further hit contributes its text, if any, at the end. */
  lemma {:induction false} PassageTextsSnoc(docs: seq<Passage>, d: Passage)
    ensures PassageTexts(docs + [d])
         == PassageTexts(docs) + (if Truthy(d.pageContent) then [d.pageContent.value] else [])
  {
    if docs != [] {
      assert (docs + [d])[1..] == docs[1..] + [d];
      PassageTextsSnoc(docs[1..], d);
    }
  }

  /** `_retrieve_context(query)`: empty without a vector store or when the search raises;
      otherwise the non-empty passages joined by a blank line, in rank order.  The context is
      empty exactly when there is no passage text to give. */
  function RetrieveContext(svc: RagService, query: string, search: Search): (context: string)
    ensures !svc.hasVectorDb || search(query, ContextTopK).Failure? ==> context == ""
    ensures svc.hasVectorDb && search(query, ContextTopK).Success? ==>
              context == Join(PassageTexts(search(query, ContextTopK).value), ContextSeparator)
    ensures context == "" <==>
              !svc.hasVectorDb || search(query, ContextTopK).Failure?
              || PassageTexts(search(query, ContextTopK).value) == []
  {
    if !svc.hasVectorDb then ""
    else
      match search(query, ContextTopK)
      case Failure(_) => ""
      case Success(docs) =>
        var texts := PassageTexts(docs);
        JoinEmptyIff(texts, ContextSeparator);
        Join(texts, ContextSeparator)
  }

  // ---------------------------------------------------------------------------
  // Message assembly (_build_messages)
  // ---------------------------------------------------------------------------

  datatype Message = Message(role: string, content: string)

  const SystemPrompt := "You are an expert, patient AI tutor. Explain concepts clearly, step-by-step, and use context when available."
  const ContextLabel := "Context:\n"
  /** How many of the most recent turns are sent to the model. */
  const HistoryWindow := 8

  function Min(a: int, b: int): int {
    if a <= b then a else b
  }

  /** Any role other than "assistant", including a missing one, is sent as "user". */
  function RoleOf(t: Turn): (role: string)
    ensures role == "assistant" <==> t.role == Some("assistant")
    ensures role == "assistant" || role == "user"
  {
    if t.role == Some("assistant") then "assistant" else "user"
  }

  /** A turn as a chat message; a missing text is sent as "". */
  function TurnMessage(t: Turn): (m: Message)
    ensures m.role == "assistant" <==> t.role == Some("assistant")
    ensures m.role != "system"
    ensures t.text.Some? ==> m.content == t.text.value
    ensures t.text.None? ==> m.content == ""
  {
    Message(RoleOf(t), t.text.GetOr(""))
  }

  function ContextMessages(context: Option<string>): seq<Message> {
    if Truthy(context) then [Message("system", ContextLabel + context.value)] else []
  }

  /** `history[-8:]`: the last `HistoryWindow` turns, or all of them when there are fewer. */
  function Recent(history: seq<Turn>): (recent: seq<Turn>)
    ensures |recent| == Min(|history|, HistoryWindow)
    ensures recent == history[|history| - |recent|..]
  {
    if |history| <= HistoryWindow then history else history[|history| - HistoryWindow..]
  }

  function TurnMessages(turns: seq<Turn>): seq<Message> {
    seq(|turns|, i requires 0 <= i < |turns| => TurnMessage(turns[i]))
  }

  /** The message list sent to the model: the fixed tutor prompt first, the query last as a
      user message, and between them one optional context message and at most
      `HistoryWindow` history turns.  The lemmas below say which. */
  function Messages(query: string, history: seq<Turn>, context: Option<string>): (msgs: seq<Message>)
    ensures |msgs| == 2 + |ContextMessages(context)| + Min(|history|, HistoryWindow)
    ensures |ContextMessages(context)| == if Truthy(context) then 1 else 0
    ensures msgs[0] == Message("system", SystemPrompt)
    ensures msgs[|msgs| - 1] == Message("user", query)
  {
    [Message("system", SystemPrompt)] + ContextMessages(context)
    + TurnMessages(Recent(history)) + [Message("user", query)]
  }

  /** A context system message appears, as the second message, exactly when the context is
      non-empty: the system messages are the prompt and that one, and no other. */
  lemma MessagesContext(query: string, history: seq<Turn>, context: Option<string>)
    ensures var msgs := Messages(query, history, context);
            Truthy(context) ==> msgs[1] == Message("system", ContextLabel + context.value)
    ensures var msgs := Messages(query, history, context);
            var c := |ContextMessages(context)|;
            forall i :: 0 <= i < |msgs| ==> (msgs[i].role == "system" <==> i <= c)
  {
    var msgs := Messages(query, history, context);
    var c := |ContextMessages(context)|;
    var turns := TurnMessages(Recent(history));
    forall i | 1 + c <= i < |msgs| - 1 ensures msgs[i].role != "system" {
      assert msgs[i] == turns[i - 1 - c];
    }
  }

  /** Exactly the last `min(|history|, 8)` turns are sent, in their original order, right
      after the system messages; older turns are dropped.  Each keeps the role "assistant"
      or becomes "user", and a missing text becomes "". */
  lemma MessagesWindow(query: string, history: seq<Turn>, context: Option<string>)
    ensures var msgs := Messages(query, history, context);
            var c := |ContextMessages(context)|;
            var w := Min(|history|, HistoryWindow);
            forall j :: 1 + c <= j < 1 + c + w ==>
              msgs[j] == TurnMessage(history[|history| - w + (j - 1 - c)])
  {
    var msgs := Messages(query, history, context);
    var c := |ContextMessages(context)|;
    var recent := Recent(history);
    forall j | 1 + c <= j < 1 + c + |recent|
      ensures msgs[j] == TurnMessage(history[|history| - |recent| + (j - 1 - c)])
    {
      assert msgs[j] == TurnMessages(recent)[j - 1 - c];
    }
  }

  /** `_build_messages` as the source writes it: start from the prompt, add the context
      message, append one message per recent turn in a loop, then the query. */
  method BuildMessages(query: string, history: seq<Turn>, context: Option<string>)
    returns (messages: seq<Message>)
    ensures messages == Messages(query, history, context)
  {
    messages := [Message("system", SystemPrompt)];
    if Truthy(context) {
      messages := messages + [Message("system", ContextLabel + context.value)];
    }
    var recent := Recent(history);
    var i := 0;
    while i < |recent|
      invariant 0 <= i <= |recent|
      invariant messages == [Message("system", SystemPrompt)] + ContextMessages(context)
                            + TurnMessages(recent[..i])
    {
      assert TurnMessages(recent[..i + 1]) == TurnMessages(recent[..i]) + [TurnMessage(recent[i])];
      messages := messages + [TurnMessage(recent[i])];
      i := i + 1;
    }
    assert recent[..i] == recent;
    messages := messages + [Message("user", query)];
  }

  // ---------------------------------------------------------------------------
  // Answers (answer_single, answer_with_history, stream_answer_with_history)
  // ---------------------------------------------------------------------------

  /** The arguments of `chat.completions.create`, apart from the temperature. */
  datatype Request = Request(model: string, messages: seq<Message>, maxTokens: Option<int>, stream: bool)

  /** What a non-streaming call returns, already reduced to its text; `None` when it raises. */
  type Completion = Request -> Option<string>

  /** A streaming call: the delta of each chunk (`None` when the chunk has no content or
      reading it raises) and whether the stream raised after them. */
  datatype StreamReply = StreamReply(deltas: seq<Option<string>>, failed: bool)

  type StreamCompletion = Request -> StreamReply

  const FallbackSingle := "Sorry, I couldn't process your request right now."
  const FallbackWithHistory := "I'm having trouble retrieving the information right now."
  const FallbackStream := "Sorry, I encountered a problem while streaming the response."

  /** The non-streaming request for `query` with `history`: the assembled messages over the
      retrieved context; `max_tokens` is passed only to Groq. */
  function AnswerRequest(svc: RagService, query: string, history: seq<Turn>, search: Search): (req: Request)
    ensures req.model == svc.modelName && !req.stream
    ensures req.messages == Messages(query, history, Some(RetrieveContext(svc, query, search)))
    ensures req.maxTokens.Some? <==> svc.provider == Groq
    ensures req.maxTokens.Some? ==> req.maxTokens.value == svc.maxTokens
  {
    var messages := Messages(query, history, Some(RetrieveContext(svc, query, search)));
    if svc.provider == Groq then Request(svc.modelName, messages, Some(svc.maxTokens), false)
    else Request(svc.modelName, messages, None, false)
  }

  /** `answer_with_history`: the model's text with surrounding whitespace stripped, or the
      fixed fallback when the call raises; it never fails. */
  function AnswerWithHistory(svc: RagService, query: string, history: seq<Turn>,
                             search: Search, complete: Completion): (text: string)
    ensures complete(AnswerRequest(svc, query, history, search)).None? ==> text == FallbackWithHistory
    ensures complete(AnswerRequest(svc, query, history, search)).Some? ==>
              text == Strip(complete(AnswerRequest(svc, query, history, search)).value)
  {
    match complete(AnswerRequest(svc, query, history, search))
    case None => FallbackWithHistory
    case Some(reply) => Strip(reply)
  }

  /** `answer_single`: the same as answering with an empty history, except for the text it
      falls back to when the call raises. */
  function AnswerSingle(svc: RagService, query: string, search: Search, complete: Completion): (text: string)
    ensures complete(AnswerRequest(svc, query, [], search)).None? ==> text == FallbackSingle
    ensures complete(AnswerRequest(svc, query, [], search)).Some? ==>
              text == AnswerWithHistory(svc, query, [], search, complete)
  {
    var context := RetrieveContext(svc, query, search);
    var messages := Messages(query, [], Some(context));
    var req := if svc.provider == Groq then Request(svc.modelName, messages, Some(svc.maxTokens), false)
               else Request(svc.modelName, messages, None, false);
    match complete(req)
    case None => FallbackSingle
    case Some(reply) => Strip(reply)
  }

  /** The streaming request: as the non-streaming one, with `stream=True` and `max_tokens`. */
  function StreamRequest(svc: RagService, query: string, history: seq<Turn>, search: Search): (req: Request)
    ensures req.model == svc.modelName
    ensures req.stream && req.maxTokens == Some(svc.maxTokens)
    ensures req.messages == AnswerRequest(svc, query, history, search).messages
  {
    Request(svc.modelName, Messages(query, history, Some(RetrieveContext(svc, query, search))),
            Some(svc.maxTokens), true)
  }

  /** The text each delta contributes: nothing for a missing one. */
  function DeltaTexts(deltas: seq<Option<string>>): seq<string> {
    seq(|deltas|, i requires 0 <= i < |deltas| => deltas[i].GetOr(""))
  }

  /** The generator's inner loop: only non-empty deltas are yielded, in stream order. */
  function YieldedDeltas(deltas: seq<Option<string>>): (chunks: seq<string>)
    ensures |chunks| <= |deltas|
    ensures forall i :: 0 <= i < |chunks| ==> chunks[i] != ""
    ensures forall t :: t in chunks ==> Some(t) in deltas
  {
    if deltas == [] then []
    else (if Truthy(deltas[0]) then [deltas[0].value] else []) + YieldedDeltas(deltas[1..])
  }

  /** The filter keeps stream order and drops nothing else: one more delta adds its text at
      the end exactly when it is non-empty. */
  lemma {:induction false} YieldedDeltasSnoc(deltas: seq<Option<string>>, d: Option<string>)
    ensures YieldedDeltas(deltas + [d]) == YieldedDeltas(deltas) + (if Truthy(d) then [d.value] else [])
  {
    if deltas != [] {
      assert (deltas + [d])[1..] == deltas[1..] + [d];
      YieldedDeltasSnoc(deltas[1..], d);
    }
  }

  /** Skipping empty and missing deltas loses no text: the yielded chunks concatenate to
      the concatenation of all deltas. */
  lemma {:induction false} YieldedDeltasConcat(deltas: seq<Option<string>>)
    ensures Concat(YieldedDeltas(deltas)) == Concat(DeltaTexts(deltas))
  {
    if deltas != [] {
      var texts := DeltaTexts(deltas);
      assert texts[1..] == DeltaTexts(deltas[1..]);
      assert Concat(texts) == texts[0] + Concat(texts[1..]);
      YieldedDeltasConcat(deltas[1..]);
      if Truthy(deltas[0]) {
        assert YieldedDeltas(deltas) == [deltas[0].value] + YieldedDeltas(deltas[1..]);
      } else {
        assert texts[0] == "";
        assert YieldedDeltas(deltas) == YieldedDeltas(deltas[1..]);
      }
    }
  }

  /** `stream_answer_with_history`: a non-Groq provider yields the non-streaming answer as
      its one chunk; Groq yields the non-empty deltas and, if the stream raises, one fallback
      chunk at the end. */
  function StreamAnswer(svc: RagService, query: string, history: seq<Turn>, search: Search,
                        complete: Completion, streamComplete: StreamCompletion): (chunks: seq<string>)
    ensures svc.provider != Groq ==> chunks == [AnswerWithHistory(svc, query, history, search, complete)]
    ensures svc.provider == Groq ==>
              var reply := streamComplete(StreamRequest(svc, query, history, search));
              chunks == YieldedDeltas(reply.deltas) + (if reply.failed then [FallbackStream] else [])
  {
    if svc.provider != Groq then
      [AnswerWithHistory(svc, query, history, search, complete)]
    else
      var reply := streamComplete(StreamRequest(svc, query, history, search));
      YieldedDeltas(reply.deltas) + (if reply.failed then [FallbackStream] else [])
  }

  /** Every chunk a Groq stream yields is non-empty; a failed stream ends with the fallback. */
  lemma GroqStreamChunks(svc: RagService, query: string, history: seq<Turn>, search: Search,
                         complete: Completion, streamComplete: StreamCompletion)
    requires svc.provider == Groq
    ensures var chunks := StreamAnswer(svc, query, history, search, complete, streamComplete);
            var reply := streamComplete(StreamRequest(svc, query, history, search));
            && (forall i :: 0 <= i < |chunks| ==> chunks[i] != "")
            && (reply.failed ==> |chunks| > 0 && chunks[|chunks| - 1] == FallbackStream)
            && |chunks| <= |reply.deltas| + 1
  {
  }

  /** Streaming and non-streaming answers agree: with a provider whose stream completes with
      deltas that spell out exactly the (already stripped) text its non-streaming call
      returns, the streamed chunks concatenate to `answer_with_history`.  For a non-Groq
      provider this holds unconditionally. */
  lemma StreamConvergesToAnswer(svc: RagService, query: string, history: seq<Turn>, search: Search,
                                complete: Completion, streamComplete: StreamCompletion)
    requires svc.provider == Groq ==> StubAgrees(svc, query, history, search, complete, streamComplete)
    ensures Concat(StreamAnswer(svc, query, history, search, complete, streamComplete))
         == AnswerWithHistory(svc, query, history, search, complete)
  {
    var chunks := StreamAnswer(svc, query, history, search, complete, streamComplete);
    var answer := AnswerWithHistory(svc, query, history, search, complete);
    if svc.provider == Groq {
      var reply := streamComplete(StreamRequest(svc, query, history, search));
      var text := Concat(DeltaTexts(reply.deltas));
      assert StubAgrees(svc, query, history, search, complete, streamComplete);
      assert !reply.failed;
      assert chunks == YieldedDeltas(reply.deltas);
      YieldedDeltasConcat(reply.deltas);
      assert Concat(chunks) == text;
      assert complete(AnswerRequest(svc, query, history, search)) == Some(text);
      assert answer == Strip(text);
      assert Strip(text) == text;
    } else {
      assert chunks == [answer];
      assert Concat(chunks) == answer + Concat([]);
    }
  }

  /** A deterministic stub provider: its stream completes, and its deltas spell out exactly
      the text its non-streaming call returns, which has no surrounding whitespace. */
  predicate StubAgrees(svc: RagService, query: string, history: seq<Turn>, search: Search,
                       complete: Completion, streamComplete: StreamCompletion)
  {
    var reply := streamComplete(StreamRequest(svc, query, history, search));
    var text := Concat(DeltaTexts(reply.deltas));
    && !reply.failed
    && complete(AnswerRequest(svc, query, history, search)) == Some(text)
    && Strip(text) == text
  }
}
