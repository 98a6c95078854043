/**
 * `POST /query` in its current form: five gated stages (embed the query,
 * retrieve the top 3 matches, assemble the context, build the prompt,
 * generate and extract the answer), two non-error early exits, and every
 * stage failure turned into a 500 that the outer handler wraps once more.
 * The embedding model, the vector index and the chat model are oracles.
 */
module QueryPipeline {
  import opened Outcomes
  import opened PyStr
  import opened Http
  import opened QueryModels

  const TopK: nat := 3
  const ChatModel := "gpt-3.5-turbo"
  const SystemInstruction := "You are a helpful assistant."
  const MaxTokens: nat := 150
  const Temperature: real := 0.7

  const NoMatchesMessage := "I'm sorry, I couldn't find any relevant information in the database."
  const NoContentMessage := "No relevant information found in the database. Please refine your query."

  const EmbeddingErrorDetail := "Error generating query embedding."
  const RetrievalErrorDetail := "Error retrieving documents from Pinecone."
  const ContextErrorDetail := "Error combining retrieved context."
  const GenerationErrorDetail := "Error querying the language model."
  const ParseErrorDetail := "Error parsing the LLM response."
  const OuterPrefix := "An error occurred while processing your query: "

  /** `pinecone_index.query(vector=…, top_k=…, include_metadata=…)` */
  datatype IndexRequest = IndexRequest(vector: Embedding, topK: nat, includeMetadata: bool)
  /** One element of `matches`; `metadata` is None when the key is absent. */
  datatype Match = Match(metadata: Option<map<string, Value>>)
  /** The index's answer; `matches` is None when the key is absent. */
  datatype IndexResponse = IndexResponse(matches: Option<seq<Match>>)

  datatype ChatMessage = ChatMessage(role: string, content: string)
  /** `openai.ChatCompletion.create(model=…, messages=…, max_tokens=…, temperature=…)` */
  datatype ChatRequest = ChatRequest(model: string, messages: seq<ChatMessage>, maxTokens: nat, temperature: real)
  /** The parts of a chat completion read at line 103; absent keys are None. */
  datatype ReplyMessage = ReplyMessage(content: Option<Value>)
  datatype ChatChoice = ChatChoice(message: Option<ReplyMessage>)
  datatype ChatResponse = ChatResponse(choices: Option<seq<ChatChoice>>)

  /** The three external services, each either answering or raising. */
  datatype Services = Services(
    embed: string -> Outcome<Embedding>,
    query: IndexRequest -> Outcome<IndexResponse>,
    chat: ChatRequest -> Outcome<ChatResponse>)

  /** The external calls the handler can make. */
  datatype Call =
    | EmbedQuery(text: string)
    | QueryIndex(indexRequest: IndexRequest)
    | DescribeIndexStats
    | CreateChatCompletion(chatRequest: ChatRequest)

  /** `HTTPException(status_code=500, detail=…)` raised inside one of the five stages. */
  function Fault(detail: string): Reply
  {
    Raise(HttpException(500, detail))
  }

  /** The outer `except` at the end of the handler: the status stays 500, the detail gains a prefix. */
  function Rewrap(e: HttpException): (r: HttpException)
    ensures r.status == 500
    ensures |r.detail| > |OuterPrefix| && r.detail[..|OuterPrefix|] == OuterPrefix
  {
    HttpException(500, OuterPrefix + ExceptionText(e))
  }

  /** The outer `try`: an answer passes through, an exception is re-raised through `Rewrap`. */
  function Outer(r: Reply): Reply
  {
    match r
    case Respond(_) => r
    case Raise(e) => Raise(Rewrap(e))
  }

  /** The detail of a stage failure once wrapped: the prefix, then "500: ", then the stage's own detail. */
  lemma StageErrorText(detail: string)
    ensures Outer(Fault(detail)) == Raise(HttpException(500, OuterPrefix + "500: " + detail))
  {
    Decimal500();
    assert ExceptionText(HttpException(500, detail)) == "500: " + detail;
  }

  /** `response.get('matches', [])` */
  function MatchesOrEmpty(resp: IndexResponse): seq<Match>
  {
    match resp.matches
    case Some(ms) => ms
    case None => []
  }

  /** `doc['metadata']['content']` when both `'metadata' in doc` and `'content' in doc['metadata']`. */
  function ContentOf(m: Match): Option<Value>
  {
    if m.metadata.Some? && "content" in m.metadata.value then Some(m.metadata.value["content"]) else None
  }

  /** What the comprehension at line 69 keeps of one match. */
  function KeptOf(m: Match): seq<Value>
  {
    match ContentOf(m)
    case Some(v) => [v]
    case None => []
  }

  /** The values the comprehension at line 69 keeps, in retrieval order. */
  function KeptContents(ms: seq<Match>): (vs: seq<Value>)
    ensures |vs| <= |ms|
  {
    if ms == [] then [] else KeptOf(ms[0]) + KeptContents(ms[1..])
  }

  /** Filtering distributes over concatenation: retrieval order is kept. */
  lemma {:induction false} KeptContentsAppend(a: seq<Match>, b: seq<Match>)
    ensures KeptContents(a + b) == KeptContents(a) + KeptContents(b)
  {
    if a == [] {
      assert a + b == b;
    } else {
      assert (a + b)[0] == a[0];
      assert (a + b)[1..] == a[1..] + b;
      KeptContentsAppend(a[1..], b);
      var x, y, z := KeptOf(a[0]), KeptContents(a[1..]), KeptContents(b);
      assert KeptContents(a + b) == x + (y + z);
      assert x + (y + z) == (x + y) + z;
    }
  }

  /** When every match carries `metadata.content`, all of them are kept, one for one. */
  lemma {:induction false} KeptContentsAll(ms: seq<Match>)
    requires forall k :: 0 <= k < |ms| ==> ContentOf(ms[k]).Some?
    ensures |KeptContents(ms)| == |ms|
    ensures forall k :: 0 <= k < |ms| ==> KeptContents(ms)[k] == ContentOf(ms[k]).value
  {
    if ms != [] {
      KeptContentsAll(ms[1..]);
    }
  }

  /** Matches without `metadata.content` are skipped. */
  lemma {:induction false} KeptContentsNone(ms: seq<Match>)
    requires forall k :: 0 <= k < |ms| ==> ContentOf(ms[k]).None?
    ensures KeptContents(ms) == []
  {
    if ms != [] {
      KeptContentsNone(ms[1..]);
    }
  }

  /** Line 69: the newline-join of the kept contents; None when a kept value is not a string. */
  function Context(ms: seq<Match>): Option<string>
  {
    match Texts(KeptContents(ms))
    case Some(ts) => Some(Join("\n", ts))
    case None => None
  }

  /** The request built at lines 86-94 for a prompt. */
  function ChatRequestFor(prompt: string): ChatRequest
  {
    ChatRequest(ChatModel, [ChatMessage("system", SystemInstruction), ChatMessage("user", prompt)], MaxTokens, Temperature)
  }

  /** `llm_response['choices'][0]['message']['content']`, when every step exists and yields a string. */
  function FirstMessageContent(resp: ChatResponse): Option<string>
  {
    if resp.choices.Some? && |resp.choices.value| > 0 then
      match resp.choices.value[0].message
      case Some(ReplyMessage(Some(Str(s)))) => Some(s)
      case _ => None
    else None
  }

  /** `query_rag(request)`: the reply and the calls made to the three services. */
  function QueryRag(svc: Services, req: QueryRequest): (run: Run<Call>)
  {
    var inner := Stages(svc, req.query);
    Run(Outer(inner.reply), inner.calls)
  }

  /** The body of the outer `try` (lines 32-108): stage 1 embeds the query, then the later stages run. */
  function Stages(svc: Services, q: string): (run: Run<Call>)
  {
    match svc.embed(q)
    case Fail => Run(Fault(EmbeddingErrorDetail), [EmbedQuery(q)])
    case Ok(v) =>
      var rest := Retrieve(svc, q, v);
      Run(rest.reply, [EmbedQuery(q)] + rest.calls)
  }

  /** Stage 2 (lines 43-64): query the index for the top matches of the query embedding. */
  function Retrieve(svc: Services, q: string, v: Embedding): (run: Run<Call>)
  {
    var ir := IndexRequest(v, TopK, true);
    match svc.query(ir)
    case Fail => Run(Fault(RetrievalErrorDetail), [QueryIndex(ir), DescribeIndexStats])
    case Ok(resp) =>
      var docs := MatchesOrEmpty(resp);
      if docs == [] then Run(Respond(QueryResponse(q, NoMatchesMessage)), [QueryIndex(ir)])
      else
        var rest := Assemble(svc, q, docs);
        Run(rest.reply, [QueryIndex(ir)] + rest.calls)
  }

  /** Stage 3 (lines 68-79): join the retrieved contents, or answer that there is nothing usable. */
  function Assemble(svc: Services, q: string, docs: seq<Match>): (run: Run<Call>)
  {
    match Context(docs)
    case None => Run(Fault(ContextErrorDetail), [])
    case Some(context) =>
      if IsBlank(context) then Run(Respond(QueryResponse(q, NoContentMessage)), [])
      else Generate(svc, q, context)
  }

  /** Stages 4 and 5 (lines 82-108): prompt the chat model and strip its first message. */
  function Generate(svc: Services, q: string, context: string): (run: Run<Call>)
  {
    var cr := ChatRequestFor(Prompt(context, q));
    match svc.chat(cr)
    case Fail => Run(Fault(GenerationErrorDetail), [CreateChatCompletion(cr)])
    case Ok(out) =>
      match FirstMessageContent(out)
      case None => Run(Fault(ParseErrorDetail), [CreateChatCompletion(cr)])
      case Some(text) => Run(Respond(QueryResponse(q, Strip(text))), [CreateChatCompletion(cr)])
  }

  /** Inside the outer `try`: a reply echoes the query, and an exception has status 500. */
  predicate InnerShape(r: Reply, q: string)
  {
    && (r.Respond? ==> r.body.query == q)
    && (r.Raise? ==> r.error.status == 500)
  }

  /** A reply that echoes the query, or a 500 whose detail carries the outer prefix. */
  predicate EchoesOr500(r: Reply, q: string)
  {
    && (r.Respond? ==> r.body.query == q)
    && (r.Raise? ==> r.error.status == 500 && |r.error.detail| > |OuterPrefix|
                      && r.error.detail[..|OuterPrefix|] == OuterPrefix)
  }

  /** Whether a call is a use of the chat model. */
  predicate IsGeneration(c: Call)
  {
    c.CreateChatCompletion?
  }

  // ---------------------------------------------------------------------------
  // Shapes of the stages

  /** Stage 5 makes exactly one call, to the chat model with the built prompt. */
  lemma GenerateShape(svc: Services, q: string, context: string)
    ensures var run := Generate(svc, q, context);
      && run.calls == [CreateChatCompletion(ChatRequestFor(Prompt(context, q)))]
      && InnerShape(run.reply, q)
  {
  }

  /** Stage 3 hands over to the chat model: the context is built, not blank, and is the prompt's. */
  predicate AssembleGeneration(svc: Services, q: string, docs: seq<Match>)
  {
    && Context(docs).Some?
    && !IsBlank(Context(docs).value)
    && Assemble(svc, q, docs).calls == [CreateChatCompletion(ChatRequestFor(Prompt(Context(docs).value, q)))]
  }

  /** Stage 3 either makes no call or hands over to the chat model. */
  lemma AssembleShape(svc: Services, q: string, docs: seq<Match>)
    ensures Assemble(svc, q, docs).calls == [] || AssembleGeneration(svc, q, docs)
    ensures InnerShape(Assemble(svc, q, docs).reply, q)
  {
    match Context(docs)
    case None =>
    case Some(context) =>
      if !IsBlank(context) { GenerateShape(svc, q, context); }
  }

  /** Stage 2 makes one index query with the fixed arguments, then either the statistics request or stage 3's calls. */
  lemma RetrieveShape(svc: Services, q: string, v: Embedding)
    ensures var run := Retrieve(svc, q, v);
      var resp := svc.query(IndexRequest(v, 3, true));
      && 1 <= |run.calls| <= 2
      && run.calls[0] == QueryIndex(IndexRequest(v, 3, true))
      && (resp.Fail? ==> run.calls == [QueryIndex(IndexRequest(v, 3, true)), DescribeIndexStats])
      && (resp.Ok? && MatchesOrEmpty(resp.value) != [] ==>
            run.calls[1..] == Assemble(svc, q, MatchesOrEmpty(resp.value)).calls)
      && (resp.Ok? && MatchesOrEmpty(resp.value) == [] ==> |run.calls| == 1)
      && InnerShape(run.reply, q)
  {
    var ir := IndexRequest(v, TopK, true);
    match svc.query(ir)
    case Fail =>
    case Ok(resp) =>
      var docs := MatchesOrEmpty(resp);
      if docs != [] {
        var rest := Assemble(svc, q, docs);
        AssembleShape(svc, q, docs);
        assert Retrieve(svc, q, v).calls == [QueryIndex(ir)] + rest.calls;
      }
  }

  /** The stages embed the query first and then make stage 2's calls. */
  lemma StagesShape(svc: Services, q: string)
    ensures var run := Stages(svc, q);
      && 1 <= |run.calls| <= 3
      && run.calls[0] == EmbedQuery(q)
      && (svc.embed(q).Fail? ==> |run.calls| == 1)
      && (svc.embed(q).Ok? ==> run.calls[1..] == Retrieve(svc, q, svc.embed(q).value).calls)
      && InnerShape(run.reply, q)
  {
    match svc.embed(q)
    case Fail =>
    case Ok(v) =>
      RetrieveShape(svc, q, v);
      assert Stages(svc, q).calls[1..] == Retrieve(svc, q, v).calls;
  }

  /** The outer handler keeps an answer and turns every exception into a prefixed 500. */
  lemma OuterShape(r: Reply, q: string)
    requires InnerShape(r, q)
    ensures EchoesOr500(Outer(r), q)
  {
  }

  // ---------------------------------------------------------------------------
  // Properties of the handler

  /** A failed query embedding stops the pipeline at once with a 500. */
  lemma EmbeddingFailure(svc: Services, req: QueryRequest)
    requires svc.embed(req.query).Fail?
    ensures QueryRag(svc, req).calls == [EmbedQuery(req.query)]
    ensures QueryRag(svc, req).reply == Raise(HttpException(500, OuterPrefix + "500: " + EmbeddingErrorDetail))
  {
    StageErrorText(EmbeddingErrorDetail);
  }

  /** Retrieval is always asked for the top 3 matches with metadata, for the query's own embedding. */
  lemma RetrievalRequest(svc: Services, req: QueryRequest, k: nat)
    requires k < |QueryRag(svc, req).calls| && QueryRag(svc, req).calls[k].QueryIndex?
    ensures k == 1 && svc.embed(req.query).Ok?
    ensures QueryRag(svc, req).calls[k].indexRequest == IndexRequest(svc.embed(req.query).value, 3, true)
  {
    StagesIndexQuery(svc, req.query, k);
  }

  /** Within the stages the index query is the second call and the only one. */
  lemma StagesIndexQuery(svc: Services, q: string, k: nat)
    requires k < |Stages(svc, q).calls| && Stages(svc, q).calls[k].QueryIndex?
    ensures k == 1 && svc.embed(q).Ok?
    ensures Stages(svc, q).calls[k] == QueryIndex(IndexRequest(svc.embed(q).value, 3, true))
  {
    StagesShape(svc, q);
    var v := svc.embed(q).value;
    RetrieveIndexQuery(svc, q, v, k - 1);
  }

  /** Within stage 2 the index query is the first call and the only one. */
  lemma RetrieveIndexQuery(svc: Services, q: string, v: Embedding, k: nat)
    requires k < |Retrieve(svc, q, v).calls| && Retrieve(svc, q, v).calls[k].QueryIndex?
    ensures k == 0
  {
    RetrieveShape(svc, q, v);
    var resp := svc.query(IndexRequest(v, 3, true));
    if k == 1 && resp.Ok? {
      AssembleShape(svc, q, MatchesOrEmpty(resp.value));
    }
  }

  /** A failed retrieval is a 500; the index statistics are asked for and the chat model is not. */
  lemma RetrievalFailure(svc: Services, req: QueryRequest)
    requires svc.embed(req.query).Ok?
    requires svc.query(IndexRequest(svc.embed(req.query).value, TopK, true)).Fail?
    ensures QueryRag(svc, req).reply == Raise(HttpException(500, OuterPrefix + "500: " + RetrievalErrorDetail))
    ensures QueryRag(svc, req).calls == [EmbedQuery(req.query),
      QueryIndex(IndexRequest(svc.embed(req.query).value, 3, true)), DescribeIndexStats]
  {
    StageErrorText(RetrievalErrorDetail);
  }

  /** No matches (or no `matches` key) is a normal answer with the fixed apology; no generation. */
  lemma NoMatches(svc: Services, req: QueryRequest)
    requires svc.embed(req.query).Ok?
    requires svc.query(IndexRequest(svc.embed(req.query).value, TopK, true)).Ok?
    requires MatchesOrEmpty(svc.query(IndexRequest(svc.embed(req.query).value, TopK, true)).value) == []
    ensures QueryRag(svc, req).reply == Respond(QueryResponse(req.query,
      "I'm sorry, I couldn't find any relevant information in the database."))
    ensures QueryRag(svc, req).calls == [EmbedQuery(req.query), QueryIndex(IndexRequest(svc.embed(req.query).value, 3, true))]
  {
  }

  /** Stage 3 on a blank context: the "refine your query" answer, and no call. */
  lemma AssembleBlank(svc: Services, q: string, ms: seq<Match>, texts: seq<string>)
    requires Texts(KeptContents(ms)) == Some(texts)
    requires forall k :: 0 <= k < |texts| ==> AllSpace(texts[k])
    ensures Assemble(svc, q, ms) == Run(Respond(QueryResponse(q, NoContentMessage)), [])
  {
    NewlineJoinBlank(texts);
    BlankIffAllSpace(Join("\n", texts));
  }

  /**
   * Matches are found but the assembled context is blank, which is exactly the case
   * when every kept content is blank (in particular when no match has content):
   * a normal answer asking to refine the query, and no generation.
   */
  lemma BlankContext(svc: Services, req: QueryRequest, ms: seq<Match>, texts: seq<string>)
    requires svc.embed(req.query).Ok?
    requires svc.query(IndexRequest(svc.embed(req.query).value, TopK, true)) == Ok(IndexResponse(Some(ms)))
    requires ms != [] && Texts(KeptContents(ms)) == Some(texts)
    requires forall k :: 0 <= k < |texts| ==> AllSpace(texts[k])
    ensures QueryRag(svc, req).reply == Respond(QueryResponse(req.query,
      "No relevant information found in the database. Please refine your query."))
    ensures QueryRag(svc, req).calls == [EmbedQuery(req.query), QueryIndex(IndexRequest(svc.embed(req.query).value, 3, true))]
  {
    AssembleBlank(svc, req.query, ms, texts);
  }

  /**
   * A kept `metadata.content` that is not a string makes the join raise: a 500 with
   * the context detail, and the chat model is not called.
   */
  lemma ContextFailure(svc: Services, req: QueryRequest, ms: seq<Match>)
    requires svc.embed(req.query).Ok?
    requires svc.query(IndexRequest(svc.embed(req.query).value, TopK, true)) == Ok(IndexResponse(Some(ms)))
    requires ms != []
    requires exists k :: 0 <= k < |KeptContents(ms)| && !KeptContents(ms)[k].Str?
    ensures QueryRag(svc, req).reply == Raise(HttpException(500,
      OuterPrefix + "500: " + "Error combining retrieved context."))
    ensures QueryRag(svc, req).calls == [EmbedQuery(req.query), QueryIndex(IndexRequest(svc.embed(req.query).value, 3, true))]
  {
    StageErrorText(ContextErrorDetail);
  }

  /** The chat model is called only with the prompt built from a non-blank context and the query. */
  lemma GenerationRequest(svc: Services, req: QueryRequest, k: nat)
    requires k < |QueryRag(svc, req).calls| && IsGeneration(QueryRag(svc, req).calls[k])
    ensures svc.embed(req.query).Ok?
    ensures var resp := svc.query(IndexRequest(svc.embed(req.query).value, TopK, true));
      && resp.Ok?
      && var ms := MatchesOrEmpty(resp.value);
      && ms != []
      && Context(ms).Some?
      && !AllSpace(Context(ms).value)
      && QueryRag(svc, req).calls[k].chatRequest == ChatRequest("gpt-3.5-turbo",
           [ChatMessage("system", "You are a helpful assistant."), ChatMessage("user", Prompt(Context(ms).value, req.query))],
           150, 0.7)
  {
    StagesGeneration(svc, req.query, k);
    var resp := svc.query(IndexRequest(svc.embed(req.query).value, TopK, true));
    BlankIffAllSpace(Context(MatchesOrEmpty(resp.value)).value);
  }

  /** Within the stages a chat call is the third call, made after an embedding and a retrieval with matches. */
  lemma StagesGeneration(svc: Services, q: string, k: nat)
    requires k < |Stages(svc, q).calls| && IsGeneration(Stages(svc, q).calls[k])
    ensures k == 2 && svc.embed(q).Ok?
    ensures var resp := svc.query(IndexRequest(svc.embed(q).value, TopK, true));
      && resp.Ok?
      && MatchesOrEmpty(resp.value) != []
      && AssembleGeneration(svc, q, MatchesOrEmpty(resp.value))
      && Stages(svc, q).calls[k] == Assemble(svc, q, MatchesOrEmpty(resp.value)).calls[0]
  {
    StagesShape(svc, q);
    var v := svc.embed(q).value;
    RetrieveShape(svc, q, v);
    var resp := svc.query(IndexRequest(v, 3, true));
    AssembleShape(svc, q, MatchesOrEmpty(resp.value));
  }

  /**
   * A chat call that raises is a 500 with the generation detail; a reply without a
   * string at `choices[0].message.content` is a 500 with the parse detail.
   */
  lemma GenerationFailure(svc: Services, req: QueryRequest, context: string)
    requires svc.embed(req.query).Ok?
    requires var resp := svc.query(IndexRequest(svc.embed(req.query).value, TopK, true));
      resp.Ok? && MatchesOrEmpty(resp.value) != [] && Context(MatchesOrEmpty(resp.value)) == Some(context)
    requires !AllSpace(context)
    requires var out := svc.chat(ChatRequestFor(Prompt(context, req.query)));
      out.Fail? || FirstMessageContent(out.value).None?
    ensures var out := svc.chat(ChatRequestFor(Prompt(context, req.query)));
      out.Fail? ==> QueryRag(svc, req).reply == Raise(HttpException(500,
        OuterPrefix + "500: " + "Error querying the language model."))
    ensures var out := svc.chat(ChatRequestFor(Prompt(context, req.query)));
      out.Ok? ==> QueryRag(svc, req).reply == Raise(HttpException(500,
        OuterPrefix + "500: " + "Error parsing the LLM response."))
    ensures |QueryRag(svc, req).calls| == 3
  {
    BlankIffAllSpace(context);
    var out := svc.chat(ChatRequestFor(Prompt(context, req.query)));
    var detail := if out.Fail? then GenerationErrorDetail else ParseErrorDetail;
    assert Generate(svc, req.query, context).reply == Fault(detail);
    assert Stages(svc, req.query).reply == Fault(detail);
    StageErrorText(detail);
  }

  /** On success the query is echoed and the answer is the stripped first message content. */
  lemma Answer(svc: Services, req: QueryRequest, context: string, text: string)
    requires svc.embed(req.query).Ok?
    requires var resp := svc.query(IndexRequest(svc.embed(req.query).value, TopK, true));
      resp.Ok? && MatchesOrEmpty(resp.value) != [] && Context(MatchesOrEmpty(resp.value)) == Some(context)
    requires !AllSpace(context)
    requires var out := svc.chat(ChatRequestFor(Prompt(context, req.query)));
      out.Ok? && FirstMessageContent(out.value) == Some(text)
    ensures QueryRag(svc, req).reply == Respond(QueryResponse(req.query, Strip(text)))
    ensures |QueryRag(svc, req).calls| == 3
  {
    BlankIffAllSpace(context);
  }

  /**
   * Every reply echoes the query or is a 500 with the outer prefix; the query is
   * embedded first, and the chat model, if used at all, is used once and last.
   */
  lemma ReplyShape(svc: Services, req: QueryRequest)
    ensures var run := QueryRag(svc, req);
      && EchoesOr500(run.reply, req.query)
      && 1 <= |run.calls| <= 3
      && run.calls[0] == EmbedQuery(req.query)
      && forall k :: 0 <= k < |run.calls| - 1 ==> !IsGeneration(run.calls[k])
  {
    var q := req.query;
    StagesShape(svc, q);
    OuterShape(Stages(svc, q).reply, q);
    var calls := Stages(svc, q).calls;
    forall k | 0 <= k < |calls| - 1 ensures !IsGeneration(calls[k]) {
      if k == 1 {
        var v := svc.embed(q).value;
        RetrieveShape(svc, q, v);
        assert calls[1] == Retrieve(svc, q, v).calls[0];
      }
    }
  }
}
