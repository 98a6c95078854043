/**
 * `POST /query` in its earlier form, the one the application mounts: the same
 * embed / retrieve / join / prompt / complete shape, with no content filter,
 * no blank-context exit and a single catch-all 500.
 */
module LegacyQueryPipeline {
  import opened Outcomes
  import opened PyStr
  import opened Http
  import opened QueryModels
  import QueryPipeline

  const SearchTopK: nat := 3
  const Engine := "gpt-3.5-turbo"
  const NoDocsMessage := "I'm sorry, I couldn't find any relevant information."
  const GenericDetail := "An error occurred while processing your query."

  /** `vector_store.similarity_search(query_embedding, top_k=3)`, with its arguments as written. */
  datatype SearchRequest = SearchRequest(vector: Embedding, topK: nat)
  /** A retrieved document; `content` is None when `doc['content']` is absent. */
  datatype Doc = Doc(content: Option<Value>)
  /** `create_completion(prompt=…, engine=…)` */
  datatype CompletionRequest = CompletionRequest(prompt: string, engine: string)
  datatype CompletionChoice = CompletionChoice(text: Option<Value>)
  datatype Completion = Completion(choices: Option<seq<CompletionChoice>>)

  datatype Services = Services(
    embed: string -> Outcome<Embedding>,
    search: SearchRequest -> Outcome<seq<Doc>>,
    complete: CompletionRequest -> Outcome<Completion>)

  datatype Call =
    | EmbedQuery(text: string)
    | SimilaritySearch(searchRequest: SearchRequest)
    | CreateCompletion(completionRequest: CompletionRequest)

  /** The single `except` at lines 64-66. */
  const Failure: Reply := Raise(HttpException(500, GenericDetail))

  /** `[doc['content'] for doc in retrieved_docs]`, None as soon as a key is missing. */
  function DocContents(docs: seq<Doc>): (r: Option<seq<Value>>)
    ensures r.Some? <==> forall k :: 0 <= k < |docs| ==> docs[k].content.Some?
    ensures r.Some? ==> |r.value| == |docs| && forall k :: 0 <= k < |docs| ==> r.value[k] == docs[k].content.value
  {
    if docs == [] then Some([])
    else match (docs[0].content, DocContents(docs[1..]))
      case (Some(v), Some(rest)) => Some([v] + rest)
      case _ => None
  }

  /** Line 53: the newline-join of every document's content, None when one is missing or not a string. */
  function LegacyContext(docs: seq<Doc>): Option<string>
  {
    match DocContents(docs)
    case None => None
    case Some(vs) =>
      match Texts(vs)
      case None => None
      case Some(ts) => Some(Join("\n", ts))
  }

  /** `llm_response['choices'][0]['text']`, when every step exists and yields a string. */
  function FirstChoiceText(c: Completion): Option<string>
  {
    if c.choices.Some? && |c.choices.value| > 0 then
      match c.choices.value[0].text
      case Some(Str(s)) => Some(s)
      case _ => None
    else None
  }

  /** `query_rag(request)` of the earlier version: the reply and the calls made. */
  function LegacyQueryRag(svc: Services, req: QueryRequest): (run: Run<Call>)
  {
    var q := req.query;
    match svc.embed(q)
    case Fail => Run(Failure, [EmbedQuery(q)])
    case Ok(v) =>
      var sr := SearchRequest(v, SearchTopK);
      var searched := [EmbedQuery(q), SimilaritySearch(sr)];
      match svc.search(sr)
      case Fail => Run(Failure, searched)
      case Ok(docs) =>
        if docs == [] then Run(Respond(QueryResponse(q, NoDocsMessage)), searched)
        else match LegacyContext(docs)
          case None => Run(Failure, searched)
          case Some(context) =>
            var cr := CompletionRequest(Prompt(context, q), Engine);
            var completed := searched + [CreateCompletion(cr)];
            match svc.complete(cr)
            case Fail => Run(Failure, completed)
            case Ok(c) =>
              match FirstChoiceText(c)
              case None => Run(Failure, completed)
              case Some(text) => Run(Respond(QueryResponse(q, Strip(text))), completed)
  }

  // ---------------------------------------------------------------------------
  // Properties of the earlier handler

  /** Every error is the same 500 with the same detail; every answer echoes the query. */
  lemma LegacyReplyShape(svc: Services, req: QueryRequest)
    ensures var run := LegacyQueryRag(svc, req);
      && (run.reply.Raise? ==> run.reply.error == HttpException(500, "An error occurred while processing your query."))
      && (run.reply.Respond? ==> run.reply.body.query == req.query)
      && 1 <= |run.calls| <= 3 && run.calls[0] == EmbedQuery(req.query)
  {
  }

  /**
   * The steps of the earlier handler that raise (lines 44-62): embedding the query,
   * the similarity search, reading a document's `content` (missing, or not a string
   * in the join), the completion request, and reading `choices[0]['text']`.
   */
  predicate LegacyStepFails(svc: Services, q: string)
  {
    svc.embed(q).Fail? || SearchOrLaterFails(svc, q, svc.embed(q).value)
  }

  /** The search raises, or it finds documents and a later step raises. */
  predicate SearchOrLaterFails(svc: Services, q: string, v: Embedding)
  {
    var out := svc.search(SearchRequest(v, SearchTopK));
    out.Fail? || (out.value != [] && ContextOrLaterFails(svc, q, out.value))
  }

  /** Reading the documents' contents raises, or the completion step does. */
  predicate ContextOrLaterFails(svc: Services, q: string, docs: seq<Doc>)
  {
    || DocContents(docs).None?
    || Texts(DocContents(docs).value).None?
    || CompletionFails(svc, CompletionRequest(Prompt(LegacyContext(docs).value, q), Engine))
  }

  /** The completion request raises, or its reply has no string `choices[0]['text']`. */
  predicate CompletionFails(svc: Services, cr: CompletionRequest)
  {
    svc.complete(cr).Fail? || FirstChoiceText(svc.complete(cr).value).None?
  }

  /** Any failing step, and nothing else, yields the one fixed 500 of lines 64-66. */
  lemma LegacyFailure(svc: Services, req: QueryRequest)
    ensures LegacyQueryRag(svc, req).reply == Raise(HttpException(500, "An error occurred while processing your query."))
      <==> LegacyStepFails(svc, req.query)
  {
  }

  /** Retrieval asks for the top 3 documents of the query's own embedding. */
  lemma LegacySearchRequest(svc: Services, req: QueryRequest)
    requires svc.embed(req.query).Ok?
    ensures LegacyQueryRag(svc, req).calls[1] == SimilaritySearch(SearchRequest(svc.embed(req.query).value, 3))
  {
  }

  /** No documents is a normal answer with this version's apology, and no completion is requested. */
  lemma LegacyNoDocs(svc: Services, req: QueryRequest)
    requires svc.embed(req.query).Ok?
    requires svc.search(SearchRequest(svc.embed(req.query).value, SearchTopK)) == Ok([])
    ensures LegacyQueryRag(svc, req).reply == Respond(QueryResponse(req.query, "I'm sorry, I couldn't find any relevant information."))
    ensures |LegacyQueryRag(svc, req).calls| == 2
  {
  }

  /** The context joins every document's content, in order, with no filtering. */
  lemma {:induction false} LegacyContextJoinsAll(docs: seq<Doc>, texts: seq<string>)
    requires |texts| == |docs|
    requires forall k :: 0 <= k < |docs| ==> docs[k].content == Some(Str(texts[k]))
    ensures LegacyContext(docs) == Some(Join("\n", texts))
  {
    var vs := DocContents(docs).value;
    assert Texts(vs).Some?;
    assert Texts(vs).value == texts;
  }

  /** On success the completion's first choice text is returned stripped, and the query echoed. */
  lemma LegacyAnswer(svc: Services, req: QueryRequest, docs: seq<Doc>, context: string, text: string)
    requires svc.embed(req.query).Ok?
    requires svc.search(SearchRequest(svc.embed(req.query).value, SearchTopK)) == Ok(docs)
    requires docs != [] && LegacyContext(docs) == Some(context)
    requires var out := svc.complete(CompletionRequest(Prompt(context, req.query), Engine));
      out.Ok? && FirstChoiceText(out.value) == Some(text)
    ensures LegacyQueryRag(svc, req).reply == Respond(QueryResponse(req.query, Strip(text)))
    ensures LegacyQueryRag(svc, req).calls[2] == CreateCompletion(CompletionRequest(Prompt(context, req.query), "gpt-3.5-turbo"))
  {
  }

  /**
   * Once documents are found and their context is built, the completion model is
   * called third, with the shared template filled with that context, whatever the
   * context holds (there is no blank-context exit in this version).
   */
  lemma LegacyCompletionRequest(svc: Services, req: QueryRequest, docs: seq<Doc>, context: string)
    requires svc.embed(req.query).Ok?
    requires svc.search(SearchRequest(svc.embed(req.query).value, SearchTopK)) == Ok(docs)
    requires docs != [] && LegacyContext(docs) == Some(context)
    ensures |LegacyQueryRag(svc, req).calls| == 3
    ensures LegacyQueryRag(svc, req).calls[2] == CreateCompletion(CompletionRequest(Prompt(context, req.query), "gpt-3.5-turbo"))
  {
  }

  /**
   * Comparing the two versions: on matches that all carry string contents,
   * the current version assembles the very context the earlier one does.
   */
  lemma {:induction false} SameContextWhenAllHaveContent(ms: seq<QueryPipeline.Match>, docs: seq<Doc>)
    requires |ms| == |docs|
    requires forall k :: 0 <= k < |ms| ==> QueryPipeline.ContentOf(ms[k]) == docs[k].content
    requires forall k :: 0 <= k < |docs| ==> docs[k].content.Some? && docs[k].content.value.Str?
    ensures QueryPipeline.Context(ms) == LegacyContext(docs)
  {
    QueryPipeline.KeptContentsAll(ms);
    var kept := QueryPipeline.KeptContents(ms);
    assert kept == DocContents(docs).value;
  }

  /**
   * Comparing the two versions on the same retrieval: when every match carries a
   * whitespace-only string content, the current version answers "refine your query"
   * without consulting the chat model, while the earlier one builds a blank context
   * and sends its prompt to the completion model.
   */
  lemma BlankContextStillCompletes(cur: QueryPipeline.Services, svc: Services, req: QueryRequest,
                                   ms: seq<QueryPipeline.Match>, docs: seq<Doc>, texts: seq<string>)
    requires |ms| == |docs| == |texts| && docs != []
    requires forall k :: 0 <= k < |ms| ==> QueryPipeline.ContentOf(ms[k]) == docs[k].content
    requires forall k :: 0 <= k < |docs| ==> docs[k].content == Some(Str(texts[k]))
    requires forall k :: 0 <= k < |texts| ==> AllSpace(texts[k])
    requires cur.embed(req.query).Ok?
    requires cur.query(QueryPipeline.IndexRequest(cur.embed(req.query).value, 3, true))
      == Ok(QueryPipeline.IndexResponse(Some(ms)))
    requires svc.embed(req.query).Ok?
    requires svc.search(SearchRequest(svc.embed(req.query).value, SearchTopK)) == Ok(docs)
    ensures QueryPipeline.QueryRag(cur, req).reply == Respond(QueryResponse(req.query, QueryPipeline.NoContentMessage))
    ensures |QueryPipeline.QueryRag(cur, req).calls| == 2
    ensures LegacyContext(docs).Some? && AllSpace(LegacyContext(docs).value)
    ensures |LegacyQueryRag(svc, req).calls| == 3
    ensures LegacyQueryRag(svc, req).calls[2]
      == CreateCompletion(CompletionRequest(Prompt(LegacyContext(docs).value, req.query), Engine))
  {
    CurrentBlankAnswer(cur, req, ms, docs, texts);
    BlankLegacyContext(docs, texts);
    LegacyCompletionRequest(svc, req, docs, LegacyContext(docs).value);
  }

  /** The current version's half of the comparison. */
  lemma CurrentBlankAnswer(cur: QueryPipeline.Services, req: QueryRequest,
                           ms: seq<QueryPipeline.Match>, docs: seq<Doc>, texts: seq<string>)
    requires |ms| == |docs| == |texts| && docs != []
    requires forall k :: 0 <= k < |ms| ==> QueryPipeline.ContentOf(ms[k]) == docs[k].content
    requires forall k :: 0 <= k < |docs| ==> docs[k].content == Some(Str(texts[k]))
    requires forall k :: 0 <= k < |texts| ==> AllSpace(texts[k])
    requires cur.embed(req.query).Ok?
    requires cur.query(QueryPipeline.IndexRequest(cur.embed(req.query).value, 3, true))
      == Ok(QueryPipeline.IndexResponse(Some(ms)))
    ensures QueryPipeline.QueryRag(cur, req).reply == Respond(QueryResponse(req.query, QueryPipeline.NoContentMessage))
    ensures |QueryPipeline.QueryRag(cur, req).calls| == 2
  {
    KeptBlankTexts(ms, docs, texts);
    QueryPipeline.BlankContext(cur, req, ms, texts);
  }

  /** Whitespace-only contents give the earlier version a whitespace-only context. */
  lemma BlankLegacyContext(docs: seq<Doc>, texts: seq<string>)
    requires |docs| == |texts|
    requires forall k :: 0 <= k < |docs| ==> docs[k].content == Some(Str(texts[k]))
    requires forall k :: 0 <= k < |texts| ==> AllSpace(texts[k])
    ensures LegacyContext(docs) == Some(Join("\n", texts)) && AllSpace(LegacyContext(docs).value)
  {
    LegacyContextJoinsAll(docs, texts);
    NewlineJoinBlank(texts);
  }

  /** Matches carrying the documents' string contents keep exactly those strings. */
  lemma KeptBlankTexts(ms: seq<QueryPipeline.Match>, docs: seq<Doc>, texts: seq<string>)
    requires |ms| == |docs| == |texts|
    requires forall k :: 0 <= k < |ms| ==> QueryPipeline.ContentOf(ms[k]) == docs[k].content
    requires forall k :: 0 <= k < |docs| ==> docs[k].content == Some(Str(texts[k]))
    ensures Texts(QueryPipeline.KeptContents(ms)) == Some(texts)
  {
    QueryPipeline.KeptContentsAll(ms);
    var kept := QueryPipeline.KeptContents(ms);
    assert Texts(kept).value == texts;
  }
}
