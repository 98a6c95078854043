/** Request and response shapes common to both versions of the query handler. */
module QueryModels {
  import opened Outcomes
  import opened Http

  /** `QueryRequest(BaseModel)`: the JSON body of `POST /query`. */
  datatype QueryRequest = QueryRequest(query: string)

  /** `QueryResponse(BaseModel)`: the JSON body of a successful answer. */
  datatype QueryResponse = QueryResponse(query: string, response: string)

  /** A value found under a key of an untyped service response: a string, or anything else. */
  datatype Value = Str(s: string) | NonStr

  /** An embedding vector; its numbers are never inspected by the handlers. */
  type Embedding = seq<real>

  /** How a request ends: a response body, or an `HTTPException` leaving the handler. */
  datatype Reply = Respond(body: QueryResponse) | Raise(error: HttpException)

  /** A reply together with the external calls made, in the order they were made. */
  datatype Run<C> = Run(reply: Reply, calls: seq<C>)

  const ContextLabel := "Context: "
  const QuestionLabel := "\n\nQuestion: "
  const AnswerLabel := "\n\nAnswer:"

  /** The f-string `f"Context: {context}\n\nQuestion: {query}\n\nAnswer:"`. */
  function Prompt(context: string, query: string): (p: string)
    ensures |p| == |context| + |query| + 30
    ensures p[..9] == "Context: " && p[9..9 + |context|] == context
    ensures p[9 + |context|..21 + |context|] == "\n\nQuestion: "
    ensures p[21 + |context|..21 + |context| + |query|] == query
    ensures p[|p| - 9..] == "\n\nAnswer:"
  {
    ContextLabel + context + QuestionLabel + query + AnswerLabel
  }

  /** The strings inside `vs`, or None when one of them is not a string (a TypeError in `join`). */
  function Texts(vs: seq<Value>): (r: Option<seq<string>>)
    ensures r.Some? <==> forall k :: 0 <= k < |vs| ==> vs[k].Str?
    ensures r.Some? ==> |r.value| == |vs| && forall k :: 0 <= k < |vs| ==> r.value[k] == vs[k].s
  {
    if vs == [] then Some([])
    else match (vs[0], Texts(vs[1..]))
      case (Str(s), Some(rest)) => Some([s] + rest)
      case _ => None
  }
}
