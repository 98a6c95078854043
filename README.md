# ResolveAI retrieval-augmented answering and ingestion, modelled in Dafny

ResolveAI is a FastAPI backend with two jobs:
- It answers questions from documents kept in a Pinecone vector index (`POST /query`).
- It ingests documents into that index (the `POST /add-data` route of `app/routes/add-data.py`), and a batch parser turns a directory of PDFs into a list of text records.

The application in `app/app.py` (lines 36-37) mounts only the health check and the earlier query router, so the ingestion route is declared but not served by it. The model covers the route's handler as written.

This project models the request-handling logic of those pieces, in their own terms:

- `QueryPipeline` models the current `query_rag` in `app/routes/rag_workflow.py`. It has five gated stages:
  - embed the query;
  - retrieve the top 3 matches with metadata;
  - assemble the context by keeping the matches that carry `metadata.content` and joining those with `"\n"`;
  - fill the prompt template;
  - ask the chat model and strip the first message content.

  There are two non-error early exits: no matches, and a blank context. Each stage failure becomes a 500, which the outer handler wraps once more.
- `LegacyQueryPipeline` models the earlier `query_rag` in `app/rag_workflow.py`, which is the one the application mounts. It has the same shape, but joins every document's `content` without filtering, uses its own apology string and turns every failure into one fixed 500. Three lemmas compare the two versions.
- `AddData` models `add_data_to_pinecone` and its three extractors in `app/routes/add-data.py`:
  - the extension is taken with `os.path.splitext` and lower-cased;
  - dispatch goes to the PDF, text or image extractor;
  - chunks are tagged with their source;
  - `add_texts` is called once per chunk, stopping at the first failure, with no rollback;
  - the temporary file is removed only on success; a failed write, parse, `add_texts` or removal leaves it in place.

  The state the handler changes belongs to the class `AddData.IngestionServer`: the entries added to the store (`upserts`) and the files left under `temp/` (`tempFiles`).
- `PdfText` and `PdfParserService` model the page-concatenation loop and `parse_pdf` / `process_pdfs` in `app/pdf_parser_service.py`. These are imperative methods proved equal to specification functions.
- `PyStr`, `PyPath` and `Http` give the Python and Starlette semantics the handlers rely on:
  - `PyStr`: `str.isspace` and `str.strip` over Python's whitespace set, `"\n".join`, `str.lower` restricted to ASCII, and `str.endswith`;
  - `PyPath`: posix `os.path.splitext` and `os.path.join`;
  - `Http`: `HTTPException` and its `str` rendering `"<status>: <detail>"`.

  `QueryModels` and `Outcomes` hold the shared request and response records and the `Option` / `Outcome` wrappers.

External services are parameters, grouped in a `Services` value per handler. Each one either answers (`Ok(value)`) or raises (`Fail`). They are:
- the embedding model, the Pinecone query and the chat/completion model;
- `PdfReader` (opening the file and each page's `extract_text`);
- OCR, UTF-8 decoding and the LangChain splitter;
- `add_texts`, and the file system: creating the temporary file, writing the upload's bytes to it, and removing it.

Each query handler is a function that returns the reply together with the trace of external calls it made. Its properties are lemmas over all oracle behaviours.

Two behaviours worth noting:
- An unsupported upload surfaces as a 500, because the 400 raised at line 79 of `app/routes/add-data.py` is caught by the generic handler at lines 91-93.
- A stage failure in the current query handler passes part of the exception text to the client. Its detail is `"An error occurred while processing your query: 500: <stage detail>"`, not a purely generic message.

## Model

| member | source | states |
|---|---|---|
| `QueryPipeline.QueryRag` | app/routes/rag_workflow.py:29-112 | `query_rag`: the stages' reply passed through the outer handler, with the calls made; its behaviour is stated by `ReplyShape` and the stage lemmas below |
| `QueryPipeline.Stages` | app/routes/rag_workflow.py:31-108 | the body of the outer `try`: embed the query, then the retrieval stage; stated by `StagesShape`, `StagesIndexQuery` and `StagesGeneration` |
| `QueryPipeline.Retrieve` | app/routes/rag_workflow.py:43-64 | the index query, the no-match exit and the statistics request on failure; stated by `RetrieveShape` and `RetrieveIndexQuery` |
| `QueryPipeline.Assemble` | app/routes/rag_workflow.py:68-79 | the join of the kept contents, the blank-context exit and the context error; stated by `AssembleShape`, `AssembleBlank` and `ContextFailure` |
| `QueryPipeline.Generate` | app/routes/rag_workflow.py:82-108 | the chat call for the prompt and the extraction of the first message; stated by `GenerateShape`, `GenerationFailure` and `Answer` |
| `QueryPipeline.Context` | app/routes/rag_workflow.py:69 | the newline-join of the kept contents, absent when one is not a string; stated by `KeptContents*`, `Texts` and `NewlineJoinBlank` |
| `QueryPipeline.FirstMessageContent` | app/routes/rag_workflow.py:103 | `choices[0].message.content` when every step exists and is a string; used by `Answer` and `GenerationFailure` |
| `QueryPipeline.EmbeddingFailure` | app/routes/rag_workflow.py:34-39 | a failed embedding makes no retrieval or generation call, and the reply is a 500 whose detail is the outer prefix, "500: " and the embedding error detail |
| `QueryPipeline.Rewrap` | app/routes/rag_workflow.py:110-112 | the outer handler keeps status 500 and puts "An error occurred while processing your query: " in front of the detail |
| `QueryPipeline.StageErrorText` | app/routes/rag_workflow.py:110-112 | an inner 500 leaves the handler as a 500 with the detail: outer prefix, then "500: ", then the stage detail |
| `QueryPipeline.RetrievalRequest` | app/routes/rag_workflow.py:44-48 | every index query is the second call, is made only after a successful embedding, and carries that embedding with top_k 3 and include_metadata true |
| `QueryPipeline.RetrievalFailure` | app/routes/rag_workflow.py:57-64 | a failed index query is a 500 with the retrieval detail, and the calls are exactly the embedding, that index query and the statistics request, so the chat model is never called |
| `QueryPipeline.NoMatches` | app/routes/rag_workflow.py:49-55 | an empty or missing `matches` list answers the query with the fixed database apology, after exactly the embedding and the index query |
| `QueryPipeline.KeptContents` | app/routes/rag_workflow.py:69 | the filtered contents are never more than the matches |
| `QueryPipeline.KeptContentsAppend` | app/routes/rag_workflow.py:69 | filtering distributes over concatenation, so retrieval order is kept |
| `QueryPipeline.KeptContentsAll` | app/routes/rag_workflow.py:69 | when every match has `metadata.content`, one value is kept per match, in order, equal to that content |
| `QueryPipeline.KeptContentsNone` | app/routes/rag_workflow.py:69 | matches without `metadata.content` contribute nothing |
| `QueryPipeline.AssembleBlank` | app/routes/rag_workflow.py:69-75 | the assembly stage answers "refine your query" with no call when every kept content is whitespace-only |
| `QueryPipeline.BlankContext` | app/routes/rag_workflow.py:69-75 | when every kept content is whitespace-only (or none is kept), the reply is the fixed "refine your query" answer, after exactly the embedding and the index query |
| `QueryModels.Prompt` | app/routes/rag_workflow.py:82 | the prompt is "Context: ", the context, "\n\nQuestion: ", the query and "\n\nAnswer:", laid out at these exact positions |
| `QueryPipeline.GenerationRequest` | app/routes/rag_workflow.py:86-94 | the chat model is called only after successful embedding and retrieval with a non-blank context, and with gpt-3.5-turbo, the system message, the prompt as the user message, 150 tokens and temperature 0.7 |
| `QueryPipeline.GenerationFailure` | app/routes/rag_workflow.py:96-108 | a failing chat call is a 500 with "Error querying the language model."; a reply without a string in choices[0].message.content is a 500 with "Error parsing the LLM response."; both after three calls |
| `QueryPipeline.ContextFailure` | app/routes/rag_workflow.py:69-79 | a kept `metadata.content` that is not a string makes the join raise: a 500 with "Error combining retrieved context.", after exactly the embedding and the index query |
| `QueryPipeline.Answer` | app/routes/rag_workflow.py:103-105 | on success the query is echoed, the answer is the first message content stripped, and exactly three calls are made |
| `QueryPipeline.GenerateShape` | app/routes/rag_workflow.py:82-108 | the generation stage makes exactly one chat call, with the prompt built from the context and query, and either echoes the query or raises a 500 |
| `QueryPipeline.AssembleShape` | app/routes/rag_workflow.py:66-108 | the assembly stage makes no call, or exactly the chat call for the prompt of a non-blank context; it echoes the query or raises a 500 |
| `QueryPipeline.RetrieveShape` | app/routes/rag_workflow.py:43-108 | the retrieval stage first queries the index with the embedding, top_k 3 and metadata; on failure it then requests the statistics, with no matches it stops, otherwise the assembly stage's calls follow |
| `QueryPipeline.RetrieveIndexQuery` | app/routes/rag_workflow.py:43-48 | within the retrieval stage, the only index query is its first call |
| `QueryPipeline.StagesShape` | app/routes/rag_workflow.py:29-108 | the stages embed the query first and stop there when embedding fails, otherwise the retrieval stage's calls follow; at most three calls are made |
| `QueryPipeline.StagesIndexQuery` | app/routes/rag_workflow.py:34-48 | an index query among the stages' calls is the second call, with the embedding of the query |
| `QueryPipeline.StagesGeneration` | app/routes/rag_workflow.py:34-94 | a chat call among the stages' calls is the third, made after a successful embedding and retrieval with a non-blank context |
| `QueryPipeline.OuterShape` | app/routes/rag_workflow.py:110-112 | the outer handler turns a stage result that echoes the query or raises a 500 into a reply that echoes the query or is a prefixed 500 |
| `QueryPipeline.ReplyShape` | app/routes/rag_workflow.py:29-112 | every reply echoes the query or is a prefixed 500; the first call embeds the query; at most three calls are made, and the chat model, if used, is used last |
| `QueryModels.Texts` | app/routes/rag_workflow.py:69 | `join` succeeds exactly when every kept value is a string, and then yields those strings in order |
| `LegacyQueryPipeline.LegacyQueryRag` | app/rag_workflow.py:37-66 | the earlier `query_rag`, with the calls made; stated by `LegacyReplyShape`, `LegacyFailure` and the lemmas below |
| `LegacyQueryPipeline.LegacyContext` | app/rag_workflow.py:53 | the newline-join of every document's `content`, absent when one is missing or not a string; stated by `LegacyContextJoinsAll` and `DocContents` |
| `LegacyQueryPipeline.FirstChoiceText` | app/rag_workflow.py:62 | `choices[0]['text']` when every step exists and is a string; used by `LegacyAnswer` and `LegacyFailure` |
| `LegacyQueryPipeline.LegacySearchRequest` | app/rag_workflow.py:46 | the similarity search asks for the top 3 documents of the query's own embedding |
| `LegacyQueryPipeline.LegacyNoDocs` | app/rag_workflow.py:48-50 | no documents answers the query with this version's apology, after only two calls |
| `LegacyQueryPipeline.DocContents` | app/rag_workflow.py:53 | contents are collected exactly when every document has one, one per document, in order |
| `LegacyQueryPipeline.LegacyContextJoinsAll` | app/rag_workflow.py:53 | the context is the newline-join of every document's content, unfiltered |
| `LegacyQueryPipeline.LegacyAnswer` | app/rag_workflow.py:57-62 | the completion is requested with the shared template and engine gpt-3.5-turbo; the answer is the first choice's text stripped, and the query is echoed |
| `LegacyQueryPipeline.LegacyReplyShape` | app/rag_workflow.py:37-66 | every error is the one fixed 500 detail, every answer echoes the query, and the first of at most three calls embeds the query |
| `LegacyQueryPipeline.SameContextWhenAllHaveContent` | app/rag_workflow.py:53 | on matches that all carry string contents, the current version's context equals the earlier version's |
| `LegacyQueryPipeline.BlankContextStillCompletes` | app/rag_workflow.py:53-59 | on the same retrieval with whitespace-only string contents, the current version answers "refine your query" after two calls, while the earlier version builds a whitespace-only context and sends the completion model the template filled with it as its third call |
| `LegacyQueryPipeline.CurrentBlankAnswer` | app/routes/rag_workflow.py:69-75 | matches whose contents are whitespace-only strings make the current version answer "refine your query" after two calls |
| `LegacyQueryPipeline.BlankLegacyContext` | app/rag_workflow.py:53 | whitespace-only document contents give the earlier version the whitespace-only newline-join of those contents |
| `LegacyQueryPipeline.KeptBlankTexts` | app/routes/rag_workflow.py:69 | matches carrying the same string contents as the documents keep exactly those strings, in order |
| `LegacyQueryPipeline.LegacyCompletionRequest` | app/rag_workflow.py:53-59 | once documents are found and the context is built, the third call is the completion for the template filled with that context, whatever it holds |
| `LegacyQueryPipeline.LegacyFailure` | app/rag_workflow.py:42-66 | the reply is the fixed 500 exactly when a step raises: the embedding, the search, a missing or non-string `content`, the completion call, or a reply without a string `choices[0]['text']` |
| `PyStr.IsSpace` | app/routes/rag_workflow.py:70 | the whitespace set of Python's `str.isspace`, used by `strip` |
| `PyStr.LowerAscii` | app/routes/add-data.py:60 | each character lower-cased, same length, no ASCII capital left |
| `PyStr.EndsWith` | app/pdf_parser_service.py:37 | `s.endswith(suffix)`: the last characters equal the suffix; stated by `UpperCaseSkipped` and `EmptyPdfKept` |
| `PyStr.SkipSpace` | app/routes/rag_workflow.py:70 | the position reached is the first non-whitespace character at or after the start, with only whitespace skipped |
| `PyStr.TrimmedEnd` | app/routes/rag_workflow.py:103 | the end reached drops exactly the trailing whitespace: what follows it is whitespace, and the character before it is not |
| `PyStr.Strip` | app/routes/rag_workflow.py:103 | the result is the slice of the input that starts after the leading whitespace; everything before and after it is whitespace, and neither its first nor its last character is whitespace |
| `PyStr.BlankIffAllSpace` | app/routes/rag_workflow.py:70 | `not s.strip()` holds exactly when every character of `s` is whitespace |
| `PyStr.StripIdempotent` | app/routes/rag_workflow.py:103 | stripping twice is stripping once |
| `PyStr.NewlineJoinBlank` | app/routes/rag_workflow.py:69-70 | a newline-join is whitespace-only exactly when every part is |
| `PyStr.Join` | app/rag_workflow.py:53 | a join's length is the parts' total length plus one separator between each pair, and it starts with the first part |
| `PyPath.RFind` | app/routes/add-data.py:60 | the index of the last occurrence of the character, or -1: it holds that character and none follows it |
| `PyPath.JoinPath` | app/pdf_parser_service.py:36 | an absolute second part replaces the first; otherwise the result starts with the first part and ends with the second |
| `PyPath.SplitExt` | app/routes/add-data.py:60 | the stem and extension concatenate to the path; the extension starts with a dot and has no further dot or slash; a non-empty extension has a stem that is not only dots |
| `PyPath.SuffixFromLastDot` | app/routes/add-data.py:60 | the suffix from the last dot after the last slash is an extension: a dot followed by no dot or slash |
| `PyPath.SplitExtFindsLastDot` | app/routes/add-data.py:60 | for a dot after the last slash, with no dot after it and a stem that is not only dots, the extension starts at that dot |
| `PyPath.SplitExtOfName` | app/routes/add-data.py:60 | a file name with a stem that is not only dots, followed by a dot suffix, splits into exactly that stem and suffix |
| `PyPath.SplitExtOfDotsOnly` | app/routes/add-data.py:60 | a name whose stem is only dots (".png", "..pdf") has no extension |
| `AddData.FileExtension` | app/routes/add-data.py:60 | the extension is the splitext suffix with each character lower-cased: same length, a leading dot when non-empty, and no ASCII capital |
| `AddData.ExtensionOfName` | app/routes/add-data.py:60 | a plain file name's extension is its lower-cased last-dot suffix, and it is empty when the stem is only dots |
| `AddData.Prepare` | app/routes/add-data.py:70-79 | the dispatch and the chosen extractor's chunks, an unsupported type, or an extraction failure; stated by `ParseUpload` and the `*ChunkTags` lemmas |
| `AddData.PdfChunks` | app/routes/add-data.py:30-39 | `parse_and_chunk_pdf`: the concatenated pages split and tagged with the path; stated by `PdfChunkTags` |
| `AddData.ParseAndChunkText` | app/routes/add-data.py:41-45 | `parse_and_chunk_text`: the decoded bytes split and tagged "uploaded_text.txt"; stated by `TextChunkTags` |
| `AddData.ParseAndChunkImage` | app/routes/add-data.py:47-52 | `parse_and_chunk_image`: the OCR text split and tagged with the path; stated by `ImageChunkTags` |
| `AddData.AddDataReply` | app/routes/add-data.py:56-93 | the handler's reply; stated by `ReplyIsSuccessOrGeneric500`, `UpsertsFollowChunks` and the failure lemmas |
| `AddData.AddDataUpserts` | app/routes/add-data.py:82-84 | the entries added, in order; stated by `UpsertsFollowChunks`, `UpsertFailure` and `RemoveFailure` |
| `AddData.AddDataTempFiles` | app/routes/add-data.py:64-93 | the temporary files after the request; stated by `TempFileCleanup` |
| `AddData.KindOf` | app/routes/add-data.py:71-77 | an extractor is chosen exactly for ".pdf", ".txt", ".jpg" and ".png": the PDF reader exactly for ".pdf", text decoding exactly for ".txt", and OCR exactly for ".jpg" and ".png" |
| `AddData.UnsupportedExtension` | app/routes/add-data.py:77-79 | any other extension is the generic 500, nothing is added, and the created temporary file stays |
| `AddData.TagChunks` | app/routes/add-data.py:39 | one record per splitter piece, in order, each carrying that piece and the given file tag |
| `AddData.TextChunkTags` | app/routes/add-data.py:41-45 | text uploads give one chunk per piece of the decoded text, tagged "uploaded_text.txt" |
| `AddData.PdfChunkTags` | app/routes/add-data.py:30-39 | PDF uploads give one chunk per piece of the concatenated page texts, tagged "temp/" + filename |
| `AddData.ImageChunkTags` | app/routes/add-data.py:47-52 | image uploads give one chunk per piece of the OCR text, tagged "temp/" + filename |
| `AddData.ParseAndChunkPdf` | app/routes/add-data.py:30-39 | the page loop and tagging compute the PDF chunks, or fail when opening or any page raises |
| `AddData.ParseUpload` | app/routes/add-data.py:70-79 | the dispatch computes the prepared chunks, or reports an unsupported type or an extractor failure |
| `AddData.ExtractionFailure` | app/routes/add-data.py:91-93 | a failing extractor rejects the upload with the generic 500 and adds nothing |
| `AddData.AcceptedFrom` | app/routes/add-data.py:82-84 | the count stops at the first chunk whose call fails; every call before it succeeded |
| `AddData.UpsertsFollowChunks` | app/routes/add-data.py:82-89 | the added entries are one per chunk, in order, each with the chunk's content and `{"file": …}`, up to the first failure; the upload succeeds exactly when all chunks are added and the temporary file is then removed |
| `AddData.UpsertFailure` | app/routes/add-data.py:82-93 | when the call for chunk n fails, exactly the first n entries were added, the reply is the generic 500 and the temporary file stays |
| `AddData.AcceptedAt` | app/routes/add-data.py:82-84 | the walk from any earlier position stops at the first failing chunk |
| `AddData.WriteFailure` | app/routes/add-data.py:67-68 | when the file is created but writing raises, the reply is the generic 500, nothing is added, and the created file stays |
| `AddData.RemoveFailure` | app/routes/add-data.py:82-93 | when every chunk is added but `os.remove` raises, all entries stay, the reply is the generic 500, and the file stays |
| `AddData.TempFileCleanup` | app/routes/add-data.py:64-93 | the temporary file is gone exactly on success, left in place on every error after it was created, untouched when creating it failed, and no other file is touched |
| `AddData.SuccessReply` | app/routes/add-data.py:82-89 | with zero chunks the upload succeeds with no entries, and the message names the file |
| `AddData.ReplyIsSuccessOrGeneric500` | app/routes/add-data.py:89-93 | every reply is the success body or the one generic 500 |
| `AddData.MissingImportsRejectPdfAndImages` | app/routes/add-data.py:32-49 | with readers that always raise, as the missing imports make them, every PDF and image upload is the generic 500 with nothing added |
| `AddData.HelloWorldText` | app/routes/add-data.py:41-89 | a text upload "Hello world" that the splitter keeps whole adds exactly one entry tagged "uploaded_text.txt" and succeeds |
| `AddData.IngestionServer.AddDataToPinecone` | app/routes/add-data.py:56-93 | the reply, the entries appended to the store and the new set of temporary files are those of the handler's specification functions |
| `AddData.IngestionServer.UpsertChunks` | app/routes/add-data.py:82-84 | appends exactly the calls for the chunks before the first failure, and leaves the temporary files alone |
| `PdfText.ConcatPages` | app/pdf_parser_service.py:23-25 | a text is produced exactly when every page's extraction succeeds |
| `PdfText.ConcatPagesAppend` | app/pdf_parser_service.py:23-25 | extracting a document in two parts and concatenating is extracting it whole, so page order is kept |
| `PdfText.ConcatOnePage` | app/routes/add-data.py:33-35 | a single page contributes exactly its text |
| `PdfText.ExtractText` | app/routes/add-data.py:33-35 | the `text +=` loop computes the page concatenation, and stops at the first failing page |
| `PdfParserService.ParseResult` | app/pdf_parser_service.py:19-29 | `parse_pdf` yields `{"file": path, "content": pages concatenated}` exactly when opening and every page succeed, and None otherwise |
| `PdfParserService.ParsePdf` | app/pdf_parser_service.py:19-29 | the method computes that result and never raises |
| `PdfParserService.ProcessPdfs` | app/pdf_parser_service.py:32-42 | the loop collects exactly the specified records |
| `PdfParserService.Processed` | app/pdf_parser_service.py:35-42 | the records `process_pdfs` collects; stated by `ProcessedAppend`, `ProcessedCount`, `ProcessedFromPdfNames` and `OnlyPdfNamesRead` |
| `PdfParserService.IsPdfName` | app/pdf_parser_service.py:37 | `file_name.endswith(".pdf")`, case-sensitive; stated by `UpperCaseSkipped` |
| `PdfParserService.ListingPath` | app/pdf_parser_service.py:36 | `os.path.join("data/raw", file_name)` |
| `PdfParserService.ProcessedAppend` | app/pdf_parser_service.py:35-40 | the records of a listing are those of its parts, in listing order |
| `PdfParserService.ProcessedCount` | app/pdf_parser_service.py:35-40 | there are at most as many records as `.pdf` names, and exactly as many when every parse succeeds |
| `PdfParserService.ProcessedFromPdfNames` | app/pdf_parser_service.py:37-40 | every record is the successful parse of some `.pdf` name of the listing |
| `PdfParserService.OnlyPdfNamesRead` | app/pdf_parser_service.py:37-42 | names not ending in ".pdf" are never parsed: readers that agree on the `.pdf` paths give the same result |
| `PdfParserService.EmptyPdfKept` | app/pdf_parser_service.py:38-40 | a successful parse with empty content is still kept |
| `PdfParserService.UpperCaseSkipped` | app/pdf_parser_service.py:37 | the suffix test is case-sensitive: "REPORT.PDF" is skipped |
| `Http.Decimal` | app/routes/rag_workflow.py:112 | the status renders as a non-empty string of decimal digits whose value is the status |

## Left out

- Logging, `os.makedirs`, `os.listdir`, the JSON dump in `process_pdfs` and reading the upload body are all I/O. The directory listing is an input sequence, and the upload body is an input byte sequence.
- The external services are oracles: OpenAI embeddings, chat and completions, Pinecone query, `describe_index_stats` and `add_texts`, `PdfReader`, pytesseract, UTF-8 decoding and the LangChain splitter. Nothing is assumed about their results beyond their types.
- The splitter is a parameter. The values `chunk_size=500` and `chunk_overlap=50` are recorded as constants, but nothing is claimed about chunk sizes or overlap.
- Embedding vectors and similarity scores are opaque. The temperature 0.7 is a constant that is only passed along.
- The `openai.api_key` assignment and the module-level client initialisation are left out.
- The outcome of the `describe_index_stats` call made on a retrieval failure is ignored, as the handler only logs it. The call is recorded in the trace.
- AddData.RemoveFailure: a failing `os.remove` is taken to leave the file in place. The model does not tell apart a removal that fails because another request for the same name already deleted the file. Requests are not interleaved in this model.
- `os.makedirs("temp")` and `open(temp_path, "wb")` are one oracle: either can raise before the file exists.
- QueryPipeline.StageErrorText: relies on Starlette rendering `str(HTTPException)` as "<status>: <detail>". That class is not part of this model.
- AddData.FileExtension: `str.lower` is modelled for ASCII letters only, so non-ASCII capitals are left unchanged.
- `PdfReader` and `Image` are not imported in `app/routes/add-data.py`, so in practice its PDF and image extractors raise. They are modelled as general extraction oracles, and `AddData.MissingImportsRejectPdfAndImages` states the outcome when they always raise.
- The earlier query handler calls `similarity_search(query_embedding, top_k=3)` and `embeddings.openai_api.create_completion(prompt=…, engine=…)` and subscripts documents as dictionaries. These are modelled with their arguments as written, through oracles. Whether those library calls accept such arguments is not modelled.
- A missing (None) upload file name is not modelled: `filename` is a string.
- A failing `add_texts` call is not recorded in `upserts`, because it is taken to add nothing. Entries added before it stay, as there is no rollback.
- The record dicts are modelled as datatypes. Their JSON form is not modelled.
- `streamlit_app/main.py`, `app/app.py` and `app/config.py` are user interface, router mounting and configuration glue, and are not part of this model.
