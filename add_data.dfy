/**
 * `POST /add-data`: store the upload under `temp/`, pick an extractor by the
 * lower-cased extension, split the text into chunks tagged with their source,
 * and add the chunks to the vector store one at a time. Reader, OCR, UTF-8
 * decoding, the splitter, the vector store and the file system are oracles.
 */
module AddData {
  import opened Outcomes
  import opened PyStr
  import opened PyPath
  import opened Http
  import opened PdfText

  newtype Byte = x: int | 0 <= x < 256

  const TempDir := "temp"
  const TextChunkFile := "uploaded_text.txt"
  /** Passed to the splitter (`chunk_size=500, chunk_overlap=50`); the splitter itself is an oracle. */
  const ChunkSize: nat := 500
  const ChunkOverlap: nat := 50
  const FileErrorDetail := "An error occurred while processing the file."

  /** An `UploadFile`: its name and the bytes `file.file.read()` returns. */
  datatype Upload = Upload(filename: string, content: seq<Byte>)

  /** `{"content": chunk, "file": …}` */
  datatype Chunk = Chunk(content: string, file: string)

  datatype FileKind = Pdf | Text | Image

  /** `vector_store.add_texts([content], metadata={"file": file})` */
  datatype AddTextsCall = AddTextsCall(texts: seq<string>, metadata: map<string, string>)

  datatype Services = Services(
    openTemp: string -> bool,                      // `os.makedirs("temp")` and `open(temp_path, "wb")` create the file
    writeTemp: (string, seq<Byte>) -> bool,        // `temp_file.write(content)` succeeds on the created file
    removeTemp: string -> bool,                    // `os.remove(temp_path)` succeeds
    readPdf: PdfReader,                            // `PdfReader(path).pages[i].extract_text()`
    ocr: string -> Outcome<string>,                // `pytesseract.image_to_string(Image.open(path))`
    decodeUtf8: seq<Byte> -> Outcome<string>,      // `content.decode("utf-8")`
    split: string -> seq<string>,                  // `RecursiveCharacterTextSplitter(500, 50).split_text`
    addTexts: (nat, AddTextsCall) -> bool)         // the i-th `add_texts` call of the request succeeds

  /** `{"status": "success", "message": …}` */
  datatype SuccessBody = SuccessBody(status: string, message: string)

  datatype Reply = Accepted(body: SuccessBody) | Rejected(error: HttpException)

  /** The generic `except` at lines 91-93: whatever was raised, the client sees this. */
  const FileError: Reply := Rejected(HttpException(500, FileErrorDetail))

  /** `os.path.splitext(filename)[1].lower()` */
  function FileExtension(filename: string): (ext: string)
    ensures |ext| == |SplitExt(filename).1|
    ensures ext != [] ==> ext[0] == '.'
    ensures forall k :: 0 <= k < |ext| ==> !('A' <= ext[k] <= 'Z')
    ensures forall k :: 0 <= k < |ext| ==> ext[k] == LowerChar(SplitExt(filename).1[k])
  {
    LowerAscii(SplitExt(filename).1)
  }

  /** The dispatch at lines 71-79. */
  function KindOf(ext: string): (kind: Option<FileKind>)
    ensures kind.Some? <==> ext == ".pdf" || ext == ".txt" || ext == ".jpg" || ext == ".png"
    ensures kind == Some(Pdf) <==> ext == ".pdf"
    ensures kind == Some(Text) <==> ext == ".txt"
    ensures kind == Some(Image) <==> ext == ".jpg" || ext == ".png"
  {
    assert ".txt"[1] != ".pdf"[1] && ".jpg"[1] != ".pdf"[1] && ".png"[2] != ".pdf"[2];
    if ext == ".pdf" then Some(Pdf)
    else if ext == ".txt" then Some(Text)
    else if ext == ".jpg" || ext == ".png" then Some(Image)
    else None
  }

  /** `f"temp/{file.filename}"` */
  function TempPath(filename: string): string
  {
    TempDir + "/" + filename
  }

  /** The comprehension `[{"content": chunk, "file": file} for chunk in chunks]`. */
  function TagChunks(pieces: seq<string>, file: string): (chunks: seq<Chunk>)
    ensures |chunks| == |pieces|
    ensures forall k :: 0 <= k < |pieces| ==> chunks[k] == Chunk(pieces[k], file)
  {
    if pieces == [] then [] else [Chunk(pieces[0], file)] + TagChunks(pieces[1..], file)
  }

  /** What `parse_and_chunk_pdf(path)` returns, or Fail when it raises. */
  function PdfChunks(svc: Services, path: string): Outcome<seq<Chunk>>
  {
    match svc.readPdf(path)
    case Fail => Fail
    case Ok(pages) =>
      match ConcatPages(pages)
      case None => Fail
      case Some(text) => Ok(TagChunks(svc.split(text), path))
  }

  /** `parse_and_chunk_pdf(file_path)`: concatenate the pages, split, tag with the path. */
  method ParseAndChunkPdf(svc: Services, path: string) returns (r: Outcome<seq<Chunk>>)
    ensures r == PdfChunks(svc, path)
  {
    match svc.readPdf(path)
    case Fail =>
      r := Fail;
    case Ok(pages) =>
      var text := ExtractText(pages);
      match text
      case None => r := Fail;
      case Some(t) => r := Ok(TagChunks(svc.split(t), path));
  }

  /** `parse_and_chunk_text(content)`: decode, split, tag with the fixed name. */
  function ParseAndChunkText(svc: Services, content: seq<Byte>): Outcome<seq<Chunk>>
  {
    match svc.decodeUtf8(content)
    case Fail => Fail
    case Ok(text) => Ok(TagChunks(svc.split(text), TextChunkFile))
  }

  /** `parse_and_chunk_image(file_path)`: OCR, split, tag with the path. */
  function ParseAndChunkImage(svc: Services, path: string): Outcome<seq<Chunk>>
  {
    match svc.ocr(path)
    case Fail => Fail
    case Ok(text) => Ok(TagChunks(svc.split(text), path))
  }

  /** How the parsing step ends. */
  datatype Prepared = Chunks(chunks: seq<Chunk>) | Unsupported | ExtractionFailed

  /** Lines 71-79 for an upload already written to its temporary path. */
  function Prepare(svc: Services, up: Upload): Prepared
  {
    var tp := TempPath(up.filename);
    var parsed := match KindOf(FileExtension(up.filename))
      case None => Fail
      case Some(Pdf) => PdfChunks(svc, tp)
      case Some(Text) => ParseAndChunkText(svc, up.content)
      case Some(Image) => ParseAndChunkImage(svc, tp);
    if KindOf(FileExtension(up.filename)).None? then Unsupported
    else match parsed
      case Fail => ExtractionFailed
      case Ok(cs) => Chunks(cs)
  }

  /** The call made for one chunk at line 83. */
  function CallFor(c: Chunk): AddTextsCall
  {
    AddTextsCall([c.content], map["file" := c.file])
  }

  /** How many chunks from position `k` on are added before the first failing call. */
  function AcceptedFrom(svc: Services, cs: seq<Chunk>, k: nat): (n: nat)
    requires k <= |cs|
    ensures k <= n <= |cs|
    ensures forall j :: k <= j < n ==> svc.addTexts(j, CallFor(cs[j]))
    ensures n < |cs| ==> !svc.addTexts(n, CallFor(cs[n]))
    decreases |cs| - k
  {
    if k == |cs| then k
    else if svc.addTexts(k, CallFor(cs[k])) then AcceptedFrom(svc, cs, k + 1)
    else k
  }

  /** The calls for the first `n` chunks, in chunk order. */
  function CallsFor(cs: seq<Chunk>, n: nat): seq<AddTextsCall>
    requires n <= |cs|
  {
    seq(n, j requires 0 <= j < n => CallFor(cs[j]))
  }

  function SuccessMessage(filename: string): string
  {
    "File " + filename + " processed and added to Pinecone."
  }

  /** Lines 64-68: the temporary file is created, and then the upload's bytes are written to it. */
  predicate Stored(svc: Services, up: Upload)
  {
    svc.openTemp(TempPath(up.filename)) && svc.writeTemp(TempPath(up.filename), up.content)
  }

  /** The path to success: stored, parsed, every chunk added, and the file removed at line 87. */
  predicate Completes(svc: Services, up: Upload)
  {
    && Stored(svc, up)
    && Prepare(svc, up).Chunks?
    && AcceptedFrom(svc, Prepare(svc, up).chunks, 0) == |Prepare(svc, up).chunks|
    && svc.removeTemp(TempPath(up.filename))
  }

  /** The reply of `add_data_to_pinecone(file)`. */
  function AddDataReply(svc: Services, up: Upload): Reply
  {
    if Completes(svc, up) then Accepted(SuccessBody("success", SuccessMessage(up.filename)))
    else FileError
  }

  /** The entries the request adds to the vector store, in order. */
  function AddDataUpserts(svc: Services, up: Upload): seq<AddTextsCall>
  {
    if !Stored(svc, up) then []
    else match Prepare(svc, up)
      case Chunks(cs) => CallsFor(cs, AcceptedFrom(svc, cs, 0))
      case _ => []
  }

  /** The files under `temp/` after the request, given those before it. */
  function AddDataTempFiles(svc: Services, up: Upload, before: set<string>): set<string>
  {
    var tp := TempPath(up.filename);
    if !svc.openTemp(tp) then before
    else if Completes(svc, up) then (before + {tp}) - {tp}
    else before + {tp}
  }

  /**
   * The state the ingestion handler acts on: what it has added to the vector
   * store and which temporary files it has left on disk.
   */
  class IngestionServer {
    var upserts: seq<AddTextsCall>
    var tempFiles: set<string>

    constructor ()
      ensures upserts == [] && tempFiles == {}
    {
      upserts := [];
      tempFiles := {};
    }

    /** `add_data_to_pinecone(file)` */
    method AddDataToPinecone(svc: Services, up: Upload) returns (reply: Reply)
      modifies this
      ensures reply == AddDataReply(svc, up)
      ensures upserts == old(upserts) + AddDataUpserts(svc, up)
      ensures tempFiles == AddDataTempFiles(svc, up, old(tempFiles))
    {
      var tp := TempPath(up.filename);
      if !svc.openTemp(tp) {
        return FileError;
      }
      tempFiles := tempFiles + {tp};
      if !svc.writeTemp(tp, up.content) {
        return FileError;
      }
      var parsed := ParseUpload(svc, up);
      if !parsed.Chunks? {
        return FileError;
      }
      var n := UpsertChunks(svc, parsed.chunks);
      if n < |parsed.chunks| {
        return FileError;
      }
      if !svc.removeTemp(tp) {
        return FileError;
      }
      tempFiles := tempFiles - {tp};
      reply := Accepted(SuccessBody("success", SuccessMessage(up.filename)));
    }

    /** Lines 82-84: one `add_texts` call per chunk, in order, stopping at the first that raises. */
    method UpsertChunks(svc: Services, chunks: seq<Chunk>) returns (n: nat)
      modifies this
      ensures n == AcceptedFrom(svc, chunks, 0)
      ensures upserts == old(upserts) + CallsFor(chunks, n)
      ensures tempFiles == old(tempFiles)
    {
      ghost var accepted := AcceptedFrom(svc, chunks, 0);
      n := 0;
      while n < |chunks|
        invariant 0 <= n <= accepted
        invariant upserts == old(upserts) + CallsFor(chunks, n)
        invariant tempFiles == old(tempFiles)
      {
        var call := CallFor(chunks[n]);
        if !svc.addTexts(n, call) {
          return;
        }
        assert CallsFor(chunks, n + 1) == CallsFor(chunks, n) + [call];
        upserts := upserts + [call];
        n := n + 1;
      }
    }
  }

  /** Lines 60 and 71-79: dispatch on the extension and run the matching extractor. */
  method ParseUpload(svc: Services, up: Upload) returns (parsed: Prepared)
    ensures parsed == Prepare(svc, up)
  {
    var tp := TempPath(up.filename);
    var ext := FileExtension(up.filename);
    var r: Outcome<seq<Chunk>>;
    match KindOf(ext) {
      case None =>
        return Unsupported;
      case Some(Pdf) =>
        r := ParseAndChunkPdf(svc, tp);
      case Some(Text) =>
        r := ParseAndChunkText(svc, up.content);
      case Some(Image) =>
        r := ParseAndChunkImage(svc, tp);
    }
    parsed := if r.Fail? then ExtractionFailed else Chunks(r.value);
  }

  // ---------------------------------------------------------------------------
  // Properties of the handler

  /**
   * For a plain file name the extension is the lower-cased suffix from its last dot,
   * and a name whose part before that dot is only dots has none.
   */
  lemma ExtensionOfName(stem: string, ext: string)
    requires forall k :: 0 <= k < |stem| ==> stem[k] != '/'
    requires IsExtensionShape(ext)
    ensures !AllDots(stem) ==> FileExtension(stem + ext) == LowerAscii(ext)
    ensures AllDots(stem) ==> FileExtension(stem + ext) == ""
  {
    if AllDots(stem) {
      SplitExtOfDotsOnly(stem, ext);
    } else {
      SplitExtOfName(stem, ext);
    }
  }

  /**
   * An unsupported extension is rejected with the generic 500 (the 400 raised for it
   * is caught by the generic handler), before any `add_texts` call; the temporary file
   * that was created stays behind.
   */
  lemma UnsupportedExtension(svc: Services, up: Upload, before: set<string>)
    requires KindOf(FileExtension(up.filename)).None?
    ensures AddDataReply(svc, up) == Rejected(HttpException(500, "An error occurred while processing the file."))
    ensures AddDataUpserts(svc, up) == []
    ensures svc.openTemp(TempPath(up.filename)) ==> TempPath(up.filename) in AddDataTempFiles(svc, up, before)
  {
  }

  /** Text uploads are split as decoded and every chunk is tagged "uploaded_text.txt". */
  lemma TextChunkTags(svc: Services, up: Upload, text: string)
    requires FileExtension(up.filename) == ".txt"
    requires svc.decodeUtf8(up.content) == Ok(text)
    ensures Prepare(svc, up).Chunks?
    ensures var cs := Prepare(svc, up).chunks;
      && |cs| == |svc.split(text)|
      && forall k :: 0 <= k < |cs| ==> cs[k] == Chunk(svc.split(text)[k], "uploaded_text.txt")
  {
  }

  /** PDF uploads are split from the concatenated page texts, every chunk tagged with "temp/<filename>". */
  lemma PdfChunkTags(svc: Services, up: Upload, pages: seq<Outcome<string>>, text: string)
    requires FileExtension(up.filename) == ".pdf"
    requires svc.readPdf(TempPath(up.filename)) == Ok(pages) && ConcatPages(pages) == Some(text)
    ensures Prepare(svc, up).Chunks?
    ensures var cs := Prepare(svc, up).chunks;
      && |cs| == |svc.split(text)|
      && forall k :: 0 <= k < |cs| ==> cs[k] == Chunk(svc.split(text)[k], "temp/" + up.filename)
  {
    assert TempPath(up.filename) == "temp/" + up.filename;
  }

  /** Image uploads are split from the OCR text, every chunk tagged with "temp/<filename>". */
  lemma ImageChunkTags(svc: Services, up: Upload, text: string)
    requires FileExtension(up.filename) == ".jpg" || FileExtension(up.filename) == ".png"
    requires svc.ocr(TempPath(up.filename)) == Ok(text)
    ensures Prepare(svc, up).Chunks?
    ensures var cs := Prepare(svc, up).chunks;
      && |cs| == |svc.split(text)|
      && forall k :: 0 <= k < |cs| ==> cs[k] == Chunk(svc.split(text)[k], "temp/" + up.filename)
  {
    assert TempPath(up.filename) == "temp/" + up.filename;
  }

  /** A failing extractor (a reader, OCR or decoding error) rejects the upload with nothing added. */
  lemma ExtractionFailure(svc: Services, up: Upload)
    requires Prepare(svc, up) == ExtractionFailed
    ensures AddDataReply(svc, up) == FileError
    ensures AddDataUpserts(svc, up) == []
  {
  }

  /**
   * With the chunks prepared, the added entries are one per chunk, in chunk order, each
   * carrying the chunk's content and `{"file": …}`, up to the first call that fails; the
   * upload succeeds exactly when none fails and the temporary file is then removed.
   */
  lemma UpsertsFollowChunks(svc: Services, up: Upload, cs: seq<Chunk>)
    requires Stored(svc, up)
    requires Prepare(svc, up) == Chunks(cs)
    ensures var ups := AddDataUpserts(svc, up);
      && |ups| <= |cs|
      && (forall k :: 0 <= k < |ups| ==> ups[k] == AddTextsCall([cs[k].content], map["file" := cs[k].file]))
      && (forall k :: 0 <= k < |ups| ==> svc.addTexts(k, ups[k]))
      && (AddDataReply(svc, up).Accepted? <==> |ups| == |cs| && svc.removeTemp(TempPath(up.filename)))
  {
  }

  /**
   * When the call for chunk `n` fails, chunks after it are never sent, the ones
   * before it stay in the store, the reply is the generic 500 and the temporary
   * file is left in place.
   */
  lemma UpsertFailure(svc: Services, up: Upload, cs: seq<Chunk>, n: nat, before: set<string>)
    requires Stored(svc, up)
    requires Prepare(svc, up) == Chunks(cs)
    requires n < |cs| && !svc.addTexts(n, CallFor(cs[n]))
    requires forall j :: 0 <= j < n ==> svc.addTexts(j, CallFor(cs[j]))
    ensures AddDataUpserts(svc, up) == CallsFor(cs, n)
    ensures AddDataReply(svc, up) == FileError
    ensures TempPath(up.filename) in AddDataTempFiles(svc, up, before)
  {
    AcceptedAt(svc, cs, 0, n);
  }

  /** The first failing position is found by the walk from `k`, whatever `k` it starts at below it. */
  lemma {:induction false} AcceptedAt(svc: Services, cs: seq<Chunk>, k: nat, n: nat)
    requires k <= n < |cs| && !svc.addTexts(n, CallFor(cs[n]))
    requires forall j :: k <= j < n ==> svc.addTexts(j, CallFor(cs[j]))
    ensures AcceptedFrom(svc, cs, k) == n
    decreases n - k
  {
    if k < n {
      AcceptedAt(svc, cs, k + 1, n);
    }
  }

  /**
   * The file is created but writing the bytes raises: the generic 500, nothing
   * added, and the created file stays behind.
   */
  lemma WriteFailure(svc: Services, up: Upload, before: set<string>)
    requires svc.openTemp(TempPath(up.filename)) && !svc.writeTemp(TempPath(up.filename), up.content)
    ensures AddDataReply(svc, up) == FileError
    ensures AddDataUpserts(svc, up) == []
    ensures AddDataTempFiles(svc, up, before) == before + {"temp/" + up.filename}
  {
    assert TempPath(up.filename) == "temp/" + up.filename;
  }

  /**
   * Every chunk is added but `os.remove` raises: the entries all stay in the store,
   * yet the client sees the generic 500, and the file is left in place.
   */
  lemma RemoveFailure(svc: Services, up: Upload, cs: seq<Chunk>, before: set<string>)
    requires Stored(svc, up) && Prepare(svc, up) == Chunks(cs)
    requires forall j :: 0 <= j < |cs| ==> svc.addTexts(j, CallFor(cs[j]))
    requires !svc.removeTemp(TempPath(up.filename))
    ensures AddDataUpserts(svc, up) == CallsFor(cs, |cs|)
    ensures AddDataReply(svc, up) == FileError
    ensures TempPath(up.filename) in AddDataTempFiles(svc, up, before)
  {
  }

  /**
   * The temporary file is removed exactly on success; on every error after it was
   * created (a failed write, parse, `add_texts` or removal) it is left in place;
   * when creating it failed nothing changes.
   */
  lemma TempFileCleanup(svc: Services, up: Upload, before: set<string>)
    ensures var tp := TempPath(up.filename);
      && (AddDataReply(svc, up).Accepted? ==> tp !in AddDataTempFiles(svc, up, before))
      && (AddDataReply(svc, up).Rejected? && svc.openTemp(tp) ==> tp in AddDataTempFiles(svc, up, before))
      && (!svc.openTemp(tp) ==> AddDataTempFiles(svc, up, before) == before)
      && AddDataTempFiles(svc, up, before) - {tp} == before - {tp}
  {
  }

  /** Success reports the file name; an upload with no chunks succeeds with no entries added. */
  lemma SuccessReply(svc: Services, up: Upload)
    requires Stored(svc, up) && svc.removeTemp(TempPath(up.filename))
    requires Prepare(svc, up) == Chunks([])
    ensures AddDataReply(svc, up) == Accepted(SuccessBody("success", "File " + up.filename + " processed and added to Pinecone."))
    ensures AddDataUpserts(svc, up) == []
  {
  }

  /** Every reply is either the success body or the one generic 500. */
  lemma ReplyIsSuccessOrGeneric500(svc: Services, up: Upload)
    ensures AddDataReply(svc, up) == FileError
         || AddDataReply(svc, up) == Accepted(SuccessBody("success", SuccessMessage(up.filename)))
  {
  }

  /**
   * `PdfReader` and `Image` are not imported by the handler's module, so both
   * extractors raise a NameError: with readers that always fail, every PDF or
   * image upload is rejected and nothing reaches the store.
   */
  lemma MissingImportsRejectPdfAndImages(svc: Services, up: Upload)
    requires forall path :: svc.readPdf(path) == Fail
    requires forall path :: svc.ocr(path) == Fail
    requires FileExtension(up.filename) == ".pdf" || FileExtension(up.filename) == ".jpg" || FileExtension(up.filename) == ".png"
    ensures AddDataReply(svc, up) == FileError
    ensures AddDataUpserts(svc, up) == []
  {
    var tp := TempPath(up.filename);
    assert PdfChunks(svc, tp) == Fail && ParseAndChunkImage(svc, tp) == Fail;
    assert Prepare(svc, up) == ExtractionFailed;
  }

  /** A text file "Hello world" that the splitter keeps whole becomes exactly one entry. */
  lemma HelloWorldText(svc: Services, up: Upload)
    requires FileExtension(up.filename) == ".txt"
    requires svc.decodeUtf8(up.content) == Ok("Hello world")
    requires svc.split("Hello world") == ["Hello world"]
    requires Stored(svc, up) && svc.removeTemp(TempPath(up.filename))
    requires svc.addTexts(0, AddTextsCall(["Hello world"], map["file" := "uploaded_text.txt"]))
    ensures AddDataUpserts(svc, up) == [AddTextsCall(["Hello world"], map["file" := "uploaded_text.txt"])]
    ensures AddDataReply(svc, up).Accepted?
  {
    var c := Chunk("Hello world", TextChunkFile);
    assert TagChunks(["Hello world"], TextChunkFile) == [c];
    assert Prepare(svc, up) == Chunks([c]);
    assert CallFor(c) == AddTextsCall(["Hello world"], map["file" := "uploaded_text.txt"]);
    assert AcceptedFrom(svc, [c], 0) == 1;
    assert CallsFor([c], 1) == [CallFor(c)];
  }
}
