/**
 * The batch PDF parser: every `.pdf` name of the raw-data directory listing is
 * parsed, and the successful results are collected in listing order. Listing
 * the directory and writing the JSON file are left to the caller.
 */
module PdfParserService {
  import opened Outcomes
  import opened PyStr
  import opened PyPath
  import opened PdfText

  const RawDataDir := "data/raw"

  /** `{"file": file_path, "content": text}` */
  datatype ParsedPdf = ParsedPdf(file: string, content: string)

  /** What `parse_pdf(path)` returns: the record, or None when opening or any page raised. */
  function ParseResult(reader: PdfReader, path: string): (r: Option<ParsedPdf>)
    ensures r.Some? <==> reader(path).Ok? && ConcatPages(reader(path).value).Some?
    ensures r.Some? ==> r.value == ParsedPdf(path, ConcatPages(reader(path).value).value)
  {
    match reader(path)
    case Fail => None
    case Ok(pages) =>
      match ConcatPages(pages)
      case None => None
      case Some(text) => Some(ParsedPdf(path, text))
  }

  /** `parse_pdf(file_path)`: never raises; a failure is reported as None. */
  method ParsePdf(reader: PdfReader, path: string) returns (r: Option<ParsedPdf>)
    ensures r == ParseResult(reader, path)
  {
    match reader(path)
    case Fail =>
      r := None;
    case Ok(pages) =>
      var text := ExtractText(pages);
      match text
      case None => r := None;
      case Some(t) => r := Some(ParsedPdf(path, t));
  }

  /** `file_name.endswith(".pdf")`, case-sensitively. */
  predicate IsPdfName(name: string)
  {
    EndsWith(name, ".pdf")
  }

  /** `os.path.join(RAW_DATA_DIR, file_name)` */
  function ListingPath(name: string): string
  {
    JoinPath(RawDataDir, name)
  }

  /** What the loop at lines 35-42 collects from a listing. */
  function Processed(reader: PdfReader, listing: seq<string>): (data: seq<ParsedPdf>)
  {
    if listing == [] then []
    else
      var here := if IsPdfName(listing[0]) then
          match ParseResult(reader, ListingPath(listing[0]))
          case Some(p) => [p]
          case None => []
        else [];
      here + Processed(reader, listing[1..])
  }

  /** The result for a listing is the results for its parts, in order. */
  lemma {:induction false} ProcessedAppend(reader: PdfReader, a: seq<string>, b: seq<string>)
    ensures Processed(reader, a + b) == Processed(reader, a) + Processed(reader, b)
  {
    if a == [] {
      assert a + b == b;
    } else {
      assert (a + b)[0] == a[0];
      assert (a + b)[1..] == a[1..] + b;
      ProcessedAppend(reader, a[1..], b);
    }
  }

  /** `process_pdfs()` up to the JSON dump: the parsed records, in listing order. */
  method ProcessPdfs(reader: PdfReader, listing: seq<string>) returns (data: seq<ParsedPdf>)
    ensures data == Processed(reader, listing)
  {
    data := [];
    var i := 0;
    while i < |listing|
      invariant 0 <= i <= |listing|
      invariant data == Processed(reader, listing[..i])
    {
      var name := listing[i];
      ghost var before := data;
      if IsPdfName(name) {
        var result := ParsePdf(reader, ListingPath(name));
        if result.Some? {
          data := data + [result.value];
        }
      }
      assert listing[..i + 1] == listing[..i] + [name];
      ProcessedAppend(reader, listing[..i], [name]);
      assert [name][1..] == [];
      i := i + 1;
    }
    assert listing[..i] == listing;
  }

  /** The number of `.pdf` names in a listing. */
  function PdfCount(listing: seq<string>): nat
  {
    if listing == [] then 0 else (if IsPdfName(listing[0]) then 1 else 0) + PdfCount(listing[1..])
  }

  /** At most one record per `.pdf` name, and exactly one each when every parse succeeds. */
  lemma {:induction false} ProcessedCount(reader: PdfReader, listing: seq<string>)
    ensures |Processed(reader, listing)| <= PdfCount(listing)
    ensures (forall k :: 0 <= k < |listing| && IsPdfName(listing[k]) ==> ParseResult(reader, ListingPath(listing[k])).Some?)
      ==> |Processed(reader, listing)| == PdfCount(listing)
  {
    if listing != [] {
      ProcessedCount(reader, listing[1..]);
      assert forall k :: 0 <= k < |listing[1..]| ==> listing[1..][k] == listing[k + 1];
    }
  }

  /** Every record is the successful parse of some `.pdf` name of the listing. */
  lemma {:induction false} ProcessedFromPdfNames(reader: PdfReader, listing: seq<string>, j: nat)
    requires j < |Processed(reader, listing)|
    ensures exists k :: 0 <= k < |listing| && IsPdfName(listing[k]) &&
                        ParseResult(reader, ListingPath(listing[k])) == Some(Processed(reader, listing)[j])
  {
    var here := Processed(reader, [listing[0]]);
    assert listing == [listing[0]] + listing[1..];
    ProcessedAppend(reader, [listing[0]], listing[1..]);
    assert [listing[0]][1..] == [];
    if j < |here| {
      assert IsPdfName(listing[0]);
    } else {
      ProcessedFromPdfNames(reader, listing[1..], j - |here|);
      var k :| 0 <= k < |listing[1..]| && IsPdfName(listing[1..][k]) &&
               ParseResult(reader, ListingPath(listing[1..][k])) == Some(Processed(reader, listing[1..])[j - |here|]);
      assert listing[k + 1] == listing[1..][k];
    }
  }

  /** Names not ending in ".pdf" are never parsed: readers that agree on the `.pdf` paths give the same result. */
  lemma {:induction false} OnlyPdfNamesRead(r1: PdfReader, r2: PdfReader, listing: seq<string>)
    requires forall k :: 0 <= k < |listing| && IsPdfName(listing[k]) ==> r1(ListingPath(listing[k])) == r2(ListingPath(listing[k]))
    ensures Processed(r1, listing) == Processed(r2, listing)
  {
    if listing != [] {
      assert forall k :: 0 <= k < |listing[1..]| ==> listing[1..][k] == listing[k + 1];
      OnlyPdfNamesRead(r1, r2, listing[1..]);
    }
  }

  /** A successful parse is kept even when its content is empty: the record dict is always truthy. */
  lemma EmptyPdfKept(reader: PdfReader, name: string)
    requires IsPdfName(name) && reader(ListingPath(name)) == Ok([])
    ensures Processed(reader, [name]) == [ParsedPdf(ListingPath(name), "")]
  {
    assert [name][1..] == [];
  }

  /** The suffix test is case-sensitive: an upper-case extension is skipped. */
  lemma UpperCaseSkipped(reader: PdfReader)
    ensures Processed(reader, ["REPORT.PDF"]) == []
  {
    assert ["REPORT.PDF"][1..] == [];
    assert "REPORT.PDF"[6..] != ".pdf" by { assert "REPORT.PDF"[6..][1] == 'P'; }
  }
}
