/** Text extraction from a PDF: the page loop shared by the ingestion handler and the batch parser. */
module PdfText {
  import opened Outcomes

  /**
   * `PdfReader(path)` followed by `page.extract_text()` for each of its pages:
   * opening the file may raise, and so may the extraction of any single page.
   */
  type PdfReader = string -> Outcome<seq<Outcome<string>>>

  /** The concatenation of the page texts in page order; None when some page raises. */
  function ConcatPages(pages: seq<Outcome<string>>): (r: Option<string>)
    ensures r.Some? <==> forall k :: 0 <= k < |pages| ==> pages[k].Ok?
  {
    if pages == [] then Some("")
    else match (ConcatPages(pages[..|pages| - 1]), pages[|pages| - 1])
      case (Some(t), Ok(p)) => Some(t + p)
      case _ => None
  }

  /** Extracting a document in two parts and concatenating is extracting it whole: page order is kept. */
  lemma {:induction false} ConcatPagesAppend(a: seq<Outcome<string>>, b: seq<Outcome<string>>)
    requires ConcatPages(a).Some? && ConcatPages(b).Some?
    ensures ConcatPages(a + b) == Some(ConcatPages(a).value + ConcatPages(b).value)
  {
    if b == [] {
      assert a + b == a;
      assert ConcatPages(a).value + "" == ConcatPages(a).value;
    } else {
      var b' := b[..|b| - 1];
      assert (a + b)[..|a + b| - 1] == a + b';
      assert (a + b)[|a + b| - 1] == b[|b| - 1];
      assert ConcatPages(b').Some?;
      ConcatPagesAppend(a, b');
      var x, y, p := ConcatPages(a).value, ConcatPages(b').value, b[|b| - 1].value;
      assert ConcatPages(b) == Some(y + p);
      assert ConcatPages(a + b) == Some((x + y) + p);
      assert (x + y) + p == x + (y + p);
    }
  }

  /** A single page contributes exactly its text. */
  lemma ConcatOnePage(t: string)
    ensures ConcatPages([Ok(t)]) == Some(t)
  {
    assert [Ok(t)][..0] == [];
    assert "" + t == t;
  }

  /** The `text += page.extract_text()` loop; it stops at the first page that raises. */
  method ExtractText(pages: seq<Outcome<string>>) returns (text: Option<string>)
    ensures text == ConcatPages(pages)
  {
    var acc := "";
    var i := 0;
    while i < |pages|
      invariant 0 <= i <= |pages|
      invariant ConcatPages(pages[..i]) == Some(acc)
    {
      assert pages[..i + 1][..i] == pages[..i];
      match pages[i] {
        case Fail =>
          return None;
        case Ok(t) =>
          acc := acc + t;
      }
      i := i + 1;
    }
    assert pages[..i] == pages;
    return Some(acc);
  }
}
