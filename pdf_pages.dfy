/** The page limit applied to an uploaded course PDF before its text is extracted
    (pages/03_exam_ally.py). A PDF is modelled as the sequence of its pages. */
module PdfPages {

  /** MAX_PDF_PAGES */
  const MaxPdfPages: nat := 30

  function Min(a: nat, b: nat): nat
  {
    if a <= b then a else b
  }

  /** Copies the first MaxPdfPages pages into a fresh writer when the document is
      longer than the limit; a shorter document is used as it is. */
  method TruncatePages<Page>(pages: seq<Page>) returns (kept: seq<Page>)
    ensures |kept| == Min(|pages|, MaxPdfPages)
    ensures kept == pages[..|kept|]
    ensures |pages| <= MaxPdfPages ==> kept == pages
  {
    if |pages| > MaxPdfPages {
      var writer: seq<Page> := [];
      for i := 0 to MaxPdfPages
        invariant writer == pages[..i]
      {
        writer := writer + [pages[i]];
      }
      kept := writer;
    } else {
      kept := pages;
    }
  }
}
