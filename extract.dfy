/** The page loop of `extractTextFromPdf` (server.mjs:49-56). Opening the
    document and reading each page's text items are library calls; their
    result is the input here: one sequence of text fragments per page. */
module TextExtraction {
  import opened Strings

  /** The text one page contributes: its fragments joined by a space, then a newline. */
  function PageText(fragments: seq<string>): string
  {
    Join(fragments, " ") + "\n"
  }

  /** The text of the first |pages| pages, accumulated in page order. */
  function PagesText(pages: seq<seq<string>>): string
  {
    if |pages| == 0 then "" else PagesText(pages[..|pages| - 1]) + PageText(pages[|pages| - 1])
  }

  /** The loop of `extractTextFromPdf`: `textContent += strings.join(" ") + "\n"` per page. */
  method ExtractText(pages: seq<seq<string>>) returns (textContent: string)
    ensures textContent == PagesText(pages)
  {
    textContent := "";
    var pageNum := 1;
    while pageNum <= |pages|
      invariant 1 <= pageNum <= |pages| + 1
      invariant textContent == PagesText(pages[..pageNum - 1])
    {
      var strings := pages[pageNum - 1];
      textContent := textContent + Join(strings, " ") + "\n";
      assert pages[..pageNum][..pageNum - 1] == pages[..pageNum - 1];
      pageNum := pageNum + 1;
    }
    assert pages[..|pages|] == pages;
  }

  /** Each page extends the text of the pages before it by exactly its own text. */
  lemma {:induction false} PagesTextPrefix(pages: seq<seq<string>>, k: nat)
    requires k <= |pages|
    ensures |PagesText(pages[..k])| <= |PagesText(pages)|
    ensures PagesText(pages)[..|PagesText(pages[..k])|] == PagesText(pages[..k])
    decreases |pages| - k
  {
    if k == |pages| {
      assert pages[..k] == pages;
    } else {
      var last := |pages| - 1;
      PagesTextPrefix(pages[..last], k);
      assert pages[..last][..k] == pages[..k];
    }
  }

  /** The text is the page texts joined by newlines, with one more (empty) line after
      the last page: every page, the last included, ends with a newline. */
  lemma {:induction false} PagesTextAsJoin(pages: seq<seq<string>>)
    ensures PagesText(pages) == Join(PageLines(pages) + [""], "\n")
  {
    if |pages| > 0 {
      var init := pages[..|pages| - 1];
      var last := Join(pages[|pages| - 1], " ");
      PagesTextAsJoin(init);
      assert PageLines(pages) == PageLines(init) + [last];
      if |init| == 0 {
        assert PageLines(pages) + [""] == [last, ""];
      } else {
        JoinSnoc(PageLines(init), last, "\n");
        JoinSnoc(PageLines(init) + [last], "", "\n");
        JoinSnoc(PageLines(init), "", "\n");
      }
    }
  }

  /** Each page's fragments joined by a space, in page order. */
  function PageLines(pages: seq<seq<string>>): (r: seq<string>)
    ensures |r| == |pages|
  {
    seq(|pages|, i requires 0 <= i < |pages| => Join(pages[i], " "))
  }

  /** When no fragment contains a newline, splitting the text at newlines gives back
      every page's line in page order (empty pages included) and a final empty line. */
  lemma PagesTextLines(pages: seq<seq<string>>)
    requires forall p, f :: 0 <= p < |pages| && 0 <= f < |pages[p]| ==> NoNewline(pages[p][f])
    ensures Lines(PagesText(pages)) == PageLines(pages) + [""]
  {
    PagesTextAsJoin(pages);
    forall p | 0 <= p < |pages| ensures NoNewline(Join(pages[p], " ")) {
      JoinNoNewline(pages[p], " ");
    }
    LinesOfJoin(PageLines(pages) + [""]);
  }

  lemma {:induction false} JoinNoNewline(xs: seq<string>, sep: string)
    requires NoNewline(sep)
    requires forall i :: 0 <= i < |xs| ==> NoNewline(xs[i])
    ensures NoNewline(Join(xs, sep))
  {
    if |xs| > 1 {
      JoinNoNewline(xs[1..], sep);
    }
  }

  /** Zero pages give the empty text; otherwise the text ends with a newline and has
      exactly one newline per page when no fragment contains one. */
  lemma PagesTextNewlines(pages: seq<seq<string>>)
    requires forall p, f :: 0 <= p < |pages| && 0 <= f < |pages[p]| ==> NoNewline(pages[p][f])
    ensures |pages| == 0 <==> PagesText(pages) == ""
    ensures Count('\n', PagesText(pages)) == |pages|
    ensures |pages| > 0 ==> PagesText(pages)[|PagesText(pages)| - 1] == '\n'
  {
    PagesTextLines(pages);
    LinesCount(PagesText(pages));
  }
}
