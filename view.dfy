/**
 * Which blocks of the page are shown for a given session state, and what the
 * results block contains.
 */
module View {
  import opened Document
  import opened Protocol
  import opened Render
  import opened Session

  /** The page is centred full-screen while nothing was submitted yet or a crawl runs. */
  predicate FullScreen(s: SessionState) { s.isInitial || s.isScraping }

  /** The product title above the form: no crawl running and no result. */
  predicate ShowTitle(s: SessionState) { !s.isScraping && |s.result| == 0 }

  /** The URL form. */
  predicate ShowForm(s: SessionState) { s.isInitial }

  /** The progress block with the visited window. */
  predicate ShowProgress(s: SessionState) { s.isScraping }

  /** The error line. */
  predicate ShowError(s: SessionState) { s.error != "" }

  /** The results block: no error and at least one page. */
  predicate ShowResults(s: SessionState) { s.error == "" && |s.result| > 0 }

  /** The pages shown by the results block, none when it is hidden. */
  function ResultsShown(s: SessionState): (r: seq<PageView>)
    ensures |r| > 0 <==> ShowResults(s)
  {
    if ShowResults(s) then RenderResults(s.result) else []
  }

  /** The progress list: the window's URLs in order, only while a crawl runs. */
  function ProgressShown(s: SessionState): seq<string>
  {
    if ShowProgress(s) then s.visitedUrls else []
  }

  /** Before anything happens: title and form only. */
  lemma InitialView()
    ensures var s := Initial();
      ShowTitle(s) && ShowForm(s) && FullScreen(s) && !ShowProgress(s) && !ShowError(s) && !ShowResults(s)
  {
  }

  /** The error line and the results block are never shown together, nor the title and the results. */
  lemma ExclusiveBlocks(s: SessionState)
    ensures !(ShowError(s) && ShowResults(s))
    ensures !(ShowTitle(s) && ShowResults(s))
  {
  }

  /** After a submission neither form, error nor results are shown; the title shows unless a crawl is running. */
  lemma SubmitView(s: SessionState, url: string)
    ensures var r := Submit(s, url);
      !ShowForm(r) && !ShowError(r) && !ShowResults(r) && (ShowTitle(r) <==> !s.isScraping)
  {
  }

  /** A visit shows the progress block (with its window) and hides title and form. */
  lemma VisitView(s: SessionState, u: string)
    requires u != ""
    ensures var r := Dispatch(s, VisitMessage(u));
      ShowProgress(r) && FullScreen(r) && !ShowForm(r) && !ShowTitle(r)
      && ProgressShown(r)[|ProgressShown(r)| - 1] == u
  {
  }

  /** After a result the results block shows exactly when no earlier error remains and some page came back. */
  lemma ScrapedView(s: SessionState, data: seq<PageResult>)
    ensures var r := Dispatch(s, ScrapedMessage(data));
      && !ShowProgress(r)
      && (ShowResults(r) <==> s.error == "" && |data| > 0)
      && (ShowResults(r) ==> ResultsShown(r) == RenderResults(data))
      && (ShowTitle(r) <==> |data| == 0)
  {
  }

  /** After a failure only the error line (and, with no result, the title) remains. */
  lemma ErrorView(s: SessionState, e: string)
    requires e != ""
    ensures var r := Dispatch(s, ErrorMessage(e));
      ShowError(r) && !ShowResults(r) && !ShowProgress(r) && ResultsShown(r) == []
  {
  }

  /** Once hidden, the form never comes back. */
  lemma FormNeverReturns(s: SessionState, events: seq<Event>)
    requires !ShowForm(s)
    ensures !ShowForm(Run(s, events))
  {
  }
}
