/** Whole sessions run event by event, and the rendering of small result sets. */
module Scenarios {
  import opened Wrappers
  import opened Document
  import opened Protocol
  import opened VisitedWindow
  import opened Session
  import opened Render
  import opened View
  import opened Client

  /** Four visits A, B, C, D (none empty) from the start leave the window [B, C, D]. */
  lemma FourVisits(urls: seq<string>)
    requires |urls| == 4 && forall i :: 0 <= i < |urls| ==> urls[i] != ""
    ensures Run(Initial(), Visits(urls)).visitedUrls == urls[1..]
  {
    WindowAfterVisits(Initial(), urls);
    TruthyKeepsNonEmpty(urls);
  }

  /**
   * Submit, two visits, then one page with one section "T" holding one paragraph "hi":
   * one request went out, the crawl is over and the results block shows that page.
   */
  lemma CompletedCrawl()
    ensures var page := PageResult("http://example.com/a", [Section("T", [ContentItem("p", "hi")])]);
      var r := Run(Initial(), [
        SocketCreated,
        Submitted("http://example.com"),
        Received(VisitMessage("http://example.com/a")),
        Received(VisitMessage("http://example.com/b")),
        Received(ScrapedMessage([page]))]);
      && r.outbox == [StartCrawl("http://example.com")]
      && r.result == [page] && r.currentUrl == "" && !r.isScraping && r.error == ""
      && ShowResults(r) && !ShowProgress(r) && !ShowForm(r)
      && ResultsShown(r) == [PageView("http://example.com/a",
           [SectionView("T", [Some(Node(Paragraph, "hi"))])])]
  {
    var page := PageResult("http://example.com/a", [Section("T", [ContentItem("p", "hi")])]);
    var e1, e2, e3, e4, e5 := SocketCreated, Submitted("http://example.com"),
      Received(VisitMessage("http://example.com/a")), Received(VisitMessage("http://example.com/b")),
      Received(ScrapedMessage([page]));
    assert [e1, e2, e3, e4, e5] == [e1] + ([e2] + ([e3] + ([e4] + [e5])));
    var s0 := Initial();
    RunCons(s0, e1, [e2] + ([e3] + ([e4] + [e5])));
    var s1 := Step(s0, e1);
    RunCons(s1, e2, [e3] + ([e4] + [e5]));
    var s2 := Step(s1, e2);
    RunCons(s2, e3, [e4] + [e5]);
    var s3 := Step(s2, e3);
    RunCons(s3, e4, [e5]);
    var s4 := Step(s3, e4);
    RunCons(s4, e5, []);
    var s5 := Step(s4, e5);
    assert s2.outbox == [StartCrawl("http://example.com")];
    assert s5.result == [page] && s5.outbox == s2.outbox;
    var v := RenderResults([page]);
    assert v[0] == RenderPage(page);
    assert RenderPage(page).sections[0] == RenderSection(page.data[0]);
    assert RenderSection(page.data[0]).nodes[0] == RenderItem(ContentItem("p", "hi"));
    var sv := SectionView("T", [Some(Node(Paragraph, "hi"))]);
    assert RenderSection(page.data[0]) == sv;
    assert RenderPage(page) == PageView("http://example.com/a", [sv]);
    assert v == [PageView("http://example.com/a", [sv])];
  }

  /** Running one event and then the rest is stepping once. */
  lemma RunCons(s: SessionState, e: Event, rest: seq<Event>)
    ensures Run(s, [e] + rest) == Run(Step(s, e), rest)
  {
    assert ([e] + rest)[1..] == rest;
  }

  /**
   * Submit, then an error such as `{ error: "timeout" }`, then a late visit: the error
   * stays, but the late visit restarts the progress block, since nothing guards against it.
   */
  lemma LateVisitAfterFailure(url: string, e: string, late: string)
    requires e != "" && late != ""
    ensures var r := Run(Initial(), [Submitted(url), Received(ErrorMessage(e)), Received(VisitMessage(late))]);
      && r.outbox == []
      && r.error == e && ShowError(r)
      && r.isScraping && ShowProgress(r) && r.currentUrl == late
  {
    var s1 := Submit(Initial(), url);
    var s2 := Dispatch(s1, ErrorMessage(e));
    RunThree(Initial(), Submitted(url), Received(ErrorMessage(e)), Received(VisitMessage(late)));
    assert s1.outbox == [] && s1.error == "";
    assert s2.error == e && s2.outbox == [] by { ErrorEffects(s1, e); }
    VisitEffects(s2, late);
  }

  /** Running three events is stepping three times. */
  lemma RunThree(s: SessionState, e1: Event, e2: Event, e3: Event)
    ensures Run(s, [e1, e2, e3]) == Step(Step(Step(s, e1), e2), e3)
  {
    assert [e1, e2, e3] == [e1] + ([e2] + [e3]);
    RunCons(s, e1, [e2] + [e3]);
    RunCons(Step(s, e1), e2, [e3]);
    RunCons(Step(Step(s, e1), e2), e3, []);
  }

  /** A `pre` item with text "x=1" renders as one preformatted block with that text; an unknown tag as nothing. */
  lemma PreformattedAndUnknown()
    ensures RenderContent([ContentItem("pre", "x=1"), ContentItem("h1", "x")])
      == [Some(Node(Preformatted, "x=1")), None]
  {
  }

  /** Two pages, each with one section of a paragraph and a list item, keep that structure and order. */
  lemma TwoPages()
    ensures var sec := Section("S", [ContentItem("p", "a"), ContentItem("li", "b")]);
      var v := RenderResults([PageResult("u1", [sec]), PageResult("u2", [sec])]);
      var nodes := [Some(Node(Paragraph, "a")), Some(Node(ListItem, "b"))];
      v == [PageView("u1", [SectionView("S", nodes)]), PageView("u2", [SectionView("S", nodes)])]
  {
    var sec := Section("S", [ContentItem("p", "a"), ContentItem("li", "b")]);
    var v := RenderResults([PageResult("u1", [sec]), PageResult("u2", [sec])]);
    var c := RenderContent(sec.content);
    assert c[0] == RenderItem(ContentItem("p", "a")) && c[1] == RenderItem(ContentItem("li", "b"));
    assert RenderPage(PageResult("u1", [sec])).sections[0] == RenderSection(sec);
    assert RenderPage(PageResult("u2", [sec])).sections[0] == RenderSection(sec);
    var nodes := [Some(Node(Paragraph, "a")), Some(Node(ListItem, "b"))];
    assert c == nodes;
    assert RenderSection(sec) == SectionView("S", nodes);
    assert RenderPage(PageResult("u1", [sec])) == PageView("u1", [SectionView("S", nodes)]);
    assert RenderPage(PageResult("u2", [sec])) == PageView("u2", [SectionView("S", nodes)]);
    assert v[0] == RenderPage(PageResult("u1", [sec])) && v[1] == RenderPage(PageResult("u2", [sec]));
  }

  /** The component's own handlers, called in order: four visits leave the last three in the window. */
  method ComponentVisits()
  {
    var app := new App();
    app.OnMessage(VisitMessage("A"));
    assert app.visitedUrls == ["A"];
    app.OnMessage(VisitMessage("B"));
    assert app.visitedUrls == ["A", "B"];
    app.OnMessage(VisitMessage("C"));
    assert app.visitedUrls == ["A", "B", "C"];
    app.OnMessage(VisitMessage("D"));
    assert app.visitedUrls == ["B", "C", "D"];
  }

  /** The component's own handlers: one submission with a socket sends one request; a later failure is shown. */
  method ComponentSubmitThenFail()
  {
    var app := new App();
    app.SocketCreated();
    app.HandleSubmit("http://example.com");
    assert app.outbox == [StartCrawl("http://example.com")];
    assert !app.isInitial;
    app.OnMessage(ErrorMessage("timeout"));
    assert app.error == "timeout" && !app.isScraping;
    assert app.outbox == [StartCrawl("http://example.com")];
  }
}
