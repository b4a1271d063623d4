/**
 * The client session as a value: the React state fields of the App component and
 * the transitions that `onmessage`, `handleSubmit` and the socket's creation apply to them.
 */
module Session {
  import opened Wrappers
  import opened Document
  import opened Protocol
  import opened VisitedWindow

  /**
   * The component's state (the text typed into the input box is left out). `hasSocket`
   * stands for `ws` being non-null; `outbox` lists, oldest first, what was sent on it.
   */
  datatype SessionState = SessionState(
    result: seq<PageResult>,
    error: string,
    currentUrl: string,
    hasSocket: bool,
    isScraping: bool,
    isInitial: bool,
    visitedUrls: seq<string>,
    outbox: seq<Request>)

  /** The initial values given to `useState`. */
  function Initial(): (s: SessionState)
    ensures s.result == [] && s.error == "" && s.currentUrl == "" && s.visitedUrls == [] && s.outbox == []
    ensures !s.hasSocket && !s.isScraping && s.isInitial
  {
    SessionState([], "", "", false, false, true, [], [])
  }

  /** The effect of one inbound message. Nothing is sent and the socket is untouched. */
  function Dispatch(s: SessionState, m: Message): (r: SessionState)
    ensures r.hasSocket == s.hasSocket && r.outbox == s.outbox
    ensures |s.visitedUrls| <= Capacity ==> |r.visitedUrls| <= Capacity
    ensures !s.isInitial ==> !r.isInitial
  {
    match Classify(m)
    case Visit =>
      var u := m.visiting.value;
      s.(currentUrl := u, isScraping := true, isInitial := false, visitedUrls := Record(s.visitedUrls, u))
    case Scraped =>
      s.(result := m.scrapedData.value, currentUrl := "", isScraping := false)
    case Failed =>
      s.(error := m.error.value, currentUrl := "", isScraping := false)
    case Ignored =>
      s
  }

  /**
   * The form's submit handler: clears error, current URL and result, hides the form,
   * and sends `{ url }` when a socket exists. The window and `isScraping` are left as they are.
   */
  function Submit(s: SessionState, url: string): (r: SessionState)
    ensures r.error == "" && r.currentUrl == "" && r.result == [] && !r.isInitial
    ensures r.visitedUrls == s.visitedUrls && r.isScraping == s.isScraping && r.hasSocket == s.hasSocket
    ensures |r.outbox| == |s.outbox| + 1 <==> s.hasSocket
    ensures |r.outbox| == |s.outbox| <==> !s.hasSocket
    ensures r.outbox[..|s.outbox|] == s.outbox
    ensures s.hasSocket ==> r.outbox[|s.outbox|] == StartCrawl(url)
  {
    var sent := if s.hasSocket then [StartCrawl(url)] else [];
    s.(error := "", currentUrl := "", result := [], isInitial := false, outbox := s.outbox + sent)
  }

  /** Everything that can happen to a session, one event at a time. */
  datatype Event = Received(m: Message) | Submitted(url: string) | SocketCreated

  /**
   * One event. The submit handler is reachable only through the form, which is rendered
   * only while `isInitial` holds, so a submission at any other time cannot happen.
   * Only a submission while the form is shown can send, and it sends at most one request.
   */
  function Step(s: SessionState, e: Event): (r: SessionState)
    ensures !s.isInitial ==> !r.isInitial && r.outbox == s.outbox
    ensures r.outbox == s.outbox || (s.isInitial && !r.isInitial && |r.outbox| == |s.outbox| + 1)
    ensures |s.visitedUrls| <= Capacity ==> |r.visitedUrls| <= Capacity
  {
    match e
    case Received(m) => Dispatch(s, m)
    case Submitted(url) => if s.isInitial then Submit(s, url) else s
    case SocketCreated => s.(hasSocket := true)
  }

  /**
   * The state after the events, delivered one at a time in order. Once the form is
   * hidden it stays hidden and nothing more is sent, whatever happens next.
   */
  function Run(s: SessionState, events: seq<Event>): (r: SessionState)
    ensures !s.isInitial ==> !r.isInitial && r.outbox == s.outbox
    decreases |events|
  {
    if |events| == 0 then s else Run(Step(s, events[0]), events[1..])
  }

  /** A truthy `visiting` wins over whatever else the message carries. */
  lemma VisitingTakesPriority(s: SessionState, m: Message)
    requires IsTruthy(m.visiting)
    ensures Dispatch(s, m) == Dispatch(s, VisitMessage(m.visiting.value))
  {
  }

  /** `scrapedData` is looked at only when `visiting` is falsy, and then `error` is ignored. */
  lemma ScrapedBeforeError(s: SessionState, m: Message)
    requires !IsTruthy(m.visiting) && m.scrapedData.Some?
    ensures Dispatch(s, m) == Dispatch(s, ScrapedMessage(m.scrapedData.value))
  {
  }

  /** `error` is looked at only when the two other keys are falsy. */
  lemma ErrorLast(s: SessionState, m: Message)
    requires !IsTruthy(m.visiting) && m.scrapedData.None? && IsTruthy(m.error)
    ensures Dispatch(s, m) == Dispatch(s, ErrorMessage(m.error.value))
  {
  }

  /** A message with no truthy key changes nothing. */
  lemma UnrecognisedIgnored(s: SessionState, m: Message)
    requires !IsTruthy(m.visiting) && m.scrapedData.None? && !IsTruthy(m.error)
    ensures Dispatch(s, m) == s
  {
  }

  /**
   * A visit, in any prior state (also after a completion or a failure): the URL becomes
   * current, the crawl counts as running, the form is hidden and the URL joins the window.
   */
  lemma VisitEffects(s: SessionState, u: string)
    requires u != ""
    ensures var r := Dispatch(s, VisitMessage(u));
      && r.currentUrl == u && r.isScraping && !r.isInitial
      && r.visitedUrls == Record(s.visitedUrls, u)
      && r.result == s.result && r.error == s.error
      && r.hasSocket == s.hasSocket && r.outbox == s.outbox
  {
  }

  /** A result replaces `result` by exactly the received pages, and stops the crawl. */
  lemma ScrapedEffects(s: SessionState, data: seq<PageResult>)
    ensures var r := Dispatch(s, ScrapedMessage(data));
      && r.result == data && r.currentUrl == "" && !r.isScraping
      && r.error == s.error && r.isInitial == s.isInitial && r.visitedUrls == s.visitedUrls
      && r.hasSocket == s.hasSocket && r.outbox == s.outbox
  {
  }

  /** A failure stores the message and stops the crawl; the previous result stays. */
  lemma ErrorEffects(s: SessionState, e: string)
    requires e != ""
    ensures var r := Dispatch(s, ErrorMessage(e));
      && r.error == e && r.currentUrl == "" && !r.isScraping
      && r.result == s.result && r.isInitial == s.isInitial && r.visitedUrls == s.visitedUrls
      && r.hasSocket == s.hasSocket && r.outbox == s.outbox
  {
  }

  /**
   * While the form is shown no visit has been recorded and nothing has been sent, and at
   * most one request is ever sent.
   */
  ghost predicate SubmitsAtMostOnce(s: SessionState)
  {
    |s.outbox| <= 1 && (s.isInitial ==> s.visitedUrls == [] && s.outbox == [])
  }

  /** From the initial state (or any state keeping the property) every run sends at most one request. */
  lemma {:induction false} RunSubmitsAtMostOnce(s: SessionState, events: seq<Event>)
    requires SubmitsAtMostOnce(s)
    ensures SubmitsAtMostOnce(Run(s, events))
    decreases |events|
  {
    if |events| > 0 {
      var e := events[0];
      var s' := Step(s, e);
      if e.Received? && Classify(e.m) == Visit {
        assert !s'.isInitial;
      }
      assert SubmitsAtMostOnce(s');
      RunSubmitsAtMostOnce(s', events[1..]);
    }
  }

  /** The session as the page starts it: at most one request, ever, and none once a visit was shown. */
  lemma FromStartSubmitsAtMostOnce(events: seq<Event>)
    ensures var r := Run(Initial(), events);
      |r.outbox| <= 1 && (r.isInitial ==> r.visitedUrls == [] && r.outbox == [])
  {
    RunSubmitsAtMostOnce(Initial(), events);
  }

  /** From a window within the bound, no sequence of events makes it longer than three. */
  lemma {:induction false} WindowStaysBounded(s: SessionState, events: seq<Event>)
    requires |s.visitedUrls| <= Capacity
    ensures |Run(s, events).visitedUrls| <= Capacity
    decreases |events|
  {
    if |events| > 0 {
      WindowStaysBounded(Step(s, events[0]), events[1..]);
    }
  }

  /** One `visiting` message per URL, in order. */
  function Visits(urls: seq<string>): seq<Event>
  {
    if |urls| == 0 then [] else [Received(VisitMessage(urls[0]))] + Visits(urls[1..])
  }

  /**
   * After a run of `visiting` messages the window holds the last URLs of the old window
   * followed by the visited ones, at most three of them, oldest first.
   */
  lemma VisitsKeepLastThree(s: SessionState, urls: seq<string>)
    requires |s.visitedUrls| <= Capacity
    ensures var w := s.visitedUrls + Truthy(urls);
      Run(s, Visits(urls)).visitedUrls == LastN(w, Min(Capacity, |w|))
  {
    VisitsRecordAll(s, urls);
    RecordAllKeepsLastThree(s.visitedUrls, urls);
  }

  /** A run of `visiting` messages does to the window what `updateVisitedUrls` does to each URL in turn. */
  lemma {:induction false} VisitsRecordAll(s: SessionState, urls: seq<string>)
    ensures Run(s, Visits(urls)).visitedUrls == RecordAll(s.visitedUrls, urls)
    decreases |urls|
  {
    if |urls| > 0 {
      var u := urls[0];
      var s' := Dispatch(s, VisitMessage(u));
      RunVisitsUnfold(s, urls);
      assert s'.visitedUrls == if u != "" then Record(s.visitedUrls, u) else s.visitedUrls;
      VisitsRecordAll(s', urls[1..]);
    }
  }

  /** Running visits is one `visiting` message, then the remaining ones. */
  lemma {:induction false} RunVisitsUnfold(s: SessionState, urls: seq<string>)
    requires |urls| > 0
    ensures Run(s, Visits(urls)) == Run(Dispatch(s, VisitMessage(urls[0])), Visits(urls[1..]))
  {
    var evs := Visits(urls);
    assert evs[0] == Received(VisitMessage(urls[0]));
    assert evs[1..] == Visits(urls[1..]);
  }

  /** From an empty window (the initial one), visits A, B, C, D leave [B, C, D]: the last min(3, n) visits. */
  lemma WindowAfterVisits(s: SessionState, urls: seq<string>)
    requires s.visitedUrls == []
    ensures var v := Truthy(urls);
      Run(s, Visits(urls)).visitedUrls == LastN(v, Min(Capacity, |v|))
  {
    VisitsKeepLastThree(s, urls);
    assert s.visitedUrls + Truthy(urls) == Truthy(urls);
  }
}
