/**
 * The App component's state held the way the component holds it: mutable fields that
 * the message handler and the submit handler overwrite. Every handler is proved to
 * perform exactly the transition the `Session` module defines.
 */
module Client {
  import opened Wrappers
  import opened Document
  import opened Protocol
  import opened VisitedWindow
  import opened Session

  class App {
    var result: seq<PageResult>
    var error: string
    var currentUrl: string
    var hasSocket: bool
    var isScraping: bool
    var isInitial: bool
    var visitedUrls: seq<string>
    /** Every request handed to `ws.send`, oldest first (whether or not the socket could deliver it). */
    var outbox: seq<Request>

    /** The fields as one value. */
    function State(): SessionState
      reads this
    {
      SessionState(result, error, currentUrl, hasSocket, isScraping, isInitial, visitedUrls, outbox)
    }

    /** The initial `useState` values. */
    constructor ()
      ensures State() == Initial()
    {
      result, error, currentUrl := [], "", "";
      hasSocket, isScraping, isInitial := false, false, true;
      visitedUrls, outbox := [], [];
    }

    /** `setWs(socket)` once the effect has created the socket. */
    method SocketCreated()
      modifies this
      ensures State() == Step(old(State()), Event.SocketCreated)
    {
      hasSocket := true;
    }

    /** `updateVisitedUrls`: copy the window with the URL appended, shift out the head past three. */
    method UpdateVisitedUrls(newUrl: string)
      modifies this`visitedUrls
      ensures visitedUrls == Record(old(visitedUrls), newUrl)
      ensures |old(visitedUrls)| <= Capacity ==> |visitedUrls| <= Capacity
    {
      var updated := visitedUrls + [newUrl];
      if |updated| > Capacity {
        updated := updated[1..];
      }
      visitedUrls := updated;
    }

    /** `socket.onmessage` for an already decoded message. */
    method OnMessage(m: Message)
      modifies this
      ensures State() == Dispatch(old(State()), m)
      ensures hasSocket == old(hasSocket) && outbox == old(outbox)
    {
      if m.visiting.Some? && m.visiting.value != "" {
        currentUrl := m.visiting.value;
        isScraping := true;
        isInitial := false;
        UpdateVisitedUrls(m.visiting.value);
      } else if m.scrapedData.Some? {
        result := m.scrapedData.value;
        currentUrl := "";
        isScraping := false;
      } else if m.error.Some? && m.error.value != "" {
        error := m.error.value;
        currentUrl := "";
        isScraping := false;
      }
    }

    /** `handleSubmit` with the URL typed into the form; the form exists only while `isInitial` holds. */
    method HandleSubmit(url: string)
      requires isInitial
      modifies this
      ensures State() == Submit(old(State()), url)
      ensures State() == Step(old(State()), Submitted(url))
      ensures visitedUrls == old(visitedUrls) && isScraping == old(isScraping)
      ensures outbox == old(outbox) + (if old(hasSocket) then [StartCrawl(url)] else [])
    {
      error := "";
      currentUrl := "";
      result := [];
      isInitial := false;
      if hasSocket {
        outbox := outbox + [StartCrawl(url)];
      }
    }
  }
}
