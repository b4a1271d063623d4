/**
 * The messages exchanged over the WebSocket, already decoded from JSON, and the
 * JavaScript truthiness tests the client applies to their keys.
 */
module Protocol {
  import opened Wrappers
  import opened Document

  /**
   * An inbound message: each key may be missing (or null). The backend is expected to
   * send one of them, but nothing stops a message from carrying several or none.
   */
  datatype Message = Message(
    visiting: Option<string>,
    scrapedData: Option<seq<PageResult>>,
    error: Option<string>)

  /** The one outbound message: `{ url }`, asking the backend to start crawling. */
  datatype Request = StartCrawl(url: string)

  /** How `onmessage` treats a message, decided by its first truthy key. */
  datatype MessageKind = Visit | Scraped | Failed | Ignored

  /** JavaScript truthiness of an optional string key: present and non-empty. */
  predicate IsTruthy(s: Option<string>)
  {
    s.Some? && s.value != ""
  }

  /** A message carrying only `visiting`. */
  function VisitMessage(u: string): Message { Message(Some(u), None, None) }

  /** A message carrying only `scrapedData`. */
  function ScrapedMessage(data: seq<PageResult>): Message { Message(None, Some(data), None) }

  /** A message carrying only `error`. */
  function ErrorMessage(e: string): Message { Message(None, None, Some(e)) }

  /**
   * The `if / else if` chain of `onmessage`: `visiting` is looked at first, `scrapedData`
   * only when `visiting` is falsy, and `error` only when both are. A present array is
   * truthy even when empty; an empty string is not.
   */
  function Classify(m: Message): (k: MessageKind)
    ensures k == Visit <==> IsTruthy(m.visiting)
    ensures k == Scraped <==> !IsTruthy(m.visiting) && m.scrapedData.Some?
    ensures k == Failed <==> !IsTruthy(m.visiting) && m.scrapedData.None? && IsTruthy(m.error)
    ensures k == Ignored <==> !IsTruthy(m.visiting) && m.scrapedData.None? && !IsTruthy(m.error)
  {
    if IsTruthy(m.visiting) then Visit
    else if m.scrapedData.Some? then Scraped
    else if IsTruthy(m.error) then Failed
    else Ignored
  }

  /** A key that is present but empty is the same as a missing one. */
  lemma EmptyStringsAreFalsy(m: Message)
    ensures Classify(m.(visiting := Some(""))) == Classify(m.(visiting := None))
    ensures Classify(m.(error := Some(""))) == Classify(m.(error := None))
  {
  }
}
