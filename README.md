# up2date client session — a Dafny model

The up2date front end lets a user type a seed URL and submit it to a crawling backend over a
WebSocket. It then shows the backend's progress (the last three pages visited) and finally the
scraped pages, section by section. This project models the App component's session logic in
`src/App.jsx`, which consists of:

- **Message dispatch** (`socket.onmessage`). A decoded message is classified by its first truthy
  key, in the order `visiting`, `scrapedData`, `error`, and applied to the state fields.
  JavaScript truthiness is modelled exactly for the protocol's types: an empty string is falsy
  and any array, even `[]`, is truthy. A message with no truthy key changes nothing.
- **The visited window** (`updateVisitedUrls`). This is a FIFO capped at three: append, then
  drop the head if the copy grew past three.
- **The submit handler** (`handleSubmit`). It clears `error`, `currentUrl` and `result`, hides the
  form (`isInitial := false`), and sends `{ url }` only when a socket exists. It does not reset
  the window and does not touch `isScraping`.
- **Rendering**. `renderContent` maps tags `p`/`li`/`pre` to their element and any other tag to
  `null`, keeping positions. The page's visibility conditions decide which blocks show.

Layout:

- `wrappers.dfy`: `Option`.
- `document.dfy`: the result data (`ContentItem`, `Section`, `PageResult`).
- `window.dfy`: `Record`, `RecordAll` (recording URLs one after another) and the suffix lemmas.
- `protocol.dfy`: `Message`, `Request` and the truthiness classification.
- `session.dfy`: the state as a value, `Dispatch`, `Submit`, `Step`/`Run` over event sequences,
  and the properties of each transition.
- `render.dfy`: `RenderItem`, `MapSeq`, `RenderContent`, `RenderResults`.
- `view.dfy`: the visibility predicates and what each event makes visible.
- `app.dfy`: class `App`. Its fields are the component's state, and its handlers are proved to
  perform exactly the transitions of `session.dfy`.
- `scenarios.dfy`: whole runs, among them visits A, B, C, D leaving [B, C, D], a completed crawl,
  and a late visit after a failure.

Points of the code's behaviour worth knowing:

- The submit handler is reachable only through the form, and the form is rendered only while
  `isInitial` holds. A submission or a visit clears that flag for good. So a session sends at
  most one request, and it does so before any visit is shown (`Session.FromStartSubmitsAtMostOnce`).
  `Step` ignores a submission once the form is gone, and `App.HandleSubmit` requires the form.
- A `visiting` message after a result or an error is not ignored. It sets `isScraping` again,
  updates the window and brings the progress block back. `LateVisitAfterFailure` shows this.
- `isInitial` never becomes true again, so the form is never shown after the first submission or
  visit (`FormNeverReturns`).
- A message carrying several keys is not rejected. The first truthy key in the order above wins.

## Model

| member | source | states |
|---|---|---|
| `VisitedWindow.Record` | src/App.jsx:53-60 | the new URL is the last element; the result is a suffix of prev ++ [url]; length stays within 3 when prev was; below 3 nothing is evicted, at or above 3 exactly one element is |
| `VisitedWindow.RecordKeepsLastN` | src/App.jsx:53-60 | from a window of at most 3, the result is exactly the last min(3, len(prev) + 1) elements of prev ++ [url] |
| `Protocol.Classify` | src/App.jsx:23-39 | priority: visit iff `visiting` truthy; scraped iff `visiting` falsy and `scrapedData` present (any array); failed iff both falsy and `error` truthy; otherwise ignored |
| `Protocol.EmptyStringsAreFalsy` | src/App.jsx:23-34 | `visiting: ""` and `error: ""` are treated as if the key were absent |
| `Session.Initial` | src/App.jsx:6-12 | the initial state: no result, no error, no current URL, no socket, not scraping, form shown, empty window, nothing sent |
| `Session.Dispatch` | src/App.jsx:21-40 | a message never sends anything or changes the socket, keeps the window within 3, and never brings `isInitial` back |
| `Session.Submit` | src/App.jsx:63-73 | error, current URL and result are cleared and the form hidden; window and `isScraping` unchanged; exactly one `{url}` request is appended iff a socket exists, otherwise none |
| `Session.VisitingTakesPriority` | src/App.jsx:23-28 | a message with truthy `visiting` has the same effect as a bare visit, whatever else it carries |
| `Session.ScrapedBeforeError` | src/App.jsx:29-33 | with `visiting` falsy, a present `scrapedData` wins and `error` is ignored |
| `Session.ErrorLast` | src/App.jsx:34-38 | `error` acts only when `visiting` and `scrapedData` are both falsy |
| `Session.UnrecognisedIgnored` | src/App.jsx:23-39 | a message with no truthy key leaves every field unchanged |
| `Session.VisitEffects` | src/App.jsx:23-28 | in any prior state a visit sets the current URL, `isScraping`, clears `isInitial`, records the URL in the window; result, error, socket and outbox unchanged |
| `Session.ScrapedEffects` | src/App.jsx:29-33 | `result` becomes exactly the received pages (also `[]`), current URL cleared, not scraping; error, `isInitial`, window unchanged |
| `Session.ErrorEffects` | src/App.jsx:34-38 | `error` becomes the message, current URL cleared, not scraping; result, `isInitial`, window unchanged |
| `Session.Step` | src/App.jsx:21-73 | one event: a message as in `Dispatch`, a submission as in `Submit` but only while the form (line 105) is shown, or the socket becoming available. Once the form is hidden it stays hidden and nothing is sent. Otherwise at most one request is added, and only by a submission from the form. The window stays within 3 |
| `Session.Run` | src/App.jsx:21-73 | events handled one at a time, in order. Once `isInitial` is false, no later events make it true again, and the outbox never grows again |
| `Session.RunSubmitsAtMostOnce` | src/App.jsx:63-73 | every run keeps at most one request sent, and while the form is shown, an empty window and nothing sent |
| `Session.FromStartSubmitsAtMostOnce` | src/App.jsx:9-12 | from the initial state every run sends at most one request; while the form is still shown no URL is in the window and nothing was sent |
| `Session.WindowStaysBounded` | src/App.jsx:53-60 | from a window of at most 3, every sequence of events keeps it at most 3 |
| `VisitedWindow.RecordAllKeepsLastThree` | src/App.jsx:53-60 | recording URLs one by one into a window of at most 3 leaves the last min(3, n) of old window ++ non-empty URLs, in arrival order |
| `VisitedWindow.TruthyKeepsNonEmpty` | src/App.jsx:23 | when no URL is empty, every one of them counts as a visit, in order |
| `Session.VisitsRecordAll` | src/App.jsx:23-28 | a run of `visiting` messages does to the window exactly what `updateVisitedUrls` does to each truthy URL in turn |
| `Session.VisitsKeepLastThree` | src/App.jsx:53-60 | after visiting messages the window is the last min(3, n) of old window ++ non-empty visited URLs, in arrival order |
| `Session.WindowAfterVisits` | src/App.jsx:12-60 | from the initial empty window, n visits leave exactly the last min(3, n) URLs in arrival order |
| `Render.RenderItem` | src/App.jsx:77-86 | known tag iff an element is produced; the element's kind has the item's tag and carries its text unchanged; an unknown tag matches no kind and gives null |
| `Render.MapSeq` | src/App.jsx:76 | one output per input, same length, position i is f of input i |
| `Render.RenderContentAt` | src/App.jsx:75-88 | rendered content has the input's length; position i is the element of the kind whose tag is the item's, with its text, and null exactly for unknown tags |
| `Render.RenderResultsShape` | src/App.jsx:90-97 | every page keeps its place and URL heading, every section its place, title and rendered content |
| `Render.RenderContent` | src/App.jsx:75-88 | one slot per item, in order. A slot holds an element iff the tag is `p`, `li` or `pre`, and the element's kind has that tag and carries the item's text |
| `Render.RenderSection` | src/App.jsx:90-97 | the section's title as heading, with one rendered slot per content item |
| `Render.RenderPage` | src/App.jsx:146-150 | the page's URL as heading, then each section rendered in its place |
| `Render.RenderResults` | src/App.jsx:146-150 | one view per received page, in order, each with the page's URL and as many sections as the page has |
| `View.FullScreen` | src/App.jsx:100 | definition (`isInitial || isScraping`); its properties are proved in `View.InitialView` and `View.VisitView` |
| `View.ShowTitle` | src/App.jsx:101 | definition (`!isScraping && result.length === 0`); its properties are proved in `View.ExclusiveBlocks`, `View.SubmitView`, `View.VisitView` and `View.ScrapedView` |
| `View.ShowForm` | src/App.jsx:105 | definition (`isInitial`); its properties are proved in `View.FormNeverReturns` and `View.SubmitView` |
| `View.ShowProgress` | src/App.jsx:119 | definition (`isScraping`); its properties are proved in `View.VisitView`, `View.ScrapedView` and `View.ErrorView` |
| `View.ProgressShown` | src/App.jsx:119-135 | definition: the window's URLs, in order, while the progress block shows; its properties are proved in `View.VisitView` |
| `View.ShowError` | src/App.jsx:141 | definition (`error` non-empty); its properties are proved in `View.ExclusiveBlocks` and `View.ErrorView` |
| `View.ShowResults` | src/App.jsx:143 | definition (`!error && result.length > 0`); its properties are proved in `View.ExclusiveBlocks` and `View.ScrapedView` |
| `View.ResultsShown` | src/App.jsx:143-151 | the results block lists pages iff no error is set and the result is non-empty |
| `View.InitialView` | src/App.jsx:100-117 | at start only the top title (line 101) and the form show, full screen |
| `View.ExclusiveBlocks` | src/App.jsx:141-143 | error line and results are never both shown; the top title and results are never both shown |
| `View.SubmitView` | src/App.jsx:101-143 | after submitting no form, error or results show; the top title shows iff no crawl was running |
| `View.VisitView` | src/App.jsx:119-135 | after a visit the progress block (with its own heading) shows with the visited URL last; the top title (line 101) and the form are hidden |
| `View.ScrapedView` | src/App.jsx:143-151 | after a result the progress block hides; results show iff no earlier error remains and a page arrived, and then show exactly the rendered pages; the top title shows iff no page arrived |
| `View.ErrorView` | src/App.jsx:141-143 | after a failure the error line shows and neither results nor progress do |
| `View.FormNeverReturns` | src/App.jsx:105 | once the form is hidden it stays hidden for every later sequence of events |
| `Client.App.constructor` | src/App.jsx:5-12 | the fields start at the `useState` initial values |
| `Client.App.SocketCreated` | src/App.jsx:46 | the socket becomes available; nothing else changes |
| `Client.App.UpdateVisitedUrls` | src/App.jsx:53-61 | the window field becomes `Record` of the old window; within 3 it stays within 3 |
| `Client.App.OnMessage` | src/App.jsx:21-40 | the fields change exactly as `Session.Dispatch` says; socket and outbox unchanged |
| `Client.App.HandleSubmit` | src/App.jsx:63-73 | called only while the form is shown; the fields change exactly as `Session.Submit` and `Session.Step` say; window and `isScraping` unchanged; one request appended iff a socket exists |
| `Scenarios.FourVisits` | src/App.jsx:53-60 | any four non-empty visits A, B, C, D from the start leave [B, C, D] |
| `Scenarios.CompletedCrawl` | src/App.jsx:21-73 | socket, submit, two visits and one page: one request sent, crawl over, results block shows that page with section "T" and paragraph "hi" |
| `Scenarios.LateVisitAfterFailure` | src/App.jsx:23-38 | submit (no socket, nothing sent), an error, then a late visit: the error stays shown, but the progress block is back with the late URL current |
| `Scenarios.PreformattedAndUnknown` | src/App.jsx:82-85 | a `pre` item "x=1" renders as one preformatted block "x=1"; an unknown tag renders as null |
| `Scenarios.TwoPages` | src/App.jsx:146-149 | two pages of one section each keep their headings and paragraph/list-item order |

## Left out

- WebSocket construction, `onopen`, `onclose` and the close on unmount (src/App.jsx:15-19, 42-50) are transport and lifecycle. Only the socket becoming available (`setWs`, line 46) is kept, as `SocketCreated`.
- `JSON.parse` and `JSON.stringify` are left out. Messages are modelled already decoded. Each key is typed as the protocol says: `visiting` and `error` are strings, `scrapedData` is an array of pages. A payload of another JSON type (a number, an object, `false`) is not modelled, so neither is its truthiness.
- `ws.send` is modelled as appending a `StartCrawl(url)` request to an `outbox` log. Delivery is not modelled.
- Session.Submit: the socket's connection state is not modelled. `ws` is set right after the socket is created (lines 15, 46), while it may still be connecting or may already be closed. `outbox` lists every request handed to `ws.send`, including one that throws (`send` while connecting) or that a closed socket silently drops.
- `console.log` and `console.error` calls have no effect on state.
- The controlled `url` input field (lines 5, 110) is left out. The submitted URL is a parameter of `HandleSubmit`.
- `e.preventDefault()` is browser plumbing with no state.
- JSX markup, CSS classes, inline styles, the framer-motion animation and React keys are left out. Only the visibility conditions and the tag-to-element mapping are kept.
- React's render scheduling is not modelled. Each handler is applied as one transition. This matches the code because `onmessage` reads no state: it only calls setters with values taken from the message, and the window is updated through the updater form `setVisitedUrls(prev => ...)`. Queued updates therefore produce the same state as applying each handler whole, in arrival order, however React batches or delays the renders. `handleSubmit` reads only `ws` and the input text. Events arrive one at a time, in order.
- tailwind.config.js is styling configuration with no behaviour.
