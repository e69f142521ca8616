# AI news frontend: time helpers, news card and page state machine

A Dafny model of the logic inside a small Next.js news frontend. The page shows a
grid of news cards from a remote API, lets the reader switch between the live feed
and named archives from a sidebar, and opens a modal with an on-demand "analysis"
of one item. The model covers three parts:

* **Time helpers** (`time_format.dfy`, module `TimeFormat`). `formatTimeAgo` and
  `getNextUpdateTime` take the clock difference in milliseconds as an `int`.
  JavaScript's `Math.floor` of a division, its sign-of-dividend `%`, and its way of
  writing an integer in a template literal (`decimal.dfy`, module `Decimal`) are
  written out.
* **News card** (`news_card.dfy`, module `NewsCard`). The eight-entry tag-to-class
  table with its fallback, the tag chips drawn in tag order, the `#{index + 1}`
  rank, and the item that the "details" link hands to the click callback.
* **Page state machine**. `home_state.dfy` (module `HomeState`) holds the twelve
  state fields as one record. It has one transition function per handler, and the
  lemmas about them: what each outcome changes and what stays the same, the modal
  invariant, idempotence, and the order-independence of the two requests made on
  mount. `home_page.dfy` (module `HomePage`) is the component as a class `Home`.
  Its fields are the state hooks, and each handler is a method that assigns them in
  the order of the component's `try`/`catch`/`finally`. Each method is proved to
  produce exactly the matching transition (`Snapshot() == Transition(old(Snapshot()), …)`).

Every network request becomes an input of type `Fetch<T>`. It is one of:

* `HttpError(status)`: the response is not `ok`.
* `Rejected(message)`: `fetch` or `response.json()` threw an Error.
* `Unsuccessful(message)`: the body says `success: false`; `""` stands for a missing or empty message.
* `Fetched(payload)`: success.

Each method that issues requests also returns the endpoint path of each request; `Mount` returns both of its paths.

Two behaviours of the code are worth stating plainly:

* `fetchAnalysis` (app/page.tsx:94-95) stores any successful result, even one for
  an item that is no longer selected. Nothing compares the response with the
  current selection, and the model states no such rule.
* A failed archive switch sets `error`. app/page.tsx:245 tests `error` before
  drawing anything else, so the whole page is replaced by the error screen, and no
  handler clears `error` again (`FailedSwitchShowsError`, `SwitchKeepsError`).

`HomePage.BackToLatest` is a worked example of a session: a first load, a switch
to an archive, and a switch back to the live feed.

## Model

| member | source | states |
|---|---|---|
| Decimal.NatToString | app/page.tsx:26 | an integer in a template literal is a non-empty digit string whose first digit is 0 only for 0 |
| Decimal.ParseNatToString | app/page.tsx:26 | reading the numeral of n back gives n, so the number shown is the number computed |
| Decimal.NatToStringInjective | app/page.tsx:44 | different numbers are written differently |
| Decimal.IntToString | app/page.tsx:44-46 | a minus sign appears exactly for negative integers; the digits after it read back as the magnitude, and a non-negative integer is its plain numeral |
| TimeFormat.FloorDiv | app/page.tsx:22-23 | `Math.floor(a / b)` is the greatest q with q·b ≤ a |
| TimeFormat.JsRemainder | app/page.tsx:41 | JavaScript `%`: magnitude below the divisor, sign of the dividend, equal to the Euclidean remainder for non-negative dividends |
| TimeFormat.FormatTimeAgo | app/page.tsx:18-31 | the text is "just now" exactly when the difference is below one minute, negative (future) differences included |
| TimeFormat.FormatTimeAgoHours | app/page.tsx:22-26 | h ≥ 1 hours plus any minutes and milliseconds read "h hour ago" for h = 1 and "h hours ago" otherwise; the minutes are ignored |
| TimeFormat.FormatTimeAgoMinutes | app/page.tsx:23-28 | 1 ≤ m < 60 minutes plus spare milliseconds read "m minute ago" for m = 1 and "m minutes ago" otherwise |
| TimeFormat.CountdownMinutes | app/page.tsx:41 | the minute component lies in 0..59 for a non-negative difference and in -59..0 for a negative one |
| TimeFormat.NextUpdateTime | app/page.tsx:34-48 | the countdown always ends in "m" |
| TimeFormat.NextUpdateTimeShape | app/page.tsx:39-47 | h hours and m < 60 minutes read "{h}h {m}m" when h > 0 and "{m}m" when h = 0 |
| TimeFormat.NextUpdateTimeNominal | app/page.tsx:36-47 | for the two-hour interval the countdown is "2h 0m" |
| NewsCard.TagClass | app/components/NewsCard.tsx:54 | a known tag gets its table entry; the fallback class is chosen exactly for tags outside the table, so every tag has a class |
| NewsCard.TagClassTable | app/components/NewsCard.tsx:21-30 | the table has eight entries, and each category maps to exactly its listed class string |
| NewsCard.Chips | app/components/NewsCard.tsx:51-58 | one chip per tag, in tag order, labelled with the tag and styled by its class |
| NewsCard.TagRow | app/components/NewsCard.tsx:49-60 | no tag row for an empty tag list; otherwise one chip per tag, in order |
| NewsCard.RankLabel | app/components/NewsCard.tsx:43 | the rank is "#" followed by digits whose value is index + 1 |
| NewsCard.Render | app/components/NewsCard.tsx:36-81 | the details affordance passes the unchanged item; the rank is `RankLabel(index)`; title, link, date, source and body text are the item's; the tag row is `TagRow` of the item's tags, absent exactly for no tags |
| HomeState.FailureMessage | app/page.tsx:141-167 | the error text is the HTTP prefix plus digits that read back as the status, or the thrown message, or the body's message, or the fallback when that is missing |
| HomeState.AnalysisSettled | app/page.tsx:82-104 | the loading flag ends false; analysis is replaced by the payload only on success, and unchanged otherwise; nothing else changes |
| HomeState.NewsClicked | app/page.tsx:73-80 | the item is selected and the modal open; analysis is the payload on success and null otherwise, because it is cleared first; the modal invariant holds; nothing else changes |
| HomeState.ModalClosed | app/page.tsx:106-110 | modal hidden, selection and analysis null, the modal invariant holds, nothing else changes |
| HomeState.ModalClosedIdempotent | app/page.tsx:106-110 | closing twice is closing once |
| HomeState.ArchivesSettled | app/page.tsx:112-131 | the archive list is replaced only on success; `error` and every other field are untouched |
| HomeState.ArchiveSwitched | app/page.tsx:133-172 | loading flag cleared and sidebar closed on every outcome; "latest" success takes the data, the response's lastUpdated (or "") and clears the archive marker; other-id success takes the snapshot's news and timestamp and marks the id; failure keeps news, time and marker and sets the error text |
| HomeState.SwitchKeepsError | app/page.tsx:165-167 | no archive switch clears an error already shown |
| HomeState.NewsSettled | app/page.tsx:175-199 | loading ends false; success sets the news and the response's lastUpdated (or ""); failure keeps the news and sets the error text; nothing else changes |
| HomeState.SettleOrderIrrelevant | app/page.tsx:200-203 | the feed and archive-list requests started on mount give the same state in either completion order |
| HomeState.Mounted | app/page.tsx:174-203 | after mount, loading is false; the archive list is replaced only on success; a successful feed sets the news and lastUpdated (or "") and keeps `error`; a failed feed keeps news and lastUpdated and sets the error text; no other field changes |
| HomeState.SidebarToggled | app/page.tsx:323 | the menu button flips the sidebar and changes nothing else |
| HomeState.SidebarClosed | app/page.tsx:337 | the close button closes the sidebar and changes nothing else |
| HomeState.SidebarToggledTwice | app/page.tsx:323 | two toggles restore the state |
| HomeState.ScreenOf | app/page.tsx:205-292 | the spinner shows exactly while loading; otherwise a non-empty stored error shows the error screen with that text, and the feed shows exactly when there is no error or an empty one |
| HomeState.ModalVisibleWhenOpen | app/page.tsx:414 | under the modal invariant, the modal is drawn exactly when `showModal` is set |
| HomeState.PanelOf | app/page.tsx:458-523 | the analysis spinner shows exactly while the analysis loads; once done, the stored analysis is shown when there is one, and "coming soon" exactly when there is none |
| HomeState.FailedAnalysisShowsPlaceholder | app/page.tsx:73-104 | after a click whose analysis request fails, the modal is visible with the "coming soon" placeholder, never an older analysis |
| HomeState.FailedMountShowsError | app/page.tsx:187-195 | a failed first load leaves the feed empty and shows its message on the error screen, or the empty feed if the message is empty |
| HomeState.FailedMountShowsMessage | app/page.tsx:191 | a `success: false` body with message "boom" ends on the error screen showing "boom" |
| HomeState.FailedArchiveListIsHarmless | app/page.tsx:112-131 | a failed archive-list request leaves the list empty and does not change which screen is shown |
| HomeState.FailedSwitchShowsError | app/page.tsx:165-245 | after a failed archive switch with a non-empty message, the page shows the error screen with that message |
| HomeState.Cards | app/page.tsx:390-398 | the corrected grid (see Findings; as written, see `RankLabelsAsWritten`): card i passes item i to the click handler and carries rank label i + 1 |
| HomeState.CardRanksDistinct | app/page.tsx:390-398 | in the corrected grid, different cards show different ranks |
| HomeState.RankLabelsAsWritten | app/page.tsx:396 | as written, the page draws one rank label per item |
| HomeState.RankLabelsAsWrittenCollide | app/page.tsx:396 | as written, every card carries the same rank, and it is not a number |
| HomePage.Home.constructor | app/page.tsx:60-71 | the state hooks start with their initial values, which satisfy the modal invariant |
| HomePage.Home.FetchAnalysis | app/page.tsx:82-104 | requests the analysis endpoint of the id; the new state is `AnalysisSettled` of the old |
| HomePage.Home.HandleNewsClick | app/page.tsx:73-80 | requests the item's analysis; the new state is `NewsClicked` of the old; the invariant holds afterwards |
| HomePage.Home.ClickDetails | app/components/NewsCard.tsx:76-81 | the details link of card i runs the click handler on item i of the feed |
| HomePage.Home.CloseModal | app/page.tsx:106-110 | the new state is `ModalClosed` of the old |
| HomePage.Home.FetchAvailableArchives | app/page.tsx:112-131 | requests the archive list; the new state is `ArchivesSettled` of the old |
| HomePage.Home.FetchArchive | app/page.tsx:133-172 | requests the live feed for "latest" and the archive endpoint otherwise; the new state is `ArchiveSwitched` of the old |
| HomePage.Home.FetchNews | app/page.tsx:175-199 | requests the live feed; the new state is `NewsSettled` of the old |
| HomePage.Home.Mount | app/page.tsx:174-203 | requests the live feed and the archive list; whichever completes first, the new state is `Mounted` of the old |
| HomePage.Home.ToggleSidebar | app/page.tsx:323 | the new state is `SidebarToggled` of the old |
| HomePage.Home.CloseSidebar | app/page.tsx:337 | the new state is `SidebarClosed` of the old |

## Left out

- Rendering: the markup, CSS classes (except the tag class), animation delays, line clamping, icons and `toLocaleDateString` are not modelled.
- The clock and date parsing: `new Date(...)`, `getTime()` and the effect of daylight-saving changes on `setHours(+2)` are left out. The helpers take the millisecond difference as input.
- Number formatting: integers are unbounded. JavaScript's exponent notation for numbers of 10^21 and above, and double rounding above 2^53, are not modelled.
- The network: `fetch`, `response.json()` and the `NEXT_PUBLIC_API_URL` fallback are replaced by `Fetch<T>` outcomes and endpoint paths. `console.error` logging and `window.location.reload` are not modelled.
- A thrown value that is not an `Error` (the `'Failed to fetch archive'` / `'Failed to fetch news'` fallbacks of the `catch` blocks) is not modelled. Every `Rejected` outcome carries an Error message.
- Concurrency: each handler is one atomic step. The states in flight (for example `analysisLoading` true while the analysis request is outstanding) and interleavings of overlapping handlers are not modelled. The one exception is the two requests started on mount, whose completion in either order is modelled.
- The `any`-typed payloads: the analysis is an optional record and an archive descriptor is an id with an optional display name. The sidebar's list of archive buttons is not modelled.
- Tag lookup uses a plain map. JavaScript object lookup would also find inherited members for a tag such as "toString"; that is not modelled.
- A missing `tags` field (the `news.tags &&` guard) is not modelled: tags are always a sequence.
- app/data/mockNews.ts (static data), app/components/ThemeToggle.tsx (its theme context is not part of this model) and app/layout.tsx (markup) are not part of this model.

## Findings

| source | as written | input that shows it | evidently intended | confidence | as-written member | corrected member |
|---|---|---|---|---|---|---|
| app/page.tsx:396 | `<NewsCard news={news} onNewsClick={handleNewsClick} />` passes no `index`, so the card computes `undefined + 1` | any feed with at least one item: every card is ranked "#NaN" | pass the `index` of the surrounding `newsData.map((news, index) => …)` (line 390), which the card's props require, so card i is ranked i + 1 | high; not executed | HomeState.RankLabelsAsWrittenCollide | HomeState.CardRanksDistinct |
