# ScanPage pagination model

A Dafny model of the scan history page of ScanForm (`src/pages/ScanPage.tsx`): the
cursor-paginated list state the page keeps, the `fetchScans` routine that updates it,
and the conditions that decide what the page renders.

- `js_values.dfy` (module `Js`): `string | null` as `Option<string>`, JavaScript
  truthiness of such a value, and what a `catch` clause receives (an `Error` with its
  `message`, or any other value).
- `scan_api.dfy` (module `ScanApi`): the request URL, the outcome of the awaited
  `api(...)` call taken as an input (`Success(items, next)` or `Failure(thrown)`), and
  the message recorded on failure.
- `page_transitions.dfy` (module `PageTransitions`): the five state variables as a value, and the
  transitions of one `fetchScans` call (begin, success or failure, `finally`) as
  functions; the invariant `CursorAgrees`.
- `page_view.dfy` (module `PageView`): which of the error block, the cards, the four
  skeletons, the empty state and Load More are rendered.
- `page_session.dfy` (module `PageSession`): a visit as the mount load followed by
  button presses, each with the outcome of the load it starts; lemmas over whole visits.
- `scan_page.dfy` (module `ScanPageComponent`): the component as a class whose five
  fields are the state variables; its methods are `fetchScans` split at its `await`,
  the whole of `fetchScans`, and the two button handlers, each proved to follow the
  transition functions. Two client methods trace visits through it.

Record type `ScanRecord` is a type parameter `R`: the page never looks inside a record.

Truthiness, not null-ness, decides four things in the code: whether the cursor
argument appends or replaces and goes into the URL (lines 22 and 24), whether
`hasNextPage` is set (line 26), and whether the error block is shown (lines 69 and 75).
So an empty-string `next` stores `""` as the cursor and clears `hasNextPage`, and an
`Error` with an empty message stores `error = ""`, which keeps the error block hidden
and the list rendered. The cards, the skeletons, the empty state and Load More all sit
inside the `!error` branch (lines 75-112), so Load More is hidden while the error block
is shown.

`hasNextPage` agrees with the truthiness of `cursor` in every state except the
never-loaded one (`scans` empty, `cursor` null, `hasNextPage` true), which is the
initial state and persists through failed loads until a load succeeds. In that state
Load More can be on screen (after a failure whose message is empty) and passes a null
cursor, so it replaces instead of appending; because the list is then empty, this
still amounts to appending (`LoadMoreAppends`, `SessionLoadMoreAppends`).

## Model

| member | source | states |
|---|---|---|
| `ScanApi.RequestUrl` | src/pages/ScanPage.tsx:22 | every URL starts with `/api/scans`; it differs from `/api/scans` exactly when the cursor argument is truthy, and then is longer by the query prefix plus the cursor's length |
| `ScanApi.UrlRoundTrip` | src/pages/ScanPage.tsx:22 | the cursor read back from the requested URL is the argument itself when truthy and none otherwise: the cursor is sent verbatim, unencoded |
| `ScanApi.RequestUrlInjective` | src/pages/ScanPage.tsx:22 | two loads request the same URL if and only if they send the same cursor (all falsy cursors send none) |
| `ScanApi.ErrorMessage` | src/pages/ScanPage.tsx:28 | an `Error`'s own message is recorded, any other thrown value records `Failed to fetch scans`; the message is empty only for an `Error` whose message is empty |
| `PageTransitions.MountAlreadyLoading` | src/pages/ScanPage.tsx:13-20 | the initial state (no scans, loading, no error, no cursor, `hasNextPage`) equals the state right after beginning the mount load |
| `PageTransitions.Initial` | src/pages/ScanPage.tsx:13-17 | the state on mount has loaded nothing (no scans, no cursor, a next page assumed), has no error, and is loading |
| `PageTransitions.Begin` | src/pages/ScanPage.tsx:19-20 | beginning a load sets `isLoading`, clears `error`, and changes nothing else |
| `PageTransitions.Succeed` | src/pages/ScanPage.tsx:24-32 | a truthy cursor argument keeps the old list as a prefix with the returned items after it, a falsy one leaves exactly the returned items; `next` is stored, `hasNextPage` holds iff `next` is a non-empty string, `isLoading` is cleared, `error` is kept |
| `PageTransitions.Fail` | src/pages/ScanPage.tsx:27-33 | the error message is recorded, `isLoading` is cleared, and nothing else changes |
| `PageTransitions.Fetch` | src/pages/ScanPage.tsx:18-34 | after any load `isLoading` is false and `error` is set iff the load failed; success appends to the old list (old list is a prefix, new items follow) for a truthy cursor and is exactly the returned items otherwise, stores `next` and sets `hasNextPage` iff `next` is a non-empty string; failure keeps list, cursor and `hasNextPage` and records the error message |
| `PageTransitions.InitialCursorAgrees` | src/pages/ScanPage.tsx:13-17 | the initial state meets the cursor invariant only as the never-loaded state: it claims a next page with no cursor |
| `PageTransitions.FetchKeepsCursorAgrees` | src/pages/ScanPage.tsx:24-29 | every load keeps `CursorAgrees`; after a successful one `hasNextPage` equals the truthiness of the stored cursor |
| `PageView.ShowErrorBlock` | src/pages/ScanPage.tsx:69 | the error block is shown for a stored non-empty message and hidden when no error is stored or the message is empty |
| `PageView.ShowList` | src/pages/ScanPage.tsx:69-75 | the list section is shown exactly when the error block is not; an empty error message shows the list |
| `PageView.Cards` | src/pages/ScanPage.tsx:83-87 | the cards are the stored records in order when the list is shown, and none beside the error block |
| `PageView.SkeletonCount` | src/pages/ScanPage.tsx:88-94 | zero or four skeletons; four exactly while loading with no error block |
| `PageView.ShowEmptyState` | src/pages/ScanPage.tsx:96-102 | the empty state comes with no cards and no skeletons, and is shown exactly when the list is shown, nothing is loading and there are no records |
| `PageView.ShowLoadMore` | src/pages/ScanPage.tsx:103-110 | Load More is shown exactly when a next page is claimed, nothing is loading and the error block is hidden; so it is never rendered disabled and never beside skeletons |
| `PageView.LoadingView` | src/pages/ScanPage.tsx:75-110 | while a load is in flight the previous cards stay visible with four skeletons, and neither the empty state nor Load More is shown |
| `PageView.SuccessOffersLoadMore` | src/pages/ScanPage.tsx:24-26 | after any successful load, Load More is shown exactly when the response's next token is truthy |
| `PageView.EmptyMessageHidesErrorBlock` | src/pages/ScanPage.tsx:69-75 | a failure with an empty `Error` message stores `""` and the list, not the error block, is rendered |
| `PageSession.ButtonCursor` | src/pages/ScanPage.tsx:72-105 | Try Again passes a falsy cursor, Load More passes the stored cursor |
| `PageSession.Step` | src/pages/ScanPage.tsx:72-105 | pressing a hidden button changes nothing; pressing a shown one ends with nothing loading, an error stored iff its load failed, and the list kept on failure |
| `PageSession.Session` | src/pages/ScanPage.tsx:13-37 | after the mount load and any presses, nothing is loading and `CursorAgrees` holds |
| `PageSession.Flatten` | src/pages/ScanPage.tsx:24 | the records of consecutive pages start with the first page's records and end with the last page's |
| `PageSession.ReplayKeepsCursorAgrees` | src/pages/ScanPage.tsx:18-34 | any sequence of presses from a settled state satisfying `CursorAgrees` ends settled and satisfying it |
| `PageSession.LoadMoreAppends` | src/pages/ScanPage.tsx:103-105 | from a consistent state showing Load More, a successful Load More gives the old list followed by the new items |
| `PageSession.SessionLoadMoreAppends` | src/pages/ScanPage.tsx:18-37 | at any point of a visit, a successful Load More keeps every record already shown and adds the page after them |
| `PageSession.TryAgainRestarts` | src/pages/ScanPage.tsx:72 | a successful Try Again leaves exactly the returned page, discarding earlier pages, and hides the error block |
| `PageSession.LoadMoreStep` | src/pages/ScanPage.tsx:24-26 | one successful Load More appends, stores the token, sets `hasNextPage` by its truthiness, keeps the invariant, and leaves Load More shown iff the token is truthy |
| `PageSession.LoadMoreChain` | src/pages/ScanPage.tsx:24-26 | following Load More through pages whose tokens are truthy (save the last) yields the old list followed by all pages' records in order, with no deduplication, and the last page's token |
| `ScanPageComponent.ScanPage.constructor` | src/pages/ScanPage.tsx:13-17 | the fields start as no scans, loading, no error, no cursor, `hasNextPage` |
| `ScanPageComponent.ScanPage.BeginLoad` | src/pages/ScanPage.tsx:19-22 | sets `isLoading`, clears `error`, leaves the other fields, and returns a URL from which exactly the sent cursor is read back |
| `ScanPageComponent.ScanPage.CompleteSuccess` | src/pages/ScanPage.tsx:24-32 | appends or replaces the list by the cursor's truthiness, stores `next`, sets `hasNextPage` by its truthiness, clears `isLoading`, keeps `error` |
| `ScanPageComponent.ScanPage.CompleteFailure` | src/pages/ScanPage.tsx:27-33 | records the error message, clears `isLoading`, keeps list, cursor and `hasNextPage` |
| `ScanPageComponent.ScanPage.FetchScans` | src/pages/ScanPage.tsx:18-34 | the new state is the `Fetch` transition of the old one, and the requested URL is `RequestUrl` of the argument |
| `ScanPageComponent.ScanPage.OnTryAgain` | src/pages/ScanPage.tsx:72 | runs a load with no cursor and requests `/api/scans` |
| `ScanPageComponent.ScanPage.OnLoadMore` | src/pages/ScanPage.tsx:105 | runs a load with the cursor stored before the press and requests its URL |

## Left out

- The `api` HTTP client (src/pages/ScanPage.tsx:23): a network call; its result is an input (`ApiOutcome`). The model assumes `api` either returns `{ items, next }` or throws; any other body is not modelled.
- `toast.error` and `<Toaster>`: a notification side effect in an external library.
- The framer-motion variants, the JSX styling, `ThemeToggle`, `Link`, `ScanCard`, `Skeleton` and the spinner icon: presentation with no state.
- Overlapping `fetchScans` calls, responses arriving out of order, and responses arriving after unmount: each load completes before the next begins in this model.
- React's render scheduling and batching of setter calls: each setter group is applied as one step; the functional update of `scans` reads the state as it stands at that step.
- The record `id` used as a React list key, and the shape of `ScanRecord`: records are opaque values of a type parameter.
- `PageSession.Step`: a press of a button that is not rendered is modelled as having no effect, since it cannot happen on the page.
