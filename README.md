# Event dashboard: categorization and fetch-state model

A Dafny model of the decision logic of the event dashboard page
(`src/pages/Dashboard.tsx`):

- **Event categorizer** (`categorizeEvents`). It makes one pass over the
  event list. Events that are not `OPEN`, or that start before today, are
  dropped. Every other event is pushed into exactly one bucket: `today`,
  `thisWeek` (after today, up to the Sunday of the Monday-started week) or
  `upcoming` (after that Sunday). Each bucket is then sorted by start time
  with a stable sort.
- **Response normalisation.** The list response is either an array or an
  object with `openEvents`/`closedEvents`. It becomes one list, open
  events first, and a field that is missing or not an array counts as empty.
- **Status policy** of the list fetch and the detail fetch: no token,
  401, 404 (a soft "not available" state), other non-ok statuses, network
  failures and bodies that are not JSON.
- **Component state.** The seven `useState` slices are fields of a class
  `Dashboard`. The list part is `events`, `loading` and `error`. The modal
  part is `isDetailOpen`, `selectedEvent`, `loadingDetail` and
  `detailError`. Each handler is a method. A fetch is split at its await
  into two methods: one starts the request, the other handles the response.

Files, one module each:

- `dates.dfy` (`DateBounds`): `startOfDay`, `isSameDay`, `startOfWeek` and
  `endOfWeek` with `weekStartsOn: 1`, on integer millisecond timestamps.
- `events.dfy` (`Events`): `EventListItem`, `EventDetail` and the JSON
  shapes of a response body.
- `sort.dfy` (`StableSort`): the reference stable sort `SortByStart`, its
  properties, and an in-place insertion sort on an array proved equal to it.
- `categorizer.dfy` (`Categorizer`): the per-event decision `Classify`, the
  reference function `Categorization`, the imperative `CategorizeEvents`
  (push loop, then sort), and the bucket properties.
- `fetch.dfy` (`Fetching`): `Normalise`, `ListOutcome` and `DetailOutcome`.
- `dashboard.dfy` (`DashboardPage`): the state-step functions, the lemmas
  about fetch and modal sequences, and the `Dashboard` class. Each method's
  postcondition ties the new state to a step function of the old state.

Modelling choices:

- A timestamp is an `int` number of milliseconds on the local wall-clock
  timeline. Day 0 begins at timestamp 0 and is a Thursday, which gives the
  `Date.getDay` numbering.
- The clock (`new Date()`) is the parameter `now`.
- The token from local storage is a parameter `token: Option<string>`. An
  empty string is falsy, so it counts as no token.
- The HTTP status and the parsed body are an input `HttpResult`.
- `new Date(event.startTime)` is either a valid instant or an Invalid Date.
  An Invalid Date makes every comparison false, so the event is pushed into
  no bucket.

Behaviour of the source worth noting:

- On a 404 the list fetch stores its "not available yet" message in the
  same `error` state that hard errors use. The page renders that state as
  the red error line.
- A JSON `null` list body makes `data.openEvents` throw a TypeError. The
  handler catches it and reports it as an error, not as an empty list.
- On an ok response, the list fetch does not clear `error`. The fetch's
  first step has already cleared it.
- A JSON `null` detail body is stored as the selection as it is (the
  `EventDetail` annotation does not check anything). The modal then ends
  open and not loading, with neither a selection nor an error.

## Model

| member | source | states |
|---|---|---|
| DateBounds.StartOfDay | src/pages/Dashboard.tsx:144 | the start of the day that contains `t`: a midnight on or before `t`, less than a day before it, on the same day number |
| DateBounds.StartOfWeek | src/pages/Dashboard.tsx:130 | a Monday midnight on or before `t`, less than seven days before it |
| DateBounds.WeekEndDay | src/pages/Dashboard.tsx:131 | the Sunday that closes the Monday-started week of a day: a day 0 to 6 days later whose weekday is Sunday |
| DateBounds.EndOfWeek | src/pages/Dashboard.tsx:131 | the last millisecond of that Sunday; it is on or after `t`, less than seven days later, and lies seven days minus 1 ms after `StartOfWeek` |
| DateBounds.IsSameDay | src/pages/Dashboard.tsx:149 | `isSameDay`: equal start-of-day times; `IsSameDayMeansSameDayNumber` states what that means |
| DateBounds.IsSameDayMeansSameDayNumber | src/pages/Dashboard.tsx:149 | `isSameDay` holds exactly when the two day numbers are equal |
| DateBounds.MidnightWithinWeek | src/pages/Dashboard.tsx:151-153 | a midnight is on or before `thisWeekSunday` exactly when its day is on or before that Sunday, and after it exactly when its day is later |
| Categorizer.Classify | src/pages/Dashboard.tsx:142-155 | the early returns and the if / else-if chain of one forEach iteration, with the source's own timestamp comparisons; its meaning is stated by `ClassifyByDay` |
| Categorizer.ClassifyByDay | src/pages/Dashboard.tsx:142-155 | an event gets a bucket exactly when it is OPEN with a valid start on or after today: `today` exactly on the same day (the same-day test wins over the week test), `thisWeek` exactly for today < day <= Sunday, `upcoming` exactly for day > Sunday |
| Categorizer.CategorizeEvents | src/pages/Dashboard.tsx:133-164 | the push loop followed by the sort of each bucket yields exactly `Categorization`: each bucket is the stably sorted subsequence of the events of its class |
| Categorizer.Categorization | src/pages/Dashboard.tsx:133-164 | the value `categorizeEvents` returns; its properties are the bucket lemmas below and `CategorizeEvents` is proved to compute it |
| Categorizer.NonArrayIsEmpty | src/pages/Dashboard.tsx:166-168 | an events value that is not an array is categorized as `[]`, into three empty buckets |
| Categorizer.BucketsHoldTheirClass | src/pages/Dashboard.tsx:142-155 | every bucketed event comes from the input, is OPEN, starts on or after today, and its day matches its bucket |
| Categorizer.EligibleInExactlyOneBucket | src/pages/Dashboard.tsx:141-156 | an input event appears in a bucket exactly when it is eligible, and then in only one bucket; an eligible event of today is in `today` and never in `thisWeek` |
| Categorizer.BucketsPartitionListed | src/pages/Dashboard.tsx:141-156 | the three buckets together are a permutation (as multisets, counting duplicates) of the eligible events |
| Categorizer.BucketSizesAddUp | src/pages/Dashboard.tsx:141-156 | the bucket sizes add up to the number of eligible events |
| Categorizer.BucketsSortedAndStable | src/pages/Dashboard.tsx:158-161 | every bucket is non-decreasing by start time, and the events with any given start time keep the order they had in the input |
| Categorizer.RecategorizeIsIdentity | src/pages/Dashboard.tsx:133-164 | categorizing the concatenated buckets again with the same reference time gives the same buckets in the same order |
| Categorizer.SameReferenceDay | src/pages/Dashboard.tsx:129-131 | two renders whose clocks read the same day give identical buckets, although each render recomputes `today` |
| Categorizer.WednesdayScenario | src/pages/Dashboard.tsx:129-164 | with today Wednesday 2024-06-12, the input [B, C, A, D, E] gives `today` = [A, B], `thisWeek` = [C] and `upcoming` = [D], and drops the closed E |
| StableSort.SortByStart | src/pages/Dashboard.tsx:160 | the reference stable sort by start time (insertion from the right); it keeps the length, and the lemmas below state it is sorted, stable and a permutation |
| StableSort.SortIsSorted | src/pages/Dashboard.tsx:160 | the sorted bucket is non-decreasing by start time |
| StableSort.SortIsStable | src/pages/Dashboard.tsx:160 | for every start time, the subsequence of events with that time is the same before and after sorting |
| StableSort.SortPermutes | src/pages/Dashboard.tsx:160 | sorting is a permutation of the bucket |
| StableSort.SortOfSortedIsIdentity | src/pages/Dashboard.tsx:160 | sorting an already sorted bucket changes nothing |
| StableSort.InsertInPlace | src/pages/Dashboard.tsx:160 | one insertion step shifts the larger elements right and leaves the array as the sorted prefix with the next element inserted stably, with the rest untouched |
| StableSort.SortInPlace | src/pages/Dashboard.tsx:159-161 | the in-place sort leaves the array equal to `SortByStart` of its old contents |
| StableSort.SortBucket | src/pages/Dashboard.tsx:159-161 | a bucket sorted through an array equals `SortByStart` of the bucket |
| Fetching.HasToken | src/pages/Dashboard.tsx:28 | `!token` is false exactly for a present, non-empty token (the same test guards the detail fetch at line 82) |
| Fetching.IsOk | src/pages/Dashboard.tsx:46 | `res.ok`: a status from 200 to 299 (the same test at line 98) |
| Fetching.Normalise | src/pages/Dashboard.tsx:60-67 | it fails exactly on a `null` body; an array is returned unchanged; an object gives `openEvents` as the prefix and `closedEvents` as the rest; any other value gives the empty list |
| Fetching.NormaliseMergesOpenFirst | src/pages/Dashboard.tsx:62-67 | `{openEvents: [X], closedEvents: [Y]}` is normalised to [X, Y] |
| Fetching.NormaliseOneSided | src/pages/Dashboard.tsx:62-67 | an object with only `closedEvents` (or only `openEvents`) as an array normalises to exactly that field's items, and one with neither to `[]` |
| Fetching.ListOutcome | src/pages/Dashboard.tsx:46-71 | 404 exactly gives the soft not-available outcome, and 401 exactly the invalid-token error; data comes exactly from an ok status with a non-null JSON body, and it is the normalised body; any other non-ok status gives `HTTP <status>` |
| Fetching.DetailOutcome | src/pages/Dashboard.tsx:98-116 | the same policy for the detail fetch; its data is exactly the parsed body of an ok response, JSON `null` included |
| Fetching.DetailMirrorsList | src/pages/Dashboard.tsx:98-110 | for any non-ok status, a network failure, or a body that is not JSON, the detail fetch ends the same way as the list fetch |
| DashboardPage.BeginFetchEvents | src/pages/Dashboard.tsx:28-36 | the events are untouched; with no token the error is not-logged-in and loading stops; with a token loading starts and the error is cleared |
| DashboardPage.ResolveFetchEvents | src/pages/Dashboard.tsx:46-74 | loading always stops; data replaces the events and keeps the error; a 404 sets the empty list and the not-available message; a failure stores its message and keeps the previous events |
| DashboardPage.FetchEventsWithToken | src/pages/Dashboard.tsx:34-74 | a full fetch with a token ends with loading off and with the data and no error, or the empty list and the not-available message, or the old events and the failure message |
| DashboardPage.ListStatusPolicy | src/pages/Dashboard.tsx:28-58 | the whole list policy as exact end states: no token, 401, 404 (the empty list, no loading, the not-available message) and any other non-ok status |
| DashboardPage.EventsStayAnArray | src/pages/Dashboard.tsx:166-168 | in every state reachable from the initial one, `events` holds an array, so the `Array.isArray` guard never replaces it by `[]` |
| DashboardPage.OpenDetail | src/pages/Dashboard.tsx:81-87 | with no token all four modal fields are unchanged; otherwise the modal is open and loading, with no selection and no error |
| DashboardPage.ResolveDetail | src/pages/Dashboard.tsx:98-119 | loading stops; only success sets the selection, to the parsed body (`null` included), and then the error is kept; a 404 clears the selection and stores the not-available message; a failure stores its message and keeps the selection |
| DashboardPage.CloseModal | src/pages/Dashboard.tsx:122-126 | closed, with no selection and no error, and the loading flag left as it was |
| DashboardPage.OpenThenResolve | src/pages/Dashboard.tsx:81-119 | open then resolve ends open and not loading, with a selection exactly on success with an event body, an error exactly when the fetch did not succeed, and neither after a `null` body (phase Opening, then OpenWithData, OpenWithError or OpenEmpty) |
| DashboardPage.DetailStatusPolicy | src/pages/Dashboard.tsx:98-110 | for a non-ok status the modal ends open, not loading, with no selection, and with the 401, 404 or `HTTP <status>` message |
| DashboardPage.CloseFromAnyPhase | src/pages/Dashboard.tsx:122-126 | closing from any phase reaches Closed, and closing twice is the same as closing once |
| DashboardPage.LateResponseAfterClose | src/pages/Dashboard.tsx:81-126 | a success response that arrives after the modal was closed still sets the selection, because the request is not cancelled |
| DashboardPage.Dashboard.constructor | src/pages/Dashboard.tsx:15-23 | the initial state: no events, loading, no error, and the modal closed and idle |
| DashboardPage.Dashboard.FetchEvents | src/pages/Dashboard.tsx:27-36 | a request is issued exactly when there is a token; the list state becomes `BeginFetchEvents` of the old one, and the modal fields are unchanged |
| DashboardPage.Dashboard.FetchEventsResolved | src/pages/Dashboard.tsx:46-74 | the list state becomes `ResolveFetchEvents` of the old one, and the modal fields are unchanged |
| DashboardPage.Dashboard.OpenEventDetail | src/pages/Dashboard.tsx:81-87 | the detail of `eventId` is requested exactly when there is a token; the modal state becomes `OpenDetail` of the old one, and the list fields are unchanged |
| DashboardPage.Dashboard.OpenEventDetailResolved | src/pages/Dashboard.tsx:89-119 | the modal state becomes `ResolveDetail` of the old one, and the list fields are unchanged |
| DashboardPage.Dashboard.Close | src/pages/Dashboard.tsx:122-126 | the modal state becomes `CloseModal` of the old one, and the list fields are unchanged |
| DashboardPage.Dashboard.Categorize | src/pages/Dashboard.tsx:166-168 | the buckets rendered are `Categorization` of the events state; a non-array value gives three empty buckets |

## Left out

- Rendering: the JSX, CSS classes and `format(..., { locale: vi })` display strings (src/pages/Dashboard.tsx:171-386). These are presentation only.
- `fetch`, `res.json()`, `localStorage.getItem` and `console.error` are I/O. The token, the status and the parsed body are inputs instead; the log call has no modelled effect.
- Time zones and daylight saving are left out. The date-fns helpers are written on a uniform local timeline with 86 400 000 ms per day.
- `thisWeekMonday` (src/pages/Dashboard.tsx:130) is computed but never used by the categorizer. `StartOfWeek` models it, but nothing depends on it.
- Concurrency. Overlapping `openEventDetail` calls and a list reload racing a detail fetch are not modelled. Each start and each resolution is one sequential step. `LateResponseAfterClose` shows one consequence of the missing cancellation.
- `useEffect`'s re-run when the token changes is not modelled. Each `FetchEvents` call is one run.
- The message strings are an `ErrorMessage` datatype, not the Vietnamese text. The default after `err.message ??` is never used, because every caught value here carries a message. Its cause (network, bad JSON, `null` body) is kept instead.
- A detail body that is JSON but neither `null` nor an object (a number, a string, an array) is not modelled. Every non-`null` body is read as an `EventDetail`.
- StableSort.SortByStart: `Array.prototype.sort` is modelled by a stable insertion sort. The model does not prove that every stable sort gives the same result.
- src/pages/ImageUploadTest.tsx is not modelled: it is a throwaway test page around upload helpers in `../utils/imageUpload`, and that file is not part of this model.
- `useAuth` and the `user` value are read but not used by the modelled logic.
