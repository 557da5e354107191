# TicketFlow, modelled in Dafny

TicketFlow is a support-ticket application. A React front end has three
components:

- a two-step draft form: write a ticket, let the language model suggest a
  category and a priority, review the suggestions and submit;
- a filtered, searchable ticket list with per-ticket status changes and an
  "Ask AI" solution panel;
- a statistics panel.

A Django REST back end serves the ticket listing with its filters, the
aggregate statistics, and two endpoints that call the language model.

This project models those behaviours and proves what they promise.

**Front-end components** (`ticket_form.dfy`, `ticket_list.dfy`,
`stats_dashboard.dfy`):

- Each component is a class whose fields are its state hooks, and each
  handler is a method that sets those fields in the order the handler does.
- In the form (`ticket_form.dfy`) every handler is proved equal to a pure
  transition of the old state, and the lemmas about the form are stated over
  those transitions.
- In the list and the statistics panel (`ticket_list.dfy`,
  `stats_dashboard.dfy`) each method states its new fields directly.
- The form's analysis and submit, and the list's solution request, are split
  into the part before the `await` and the part after it, so the
  disabled-while-busy gating is visible. What the request returned is a
  parameter of the second part.
- The list's status update is one step: whether the PATCH resolved is its
  parameter, and the re-fetch it issues is its result.

**Debounce.** The 300 ms fetch in the list is a discrete state machine:

- a clock that the environment advances;
- the runtime's queue of pending timers, which the effect's cleanup empties
  before it schedules the next timer.

**Back-end view set** (`ticket_views.dfy`):

- Query sets are sequences of ticket records; `created_at` is whole seconds.
- The listing is a newest-first sort followed by the if-chain of filters.
- The statistics are written as they are computed, including the zero-filling
  `setdefault` loop.
- The two AI endpoints keep their guards, their response cleanup and their
  fallbacks.
- The language model is a parameter: its reply is either a text or an error.

**Library behaviour the code relies on**, for the arguments the code passes:

- Python's `str.strip`, `replace`, `find` and `rfind`, and slicing with
  non-negative bounds no larger than the length, the only bounds `classify`
  can pass (`py_strings.dfy`).
- The `application/x-www-form-urlencoded` serializer of `URLSearchParams`
  (section 5.2 of the WHATWG URL Standard) over UTF-8, with its parser and the
  round trip between them (`form_urlencoded.dfy`).
- `QueryDict.get`, which returns the last value of a repeated key.
- The 2xx-resolves / otherwise-rejects rule of the HTTP client (`http.dfy`).
- Insertion-ordered dictionaries, as association lists (`dicts.dfy`).
- Order-preserving filters and a descending sort (`seqs.dfy`).

**Whole-page lemmas** (`dashboard.dfy`):

- The back end reads from the list's query exactly the list's non-empty
  filters.
- The cards show the counts of the ticket table.
- The form can never receive the classify 400.
- A failed solution request shows the list's own message.

**Three behaviours of the code worth noting:**

- `updateStatus` has no `catch`. A rejected PATCH ends the handler with an unhandled rejection: no alert and no re-fetch.
- While a solution request is in flight every "Ask AI" button is disabled, so no second request can start.
- The 300 ms debounce applies to every dependency, including the refresh counter, not only to typing in the search box.

## Model

| member | source | states |
|---|---|---|
| `Common.OrElse` | frontend/src/components/TicketForm.jsx:21-22 | JavaScript's or-default on a possibly missing string: the value when it is non-empty, the fallback otherwise; never empty with a non-empty fallback |
| `Tickets.DayOf` | backend/tickets/views.py:63 | `.date()` of a UTC timestamp: the day whose 86400-second window holds it |
| `Seqs.Filter` | backend/tickets/views.py:35-44 | a query-set `.filter`: every kept element satisfies the predicate and comes from the input, every input element satisfying it is kept, and the result never grows |
| `Seqs.FilterCounts` | backend/tickets/views.py:35-44 | a filter keeps every copy of a value satisfying the predicate and no copy of any other value |
| `Seqs.FilterIsSubsequence` | backend/tickets/views.py:29-45 | a filtered query set keeps the order of the one it came from |
| `Seqs.FilterThenFilter` | backend/tickets/views.py:35-40 | two chained filters are one filter by the conjunction (AND) |
| `Seqs.FilterKeepsAll` | backend/tickets/views.py:29-45 | a filter every element passes changes nothing |
| `Seqs.SubsequenceKeepsSorted` | backend/tickets/views.py:22 | an order-preserving selection of a newest-first list is newest-first |
| `Seqs.SubsequenceShorter` | backend/tickets/views.py:29-45 | a subsequence is never longer |
| `Seqs.SortDesc` | backend/tickets/views.py:22 | `order_by('-created_at')`: sorted by descending key and a permutation of its input |
| `Seqs.InsertDescSorted` | backend/tickets/views.py:22 | inserting into a descending list keeps it descending |
| `Dicts.Tally` | backend/tickets/views.py:67-68 | `values(field).annotate(Count)`: one entry per distinct value present, distinct keys, each count the value's number of occurrences and positive, counts summing to the number of rows |
| `Dicts.SetDefaultProperties` | backend/tickets/views.py:71 | `setdefault` appends a missing key with its default and changes no other count; the earlier entries stay in place |
| `PyStrings.Strip` | backend/tickets/views.py:99 | `strip()`: the slice left after removing white space at both ends; empty exactly for an all-white-space text |
| `PyStrings.ReplaceAll` | backend/tickets/views.py:99 | `str.replace` with every occurrence, left to right: a replacement no longer than the pattern never makes the string longer |
| `PyStrings.ReplaceAllAbsent` | backend/tickets/views.py:99 | a text in which the pattern does not occur is returned unchanged |
| `PyStrings.NoFenceAfterRemoval` | backend/tickets/views.py:99 | after `.replace('```', '')` no three back-ticks remain |
| `PyStrings.Find` | backend/tickets/views.py:101 | `find`: -1 exactly when absent, otherwise the first index holding the character |
| `PyStrings.RFind` | backend/tickets/views.py:101 | `rfind`: -1 exactly when absent, otherwise the last index holding the character |
| `PyStrings.Slice` | backend/tickets/views.py:103 | `s[i:j]` for bounds between 0 and the length: the slice when `i <= j` and empty otherwise |
| `PyStrings.Lower` | backend/tickets/views.py:43 | the case folding of `icontains`, position by position |
| `FormUrlencoded.Utf8RoundTrip` | frontend/src/components/TicketList.jsx:22 | the UTF-8 encoding the serializer percent-encodes decodes back to the same string |
| `FormUrlencoded.Encode` | frontend/src/components/TicketList.jsx:22 | the serializer's output for one name or value uses only unreserved characters, `+` and `%`, so never `&` or `=` |
| `FormUrlencoded.EncodeRoundTrip` | frontend/src/components/TicketList.jsx:22 | percent-decoding undoes percent-encoding |
| `FormUrlencoded.EncodeUnreserved` | frontend/src/components/TicketList.jsx:22 | a value made of unreserved characters is sent as it is |
| `FormUrlencoded.Serialize` | frontend/src/components/TicketList.jsx:22 | `URLSearchParams.toString()` is empty exactly when there are no pairs |
| `FormUrlencoded.ParseSerialize` | frontend/src/components/TicketList.jsx:22 | reading a serialized query back gives the same pairs, in order |
| `Http.Resolve` | frontend/src/components/TicketList.jsx:22-24 | an awaited call resolves with the body exactly on a 2xx response and rejects otherwise |
| `TicketViews.NewestFirst` | backend/tickets/views.py:22 | the base query set is sorted newest first and holds every ticket |
| `TicketViews.QueryGet` | backend/tickets/views.py:30-33 | `query_params.get`: `None` exactly when the key is absent, otherwise the value of its last occurrence |
| `TicketViews.QueryGetAppend` | backend/tickets/views.py:30-33 | a later value of a key hides every earlier one |
| `TicketViews.GetQueryset` | backend/tickets/views.py:25-45 | the if-chain of filters gives one filter of the newest-first tickets by the conjunction of the non-empty filters |
| `TicketViews.NoFilterListsAll` | backend/tickets/views.py:22-45 | with every filter absent or empty the listing is every ticket, newest first |
| `TicketViews.ListingCharacterized` | backend/tickets/views.py:22-45 | the listing holds exactly the tickets passing every non-empty filter (the search over title OR description), in newest-first order, as a subsequence of the base list, never longer than the table |
| `TicketViews.FirstCreated` | backend/tickets/views.py:57 | `Min('created_at')` is attained and is a lower bound |
| `TicketViews.LastCreated` | backend/tickets/views.py:58 | `Max('created_at')` is attained and is an upper bound |
| `TicketViews.DaySpanPositive` | backend/tickets/views.py:63-64 | the day span `last - first + 1` is at least 1 |
| `TicketViews.AvgPerDay` | backend/tickets/views.py:61-65 | 0 for an empty table, otherwise the tickets per day of the span |
| `TicketViews.ZeroFill` | backend/tickets/views.py:70-71 | the `setdefault` loop adds exactly the missing priorities with count 0, keeps every count and the total, and keeps the existing entries in front in their order |
| `TicketViews.Stats` | backend/tickets/views.py:48-79 | total is the ticket count; open is the number of tickets whose status is `open`, at most the total; the priority breakdown has the four priorities plus any other present value, distinct keys, exact counts summing to the total; the category breakdown holds only present categories, each with a positive exact count |
| `TicketViews.OpenCount` | backend/tickets/views.py:53 | `filter(status='open').count()` is the number of `open` entries in the status column |
| `TicketViews.Unfence` | backend/tickets/views.py:99 | the stripped, unfenced reply has no fence and is no longer than the reply |
| `TicketViews.CleanJsonTextShape` | backend/tickets/views.py:99-103 | the cleanup is the unfenced text unless it holds both braces; then it is the stretch from the first `{` through the last `}` (empty when the last `}` comes first), starting with `{`, ending with `}`; no fence survives |
| `TicketViews.ClassifyGuard` | backend/tickets/views.py:86-88 | without a description `classify` answers 400 whatever the model would have said |
| `TicketViews.CleanJsonText` | backend/tickets/views.py:99-103 | the text handed to `json.loads` is never longer than the unfenced reply |
| `TicketViews.BraceSlice` | backend/tickets/views.py:100-103 | the `find`/`rfind` slice never lengthens the text |
| `TicketViews.BraceSliceShape` | backend/tickets/views.py:100-103 | for any text: unchanged unless it holds both braces; empty when the last `}` precedes the first `{`; otherwise the stretch from the first `{` through the last `}`, starting with `{` and ending with `}`; a fence-free text gives a fence-free slice |
| `TicketViews.Classify` | backend/tickets/views.py:82-108 | 400 without a description; with one, always 200, with general/medium when the model or the parse fails and the parsed object otherwise |
| `TicketViews.SuggestSolution` | backend/tickets/views.py:115-133 | 400 without a description, 200 with the stripped reply, 500 with the fixed apology on a model failure |
| `TicketForm.BeginAnalysis` | frontend/src/components/TicketForm.jsx:16-18 | a request is sent exactly when the button is enabled and title and description are non-empty; otherwise nothing changes; the description is what is sent |
| `TicketForm.EndAnalysis` | frontend/src/components/TicketForm.jsx:19-31 | the review step with the suggestions or general/medium in place of missing, empty or failed ones; title and description kept; the busy mark cleared; the invariant established |
| `TicketForm.Back` | frontend/src/components/TicketForm.jsx:119 | back to editing with the whole draft kept |
| `TicketForm.SelectCategory` | frontend/src/components/TicketForm.jsx:128-137 | the category select sets one of its non-empty options and nothing else |
| `TicketForm.SelectPriority` | frontend/src/components/TicketForm.jsx:142-151 | the priority select sets one of its non-empty options and nothing else |
| `TicketForm.BeginSubmit` | frontend/src/components/TicketForm.jsx:34-37 | a request is sent exactly when the button is enabled, with exactly the four draft fields |
| `TicketForm.EndSubmit` | frontend/src/components/TicketForm.jsx:38-45 | success clears the four fields, returns to editing and notifies once; failure keeps the draft and the step; the busy mark ends cleared |
| `TicketForm.SetTitle` | frontend/src/components/TicketForm.jsx:72 | the title input changes the title only |
| `TicketForm.SetDescription` | frontend/src/components/TicketForm.jsx:82 | the description input changes the description only |
| `TicketForm.RunKeepsValid` | frontend/src/components/TicketForm.jsx:16-46 | under any sequence of user events and request completions the review step never shows an empty category or priority |
| `TicketForm.RefreshCountsSuccesses` | frontend/src/App.jsx:10-12 | the parent's refresh counter rises by exactly the number of successful submits |
| `TicketForm.TicketFormComponent.constructor` | frontend/src/components/TicketForm.jsx:7-14 | the initial state: empty draft, edit step, nothing in flight |
| `TicketForm.TicketFormComponent.OnTitleChange` | frontend/src/components/TicketForm.jsx:72 | the handler performs `SetTitle` |
| `TicketForm.TicketFormComponent.OnDescriptionChange` | frontend/src/components/TicketForm.jsx:82 | the handler performs `SetDescription` |
| `TicketForm.TicketFormComponent.StartAnalysis` | frontend/src/components/TicketForm.jsx:16-20 | the handler performs `BeginAnalysis` and keeps the invariant |
| `TicketForm.TicketFormComponent.FinishAnalysis` | frontend/src/components/TicketForm.jsx:21-31 | the handler performs `EndAnalysis` and establishes the invariant |
| `TicketForm.TicketFormComponent.OnBack` | frontend/src/components/TicketForm.jsx:157 | the handler performs `Back` |
| `TicketForm.TicketFormComponent.OnCategoryChange` | frontend/src/components/TicketForm.jsx:130 | the handler performs `SelectCategory` |
| `TicketForm.TicketFormComponent.OnPriorityChange` | frontend/src/components/TicketForm.jsx:144 | the handler performs `SelectPriority` |
| `TicketForm.TicketFormComponent.StartSubmit` | frontend/src/components/TicketForm.jsx:34-37 | the handler performs `BeginSubmit` |
| `TicketForm.TicketFormComponent.FinishSubmit` | frontend/src/components/TicketForm.jsx:38-45 | the handler performs `EndSubmit` and keeps the invariant |
| `TicketList.BuildParams` | frontend/src/components/TicketList.jsx:15-20 | appending the non-empty filters one by one gives the reference query: the four pairs filtered to the non-empty ones |
| `TicketList.QueryParamsShape` | frontend/src/components/TicketList.jsx:16-22 | a key is sent exactly when its filter is non-empty, with its value, in the order search, status, priority, category; no filters give an empty query string |
| `TicketList.FetchUrlQuery` | frontend/src/components/TicketList.jsx:22 | the fetch URL is `/tickets/?` followed by a query that reads back as exactly those pairs |
| `TicketList.SearchStatusUrl` | frontend/src/components/TicketList.jsx:15-22 | with only a search and a status, both in unreserved characters, the URL is `/tickets/?search=<search>&status=<status>`, with no priority or category key |
| `TicketList.BillingOpenUrl` | frontend/src/components/TicketList.jsx:15-22 | searching for `billing` among open tickets requests `/tickets/?search=billing&status=open` |
| `TicketList.OptionLists` | frontend/src/components/TicketList.jsx:81-83 | the filter selects offer no `closed` status and no `general` category; the per-ticket select offers every status |
| `TicketList.PriorityColor` | frontend/src/components/TicketList.jsx:52-59 | the default style exactly for values other than critical, high and medium |
| `TicketList.PriorityColorsDistinct` | frontend/src/components/TicketList.jsx:52-59 | critical, high and medium have three different styles |
| `TicketList.SolutionAfter` | frontend/src/components/TicketList.jsx:39-41 | the returned text on success, exactly "AI could not generate a solution." on failure |
| `TicketList.FailureShowsPanel` | frontend/src/components/TicketList.jsx:100 | a failed request always opens the panel |
| `TicketList.TicketListComponent.constructor` | frontend/src/components/TicketList.jsx:7-32 | mounting: an empty list, no filters, no solution, one timer due in 300 ms |
| `TicketList.TicketListComponent.RunEffect` | frontend/src/components/TicketList.jsx:27-32 | the cleanup cancels the pending timer and one new timer for the current filters is due in 300 ms |
| `TicketList.TicketListComponent.SetSearch` | frontend/src/components/TicketList.jsx:75 | a changed search reschedules the single timer; an unchanged value does nothing; at most one timer stays pending |
| `TicketList.TicketListComponent.SetStatusFilter` | frontend/src/components/TicketList.jsx:88 | as for the search, for the status filter |
| `TicketList.TicketListComponent.SetPriorityFilter` | frontend/src/components/TicketList.jsx:88 | as for the search, for the priority filter |
| `TicketList.TicketListComponent.SetCategoryFilter` | frontend/src/components/TicketList.jsx:88 | as for the search, for the category filter |
| `TicketList.TicketListComponent.SetRefreshTrigger` | frontend/src/components/TicketList.jsx:32 | a changed refresh counter reschedules the single timer |
| `TicketList.TicketListComponent.Advance` | frontend/src/components/TicketList.jsx:28-30 | a timer fires exactly when due, issuing one fetch with the current filters and leaving none pending |
| `TicketList.TicketListComponent.FetchDone` | frontend/src/components/TicketList.jsx:22-24 | a resolved fetch replaces the tickets wholesale; a rejected one leaves them unchanged |
| `TicketList.TicketListComponent.StartSolution` | frontend/src/components/TicketList.jsx:34-38 | while enabled, the click clears the solution, sets the loading flag and sends the description |
| `TicketList.TicketListComponent.FinishSolution` | frontend/src/components/TicketList.jsx:39-44 | the solution becomes `SolutionAfter` of the reply and loading ends |
| `TicketList.TicketListComponent.Dismiss` | frontend/src/components/TicketList.jsx:118 | the solution becomes null and the panel is hidden |
| `TicketList.TicketListComponent.UpdateStatus` | frontend/src/components/TicketList.jsx:47-50 | the PATCH carries the id and new status; exactly one re-fetch follows, and only if the PATCH resolved |
| `StatsDashboard.CriticalCount` | frontend/src/components/StatsDashboard.jsx:44 | the optional-chained critical count with its zero default: 0 for a missing breakdown or key, otherwise the stored count |
| `StatsDashboard.Render` | frontend/src/components/StatsDashboard.jsx:37-45 | the placeholder exactly while there are no stats; otherwise the three fields unchanged and the critical count |
| `StatsDashboard.CriticalCardPositive` | frontend/src/components/StatsDashboard.jsx:44 | the Critical card is positive exactly when the breakdown holds a positive `critical` entry |
| `StatsDashboard.StatsDashboardComponent.constructor` | frontend/src/components/StatsDashboard.jsx:29-35 | mounting shows the placeholder and sends one request |
| `StatsDashboard.StatsDashboardComponent.SetRefreshTrigger` | frontend/src/components/StatsDashboard.jsx:31-35 | one more request per change of the refresh counter, none for an unchanged value |
| `StatsDashboard.StatsDashboardComponent.FetchDone` | frontend/src/components/StatsDashboard.jsx:32-34 | a resolved request replaces the snapshot; a rejected one keeps the previous snapshot or the placeholder |
| `Dashboard.QueryGetOpt` | frontend/src/components/TicketList.jsx:17-20 | the back end's `query_params.get` of one filter's pairs finds nothing for an empty filter and the filter's own value otherwise, under its own key only |
| `Dashboard.FiltersReachBackend` | backend/tickets/views.py:30-33 | the back end parses the list's query and reads exactly the list's non-empty filters |
| `Dashboard.ListingFor` | backend/tickets/views.py:25-45 | the list receives exactly the tickets agreeing with its non-empty filters, newest first |
| `Dashboard.GeneralOnlyUnfiltered` | frontend/src/components/TicketList.jsx:83 | a general ticket is listed only while the category filter is off |
| `Dashboard.CardsFor` | frontend/src/components/StatsDashboard.jsx:41-44 | the cards show the ticket count, the number of tickets whose status is `open`, the per-day average and the number of critical tickets |
| `Dashboard.AnalysisEndToEnd` | frontend/src/components/TicketForm.jsx:16-31 | the form's classify request always gets a 200; the form then reaches the review step with the model's usable suggestions or general/medium |
| `Dashboard.SolutionEndToEnd` | frontend/src/components/TicketList.jsx:34-44 | the solution becomes the stripped reply, and the panel opens exactly when that is non-empty; when the model fails or the description is empty the solution is the list's own failure message and the panel opens |

## Left out

- The language-model calls, `genai.configure`, the prompts and logging: the model's reply is a parameter, either a text or an error.
- `json.loads` is a parameter `parse` from the cleaned text to the two suggestion fields. Other fields of the parsed object are not modelled, and neither are non-object or non-string values.
- The DRF serializer, router, `Response` machinery and the HTTP client's configuration: a response is a status and a body.
- `backend/tickets/urls.py` is not part of this model.
- `TicketViews.ZeroFill`: does not state the order in which the missing priorities are appended (low, medium, high, critical), only that the existing entries stay in front in their order.
- `TicketViews.AvgPerDay`: states the exact quotient as a real. The rounding to one decimal place in floating point is not modelled.
- `TicketViews.NewestFirst`: the database leaves the order of equal timestamps open. The model keeps the table order among them, so no claim is made about ties.
- The case folding of `icontains` depends on the database collation; the model uses ASCII lower-casing.
- The order of grouped rows in the breakdowns is the database's. The model uses the order of first occurrence, and every stated property holds in any order.
- Django's query-string parser replaces malformed UTF-8 rather than rejecting it. The model's parser is strict, which makes no difference for queries the front end writes.
- `StatsDashboard.CriticalCount`: the stored count is stated for breakdowns with distinct keys, which every parsed JSON object has.
- Out-of-order completion of overlapping fetches and solution requests, and wall-clock timing: each completion is a separate event, and time is a clock the environment advances.
- JSX markup, animation, styling other than the priority classes, icons, date formatting, `alert` and `console.error`.
- The layout of `App.jsx` is not modelled. Its `handleTicketCreated` and refresh counter are folded into the form model as the `refresh` field.
