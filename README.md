# Mini Trends Dashboard — verified model of its core

The Mini Trends Dashboard shows the hottest Reddit posts as cards. Its backend
asks Reddit for a listing and turns each post into a trend record; its React
frontend polls the backend, keeps four pieces of state (`trends`, `loading`,
`error`, `lastUpdated`) and renders them as a refresh button, a last-updated
line and either an error banner, a spinner or a grid of cards.

This project models those two pieces of logic in Dafny:

- `reddit_service.dfy` (module `RedditService`): `RedditService.get_trends` —
  the request URL, the loop that projects each post of `data.children` into a
  record with renamed keys, and the all-or-nothing failure that returns `[]`
  on any exception. The HTTP call is a parameter `fetch` from request to
  response; the decoded JSON body is a listing datatype whose keys are optional.
- `decimal.dfy` (module `Decimal`): the decimal text that `str(limit)`
  writes into the URL (within Python's digit cap), with the parser that inverts it.
- `app.dfy` (module `App`): the component's state as a class `Dashboard` whose
  methods `BeginFetch`, `SucceedFetch` and `FailFetch` are the three setter
  groups of `fetchTrends` (start, `try` or `catch`, `finally`), and the same
  events on values (`Step`, folded over histories by `Run`), so that starts and
  completions of overlapping fetches can be interleaved in any order.
- `app_view.dfy` (module `AppView`): the render as a pure function `View` of
  the state, in the component's priority order.
- `trends.dfy` (module `Trends`): the trend record shared by both sides, since
  the API wraps the backend's list as `{"trends": ...}` and the frontend
  unwraps it unchanged. `wrappers.dfy`: `Option`.

The model follows the code where an idealised design would differ:
`BeginFetch` does not clear the error, so a banner stays up while a refresh is
in flight; a non-null error hides the card list completely although `trends`
is still held in state; there is no in-flight counter, so the first of several
overlapping completions clears `loading`; and nothing guards against a
completion arriving after the component unmounts.

## Model

| member | source | states |
|---|---|---|
| `Decimal.NatToDecimal` | backend/app/services/reddit_service.py:14 | the rendering of a natural number is non-empty, all digits, and has no leading zero |
| `Decimal.IntToDecimal` | backend/app/services/reddit_service.py:14 | `str(limit)` is non-empty and starts with a minus sign exactly when the limit is negative |
| `Decimal.NatToDecimalValue` | backend/app/services/reddit_service.py:14 | the digits of a natural number read back in base ten give that number |
| `Decimal.IntToDecimalRoundTrip` | backend/app/services/reddit_service.py:14 | `str(limit)` parses back to `limit`, so distinct limits give distinct URLs |
| `RedditService.RequestUrl` | backend/app/services/reddit_service.py:6-14 | the URL starts with `https://www.reddit.com/r/<subreddit>` and the limit text after `/hot.json?limit=` is never empty |
| `RedditService.RequestUrlRecoversLimit` | backend/app/services/reddit_service.py:6-14 | the URL is `https://www.reddit.com/r/<subreddit>/hot.json?limit=` followed by text that parses back to the limit |
| `RedditService.DefaultRequestUrl` | backend/app/services/reddit_service.py:6-14 | with the default arguments the URL is `https://www.reddit.com/r/popular/hot.json?limit=10` |
| `RedditService.RaisesForStatus` | backend/app/services/reddit_service.py:18 | `raise_for_status` raises exactly for a status of class 4xx or 5xx, never for a 2xx success |
| `RedditService.Children` | backend/app/services/reddit_service.py:16-23 | the children are reached iff the response did not fail, its status does not raise and the decoded body has `data.children`, and then they are exactly those children |
| `RedditService.ProjectPost` | backend/app/services/reddit_service.py:24-33 | a record is built exactly when all seven keys are present, and then id, title, score, url and subreddit are copied and `num_comments`, `created_utc` become `comments`, `created` (the post is exactly the one rebuilt from the record) |
| `RedditService.ProjectPostOf` | backend/app/services/reddit_service.py:25-33 | renaming a record's keys back to Reddit's and projecting again gives the same record |
| `RedditService.ProjectChild` | backend/app/services/reddit_service.py:23-33 | a child yields a record exactly when its `data` key is present and complete, and the record carries that post's fields |
| `RedditService.ProjectAll` | backend/app/services/reddit_service.py:23-35 | the children yield records iff every child is complete, and then one record per child, in order, each carrying that child's fields |
| `RedditService.TrendsOf` | backend/app/services/reddit_service.py:16-38 | what `get_trends` returns for a response: every record stands for the child at the same position of the reached listing |
| `RedditService.TrendsOfComplete` | backend/app/services/reddit_service.py:16-35 | when the listing is reached and every post is complete, the result has one record per child, in order |
| `RedditService.TrendsOfFailure` | backend/app/services/reddit_service.py:16-38 | a transport error, a 4xx/5xx status, a body that is not a listing, or one incomplete post gives `[]` |
| `RedditService.TrendsOfNeverPartial` | backend/app/services/reddit_service.py:21-38 | the result is either empty or has exactly as many records as there are children, never a prefix |
| `RedditService.GetTrends` | backend/app/services/reddit_service.py:8-38 | the loop requests the URL with the fixed User-Agent and returns exactly what the all-or-nothing projection of that response gives; `subreddit` and `limit` default to "popular" and 10 |
| `App.Step` | frontend/src/App.jsx:11-21 | one event: `loading` ends true iff the event is a start; only a success writes `trends` and `lastUpdated`, never back to null; a start leaves the error as it was; the error only ever holds the failure message |
| `App.RunKeepsWellFormed` | frontend/src/App.jsx:7-19 | along any history of events the error cell is null or holds exactly "Failed to fetch trends. Please try again later." |
| `App.LastUpdatedNeverCleared` | frontend/src/App.jsx:8-19 | once set, `lastUpdated` is never null again, whatever events follow |
| `App.RunShowsLastSuccess` | frontend/src/App.jsx:14-15 | after any history, `trends` and `lastUpdated` are exactly the items and the time of the most recent success (replace, never merge) |
| `App.RunWithoutSuccessKeepsData` | frontend/src/App.jsx:11-19 | starts and failures never change `trends` or `lastUpdated` |
| `App.RunErrorFromLastCompletion` | frontend/src/App.jsx:11-19 | the error is the failure message if the most recent completion failed and null if it succeeded, whatever starts came after it |
| `App.BeginsKeepError` | frontend/src/App.jsx:11 | any number of starts leave `error` and `trends` as they were |
| `App.LoadingFollowsLastEvent` | frontend/src/App.jsx:11-22 | `loading` is true exactly when the last event was a start, regardless of how many fetches are still pending |
| `App.OverlappingFetches` | frontend/src/App.jsx:10-29 | with two fetches in flight the first completion clears `loading`, and the last completion decides the list |
| `App.Dashboard.constructor` | frontend/src/App.jsx:5-8 | the state starts with no trends, loading, no error and no timestamp |
| `App.Dashboard.BeginFetch` | frontend/src/App.jsx:11 | sets `loading` and changes nothing else: a prior error is kept and `trends` is not emptied |
| `App.Dashboard.SucceedFetch` | frontend/src/App.jsx:14-22 | `trends` becomes exactly the received list, `lastUpdated` the supplied time, `error` null and `loading` false |
| `App.Dashboard.FailFetch` | frontend/src/App.jsx:17-22 | `error` becomes the fixed failure message and `loading` false; `trends` and `lastUpdated` are unchanged |
| `App.Dashboard.FetchTrends` | frontend/src/App.jsx:10-23 | an uninterrupted fetch is a start followed by its completion, with the outcome-specific new state |
| `AppView.CardOf` | frontend/src/App.jsx:80-130 | a card is keyed by the trend's id, links to its url with its title as text, shows "r/" followed by exactly its subreddit, and its score and comment count |
| `AppView.Cards` | frontend/src/App.jsx:79-131 | one card per trend, in the order of `trends` |
| `AppView.View` | frontend/src/App.jsx:43-138 | the button is disabled and reads "Refreshing..." iff loading, else reads "Refresh"; the last-updated line shows iff `lastUpdated` is set; the banner shows iff the error is truthy, else the spinner iff loading with no trends, else the grid whose cards are exactly `Cards` of the trends (so each card's link, title, label, score and comment count) and the empty notice iff there are no trends |
| `AppView.ErrorBannerIffError` | frontend/src/App.jsx:64-70 | in a reachable state the banner shows exactly when `error` is non-null |
| `AppView.ErrorHidesList` | frontend/src/App.jsx:64-70 | a non-null error shows the banner only: no spinner, no cards, no empty notice, whatever `loading` and `trends` hold |
| `AppView.CardsFollowTrends` | frontend/src/App.jsx:79-97 | without error or spinner, card `i` links to trend `i`'s url, shows its title, is labelled "r/" + its subreddit and is keyed by its id |
| `AppView.InitialScreen` | frontend/src/App.jsx:5-75 | at mount the spinner shows, the button is disabled reading "Refreshing..." and there is no last-updated line |
| `AppView.EmptySuccessShowsNotice` | frontend/src/App.jsx:14-16 | an empty successful fetch shows the empty notice (not the spinner) and the last-updated line |
| `AppView.FailureAfterSuccess` | frontend/src/App.jsx:14-19 | a success followed by a failed refresh shows only the banner while the list and timestamp stay in state |
| `AppView.BannerPersistsWhileRefreshing` | frontend/src/App.jsx:11-70 | starting a refresh while the banner shows keeps the banner and disables the button |
| `AppView.BackgroundRefreshKeepsCards` | frontend/src/App.jsx:71-131 | a refresh over a non-empty list without error keeps the same cards visible and no empty notice |

## Left out

- The network calls (`axios.get` in the component, `requests.get` in the service): each response is an input value — `FetchResult` for the component, the `fetch` parameter's `Response` for the service.
- JSON decoding (`response.json()`): the service starts from an already-structured listing. A body that does not decode (`HttpResponse(_, None)`), a listing without `data` (`Listing(None)`) and an inner object without `children` (`ListingData(None)`) all give `Children(response) == None`; JSON of some other shape is not distinguished from these.
- Field types: each post field is typed as Reddit sends it, while the service would copy a value of any JSON type unchanged; `created_utc` is a float in Reddit's payload and is modelled as an integer.
- The component trusts `response.data.trends` to be a list; the model receives the list directly, as the API always wraps the service's result as `{"trends": ...}` (backend/app/main.py:20-23).
- `setInterval`, `clearInterval` and the mount/unmount effect: timer scheduling is not modelled; a timer tick is one more `BeginFetch`, and there is no teardown guard to model.
- `new Date()`, `toLocaleTimeString` and `toLocaleString`: the clock is an integer parameter of `SucceedFetch`, and scores, comment counts and times are shown as raw numbers.
- CSS classes, SVG icons, `target="_blank"`, header and footer markup: styling only.
- `console.error` and `print`: diagnostics with no effect on state or result.
- Decimal.IntToDecimal: does not model Python's limit on converting integers of more than 4300 digits to text, which raises `ValueError`.
- RedditService.GetTrends: returns `TrendsOf(...)` for every limit, whereas for a limit of more than 4300 digits the f-string at backend/app/services/reddit_service.py:14 raises `ValueError` before the `try` and the exception escapes to the caller instead of giving `[]`; the API's integer query parameter (backend/app/main.py:21) is parsed by FastAPI before the service is called, and that parsing is not modelled either.
- The service's class wrapper: `base_url` is assigned once in the constructor and never changed, so it is the constant `BaseUrl` and `get_trends` is the method `GetTrends`.
- backend/app/main.py: FastAPI, CORS and server wiring are not part of this model.
