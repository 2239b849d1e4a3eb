/**
 * What the dashboard component renders for a given state: the refresh
 * button, the optional last-updated line, and the main area, which is the
 * error banner, the spinner, or the card grid with its optional empty
 * notice, chosen in that priority order. Styling, icons and the locale
 * formatting of numbers and times are not modelled: values appear raw.
 */
module AppView {
  import opened Wrappers
  import opened Trends
  import opened App

  const RefreshLabel := "Refresh"
  const RefreshingLabel := "Refreshing..."
  const SubredditPrefix := "r/"

  datatype Button = Button(disabled: bool, caption: string)

  /** One card: React key, link target and text, the "r/" origin line, and the two counters. */
  datatype Card = Card(key: string, href: string, text: string, origin: string, score: int, comments: int)

  /** The main area. `emptyNotice` is the "No trends found." box under the grid. */
  datatype Body = ErrorBanner(message: string) | Spinner | CardGrid(cards: seq<Card>, emptyNotice: bool)

  datatype Screen = Screen(button: Button, lastUpdated: Option<int>, body: Body)

  /** JavaScript truthiness of the error cell: `null` and `""` are falsy. */
  predicate Truthy(error: Option<string>) {
    error.Some? && error.value != ""
  }

  /**
   * The card of one trend: keyed by its id, linking to its url with its
   * title as text, an origin line of "r/" followed by exactly its subreddit,
   * and its two counters.
   */
  function CardOf(t: Trend): (c: Card)
    ensures c.key == t.id && c.href == t.url && c.text == t.title
    ensures |c.origin| == 2 + |t.subreddit| && c.origin[..2] == "r/" && c.origin[2..] == t.subreddit
    ensures c.score == t.score && c.comments == t.comments
  {
    Card(t.id, t.url, t.title, SubredditPrefix + t.subreddit, t.score, t.comments)
  }

  /** `trends.map(...)`: one card per trend, in order. */
  function Cards(ts: seq<Trend>): (cs: seq<Card>)
    ensures |cs| == |ts|
    ensures forall i :: 0 <= i < |ts| ==> cs[i] == CardOf(ts[i])
  {
    if ts == [] then [] else [CardOf(ts[0])] + Cards(ts[1..])
  }

  function View(s: State): (v: Screen)
    ensures v.button.disabled <==> s.loading
    ensures v.button.caption == RefreshingLabel <==> s.loading
    ensures v.button.caption == RefreshLabel <==> !s.loading
    ensures v.lastUpdated == s.lastUpdated
    ensures v.body.ErrorBanner? <==> Truthy(s.error)
    ensures v.body.ErrorBanner? ==> v.body.message == s.error.value
    ensures v.body.Spinner? <==> !Truthy(s.error) && s.loading && s.trends == []
    ensures v.body.CardGrid? ==> v.body.cards == Cards(s.trends) && |v.body.cards| == |s.trends|
    ensures v.body.CardGrid? ==> (v.body.emptyNotice <==> s.trends == [])
  {
    var button := Button(s.loading, if s.loading then RefreshingLabel else RefreshLabel);
    var body :=
      if Truthy(s.error) then ErrorBanner(s.error.value)
      else if s.loading && |s.trends| == 0 then Spinner
      else CardGrid(Cards(s.trends), |s.trends| == 0);
    Screen(button, s.lastUpdated, body)
  }

  /** In a reachable state the banner shows exactly when the error cell is non-null. */
  lemma ErrorBannerIffError(s: State)
    requires WellFormed(s)
    ensures View(s).body.ErrorBanner? <==> s.error.Some?
  {
  }

  /**
   * A non-null error hides the list entirely (no spinner, no cards, no empty
   * notice), whatever `loading` and `trends` hold.
   */
  lemma ErrorHidesList(s: State)
    requires WellFormed(s) && s.error.Some?
    ensures View(s).body == ErrorBanner(FailureMessage)
  {
  }

  /** Without an error, and unless the spinner shows, each trend has its card, in order. */
  lemma CardsFollowTrends(s: State, i: nat)
    requires s.error.None? && !(s.loading && s.trends == []) && i < |s.trends|
    ensures View(s).body.CardGrid?
    ensures View(s).body.cards[i].href == s.trends[i].url
    ensures View(s).body.cards[i].text == s.trends[i].title
    ensures View(s).body.cards[i].origin == "r/" + s.trends[i].subreddit
    ensures View(s).body.cards[i].key == s.trends[i].id
  {
  }

  /** At mount the spinner shows and the button reads "Refreshing...". */
  lemma InitialScreen()
    ensures View(Initial) == Screen(Button(true, RefreshingLabel), None, Spinner)
  {
  }

  /**
   * Loading versus empty: an empty success replaces the spinner with the
   * empty notice, and the last-updated line appears.
   */
  lemma EmptySuccessShowsNotice(s: State, now: int)
    ensures View(Step(s, Succeed([], now))).body == CardGrid([], true)
    ensures View(Step(s, Succeed([], now))).lastUpdated == Some(now)
  {
  }

  /**
   * A failed refresh after a success shows the banner alone: the list and the
   * timestamp are kept in state, but no card is rendered under the banner.
   */
  lemma FailureAfterSuccess(items: seq<Trend>, now: int)
    ensures var s := Run(Initial, [Succeed(items, now), Begin, Fail]);
      s.trends == items && s.lastUpdated == Some(now) && View(s).body == ErrorBanner(FailureMessage)
  {
    RunShowsLastSuccess(Initial, [Succeed(items, now), Begin, Fail], 0);
  }

  /** A refresh started while an error shows keeps the banner up and the button disabled. */
  lemma BannerPersistsWhileRefreshing(s: State)
    requires WellFormed(s) && s.error.Some?
    ensures View(Step(s, Begin)).body == ErrorBanner(FailureMessage)
    ensures View(Step(s, Begin)).button == Button(true, RefreshingLabel)
  {
  }

  /** A background refresh over a non-empty list keeps the cards visible. */
  lemma BackgroundRefreshKeepsCards(s: State)
    requires s.error.None? && s.trends != []
    ensures View(Step(s, Begin)).body == CardGrid(Cards(s.trends), false)
  {
  }
}
