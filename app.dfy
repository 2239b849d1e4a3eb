/**
 * The dashboard component's state and its refresh logic. `fetchTrends` is
 * asynchronous: it sets `loading`, awaits the request, then commits either
 * the received list or the failure message and finally clears `loading`.
 * Because several fetches can be in flight at once (the five-minute timer and
 * the button both start one), the start and the completion of a fetch are
 * separate events that may interleave in any order.
 *
 * `State` and `Step` are the value-level view of one event; the class
 * `Dashboard` holds the four state cells and performs the same events in
 * place; `Run` folds a whole event history.
 */
module App {
  import opened Wrappers
  import opened Trends

  const FailureMessage := "Failed to fetch trends. Please try again later."

  /** The four `useState` cells; `lastUpdated` is the clock reading of a success. */
  datatype State = State(
    trends: seq<Trend>,
    loading: bool,
    error: Option<string>,
    lastUpdated: Option<int>
  )

  /** The state at mount: nothing fetched yet, and already loading. */
  const Initial := State([], true, None, None)

  /** The error cell only ever holds the one failure message. */
  predicate WellFormed(s: State) {
    s.error == None || s.error == Some(FailureMessage)
  }

  /**
   * Begin: the `setLoading(true)` that starts every fetch.
   * Succeed: the request returned `items` at clock reading `now`.
   * Fail: the request raised.
   */
  datatype Event = Begin | Succeed(items: seq<Trend>, now: int) | Fail

  predicate IsCompletion(e: Event) {
    e.Succeed? || e.Fail?
  }

  /**
   * The state after one event: only a start leaves `loading` set; only a
   * success writes `trends` and `lastUpdated`, never back to null; a start
   * never touches the error, which only ever holds the failure message.
   */
  function Step(s: State, e: Event): (t: State)
    ensures t.loading <==> e == Begin
    ensures !e.Succeed? ==> t.trends == s.trends && t.lastUpdated == s.lastUpdated
    ensures s.lastUpdated.Some? ==> t.lastUpdated.Some?
    ensures e == Begin ==> t.error == s.error
    ensures WellFormed(s) ==> WellFormed(t)
  {
    match e
    case Begin => s.(loading := true)
    case Succeed(items, now) => State(items, false, None, Some(now))
    case Fail => s.(loading := false, error := Some(FailureMessage))
  }

  /** The state after a history of events, oldest first. */
  function Run(s: State, events: seq<Event>): State
    decreases |events|
  {
    if events == [] then s
    else Step(Run(s, events[..|events| - 1]), events[|events| - 1])
  }

  /** The error cell never holds anything but the failure message. */
  lemma {:induction false} RunKeepsWellFormed(s: State, events: seq<Event>)
    requires WellFormed(s)
    ensures WellFormed(Run(s, events))
    decreases |events|
  {
    if events != [] {
      RunKeepsWellFormed(s, events[..|events| - 1]);
    }
  }

  /** Once a fetch has succeeded, `lastUpdated` is never cleared again. */
  lemma {:induction false} LastUpdatedNeverCleared(s: State, events: seq<Event>)
    requires s.lastUpdated.Some?
    ensures Run(s, events).lastUpdated.Some?
    decreases |events|
  {
    if events != [] {
      LastUpdatedNeverCleared(s, events[..|events| - 1]);
    }
  }

  /**
   * Replace, never merge: the list and the timestamp are exactly those of the
   * most recent successful completion, whatever came after it.
   */
  lemma {:induction false} RunShowsLastSuccess(s: State, events: seq<Event>, k: nat)
    requires k < |events| && events[k].Succeed?
    requires forall j :: k < j < |events| ==> !events[j].Succeed?
    ensures Run(s, events).trends == events[k].items
    ensures Run(s, events).lastUpdated == Some(events[k].now)
    decreases |events|
  {
    if k < |events| - 1 {
      RunShowsLastSuccess(s, events[..|events| - 1], k);
    }
  }

  /** Without a success, neither the list nor the timestamp changes: a failure erases nothing. */
  lemma {:induction false} RunWithoutSuccessKeepsData(s: State, events: seq<Event>)
    requires forall j :: 0 <= j < |events| ==> !events[j].Succeed?
    ensures Run(s, events).trends == s.trends
    ensures Run(s, events).lastUpdated == s.lastUpdated
    decreases |events|
  {
    if events != [] {
      RunWithoutSuccessKeepsData(s, events[..|events| - 1]);
    }
  }

  /**
   * The error is decided by the most recent completion alone: set by a
   * failure, cleared by a success, and untouched by any number of later
   * starts.
   */
  lemma {:induction false} RunErrorFromLastCompletion(s: State, events: seq<Event>, k: nat)
    requires k < |events| && IsCompletion(events[k])
    requires forall j :: k < j < |events| ==> events[j] == Begin
    ensures Run(s, events).error == if events[k].Fail? then Some(FailureMessage) else None
    decreases |events|
  {
    if k < |events| - 1 {
      RunErrorFromLastCompletion(s, events[..|events| - 1], k);
    }
  }

  /** Starting fetches never clears an error, however many are started. */
  lemma {:induction false} BeginsKeepError(s: State, events: seq<Event>)
    requires forall j :: 0 <= j < |events| ==> events[j] == Begin
    ensures Run(s, events).error == s.error
    ensures Run(s, events).trends == s.trends
    decreases |events|
  {
    if events != [] {
      BeginsKeepError(s, events[..|events| - 1]);
    }
  }

  /**
   * There is no in-flight counter: `loading` reflects only the last event, so
   * the first completion clears it even while other fetches are pending.
   */
  lemma LoadingFollowsLastEvent(s: State, events: seq<Event>)
    requires events != []
    ensures Run(s, events).loading <==> events[|events| - 1] == Begin
  {
  }

  /**
   * Two overlapping fetches: the first to complete clears `loading`, the last
   * to complete decides the list. An example of `LoadingFollowsLastEvent` and
   * `RunShowsLastSuccess`.
   */
  lemma OverlappingFetches(s: State, first: seq<Trend>, second: seq<Trend>, t1: int, t2: int)
    ensures Run(s, [Begin, Begin, Succeed(second, t2)]).loading == false
    ensures Run(s, [Begin, Begin, Succeed(second, t2), Succeed(first, t1)]).trends == first
  {
  }

  /** What the request yielded, as `fetchTrends` sees it once the await resumes. */
  datatype FetchResult = Received(trends: seq<Trend>) | RequestFailed

  function CompletionOf(result: FetchResult, now: int): Event {
    match result
    case Received(items) => Succeed(items, now)
    case RequestFailed => Fail
  }

  /** The component's state cells, updated in place by the setters of `fetchTrends`. */
  class Dashboard {
    var trends: seq<Trend>
    var loading: bool
    var error: Option<string>
    var lastUpdated: Option<int>

    function Snapshot(): State
      reads this
    {
      State(trends, loading, error, lastUpdated)
    }

    ghost predicate Valid()
      reads this
    {
      WellFormed(Snapshot())
    }

    /** The four `useState` initial values. */
    constructor ()
      ensures Valid()
      ensures trends == [] && loading && error == None && lastUpdated == None
      ensures Snapshot() == Initial
    {
      trends := [];
      loading := true;
      error := None;
      lastUpdated := None;
    }

    /** `setLoading(true)` at the start of `fetchTrends`; a timer tick or a click. */
    method BeginFetch()
      requires Valid()
      modifies this
      ensures Valid()
      ensures loading
      ensures trends == old(trends) && error == old(error) && lastUpdated == old(lastUpdated)
      ensures Snapshot() == Step(old(Snapshot()), Begin)
    {
      loading := true;
    }

    /** The `try` body after the await, then the `finally`. */
    method SucceedFetch(items: seq<Trend>, now: int)
      requires Valid()
      modifies this
      ensures Valid()
      ensures trends == items && lastUpdated == Some(now) && error == None && !loading
      ensures Snapshot() == Step(old(Snapshot()), Succeed(items, now))
    {
      trends := items;
      lastUpdated := Some(now);
      error := None;
      loading := false;
    }

    /** The `catch` body, then the `finally`. */
    method FailFetch()
      requires Valid()
      modifies this
      ensures Valid()
      ensures error == Some(FailureMessage) && !loading
      ensures trends == old(trends) && lastUpdated == old(lastUpdated)
      ensures Snapshot() == Step(old(Snapshot()), Fail)
    {
      error := Some(FailureMessage);
      loading := false;
    }

    /** A whole `fetchTrends` call with no other event between its start and its completion. */
    method FetchTrends(result: FetchResult, now: int)
      requires Valid()
      modifies this
      ensures Valid()
      ensures !loading
      ensures result.Received? ==> trends == result.trends && lastUpdated == Some(now) && error == None
      ensures result.RequestFailed? ==>
        trends == old(trends) && lastUpdated == old(lastUpdated) && error == Some(FailureMessage)
      ensures Snapshot() == Run(old(Snapshot()), [Begin, CompletionOf(result, now)])
    {
      ghost var before := Snapshot();
      ghost var history := [Begin, CompletionOf(result, now)];
      assert history[..1] == [Begin] && [Begin][..0] == [];
      assert Run(before, [Begin]) == Step(before, Begin);
      BeginFetch();
      match result
      case Received(items) => SucceedFetch(items, now);
      case RequestFailed => FailFetch();
      assert Run(before, history) == Step(Step(before, Begin), history[1]);
    }
  }
}
