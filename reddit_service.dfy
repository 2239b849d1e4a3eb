/**
 * The backend's Reddit client: `RedditService.get_trends` builds the listing
 * URL, fetches it, and projects every post of the listing into a trend
 * record. Any failure along the way (transport error, error status, body that
 * is not a listing, a missing key in any post) makes the whole call return
 * the empty list.
 *
 * The HTTP request is a parameter `fetch` from request to response; the JSON
 * body arrives already decoded into the listing datatypes below, with every
 * key that `get_trends` looks up made optional.
 */
module RedditService {
  import opened Wrappers
  import opened Trends
  import opened Decimal

  /** `self.base_url`, set once by the constructor and never changed. */
  const BaseUrl := "https://www.reddit.com"
  const UserAgent := "Mozilla/5.0 Mini-Trends-Dashboard/1.0"
  const DefaultSubreddit := "popular"
  const DefaultLimit := 10

  datatype Request = Get(url: string, userAgent: string)

  /** The keys of a post's `data` object that `get_trends` reads (`num_comments`, `created_utc` renamed). */
  datatype PostData = PostData(
    id: Option<string>,
    title: Option<string>,
    score: Option<int>,
    numComments: Option<int>,
    url: Option<string>,
    createdUtc: Option<int>,
    subreddit: Option<string>
  )

  /** One element of `children`: its `data` key may be missing. */
  datatype Child = Child(data: Option<PostData>)

  /** The listing's inner `data` object, whose `children` key may be missing. */
  datatype ListingData = ListingData(children: Option<seq<Child>>)

  /** The decoded top-level body, whose `data` key may be missing. */
  datatype Listing = Listing(data: Option<ListingData>)

  /**
   * What `requests.get` yields: an exception (connection refused, timeout, ...)
   * or a response with a status code and a body, which is `None` when
   * `response.json()` cannot produce a listing-shaped object.
   */
  datatype Response = TransportError | HttpResponse(status: int, body: Option<Listing>)

  /** The URL up to the rendered limit. */
  function UrlPrefix(subreddit: string): string {
    BaseUrl + "/r/" + subreddit + "/hot.json?limit="
  }

  /**
   * The request URL, `f"{self.base_url}/r/{subreddit}/hot.json?limit={limit}"`:
   * the listing of `subreddit` on Reddit's host, with a non-empty limit text.
   */
  function RequestUrl(subreddit: string, limit: int): (url: string)
    ensures |url| > |UrlPrefix(subreddit)|
    ensures url[..|BaseUrl + "/r/" + subreddit|] == BaseUrl + "/r/" + subreddit
  {
    var url := UrlPrefix(subreddit) + IntToDecimal(limit);
    assert url[..|BaseUrl + "/r/" + subreddit|] == (BaseUrl + "/r/" + subreddit + "/hot.json?limit=")[..|BaseUrl + "/r/" + subreddit|];
    url
  }

  /** The URL is the fixed prefix naming the subreddit, followed by text that parses back to `limit`. */
  lemma RequestUrlRecoversLimit(subreddit: string, limit: int)
    ensures var url, prefix := RequestUrl(subreddit, limit), UrlPrefix(subreddit);
      |prefix| < |url| && url[..|prefix|] == prefix && ParseInt(url[|prefix|..]) == Some(limit)
  {
    var url, prefix := RequestUrl(subreddit, limit), UrlPrefix(subreddit);
    assert url[|prefix|..] == IntToDecimal(limit);
    IntToDecimalRoundTrip(limit);
  }

  /** A call with no arguments requests the ten hottest posts of r/popular. */
  lemma DefaultRequestUrl()
    ensures RequestUrl(DefaultSubreddit, DefaultLimit)
         == "https://www.reddit.com/r/popular/hot.json?limit=10"
  {
  }

  /**
   * `response.raise_for_status()` raises for client (4xx) and server (5xx)
   * errors, and never for a 2xx success.
   */
  predicate RaisesForStatus(status: int): (raises: bool)
    ensures raises <==> status / 100 == 4 || status / 100 == 5
    ensures 200 <= status < 300 ==> !raises
  {
    400 <= status < 600
  }

  /**
   * `data["data"]["children"]`, or `None` when any step before the loop raises:
   * the children come from a response that passed `raise_for_status`, and
   * they are exactly the `children` of the decoded body.
   */
  function Children(response: Response): (r: Option<seq<Child>>)
    ensures response.TransportError? ==> r.None?
    ensures response.HttpResponse? && RaisesForStatus(response.status) ==> r.None?
    ensures r.Some? ==> response.body == Some(Listing(Some(ListingData(r))))
    ensures response.HttpResponse? && !RaisesForStatus(response.status)
         && response.body.Some? && response.body.value.data.Some?
         ==> r == response.body.value.data.value.children
  {
    match response
    case TransportError => None
    case HttpResponse(status, body) =>
      if RaisesForStatus(status) then None
      else match body
        case None => None
        case Some(listing) =>
          match listing.data
          case None => None
          case Some(inner) => inner.children
  }

  /** Every key the record construction looks up is present. */
  predicate Complete(p: PostData) {
    p.id.Some? && p.title.Some? && p.score.Some? && p.numComments.Some?
    && p.url.Some? && p.createdUtc.Some? && p.subreddit.Some?
  }

  predicate ChildComplete(c: Child) {
    c.data.Some? && Complete(c.data.value)
  }

  /** The post that carries exactly the fields of `t`, under Reddit's key names. */
  function PostOf(t: Trend): PostData {
    PostData(Some(t.id), Some(t.title), Some(t.score), Some(t.comments),
             Some(t.url), Some(t.created), Some(t.subreddit))
  }

  /**
   * The record built for one post: `None` when a key is missing (`get_trends`
   * raises `KeyError`). Otherwise nothing is lost or altered: the post is
   * exactly the one `PostOf` rebuilds from the record.
   */
  function ProjectPost(p: PostData): (r: Option<Trend>)
    ensures r.Some? <==> Complete(p)
    ensures r.Some? ==> PostOf(r.value) == p
  {
    match (p.id, p.title, p.score, p.numComments, p.url, p.createdUtc, p.subreddit)
    case (Some(id), Some(title), Some(score), Some(comments), Some(url), Some(created), Some(sub)) =>
      Some(Trend(id, title, score, comments, url, created, sub))
    case _ => None
  }

  /** Renaming the keys back and projecting again gives the same record. */
  lemma ProjectPostOf(t: Trend)
    ensures ProjectPost(PostOf(t)) == Some(t)
  {
  }

  function ProjectChild(c: Child): (r: Option<Trend>)
    ensures r.Some? <==> ChildComplete(c)
    ensures r.Some? ==> c.data == Some(PostOf(r.value))
  {
    match c.data
    case None => None
    case Some(p) => ProjectPost(p)
  }

  /**
   * The records for a sequence of children, all or nothing: a record per
   * child, in order, when every child is complete, and `None` as soon as one
   * is not.
   */
  function ProjectAll(cs: seq<Child>): (r: Option<seq<Trend>>)
    ensures r.Some? <==> forall i :: 0 <= i < |cs| ==> ChildComplete(cs[i])
    ensures r.Some? ==> |r.value| == |cs|
    ensures r.Some? ==> forall i :: 0 <= i < |cs| ==> cs[i].data == Some(PostOf(r.value[i]))
  {
    if cs == [] then Some([])
    else
      var last := cs[|cs| - 1];
      match ProjectAll(cs[..|cs| - 1])
      case None => None
      case Some(ts) =>
        match ProjectChild(last)
        case None => None
        case Some(t) => Some(ts + [t])
  }

  /**
   * What `get_trends` returns for a given response: every record stands for
   * the child at the same position of the listing.
   */
  function TrendsOf(response: Response): (r: seq<Trend>)
    ensures forall i :: 0 <= i < |r| ==>
      Children(response).Some? && i < |Children(response).value|
      && Children(response).value[i].data == Some(PostOf(r[i]))
  {
    match Children(response)
    case None => []
    case Some(cs) => ProjectAll(cs).GetOr([])
  }

  /** When the listing is reached and every post is complete, there is one record per post, in order. */
  lemma TrendsOfComplete(response: Response, cs: seq<Child>)
    requires Children(response) == Some(cs)
    requires forall i :: 0 <= i < |cs| ==> ChildComplete(cs[i])
    ensures |TrendsOf(response)| == |cs|
    ensures forall i :: 0 <= i < |cs| ==> cs[i].data == Some(PostOf(TrendsOf(response)[i]))
  {
  }

  /** A failure before the loop, or a single incomplete post, yields the empty list. */
  lemma TrendsOfFailure(response: Response)
    requires Children(response).None?
          || exists i :: 0 <= i < |Children(response).value| && !ChildComplete(Children(response).value[i])
    ensures TrendsOf(response) == []
  {
  }

  /** The result is never a partial list: it is empty or has a record for every child. */
  lemma TrendsOfNeverPartial(response: Response)
    ensures TrendsOf(response) == []
         || (Children(response).Some? && |TrendsOf(response)| == |Children(response).value|)
  {
  }

  /**
   * `get_trends(subreddit, limit)`: fetch the listing and append one record
   * per post; any exception returns `[]`.
   */
  method GetTrends(fetch: Request -> Response, subreddit: string := DefaultSubreddit,
                   limit: int := DefaultLimit)
    returns (trends: seq<Trend>)
    ensures trends == TrendsOf(fetch(Get(RequestUrl(subreddit, limit), UserAgent)))
  {
    var url := RequestUrl(subreddit, limit);
    var response := fetch(Get(url, UserAgent));
    if response.TransportError? || RaisesForStatus(response.status) {
      return [];
    }
    if response.body.None? || response.body.value.data.None?
      || response.body.value.data.value.children.None? {
      return [];
    }
    var children := response.body.value.data.value.children.value;
    var acc: seq<Trend> := [];
    var i := 0;
    while i < |children|
      invariant 0 <= i <= |children|
      invariant ProjectAll(children[..i]) == Some(acc)
    {
      var post := children[i];
      if post.data.None? {
        return [];
      }
      var p := post.data.value;
      if p.id.None? || p.title.None? || p.score.None? || p.numComments.None?
        || p.url.None? || p.createdUtc.None? || p.subreddit.None? {
        return [];
      }
      acc := acc + [Trend(p.id.value, p.title.value, p.score.value, p.numComments.value,
                          p.url.value, p.createdUtc.value, p.subreddit.value)];
      assert children[..i + 1][..i] == children[..i];
      i := i + 1;
    }
    assert children[..i] == children;
    return acc;
  }
}
