/** `YARS.handle_search`, `YARS.search_reddit` and `YARS.search_subreddit`:
    one search request whose result children become title/link/description
    records. */
module RedditSearch {
  import opened Py
  import opened Json
  import opened RedditCore

  /** The search request: endpoint and query parameters, in the order the
      dict holds them. */
  datatype SearchRequest = SearchRequest(url: string, params: seq<(string, Json)>)

  /** One search result record. */
  datatype Hit = Hit(title: Json, link: string, description: Json)

  const DescriptionLength: nat := 269

  /** `x[:n]` for a string or a list; other values cannot be sliced. */
  function Head(j: Json, n: nat): (r: Result<Json>)
    ensures j.Str? ==>
      r.Ok? && r.value.Str? && |r.value.s| == (if |j.s| < n then |j.s| else n) && r.value.s == j.s[..|r.value.s|]
    ensures j.Arr? ==>
      r.Ok? && r.value.Arr? && |r.value.items| == (if |j.items| < n then |j.items| else n)
      && r.value.items == j.items[..|r.value.items|]
    ensures !j.Str? && !j.Arr? ==> r == Err(TypeError)
  {
    match j
    case Str(s) => Ok(Str(if |s| < n then s else s[..n]))
    case Arr(items) => Ok(Arr(if |items| < n then items else items[..n]))
    case _ => Err(TypeError)
  }

  /** `params` after the `after`/`before` assignments, each made only when
      its value is truthy. */
  function WithCursors(params: seq<(string, Json)>, after: Json, before: Json): seq<(string, Json)> {
    var p := if Truthy(after) then Assign(params, "after", after) else params;
    if Truthy(before) then Assign(p, "before", before) else p
  }

  /** A cursor is sent exactly when it is truthy; every other parameter is
      sent as given. */
  lemma CursorsSent(params: seq<(string, Json)>, after: Json, before: Json)
    ensures Lookup(WithCursors(params, after, before), "after") == if Truthy(after) then Some(after) else Lookup(params, "after")
    ensures Lookup(WithCursors(params, after, before), "before") == if Truthy(before) then Some(before) else Lookup(params, "before")
    ensures forall k :: k != "after" && k != "before" ==> Lookup(WithCursors(params, after, before), k) == Lookup(params, k)
  {
    assert "after" != "before" by {
      assert "after"[0] != "before"[0];
    }
  }

  /** The record for one result child: `title` and `permalink` are
      mandatory, `selftext` defaults to "" and is cut to 269 elements. */
  function HitOf(post: Json): Result<Hit> {
    var pd :- Index(post, "data");
    var title :- Index(pd, "title");
    var permalink :- Index(pd, "permalink");
    var text :- GetOr(pd, "selftext", Str(""));
    var description :- Head(text, DescriptionLength);
    Ok(Hit(title, RedditOrigin + PyStr(permalink), description))
  }

  /** The records of all result children, or the first exception. */
  function HitsOf(posts: seq<Json>): Result<seq<Hit>>
    decreases |posts|
  {
    if posts == [] then Ok([])
    else
      var h :- HitOf(posts[0]);
      var rest :- HitsOf(posts[1..]);
      Ok([h] + rest)
  }

  function PrefixedHits(prefix: seq<Hit>, r: Result<seq<Hit>>): Result<seq<Hit>> {
    match r
    case Ok(v) => Ok(prefix + v)
    case Err(e) => Err(e)
  }

  /** What `handle_search` returns for the reply to its request: a request
      that raises leaves `response` unbound, so the handler raises; an
      error status gives no results; otherwise every child of
      `data.children` gives one record. */
  function SearchOutcome(reply: Reply): Result<seq<Hit>> {
    match reply
    case NoResponse => Err(UnboundLocalError)
    case Response(status, body) =>
      if RaisesForStatus(status) then Ok([])
      else if body.None? then Err(JsonDecodeError)
      else
        var data :- Index(body.value, "data");
        var children :- Index(data, "children");
        var posts :- Iter(children);
        HitsOf(posts)
  }

  /** One record per child, in order, each built from its own child. */
  lemma {:induction false} HitsOfEach(posts: seq<Json>)
    ensures var r := HitsOf(posts);
      r.Ok? ==> |r.value| == |posts| && forall k :: 0 <= k < |posts| ==> HitOf(posts[k]) == Ok(r.value[k])
    decreases |posts|
  {
    if posts != [] {
      HitsOfEach(posts[1..]);
      var r := HitsOf(posts);
      if r.Ok? {
        var rest := HitsOf(posts[1..]).value;
        assert r.value == [HitOf(posts[0]).value] + rest;
        forall k | 1 <= k < |posts|
          ensures HitOf(posts[k]) == Ok(r.value[k])
        {
          assert posts[k] == posts[1..][k - 1];
        }
      }
    }
  }

  /** A record's link is the site origin followed by the permalink, and a
      string description is a prefix of `selftext` of at most 269
      characters. */
  lemma HitShape(post: Json)
    requires HitOf(post).Ok?
    ensures var pd := Index(post, "data").value;
      var h := HitOf(post).value;
      h.link == RedditOrigin + PyStr(Index(pd, "permalink").value)
      && (h.description.Str? ==>
            |h.description.s| <= DescriptionLength
            && GetOr(pd, "selftext", Str("")).value.Str?
            && h.description.s == GetOr(pd, "selftext", Str("")).value.s[..|h.description.s|])
  {
  }

  /** `handle_search(url, params, after, before)`. */
  method HandleSearch(url: string, params: seq<(string, Json)>, after: Json, before: Json, reply: Reply)
    returns (r: Result<seq<Hit>>, request: SearchRequest)
    ensures request == SearchRequest(url, WithCursors(params, after, before))
    ensures r == SearchOutcome(reply)
  {
    var query := params;
    if Truthy(after) {
      query := Assign(query, "after", after);
    }
    if Truthy(before) {
      query := Assign(query, "before", before);
    }
    request := SearchRequest(url, query);
    if reply.NoResponse? {
      return Err(UnboundLocalError), request;
    }
    if RaisesForStatus(reply.status) {
      return Ok([]), request;
    }
    if reply.body.None? {
      return Err(JsonDecodeError), request;
    }
    var data := Index(reply.body.value, "data");
    if data.Err? {
      return Err(data.error), request;
    }
    var children := Index(data.value, "children");
    if children.Err? {
      return Err(children.error), request;
    }
    var posts := Iter(children.value);
    if posts.Err? {
      return Err(posts.error), request;
    }
    r := CollectHits(posts.value);
  }

  /** The `for post in data["data"]["children"]` loop. */
  method CollectHits(posts: seq<Json>) returns (r: Result<seq<Hit>>)
    ensures r == HitsOf(posts)
  {
    var results: seq<Hit> := [];
    var k := 0;
    ghost var whole := HitsOf(posts);
    assert posts[k..] == posts;
    if whole.Ok? {
      assert [] + whole.value == whole.value;
    }
    while k < |posts|
      invariant 0 <= k <= |posts|
      invariant whole == PrefixedHits(results, HitsOf(posts[k..]))
    {
      var hit := HitOf(posts[k]);
      assert posts[k..][1..] == posts[k + 1..];
      if hit.Err? {
        return Err(hit.error);
      }
      ghost var rest := HitsOf(posts[k + 1..]);
      if rest.Ok? {
        assert (results + [hit.value]) + rest.value == results + ([hit.value] + rest.value);
      }
      results := results + [hit.value];
      k := k + 1;
    }
    assert posts[k..] == [];
    assert results + [] == results;
    r := Ok(results);
  }

  const SearchUrl: string := RedditOrigin + "/search.json"

  function SubredditSearchUrl(subreddit: string): string {
    RedditOrigin + "/r/" + subreddit + "/search.json"
  }

  function SearchParams(query: string, limit: int): seq<(string, Json)> {
    [("q", Str(query)), ("limit", Num(limit)), ("sort", Str("relevance")), ("type", Str("link"))]
  }

  /** The parameters of `search_subreddit` as written: its `sort`
      argument is not used. */
  function SubredditParams(query: string, limit: int, sort: Json): seq<(string, Json)> {
    SearchParams(query, limit) + [("restrict_sr", Str("on"))]
  }

  /** The parameters `search_subreddit` evidently means to send: the
      requested sort order. */
  function SubredditParamsCorrected(query: string, limit: int, sort: Json): seq<(string, Json)> {
    Assign(SubredditParams(query, limit, sort), "sort", sort)
  }

  /** As written, asking for the newest results still sends
      `sort=relevance`. */
  lemma SortIgnored(query: string, limit: int)
    ensures Lookup(SubredditParams(query, limit, Str("new")), "sort") == Some(Str("relevance"))
  {
    var p := SubredditParams(query, limit, Str("new"));
    assert "q" != "sort" && "limit" != "sort" by {
      assert "q"[0] != "sort"[0] && "limit"[0] != "sort"[0];
    }
    assert p[1..][1..] == p[2..];
    assert Lookup(p, "sort") == Lookup(p[1..], "sort") == Lookup(p[2..], "sort");
    assert p[2..][0] == ("sort", Str("relevance"));
  }

  /** Corrected, the requested order is sent, and the query, page size,
      type and restriction are as before. */
  lemma SortSent(query: string, limit: int, sort: Json)
    ensures Lookup(SubredditParamsCorrected(query, limit, sort), "sort") == Some(sort)
    ensures forall k :: k != "sort" ==> Lookup(SubredditParamsCorrected(query, limit, sort), k) == Lookup(SubredditParams(query, limit, sort), k)
  {
  }

  /** `search_reddit(query, limit, after, before)`. */
  method SearchReddit(query: string, limit: int, after: Json, before: Json, reply: Reply)
    returns (r: Result<seq<Hit>>, request: SearchRequest)
    ensures request == SearchRequest(SearchUrl, WithCursors(SearchParams(query, limit), after, before))
    ensures r == SearchOutcome(reply)
  {
    r, request := HandleSearch(SearchUrl, SearchParams(query, limit), after, before, reply);
  }

  /** `search_subreddit(subreddit, query, limit, after, before, sort)`. */
  method SearchSubreddit(subreddit: string, query: string, limit: int, after: Json, before: Json, sort: Json, reply: Reply)
    returns (r: Result<seq<Hit>>, request: SearchRequest)
    ensures request == SearchRequest(SubredditSearchUrl(subreddit), WithCursors(SubredditParams(query, limit, sort), after, before))
    ensures r == SearchOutcome(reply)
  {
    r, request := HandleSearch(SubredditSearchUrl(subreddit), SubredditParams(query, limit, sort), after, before, reply);
  }
}
