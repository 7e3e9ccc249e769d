/** `YARS.scrape_user_data`: page through a user's overview feed and
    collect its posts (`t3`) and comments (`t1`), at most `limit` items
    examined in all.

    The loop keeps the response object of the previous iteration in
    `response`. When `session.get` raises, the handler reads
    `response.status_code`: on the first iteration the name is unbound and
    the handler itself raises; on a later one it still holds the previous
    (successful) response, which is processed again. `Feed(.., true)`
    models this as written; `Feed(.., false)` is the evidently intended
    loop, where a failed request ends it. */
module RedditUser {
  import opened Py
  import opened Json
  import opened RedditCore

  /** One feed request: endpoint, `limit` and `after` query parameters. */
  datatype FeedRequest = FeedRequest(url: string, limit: int, after: Json)

  /** The records built for a submission or a comment. */
  datatype Item =
    | PostItem(title: Json, subreddit: Json, url: string, createdUtc: Json, createdDate: string)
    | CommentItem(subreddit: Json, body: Json, createdUtc: Json, createdDate: string, url: string, linkFlairText: Json)

  datatype Run = Run(result: Result<seq<Item>>, sent: seq<FeedRequest>)

  function FeedUrl(username: string): string {
    RedditOrigin + "/user/" + username + "/.json"
  }

  /** The body of the inner loop for one feed child: the record for a
      `t3` or `t1` child, `None` for any other kind. `kind` and `data` are
      mandatory; every other member has a default. */
  function ItemRecord(child: Json, fmt: Json -> Result<string>): Result<Option<Item>> {
    var kind :- Index(child, "kind");
    var data :- Index(child, "data");
    if kind == Str("t3") then
      var permalink :- GetOr(data, "permalink", Str(""));
      var created :- GetOr(data, "created_utc", Str(""));
      var title :- GetOr(data, "title", Str(""));
      var subreddit :- GetOr(data, "subreddit", Str(""));
      var date :- ConvertTimestamp(created, fmt);
      Ok(Some(PostItem(title, subreddit, RedditOrigin + PyStr(permalink), created, date)))
    else if kind == Str("t1") then
      var permalink :- GetOr(data, "permalink", Str(""));
      var created :- GetOr(data, "created_utc", Str(""));
      var subreddit :- GetOr(data, "subreddit", Str(""));
      var body :- GetOr(data, "body", Str(""));
      var date :- ConvertTimestamp(created, fmt);
      var flair :- GetOr(data, "link_flair_text", Str(""));
      Ok(Some(CommentItem(subreddit, body, created, date, RedditOrigin + PyStr(permalink), flair)))
    else Ok(None)
  }

  function ItemBody(fmt: Json -> Result<string>): Json -> Result<Option<Item>> {
    child => ItemRecord(child, fmt)
  }

  function Min(a: int, b: int): int {
    if a < b then a else b
  }

  /** The records of the first `budget` children of a page (every child
      counts against the budget, whatever its kind). */
  function PageItems(children: seq<Json>, budget: nat, item: Json -> Result<Option<Item>>): Result<seq<Item>>
    decreases |children|
  {
    if children == [] || budget == 0 then Ok([])
    else
      var rec :- item(children[0]);
      var rest :- PageItems(children[1..], budget - 1, item);
      Ok((if rec.Some? then [rec.value] else []) + rest)
  }

  function PrefixedItems(prefix: seq<Item>, r: Result<seq<Item>>): Result<seq<Item>> {
    match r
    case Ok(v) => Ok(prefix + v)
    case Err(e) => Err(e)
  }

  /** How processing one response ends: the loop stops after adding
      `recs`, or goes on to the page at `cursor` having counted `consumed`
      children. */
  datatype Step = Stop(recs: seq<Item>) | Next(recs: seq<Item>, consumed: Positive, cursor: Json)

  /** Counts that are at least one: the loop body runs only while fewer
      than `limit` children have been counted, and a page that lets the
      loop go on has at least one child. */
  type Positive = n: nat | n >= 1 witness 1

  /** Processing of one response when `budget` more children may be
      counted: an error status, a body that is not JSON, a body without
      `data.children` and an empty page all end the loop. */
  function FeedStep(status: int, body: Option<Json>, budget: Positive, item: Json -> Result<Option<Item>>): (r: Result<Step>)
  {
    if RaisesForStatus(status) || body.None? then Ok(Stop([]))
    else
      var data := body.value;
      var hasData :- Has(data, "data");
      if !hasData then Ok(Stop([]))
      else
        var dd :- Index(data, "data");
        var hasChildren :- Has(dd, "children");
        if !hasChildren then Ok(Stop([]))
        else
          var items :- Index(dd, "children");
          if !Truthy(items) then Ok(Stop([]))
          else
            var children :- Iter(items);
            var recs :- PageItems(children, budget, item);
            var after :- GetOr(dd, "after", Null);
            if !Truthy(after) then Ok(Stop(recs))
            else Ok(Next(recs, Min(|children|, budget), after))
  }

  /** One pass over a response, as a function value for `Walk`. */
  function Page(item: Json -> Result<Option<Item>>): (int, Option<Json>, Positive) -> Result<Step> {
    (status: int, body: Option<Json>, budget: Positive) => FeedStep(status, body, budget, item)
  }

  /** How many script entries are left to answer requests. */
  function Remaining(replies: seq<Reply>, i: nat): nat {
    if i < |replies| then |replies| - i else 0
  }

  /** How one iteration of the `while` loop ends: it stops after adding
      `recs`, raises, or continues at `cursor` with `used` as the response
      variable. */
  datatype Outcome =
    | Halt(recs: seq<Item>)
    | Fail(error: Error)
    | Continue(recs: seq<Item>, consumed: Positive, cursor: Json, used: Reply)

  /** Processing of the response `resp`. */
  function Pass(resp: Reply, budget: Positive, page: (int, Option<Json>, Positive) -> Result<Step>): Outcome
    requires resp.Response?
  {
    match page(resp.status, resp.body, budget)
    case Err(e) => Fail(e)
    case Ok(Stop(recs)) => Halt(recs)
    case Ok(Next(recs, consumed, cursor)) => Continue(recs, consumed, cursor, resp)
  }

  /** One iteration, given what `session.get` did (`reply`) and the
      response variable left by the previous iteration (`prev`). As written
      (`replay`), a failed request falls through to the previous response
      when its status is 200, and raises when there is none. */
  function Iteration(reply: Reply, prev: Option<Reply>, budget: Positive, page: (int, Option<Json>, Positive) -> Result<Step>, replay: bool): (o: Outcome)
  {
    if reply.Response? then Pass(reply, budget, page)
    else if !replay then Halt([])
    else if prev.None? then Fail(UnboundLocalError)
    else if !prev.value.Response? || prev.value.status != 200 then Halt([])
    else Pass(prev.value, budget, page)
  }

  /** The loop from its request with index `i`, with cursor `after`,
      previous response `prev`, `count` children counted and `acc`
      collected. `replay` selects the code as written or the corrected
      loop, where a failed request ends it. */
  function Walk(
    url: string, limit: int, page: (int, Option<Json>, Positive) -> Result<Step>, replies: seq<Reply>, i: nat,
    after: Json, prev: Option<Reply>, count: int, acc: seq<Item>, replay: bool): Run
    decreases Remaining(replies, i), limit - count
  {
    if count >= limit then Run(Ok(acc), [])
    else
      var req := FeedRequest(url, limit, after);
      match Iteration(ReplyAt(replies, i), prev, limit - count, page, replay)
      case Halt(recs) => Run(Ok(acc + recs), [req])
      case Fail(e) => Run(Err(e), [req])
      case Continue(recs, consumed, cursor, used) =>
        var w := Walk(url, limit, page, replies, i + 1, cursor, Some(used), count + consumed, acc + recs, replay);
        Run(w.result, [req] + w.sent)
  }

  /** `scrape_user_data(username, limit)` against a server answering with
      `replies`: as written (`replay`) or as evidently intended. */
  function Feed(username: string, limit: int, fmt: Json -> Result<string>, replies: seq<Reply>, replay: bool): Run {
    Walk(FeedUrl(username), limit, Page(ItemBody(fmt)), replies, 0, Null, None, 0, [], replay)
  }

  /** `scrape_user_data` as written. */
  method ScrapeUserData(username: string, limit: int, fmt: Json -> Result<string>, replies: seq<Reply>)
    returns (r: Result<seq<Item>>, sent: seq<FeedRequest>)
    ensures Run(r, sent) == Feed(username, limit, fmt, replies, true)
    ensures r.Ok? ==> |r.value| <= Max(limit, 0)
  {
    FeedBound(username, limit, fmt, replies, true);
    PageComputes(ItemBody(fmt));
    r, sent := FeedLoop(FeedUrl(username), limit, Page(ItemBody(fmt)), ItemBody(fmt), replies, true);
  }

  /** `scrape_user_data` with the evidently intended handler: a request
      that raises ends the loop with the items collected so far. */
  method ScrapeUserDataCorrected(username: string, limit: int, fmt: Json -> Result<string>, replies: seq<Reply>)
    returns (r: Result<seq<Item>>, sent: seq<FeedRequest>)
    ensures Run(r, sent) == Feed(username, limit, fmt, replies, false)
    ensures r.Ok? ==> |r.value| <= Max(limit, 0)
    ensures |sent| <= |replies| + 1
  {
    FeedBound(username, limit, fmt, replies, false);
    CorrectedRequests(FeedUrl(username), limit, Page(ItemBody(fmt)), replies, 0, Null, None, 0, []);
    PageComputes(ItemBody(fmt));
    r, sent := FeedLoop(FeedUrl(username), limit, Page(ItemBody(fmt)), ItemBody(fmt), replies, false);
  }

  /** `page` processes a response as `FeedStep` does with the per-child
      body `item`. */
  ghost predicate Computes(page: (int, Option<Json>, Positive) -> Result<Step>, item: Json -> Result<Option<Item>>) {
    forall status, body, budget: Positive {:trigger FeedStep(status, body, budget, item)} ::
      page(status, body, budget) == FeedStep(status, body, budget, item)
  }

  lemma PageComputes(item: Json -> Result<Option<Item>>)
    ensures Computes(Page(item), item)
  {
  }

  /** The `while count < limit` loop of `scrape_user_data`, for any
      per-child body `item`. */
  method FeedLoop(
    url: string, limit: int, ghost page: (int, Option<Json>, Positive) -> Result<Step>, item: Json -> Result<Option<Item>>,
    replies: seq<Reply>, replay: bool)
    returns (r: Result<seq<Item>>, sent: seq<FeedRequest>)
    requires Computes(page, item)
    ensures Run(r, sent) == Walk(url, limit, page, replies, 0, Null, None, 0, [], replay)
  {
    var count := 0;
    var after := Null;
    var response: Option<Reply> := None;
    var allItems: seq<Item> := [];
    var i := 0;
    sent := [];
    ghost var goal := Walk(url, limit, page, replies, 0, Null, None, 0, [], replay);
    assert [] + goal.sent == goal.sent;
    while count < limit
      invariant i == |sent|
      invariant var w := Walk(url, limit, page, replies, i, after, response, count, allItems, replay);
        goal == Run(w.result, sent + w.sent)
      decreases Remaining(replies, i), limit - count
    {
      var req := FeedRequest(url, limit, after);
      var outcome := Iterate(ReplyAt(replies, i), response, limit - count, page, item, replay);
      WalkStep(goal, url, limit, page, replies, i, after, response, count, allItems, sent, replay, outcome);
      sent := sent + [req];
      match outcome
      case Halt(recs) =>
        allItems := allItems + recs;
        break;
      case Fail(e) =>
        r := Err(e);
        return;
      case Continue(recs, consumed, cursor, used) =>
        allItems := allItems + recs;
        count := count + consumed;
        after := cursor;
        response := Some(used);
        i := i + 1;
    }
    if limit <= count {
      assert sent + [] == sent;
    }
    r := Ok(allItems);
  }

  /** One iteration of the loop, from the state the loop invariant of
      `FeedLoop` describes. */
  lemma WalkStep(
    goal: Run, url: string, limit: int, page: (int, Option<Json>, Positive) -> Result<Step>, replies: seq<Reply>, i: nat,
    after: Json, prev: Option<Reply>, count: int, acc: seq<Item>, sent: seq<FeedRequest>, replay: bool, o: Outcome)
    requires count < limit
    requires var w := Walk(url, limit, page, replies, i, after, prev, count, acc, replay); goal == Run(w.result, sent + w.sent)
    requires o == Iteration(ReplyAt(replies, i), prev, limit - count, page, replay)
    ensures var sent' := sent + [FeedRequest(url, limit, after)];
      match o
      case Halt(recs) => goal == Run(Ok(acc + recs), sent')
      case Fail(e) => goal == Run(Err(e), sent')
      case Continue(recs, consumed, cursor, used) =>
        var w' := Walk(url, limit, page, replies, i + 1, cursor, Some(used), count + consumed, acc + recs, replay);
        goal == Run(w'.result, sent' + w'.sent)
  {
    if o.Continue? {
      var w' := Walk(url, limit, page, replies, i + 1, o.cursor, Some(o.used), count + o.consumed, acc + o.recs, replay);
      assert sent + ([FeedRequest(url, limit, after)] + w'.sent) == sent + [FeedRequest(url, limit, after)] + w'.sent;
    }
  }

  /** The body of the `while` loop: the request and its exception
      handler, then the pass over the response. */
  method Iterate(
    reply: Reply, response: Option<Reply>, budget: Positive, ghost page: (int, Option<Json>, Positive) -> Result<Step>,
    item: Json -> Result<Option<Item>>, replay: bool)
    returns (o: Outcome)
    requires Computes(page, item)
    ensures o == Iteration(reply, response, budget, page, replay)
  {
    var current := response;
    if reply.Response? {
      current := Some(reply);
    } else if !replay {
      return Halt([]);
    } else if current.None? {
      return Fail(UnboundLocalError);
    } else if !current.value.Response? || current.value.status != 200 {
      return Halt([]);
    }
    var step := ReadFeedPage(current.value.status, current.value.body, budget, item);
    if step.Err? {
      return Fail(step.error);
    }
    match step.value
    case Stop(recs) =>
      return Halt(recs);
    case Next(recs, consumed, cursor) =>
      return Continue(recs, consumed, cursor, current.value);
  }

  /** One pass of the loop body over a response: the JSON checks, then the
      inner `for item in items` loop, then the next cursor. */
  method ReadFeedPage(status: int, body: Option<Json>, budget: Positive, item: Json -> Result<Option<Item>>)
    returns (r: Result<Step>)
    ensures r == FeedStep(status, body, budget, item)
  {
    if RaisesForStatus(status) || body.None? {
      return Ok(Stop([]));
    }
    var data := body.value;
    var hasData := Has(data, "data");
    if hasData.Err? {
      return Err(hasData.error);
    }
    if !hasData.value {
      return Ok(Stop([]));
    }
    var dd := Index(data, "data");
    if dd.Err? {
      return Err(dd.error);
    }
    var hasChildren := Has(dd.value, "children");
    if hasChildren.Err? {
      return Err(hasChildren.error);
    }
    if !hasChildren.value {
      return Ok(Stop([]));
    }
    var items := Index(dd.value, "children");
    if items.Err? {
      return Err(items.error);
    }
    if !Truthy(items.value) {
      return Ok(Stop([]));
    }
    var children := Iter(items.value);
    if children.Err? {
      return Err(children.error);
    }
    var recs := CollectItems(children.value, budget, item);
    if recs.Err? {
      return Err(recs.error);
    }
    var after := GetOr(dd.value, "after", Null);
    if after.Err? {
      return Err(after.error);
    }
    if !Truthy(after.value) {
      return Ok(Stop(recs.value));
    }
    return Ok(Next(recs.value, Min(|children.value|, budget), after.value));
  }

  /** The inner loop: each child is counted, and `t3`/`t1` children are
      recorded, until the budget is used up. */
  method CollectItems(children: seq<Json>, budget: nat, item: Json -> Result<Option<Item>>)
    returns (r: Result<seq<Item>>)
    ensures r == PageItems(children, budget, item)
  {
    var recs: seq<Item> := [];
    var j := 0;
    ghost var whole := PageItems(children, budget, item);
    assert children[j..] == children;
    if whole.Ok? {
      assert [] + whole.value == whole.value;
    }
    while j < |children| && j < budget
      invariant 0 <= j <= |children| && j <= budget
      invariant whole == PrefixedItems(recs, PageItems(children[j..], budget - j, item))
    {
      var rec := item(children[j]);
      assert children[j..][1..] == children[j + 1..];
      if rec.Err? {
        return Err(rec.error);
      }
      ghost var rest := PageItems(children[j + 1..], budget - j - 1, item);
      if rest.Ok? {
        if rec.value.Some? {
          assert (recs + [rec.value.value]) + rest.value == recs + ([rec.value.value] + rest.value);
        } else {
          assert [] + rest.value == rest.value;
        }
      }
      if rec.value.Some? {
        recs := recs + [rec.value.value];
      }
      j := j + 1;
    }
    r := Ok(recs);
    assert recs + [] == recs;
  }

  /** A page yields at most one record per counted child. */
  lemma {:induction false} PageItemsBound(children: seq<Json>, budget: nat, item: Json -> Result<Option<Item>>)
    ensures var r := PageItems(children, budget, item); r.Ok? ==> |r.value| <= Min(|children|, budget)
    decreases |children|
  {
    if children != [] && budget > 0 {
      PageItemsBound(children[1..], budget - 1, item);
    }
  }

  /** What one pass may add: no more records than the children it
      counted, and no more children than the budget. */
  predicate StepWithin(st: Step, budget: int) {
    match st
    case Stop(recs) => |recs| <= budget
    case Next(recs, consumed, _) => |recs| <= consumed <= budget
  }

  lemma FeedStepBound(status: int, body: Option<Json>, budget: Positive, item: Json -> Result<Option<Item>>)
    ensures var r := FeedStep(status, body, budget, item); r.Ok? ==> StepWithin(r.value, budget)
  {
    var r := FeedStep(status, body, budget, item);
    if r.Ok? && !RaisesForStatus(status) && body.Some? {
      var dd := Index(body.value, "data");
      if dd.Ok? {
        var items := Index(dd.value, "children");
        if items.Ok? {
          var children := Iter(items.value);
          if children.Ok? {
            PageItemsBound(children.value, budget, item);
          }
        }
      }
    }
  }

  ghost predicate WithinBudget(page: (int, Option<Json>, Positive) -> Result<Step>) {
    forall status, body, budget: Positive :: page(status, body, budget).Ok? ==> StepWithin(page(status, body, budget).value, budget)
  }

  lemma PageWithinBudget(item: Json -> Result<Option<Item>>)
    ensures WithinBudget(Page(item))
  {
    forall status, body, budget: Positive {
      FeedStepBound(status, body, budget, item);
    }
  }

  /** The walk returns no more than `limit` items, and the items it
      started with stay its first items. */
  lemma {:induction false} WalkBound(
    url: string, limit: int, page: (int, Option<Json>, Positive) -> Result<Step>, replies: seq<Reply>, i: nat,
    after: Json, prev: Option<Reply>, count: int, acc: seq<Item>, replay: bool)
    requires WithinBudget(page)
    requires 0 <= count && |acc| <= count && (count == 0 || count <= limit)
    ensures var w := Walk(url, limit, page, replies, i, after, prev, count, acc, replay);
      w.result.Ok? ==> |acc| <= |w.result.value| <= Max(limit, 0) && w.result.value[..|acc|] == acc
    decreases Remaining(replies, i), limit - count
  {
    if count < limit {
      var o := Iteration(ReplyAt(replies, i), prev, limit - count, page, replay);
      if o.Halt? {
        assert (acc + o.recs)[..|acc|] == acc;
      } else if o.Continue? {
        var next := acc + o.recs;
        WalkBound(url, limit, page, replies, i + 1, o.cursor, Some(o.used), count + o.consumed, next, replay);
        var w' := Walk(url, limit, page, replies, i + 1, o.cursor, Some(o.used), count + o.consumed, next, replay);
        if w'.result.Ok? {
          assert next[..|acc|] == acc;
          assert w'.result.value[..|acc|] == w'.result.value[..|next|][..|acc|];
        }
      }
    }
  }

  /** `scrape_user_data` returns at most `limit` items, and none for a
      `limit` of zero or less. */
  lemma FeedBound(username: string, limit: int, fmt: Json -> Result<string>, replies: seq<Reply>, replay: bool)
    ensures var f := Feed(username, limit, fmt, replies, replay); f.result.Ok? ==> |f.result.value| <= Max(limit, 0)
  {
    PageWithinBudget(ItemBody(fmt));
    WalkBound(FeedUrl(username), limit, Page(ItemBody(fmt)), replies, 0, Null, None, 0, [], replay);
  }

  /** In the corrected loop every request but the last is answered by its
      own script entry: a failed request ends it, so it sends at most one
      request more than the server answers. */
  lemma {:induction false} CorrectedRequests(
    url: string, limit: int, page: (int, Option<Json>, Positive) -> Result<Step>, replies: seq<Reply>, i: nat,
    after: Json, prev: Option<Reply>, count: int, acc: seq<Item>)
    ensures |Walk(url, limit, page, replies, i, after, prev, count, acc, false).sent| <= Remaining(replies, i) + 1
    decreases Remaining(replies, i), limit - count
  {
    if count < limit {
      var o := Iteration(ReplyAt(replies, i), prev, limit - count, page, false);
      if o.Continue? {
        assert i < |replies|;
        CorrectedRequests(url, limit, page, replies, i + 1, o.cursor, Some(o.used), count + o.consumed, acc + o.recs);
      }
    }
  }

  /** A feed page holding one submission without members, and a cursor. */
  const OnePostPage: Json :=
    Obj([("data", Obj([("children", Arr([BareChild])), ("after", Str("x"))]))])

  const BareChild: Json := Obj([("kind", Str("t3")), ("data", Obj([]))])

  /** The record `scrape_user_data` builds for that submission. */
  const BarePost: Item := PostItem(Str(""), Str(""), RedditOrigin, Str(""), "")

  lemma BareChildRecord(fmt: Json -> Result<string>)
    ensures ItemRecord(BareChild, fmt) == Ok(Some(BarePost))
  {
    assert "kind" != "data" by { assert "kind"[0] != "data"[0]; }
    assert Index(BareChild, "kind") == Ok(Str("t3"));
    assert Index(BareChild, "data") == Ok(Obj([]));
    assert RedditOrigin + PyStr(Str("")) == RedditOrigin;
  }

  /** Whatever the budget, that page yields the one post and the cursor. */
  lemma OnePostStep(budget: Positive, fmt: Json -> Result<string>)
    ensures FeedStep(200, Some(OnePostPage), budget, ItemBody(fmt)) == Ok(Next([BarePost], 1, Str("x")))
  {
    BareChildRecord(fmt);
    assert PageItems([BareChild], budget, ItemBody(fmt)) == Ok([BarePost]) by {
      assert [BareChild][1..] == [];
      assert ItemBody(fmt)(BareChild) == Ok(Some(BarePost));
      assert PageItems([], budget - 1, ItemBody(fmt)) == Ok([]);
      assert [BarePost] + [] == [BarePost];
    }
    var dd := Obj([("children", Arr([BareChild])), ("after", Str("x"))]);
    assert Index(OnePostPage, "data") == Ok(dd);
    assert Has(dd, "children") == Ok(true);
    assert Index(dd, "children") == Ok(Arr([BareChild]));
    assert GetOr(dd, "after", Null) == Ok(Str("x")) by {
      assert "children" != "after" by { assert "children"[0] != "after"[0]; }
      assert dd.fields[1..] == [("after", Str("x"))];
      assert Lookup(dd.fields, "after") == Lookup([("after", Str("x"))], "after") == Some(Str("x"));
    }
  }

  /** As written, a request that raises after a successful one replays the
      previous page: one answered request and `limit` 3 give the same post
      three times, from three requests. The corrected loop stops at the
      failed request and returns the post once. */
  lemma StaleReplayDuplicates(username: string, fmt: Json -> Result<string>)
    ensures Feed(username, 3, fmt, [Response(200, Some(OnePostPage))], true).result == Ok([BarePost, BarePost, BarePost])
    ensures |Feed(username, 3, fmt, [Response(200, Some(OnePostPage))], true).sent| == 3
    ensures Feed(username, 3, fmt, [Response(200, Some(OnePostPage))], false).result == Ok([BarePost])
  {
    var url := FeedUrl(username);
    var page := Page(ItemBody(fmt));
    var replies := [Response(200, Some(OnePostPage))];
    var resp := replies[0];
    OnePostStep(3, fmt);
    OnePostStep(2, fmt);
    OnePostStep(1, fmt);
    assert Iteration(resp, None, 3, page, true) == Continue([BarePost], 1, Str("x"), resp);
    assert Iteration(NoResponse, Some(resp), 2, page, true) == Continue([BarePost], 1, Str("x"), resp);
    assert Iteration(NoResponse, Some(resp), 1, page, true) == Continue([BarePost], 1, Str("x"), resp);
    var w3 := Walk(url, 3, page, replies, 3, Str("x"), Some(resp), 3, [BarePost, BarePost, BarePost], true);
    assert w3 == Run(Ok([BarePost, BarePost, BarePost]), []);
    var w2 := Walk(url, 3, page, replies, 2, Str("x"), Some(resp), 2, [BarePost, BarePost], true);
    assert [BarePost, BarePost] + [BarePost] == [BarePost, BarePost, BarePost];
    assert w2.result == w3.result && |w2.sent| == 1;
    var w1 := Walk(url, 3, page, replies, 1, Str("x"), Some(resp), 1, [BarePost], true);
    assert [BarePost] + [BarePost] == [BarePost, BarePost];
    assert w1.result == w2.result && |w1.sent| == 2;
    var w0 := Walk(url, 3, page, replies, 0, Null, None, 0, [], true);
    assert [] + [BarePost] == [BarePost];
    assert w0.result == w1.result && |w0.sent| == 3;

    assert Iteration(resp, None, 3, page, false) == Continue([BarePost], 1, Str("x"), resp);
    assert Iteration(NoResponse, Some(resp), 2, page, false) == Halt([]);
    var c1 := Walk(url, 3, page, replies, 1, Str("x"), Some(resp), 1, [BarePost], false);
    assert [BarePost] + [] == [BarePost];
    assert c1.result == Ok([BarePost]);
  }

  /** As written, a first request that raises makes the handler read the
      unbound `response`; the corrected loop returns no items. */
  lemma UnboundResponse(username: string, fmt: Json -> Result<string>)
    ensures Feed(username, 1, fmt, [], true).result == Err(UnboundLocalError)
    ensures Feed(username, 1, fmt, [], false).result == Ok([])
  {
    var page := Page(ItemBody(fmt));
    assert Iteration(NoResponse, None, 1, page, true) == Fail(UnboundLocalError);
    assert Iteration(NoResponse, None, 1, page, false) == Halt([]);
    var none: seq<Item> := [];
    assert none + [] == none;
  }
}
