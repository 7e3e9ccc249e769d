/** `YARS.fetch_subreddit_posts`: walk a subreddit or user listing page by
    page, following the server's `after` cursor, and collect at most
    `limit` normalised post records, optionally keeping only posts whose
    flair is in an allow-list. */
module RedditListing {
  import opened Py
  import opened Json
  import opened RedditCore

  const Categories: seq<string> := ["hot", "top", "new", "userhot", "usertop", "usernew"]

  const CategoryMessage: string :=
    "Category for Subredit must be either 'hot', 'top', or 'new' or for User must be 'userhot', 'usertop', or 'usernew'"

  /** One listing request: the endpoint and the `limit`/`after` query
      parameters (`raw_json=1` and `t` are sent with every request). */
  datatype Request = Request(url: string, pageSize: int, after: Json)

  /** The normalised record built for each kept post. */
  datatype Post = Post(
    title: Json,
    author: Json,
    permalink: Json,
    date: string,
    body: Json,
    linkFlairText: Json)

  /** What a call returns (or raises) together with the requests it sent. */
  datatype Run = Run(result: Result<seq<Post>>, sent: seq<Request>)

  function ListingUrl(subreddit: string, category: string): string {
    if category == "hot" then subreddit + "/hot.json"
    else if category == "top" then subreddit + "/top.json"
    else if category == "new" then subreddit + "/new.json"
    else if category == "userhot" then subreddit + "/submitted/hot.json"
    else if category == "usertop" then subreddit + "/submitted/top.json"
    else subreddit + "/submitted/new.json"
  }

  /** `batch_size = min(100, limit)`, sent as the page size of every request. */
  function PageSize(limit: int): int {
    if limit < 100 then limit else 100
  }

  /** The allow-list applies when `filter` is a non-empty list; any other
      value (None, an empty list, a value that is not a list) keeps every post. */
  predicate FilterActive(filter: Option<seq<Json>>) {
    filter.Some? && filter.value != []
  }

  /** Whether the allow-list skips a post with data `pd`: only a post that
      has a `link_flair_text` member can be skipped. */
  function Skipped(pd: Json, filter: Option<seq<Json>>): Result<bool> {
    if !FilterActive(filter) then Ok(false)
    else
      var has :- Has(pd, "link_flair_text");
      if !has then Ok(false)
      else
        var flair :- GetOr(pd, "link_flair_text", Null);
        Ok(flair !in filter.value)
  }

  /** The body of the inner loop for one listing child: `None` when the
      filter skips it, otherwise its record. Missing mandatory members
      (`data`, `created_utc`, `title`, `author`, `permalink`) raise. */
  function PostRecord(post: Json, filter: Option<seq<Json>>, fmt: Json -> Result<string>): Result<Option<Post>> {
    var pd :- Index(post, "data");
    var skip :- Skipped(pd, filter);
    if skip then Ok(None)
    else
      var created :- Index(pd, "created_utc");
      var title :- Index(pd, "title");
      var author :- Index(pd, "author");
      var permalink :- Index(pd, "permalink");
      var date :- ConvertTimestamp(created, fmt);
      var body :- GetOr(pd, "selftext", Str(""));
      var flair :- GetOr(pd, "link_flair_text", Str(""));
      Ok(Some(Post(title, author, permalink, date, body, flair)))
  }

  function Prefixed(prefix: seq<Post>, r: Result<seq<Post>>): Result<seq<Post>> {
    match r
    case Ok(v) => Ok(prefix + v)
    case Err(e) => Err(e)
  }

  /** The body of the inner loop as a function value, for the walk below. */
  function Record(filter: Option<seq<Json>>, fmt: Json -> Result<string>): Json -> Result<Option<Post>> {
    post => PostRecord(post, filter, fmt)
  }

  /** The records one page contributes when `budget` more records are
      wanted: children are examined in order, each by `record`, and the
      page is left as soon as the budget is used up. */
  function PageRecords(posts: seq<Json>, budget: nat, record: Json -> Result<Option<Post>>): Result<seq<Post>>
    decreases |posts|
  {
    if posts == [] || budget == 0 then Ok([])
    else
      var rec :- record(posts[0]);
      match rec
      case None => PageRecords(posts[1..], budget, record)
      case Some(p) => Prefixed([p], PageRecords(posts[1..], budget - 1, record))
  }

  /** The `after` cursor of a page's `data` member. */
  function NextCursor(dd: Json): Json
    requires dd.Obj?
  {
    GetOr(dd, "after", Null).value
  }

  /** How one iteration of the pagination loop ends: the loop stops after
      adding `recs`, raises, or goes on to the page at `cursor`. */
  datatype Step = Stop(recs: seq<Post>) | Raise(error: Error) | Next(recs: seq<Post>, cursor: Json)

  /** One iteration of the loop for the reply to its request, when
      `budget` more records are wanted. A request that raised and a
      response with an error status both end the loop (the response
      variable is None, or a response that tests false); a body that is
      not JSON raises. */
  function PageStep(reply: Reply, budget: nat, record: Json -> Result<Option<Post>>): Step {
    match reply
    case NoResponse => Stop([])
    case Response(status, body) =>
      if RaisesForStatus(status) then Stop([])
      else if body.None? then Raise(JsonDecodeError)
      else
        match Index(body.value, "data")
        case Err(e) => Raise(e)
        case Ok(dd) =>
          match Index(dd, "children")
          case Err(e) => Raise(e)
          case Ok(children) =>
            if !Truthy(children) then Stop([])
            else match Iter(children)
              case Err(e) => Raise(e)
              case Ok(items) =>
                match PageRecords(items, budget, record)
                case Err(e) => Raise(e)
                case Ok(recs) =>
                  var next := NextCursor(dd);
                  if !Truthy(next) then Stop(recs) else Next(recs, next)
  }

  /** One iteration of the loop, as a function value for `Walk`. */
  function Page(record: Json -> Result<Option<Post>>): (Reply, nat) -> Step {
    (reply: Reply, budget: nat) => PageStep(reply, budget, record)
  }

  /** The pagination loop from the request with index `i` on, with cursor
      `after` and the records `acc` collected so far. */
  function Walk(
    url: string, batch: int, limit: int, page: (Reply, nat) -> Step,
    replies: seq<Reply>, i: nat, after: Json, acc: seq<Post>): Run
    decreases |replies| - i
  {
    if |acc| >= limit then Run(Ok(acc), [])
    else
      var req := Request(url, batch, after);
      if i >= |replies| then Run(Ok(acc), [req])
      else match page(replies[i], limit - |acc|)
        case Stop(recs) => Run(Ok(acc + recs), [req])
        case Raise(e) => Run(Err(e), [req])
        case Next(recs, next) =>
          var w := Walk(url, batch, limit, page, replies, i + 1, next, acc + recs);
          Run(w.result, [req] + w.sent)
  }

  /** `fetch_subreddit_posts(subreddit, category, limit, filter=filter)`
      against a server that answers with `replies`. */
  function Fetch(
    subreddit: string, category: string, limit: int, filter: Option<seq<Json>>,
    fmt: Json -> Result<string>, replies: seq<Reply>): Run
  {
    if category !in Categories then Run(Err(ValueError(CategoryMessage)), [])
    else Walk(ListingUrl(subreddit, category), PageSize(limit), limit, Page(Record(filter, fmt)), replies, 0, Null, [])
  }

  method FetchSubredditPosts(
    subreddit: string, category: string, limit: int, filter: Option<seq<Json>>,
    fmt: Json -> Result<string>, replies: seq<Reply>)
    returns (r: Result<seq<Post>>, sent: seq<Request>)
    ensures Run(r, sent) == Fetch(subreddit, category, limit, filter, fmt, replies)
    ensures category !in Categories ==> r == Err(ValueError(CategoryMessage)) && sent == []
    ensures r.Ok? ==> |r.value| <= Max(limit, 0)
    ensures forall q :: q in sent ==> q.pageSize == PageSize(limit)
  {
    sent := [];
    if category !in Categories {
      r := Err(ValueError(CategoryMessage));
      return;
    }
    FetchBound(subreddit, category, limit, filter, fmt, replies);
    PageComputes(Record(filter, fmt));
    r, sent := Paginate(ListingUrl(subreddit, category), PageSize(limit), limit, Page(Record(filter, fmt)), Record(filter, fmt), replies);
  }

  /** `page` reads a reply as `PageStep` does with the per-child body
      `record`. */
  ghost predicate Computes(page: (Reply, nat) -> Step, record: Json -> Result<Option<Post>>) {
    forall reply, budget: nat {:trigger PageStep(reply, budget, record)} ::
      page(reply, budget) == PageStep(reply, budget, record)
  }

  lemma PageComputes(record: Json -> Result<Option<Post>>)
    ensures Computes(Page(record), record)
  {
  }

  /** The `while total_fetched < limit` loop of `fetch_subreddit_posts`,
      for any per-child body `record`. */
  method Paginate(
    url: string, batch: int, limit: int, ghost page: (Reply, nat) -> Step, record: Json -> Result<Option<Post>>,
    replies: seq<Reply>)
    returns (r: Result<seq<Post>>, sent: seq<Request>)
    requires Computes(page, record)
    ensures Run(r, sent) == Walk(url, batch, limit, page, replies, 0, Null, [])
  {
    var totalFetched := 0;
    var after := Null;
    var allPosts: seq<Post> := [];
    var i := 0;
    sent := [];
    ghost var goal := Walk(url, batch, limit, page, replies, 0, Null, []);
    assert [] + goal.sent == goal.sent;
    while totalFetched < limit
      invariant totalFetched == |allPosts| && i == |sent|
      invariant var w := Walk(url, batch, limit, page, replies, i, after, allPosts);
        goal == Run(w.result, sent + w.sent)
      decreases |replies| - i
    {
      var req := Request(url, batch, after);
      if i >= |replies| {
        WalkEnd(goal, url, batch, limit, page, replies, i, after, allPosts, sent);
        sent := sent + [req];
        break;
      }
      var step := ReadPage(replies[i], limit - |allPosts|, record);
      WalkStep(goal, url, batch, limit, page, replies, i, after, allPosts, sent, step);
      sent := sent + [req];
      i := i + 1;
      match step
      case Stop(recs) =>
        allPosts := allPosts + recs;
        break;
      case Raise(e) =>
        r := Err(e);
        return;
      case Next(recs, next) =>
        allPosts := allPosts + recs;
        totalFetched := |allPosts|;
        after := next;
    }
    if limit <= totalFetched {
      assert sent + [] == sent;
    }
    r := Ok(allPosts);
  }

  /** The walk once the script is exhausted: one more request, which
      gets no answer, ends the loop. */
  lemma WalkEnd(
    goal: Run, url: string, batch: int, limit: int, page: (Reply, nat) -> Step,
    replies: seq<Reply>, i: nat, after: Json, acc: seq<Post>, sent: seq<Request>)
    requires |acc| < limit && i >= |replies|
    requires var w := Walk(url, batch, limit, page, replies, i, after, acc); goal == Run(w.result, sent + w.sent)
    ensures goal == Run(Ok(acc), sent + [Request(url, batch, after)])
  {
  }

  /** One step of the walk, by the outcome of the page it reads. */
  lemma WalkStep(
    goal: Run, url: string, batch: int, limit: int, page: (Reply, nat) -> Step,
    replies: seq<Reply>, i: nat, after: Json, acc: seq<Post>, sent: seq<Request>, step: Step)
    requires |acc| < limit && i < |replies|
    requires var w := Walk(url, batch, limit, page, replies, i, after, acc); goal == Run(w.result, sent + w.sent)
    requires step == page(replies[i], limit - |acc|)
    ensures var sent' := sent + [Request(url, batch, after)];
      match step
      case Stop(recs) => goal == Run(Ok(acc + recs), sent')
      case Raise(e) => goal == Run(Err(e), sent')
      case Next(recs, next) =>
        var w' := Walk(url, batch, limit, page, replies, i + 1, next, acc + recs);
        goal == Run(w'.result, sent' + w'.sent)
  {
    if step.Next? {
      var w' := Walk(url, batch, limit, page, replies, i + 1, step.cursor, acc + step.recs);
      assert sent + ([Request(url, batch, after)] + w'.sent) == sent + [Request(url, batch, after)] + w'.sent;
    }
  }

  /** One iteration of the loop of `fetch_subreddit_posts`: check the
      reply, then take the page's children in order until the budget is
      used up. */
  method ReadPage(reply: Reply, budget: nat, record: Json -> Result<Option<Post>>)
    returns (step: Step)
    ensures step == PageStep(reply, budget, record)
  {
    if reply.NoResponse? || RaisesForStatus(reply.status) {
      return Stop([]);
    }
    if reply.body.None? {
      return Raise(JsonDecodeError);
    }
    var dd := Index(reply.body.value, "data");
    if dd.Err? {
      return Raise(dd.error);
    }
    var children := Index(dd.value, "children");
    if children.Err? {
      return Raise(children.error);
    }
    if !Truthy(children.value) {
      return Stop([]);
    }
    var items := Iter(children.value);
    if items.Err? {
      return Raise(items.error);
    }
    var recs := CollectRecords(items.value, budget, record);
    if recs.Err? {
      return Raise(recs.error);
    }
    var next := NextCursor(dd.value);
    if !Truthy(next) {
      return Stop(recs.value);
    }
    return Next(recs.value, next);
  }

  lemma PrefixedAppend(prefix: seq<Post>, p: Post, r: Result<seq<Post>>)
    ensures Prefixed(prefix, Prefixed([p], r)) == Prefixed(prefix + [p], r)
  {
    if r.Ok? {
      assert prefix + ([p] + r.value) == (prefix + [p]) + r.value;
    }
  }

  /** The inner loop of `fetch_subreddit_posts` over one page's children. */
  method CollectRecords(posts: seq<Json>, budget: nat, record: Json -> Result<Option<Post>>)
    returns (r: Result<seq<Post>>)
    ensures r == PageRecords(posts, budget, record)
  {
    var recs: seq<Post> := [];
    var j := 0;
    ghost var whole := PageRecords(posts, budget, record);
    assert posts[j..] == posts;
    if whole.Ok? {
      assert [] + whole.value == whole.value;
    }
    while j < |posts| && |recs| < budget
      invariant 0 <= j <= |posts| && |recs| <= budget
      invariant whole == Prefixed(recs, PageRecords(posts[j..], budget - |recs|, record))
    {
      var rec := record(posts[j]);
      if rec.Err? {
        return Err(rec.error);
      }
      assert posts[j..][1..] == posts[j + 1..];
      if rec.value.Some? {
        PrefixedAppend(recs, rec.value.value, PageRecords(posts[j + 1..], budget - |recs| - 1, record));
        recs := recs + [rec.value.value];
      }
      j := j + 1;
    }
    r := Ok(recs);
    assert recs + [] == recs;
  }

  /** A page never contributes more records than the budget allows. */
  lemma {:induction false} PageRecordsBound(posts: seq<Json>, budget: nat, record: Json -> Result<Option<Post>>)
    ensures PageRecords(posts, budget, record).Ok? ==> |PageRecords(posts, budget, record).value| <= budget
    decreases |posts|
  {
    if posts != [] && budget != 0 {
      PageRecordsBound(posts[1..], budget, record);
      PageRecordsBound(posts[1..], budget - 1, record);
    }
  }

  lemma PageStepBound(reply: Reply, budget: nat, record: Json -> Result<Option<Post>>)
    ensures var st := PageStep(reply, budget, record); !st.Raise? ==> |st.recs| <= budget
  {
    if reply.Response? && !RaisesForStatus(reply.status) && reply.body.Some? {
      var data := reply.body.value;
      if Index(data, "data").Ok? {
        var dd := Index(data, "data").value;
        if Index(dd, "children").Ok? && Iter(Index(dd, "children").value).Ok? {
          PageRecordsBound(Iter(Index(dd, "children").value).value, budget, record);
        }
      }
    }
  }

  /** A page step keeps within its budget. */
  ghost predicate WithinBudget(page: (Reply, nat) -> Step) {
    forall reply, budget: nat :: !page(reply, budget).Raise? ==> |page(reply, budget).recs| <= budget
  }

  lemma PageWithinBudget(record: Json -> Result<Option<Post>>)
    ensures WithinBudget(Page(record))
  {
    forall reply, budget: nat {
      PageStepBound(reply, budget, record);
    }
  }

  /** The walk never returns more than `limit` records, and the records
      it started with stay its first records, in order. */
  lemma {:induction false} WalkBound(
    url: string, batch: int, limit: int, page: (Reply, nat) -> Step,
    replies: seq<Reply>, i: nat, after: Json, acc: seq<Post>)
    requires WithinBudget(page)
    requires |acc| <= Max(limit, 0)
    ensures var w := Walk(url, batch, limit, page, replies, i, after, acc);
      w.result.Ok? ==> |acc| <= |w.result.value| <= Max(limit, 0) && w.result.value[..|acc|] == acc
    decreases |replies| - i
  {
    if |acc| < limit && i < |replies| {
      var st := page(replies[i], limit - |acc|);
      if !st.Raise? {
        assert (acc + st.recs)[..|acc|] == acc;
      }
      if st.Next? {
        WalkBound(url, batch, limit, page, replies, i + 1, st.cursor, acc + st.recs);
        var w' := Walk(url, batch, limit, page, replies, i + 1, st.cursor, acc + st.recs);
        if w'.result.Ok? {
          assert w'.result.value[..|acc|] == (w'.result.value[..|acc + st.recs|])[..|acc|];
        }
      }
    }
  }

  /** Every request of a walk asks for the same page size and endpoint. */
  lemma {:induction false} WalkPageSize(
    url: string, batch: int, limit: int, page: (Reply, nat) -> Step,
    replies: seq<Reply>, i: nat, after: Json, acc: seq<Post>)
    ensures forall q :: q in Walk(url, batch, limit, page, replies, i, after, acc).sent ==>
      q.pageSize == batch && q.url == url
    decreases |replies| - i
  {
    if |acc| < limit && i < |replies| {
      var st := page(replies[i], limit - |acc|);
      if st.Next? {
        WalkPageSize(url, batch, limit, page, replies, i + 1, st.cursor, acc + st.recs);
      }
    }
  }

  /** The bounds `fetch_subreddit_posts` keeps: at most `limit` records,
      and every request asks for the same page size. */
  lemma FetchBound(
    subreddit: string, category: string, limit: int, filter: Option<seq<Json>>,
    fmt: Json -> Result<string>, replies: seq<Reply>)
    ensures var f := Fetch(subreddit, category, limit, filter, fmt, replies);
      (f.result.Ok? ==> |f.result.value| <= Max(limit, 0))
      && (forall q :: q in f.sent ==> q.pageSize == PageSize(limit))
  {
    if category in Categories {
      var url := ListingUrl(subreddit, category);
      var page := Page(Record(filter, fmt));
      PageWithinBudget(Record(filter, fmt));
      WalkBound(url, PageSize(limit), limit, page, replies, 0, Null, []);
      WalkPageSize(url, PageSize(limit), limit, page, replies, 0, Null, []);
    }
  }

  /** What a kept record can say about the allow-list: its flair is one of
      the listed values, or it is the default "" (the flair of a post with
      no `link_flair_text` member, or a post whose flair was "" itself). */
  predicate Admitted(p: Post, filter: Option<seq<Json>>) {
    !FilterActive(filter) || p.linkFlairText in filter.value || p.linkFlairText == Str("")
  }

  /** The child's `data` member is a dict. */
  predicate DataIsDict(post: Json) {
    Index(post, "data").Ok? && Index(post, "data").value.Obj?
  }

  /** The child's `link_flair_text` member, if its data has one. */
  function Flair(post: Json): Option<Json>
    requires DataIsDict(post)
  {
    Lookup(Index(post, "data").value.fields, "link_flair_text")
  }

  /** The allow-list skips the child: it is active, and the child's data
      has a flair member whose value is not listed. */
  predicate Unlisted(post: Json, filter: Option<seq<Json>>) {
    FilterActive(filter) && DataIsDict(post) && Flair(post).Some? && Flair(post).value !in filter.value
  }

  /** The allow-list lets the child through: it is inactive, or the
      child's data has no flair member, or a listed one. */
  predicate Listed(post: Json, filter: Option<seq<Json>>) {
    !FilterActive(filter) || (DataIsDict(post) && (Flair(post).None? || Flair(post).value in filter.value))
  }

  /** The allow-list decides the child one way or the other (its data is a
      dict, or the list is inactive). */
  predicate Decided(post: Json, filter: Option<seq<Json>>) {
    !FilterActive(filter) || DataIsDict(post)
  }

  /** The reference reading of the filter: skip exactly the unlisted
      children, and build every other child's record as if there were no
      allow-list. */
  function Screening(filter: Option<seq<Json>>, fmt: Json -> Result<string>): Json -> Result<Option<Post>> {
    post => if Unlisted(post, filter) then Ok(None) else PostRecord(post, None, fmt)
  }

  /** The children the allow-list does not skip, in order. */
  function Screen(posts: seq<Json>, filter: Option<seq<Json>>): (r: seq<Json>)
    ensures |r| <= |posts|
  {
    if posts == [] then []
    else if Unlisted(posts[0], filter) then Screen(posts[1..], filter)
    else [posts[0]] + Screen(posts[1..], filter)
  }

  /** Lines 278-281 of the inner loop, both ways: an unlisted child is
      skipped; a listed child gets the record it would get with no
      allow-list; without an allow-list no child is skipped; and any
      record that is kept is that unfiltered record, of a child that is
      not unlisted. */
  lemma PostRecordAdmitted(post: Json, filter: Option<seq<Json>>, fmt: Json -> Result<string>)
    ensures Unlisted(post, filter) ==> PostRecord(post, filter, fmt) == Ok(None)
    ensures Listed(post, filter) ==> PostRecord(post, filter, fmt) == PostRecord(post, None, fmt)
    ensures PostRecord(post, None, fmt).Ok? ==> PostRecord(post, None, fmt).value.Some?
    ensures var r := PostRecord(post, filter, fmt);
      r.Ok? && r.value.Some? ==>
        !Unlisted(post, filter) && r == PostRecord(post, None, fmt) && Admitted(r.value.value, filter)
    ensures Decided(post, filter) ==> PostRecord(post, filter, fmt) == Screening(filter, fmt)(post)
  {
    KeptRecordAdmitted(post, filter, fmt);
  }

  /** A record kept under the allow-list satisfies it. */
  lemma KeptRecordAdmitted(post: Json, filter: Option<seq<Json>>, fmt: Json -> Result<string>)
    ensures var r := PostRecord(post, filter, fmt);
      r.Ok? && r.value.Some? ==> Admitted(r.value.value, filter)
  {
    var r := PostRecord(post, filter, fmt);
    if r.Ok? && r.value.Some? && FilterActive(filter) {
      var pd := Index(post, "data").value;
      assert pd.Obj?;
      if Lookup(pd.fields, "link_flair_text").None? {
        assert r.value.value.linkFlairText == Str("");
      }
    }
  }

  /** Two per-child bodies that agree on every child of a page give the
      page the same records. */
  lemma {:induction false} PageRecordsAgree(
    posts: seq<Json>, budget: nat, record1: Json -> Result<Option<Post>>, record2: Json -> Result<Option<Post>>)
    requires forall j :: 0 <= j < |posts| ==> record1(posts[j]) == record2(posts[j])
    ensures PageRecords(posts, budget, record1) == PageRecords(posts, budget, record2)
    decreases |posts|
  {
    if posts != [] && budget != 0 {
      assert record1(posts[0]) == record2(posts[0]);
      assert forall j :: 0 <= j < |posts[1..]| ==> posts[1..][j] == posts[j + 1];
      PageRecordsAgree(posts[1..], budget, record1, record2);
      PageRecordsAgree(posts[1..], budget - 1, record1, record2);
    }
  }

  /** The reference reading of a page: the records of the children the
      allow-list does not skip, built as if there were no allow-list; a
      skipped child uses none of the budget. */
  lemma {:induction false} ScreenedPage(
    posts: seq<Json>, budget: nat, filter: Option<seq<Json>>, fmt: Json -> Result<string>)
    ensures PageRecords(posts, budget, Screening(filter, fmt)) == PageRecords(Screen(posts, filter), budget, Record(None, fmt))
    decreases |posts|
  {
    if posts != [] && budget != 0 {
      ScreenedPage(posts[1..], budget, filter, fmt);
      ScreenedPage(posts[1..], budget - 1, filter, fmt);
      if !Unlisted(posts[0], filter) {
        var s := Screen(posts, filter);
        assert s[0] == posts[0] && s[1..] == Screen(posts[1..], filter);
        PostRecordAdmitted(posts[0], None, fmt);
      }
    }
  }

  /** A page's records under the allow-list. Every record satisfies it;
      when the list decides every child, the records are those of the
      children it does not skip, built with no allow-list, and when it
      lets every child through they are the records with no allow-list. */
  lemma PageRecordsAdmitted(
    posts: seq<Json>, budget: nat, filter: Option<seq<Json>>, fmt: Json -> Result<string>)
    ensures var r := PageRecords(posts, budget, Record(filter, fmt));
      r.Ok? ==> forall p :: p in r.value ==> Admitted(p, filter)
    ensures (forall j :: 0 <= j < |posts| ==> Decided(posts[j], filter)) ==>
      PageRecords(posts, budget, Record(filter, fmt)) == PageRecords(Screen(posts, filter), budget, Record(None, fmt))
    ensures (forall j :: 0 <= j < |posts| ==> Listed(posts[j], filter)) ==>
      PageRecords(posts, budget, Record(filter, fmt)) == PageRecords(posts, budget, Record(None, fmt))
  {
    PageRecordsKept(posts, budget, filter, fmt);
    forall j | 0 <= j < |posts| {
      PostRecordAdmitted(posts[j], filter, fmt);
    }
    if forall j :: 0 <= j < |posts| ==> Decided(posts[j], filter) {
      PageRecordsAgree(posts, budget, Record(filter, fmt), Screening(filter, fmt));
      ScreenedPage(posts, budget, filter, fmt);
    }
    if forall j :: 0 <= j < |posts| ==> Listed(posts[j], filter) {
      PageRecordsAgree(posts, budget, Record(filter, fmt), Record(None, fmt));
    }
  }

  /** Every record a page contributes satisfies the allow-list. */
  lemma {:induction false} PageRecordsKept(
    posts: seq<Json>, budget: nat, filter: Option<seq<Json>>, fmt: Json -> Result<string>)
    ensures var r := PageRecords(posts, budget, Record(filter, fmt));
      r.Ok? ==> forall p :: p in r.value ==> Admitted(p, filter)
    decreases |posts|
  {
    if posts != [] && budget != 0 {
      KeptRecordAdmitted(posts[0], filter, fmt);
      PageRecordsKept(posts[1..], budget, filter, fmt);
      PageRecordsKept(posts[1..], budget - 1, filter, fmt);
    }
  }

  /** The children one iteration of the loop visits, when it gets as far
      as iterating over them. */
  function PageChildren(reply: Reply): seq<Json> {
    if reply.NoResponse? || reply.body.None? then []
    else match Index(reply.body.value, "data")
      case Err(_) => []
      case Ok(dd) =>
        match Index(dd, "children")
        case Err(_) => []
        case Ok(children) =>
          match Iter(children)
          case Err(_) => []
          case Ok(items) => items
  }

  /** Two per-child bodies that agree on the children of a reply's page
      give the same iteration. */
  lemma PageStepAgree(reply: Reply, budget: nat, record1: Json -> Result<Option<Post>>, record2: Json -> Result<Option<Post>>)
    requires forall j :: 0 <= j < |PageChildren(reply)| ==> record1(PageChildren(reply)[j]) == record2(PageChildren(reply)[j])
    ensures PageStep(reply, budget, record1) == PageStep(reply, budget, record2)
  {
    PageRecordsAgree(PageChildren(reply), budget, record1, record2);
  }

  /** The allow-list decides every child of the reply's page. */
  predicate PageDecided(reply: Reply, filter: Option<seq<Json>>) {
    forall j :: 0 <= j < |PageChildren(reply)| ==> Decided(PageChildren(reply)[j], filter)
  }

  /** The allow-list lets every child of the reply's page through. */
  predicate PageListed(reply: Reply, filter: Option<seq<Json>>) {
    forall j :: 0 <= j < |PageChildren(reply)| ==> Listed(PageChildren(reply)[j], filter)
  }

  /** One iteration under the allow-list: its records satisfy it; when it
      decides every child the iteration is the reference reading's; when
      it lets every child through it is the iteration with no allow-list. */
  lemma PageStepAdmitted(reply: Reply, budget: nat, filter: Option<seq<Json>>, fmt: Json -> Result<string>)
    ensures var st := PageStep(reply, budget, Record(filter, fmt));
      !st.Raise? ==> forall p :: p in st.recs ==> Admitted(p, filter)
    ensures PageDecided(reply, filter) ==>
      PageStep(reply, budget, Record(filter, fmt)) == PageStep(reply, budget, Screening(filter, fmt))
    ensures PageListed(reply, filter) ==>
      PageStep(reply, budget, Record(filter, fmt)) == PageStep(reply, budget, Record(None, fmt))
  {
    PageStepKept(reply, budget, filter, fmt);
    var items := PageChildren(reply);
    forall j | 0 <= j < |items| {
      PostRecordAdmitted(items[j], filter, fmt);
    }
    if PageDecided(reply, filter) {
      PageStepAgree(reply, budget, Record(filter, fmt), Screening(filter, fmt));
    }
    if PageListed(reply, filter) {
      PageStepAgree(reply, budget, Record(filter, fmt), Record(None, fmt));
    }
  }

  /** Every record of one iteration satisfies the allow-list. */
  lemma PageStepKept(reply: Reply, budget: nat, filter: Option<seq<Json>>, fmt: Json -> Result<string>)
    ensures var st := PageStep(reply, budget, Record(filter, fmt));
      !st.Raise? ==> forall p :: p in st.recs ==> Admitted(p, filter)
  {
    PageRecordsKept(PageChildren(reply), budget, filter, fmt);
  }

  /** Two loop bodies that agree on every remaining reply give the same
      walk. */
  lemma {:induction false} WalkAgree(
    url: string, batch: int, limit: int, page1: (Reply, nat) -> Step, page2: (Reply, nat) -> Step,
    replies: seq<Reply>, i: nat, after: Json, acc: seq<Post>)
    requires forall k, budget: nat :: i <= k < |replies| ==> page1(replies[k], budget) == page2(replies[k], budget)
    ensures Walk(url, batch, limit, page1, replies, i, after, acc) == Walk(url, batch, limit, page2, replies, i, after, acc)
    decreases |replies| - i
  {
    if |acc| < limit && i < |replies| {
      var st := page1(replies[i], limit - |acc|);
      assert st == page2(replies[i], limit - |acc|);
      if st.Next? {
        WalkAgree(url, batch, limit, page1, page2, replies, i + 1, st.cursor, acc + st.recs);
      }
    }
  }

  /** The walk under the allow-list: every record satisfies it; when it
      decides every child of every remaining page, the walk is the
      reference reading's; when it lets every such child through, the
      walk is the one with no allow-list. */
  lemma WalkAdmitted(
    url: string, batch: int, limit: int, filter: Option<seq<Json>>, fmt: Json -> Result<string>,
    replies: seq<Reply>, i: nat, after: Json, acc: seq<Post>)
    requires forall p :: p in acc ==> Admitted(p, filter)
    ensures var w := Walk(url, batch, limit, Page(Record(filter, fmt)), replies, i, after, acc);
      w.result.Ok? ==> forall p :: p in w.result.value ==> Admitted(p, filter)
    ensures (forall k :: i <= k < |replies| ==> PageDecided(replies[k], filter)) ==>
      Walk(url, batch, limit, Page(Record(filter, fmt)), replies, i, after, acc)
      == Walk(url, batch, limit, Page(Screening(filter, fmt)), replies, i, after, acc)
    ensures (forall k :: i <= k < |replies| ==> PageListed(replies[k], filter)) ==>
      Walk(url, batch, limit, Page(Record(filter, fmt)), replies, i, after, acc)
      == Walk(url, batch, limit, Page(Record(None, fmt)), replies, i, after, acc)
  {
    WalkKept(url, batch, limit, filter, fmt, replies, i, after, acc);
    forall k, budget: nat | i <= k < |replies| {
      PageStepAdmitted(replies[k], budget, filter, fmt);
    }
    if forall k :: i <= k < |replies| ==> PageDecided(replies[k], filter) {
      WalkAgree(url, batch, limit, Page(Record(filter, fmt)), Page(Screening(filter, fmt)), replies, i, after, acc);
    }
    if forall k :: i <= k < |replies| ==> PageListed(replies[k], filter) {
      WalkAgree(url, batch, limit, Page(Record(filter, fmt)), Page(Record(None, fmt)), replies, i, after, acc);
    }
  }

  /** Every record the walk returns satisfies the allow-list. */
  lemma {:induction false} WalkKept(
    url: string, batch: int, limit: int, filter: Option<seq<Json>>, fmt: Json -> Result<string>,
    replies: seq<Reply>, i: nat, after: Json, acc: seq<Post>)
    requires forall p :: p in acc ==> Admitted(p, filter)
    ensures var w := Walk(url, batch, limit, Page(Record(filter, fmt)), replies, i, after, acc);
      w.result.Ok? ==> forall p :: p in w.result.value ==> Admitted(p, filter)
    decreases |replies| - i
  {
    if |acc| < limit && i < |replies| {
      var st := PageStep(replies[i], limit - |acc|, Record(filter, fmt));
      PageStepKept(replies[i], limit - |acc|, filter, fmt);
      if st.Next? {
        WalkKept(url, batch, limit, filter, fmt, replies, i + 1, st.cursor, acc + st.recs);
      }
    }
  }

  /** `fetch_subreddit_posts` with an allow-list: every returned record
      satisfies it; when the list decides every child of every page, the
      fetch is the walk that skips exactly the unlisted children and
      builds the others' records with no allow-list; when it lets every
      child through, the fetch is the one with no allow-list. */
  lemma FetchAdmitted(
    subreddit: string, category: string, limit: int, filter: Option<seq<Json>>,
    fmt: Json -> Result<string>, replies: seq<Reply>)
    ensures var f := Fetch(subreddit, category, limit, filter, fmt, replies);
      f.result.Ok? ==> forall p :: p in f.result.value ==> Admitted(p, filter)
    ensures category in Categories && (forall k :: 0 <= k < |replies| ==> PageDecided(replies[k], filter)) ==>
      Fetch(subreddit, category, limit, filter, fmt, replies)
      == Walk(ListingUrl(subreddit, category), PageSize(limit), limit, Page(Screening(filter, fmt)), replies, 0, Null, [])
    ensures (forall k :: 0 <= k < |replies| ==> PageListed(replies[k], filter)) ==>
      Fetch(subreddit, category, limit, filter, fmt, replies) == Fetch(subreddit, category, limit, None, fmt, replies)
  {
    if category in Categories {
      WalkAdmitted(ListingUrl(subreddit, category), PageSize(limit), limit, filter, fmt, replies, 0, Null, []);
    }
  }

  /** A valid call with a positive limit starts with one request for the
      first page (no cursor) of the category's endpoint; a limit of zero
      or less sends nothing and returns no posts. */
  lemma FetchFirstRequest(
    subreddit: string, category: string, limit: int, filter: Option<seq<Json>>,
    fmt: Json -> Result<string>, replies: seq<Reply>)
    requires category in Categories
    ensures var f := Fetch(subreddit, category, limit, filter, fmt, replies);
      if limit > 0 then |f.sent| >= 1 && f.sent[0] == Request(ListingUrl(subreddit, category), PageSize(limit), Null)
      else f == Run(Ok([]), [])
  {
  }
}
