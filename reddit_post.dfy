/** `YARS.scrape_post_details` and `YARS._extract_comments`: fetch one
    post's JSON (a list whose first element holds the post and whose
    second holds the comment listing) and flatten the comment tree into
    records, keeping the nesting of replies. */
module RedditPost {
  import opened Py
  import opened Json
  import opened RedditCore

  /** The record built for a `t1` comment; `replies` holds the records of
      its answers. */
  datatype Comment = Comment(author: Json, body: Json, score: Json, replies: seq<Comment>)

  /** The record `scrape_post_details` returns. */
  datatype Details = Details(title: Json, body: Json, comments: seq<Comment>)

  /** `comment.get("kind") == "t1"` for a dict child. */
  predicate IsT1(x: Json) {
    x.Obj? && GetOr(x, "kind", Null) == Ok(Str("t1"))
  }

  /** The children `_extract_comments` turns into records: the dicts of
      kind `t1`, in order. */
  function T1Children(items: seq<Json>): (r: seq<Json>)
    ensures forall i :: 0 <= i < |r| ==> IsT1(r[i]) && r[i] in items
    decreases |items|
  {
    if items == [] then []
    else (if IsT1(items[0]) then [items[0]] else []) + T1Children(items[1..])
  }

  /** `_extract_comments(comments)`: iterate over `comments` and build a
      record for every dict child of kind `t1`. */
  function ExtractComments(comments: Json): (r: Result<seq<Comment>>)
    ensures !(comments.Arr? || comments.Obj? || comments.Str?) ==> r == Err(TypeError)
    decreases Size(comments), 1
  {
    var items :- Iter(comments);
    IterSmaller(comments);
    ExtractItems(items, Size(comments))
  }

  /** The `for comment in comments` loop over the iterated elements;
      `bound` exceeds the size of every dict among them. */
  function ExtractItems(items: seq<Json>, ghost bound: nat): Result<seq<Comment>>
    requires forall x :: x in items && x.Obj? ==> Size(x) < bound
    decreases bound, 0, |items|
  {
    if items == [] then Ok([])
    else
      var c :- if items[0].Obj? then CommentOf(items[0]) else Ok(None);
      var rest :- ExtractItems(items[1..], bound);
      Ok((if c.Some? then [c.value] else []) + rest)
  }

  /** The loop body for a dict child: its record when its kind is `t1`.
      `data`, `author`, `body`, `score` and `replies` have defaults; the
      replies are extracted only when `replies` is a dict. */
  function CommentOf(comment: Json): (r: Result<Option<Comment>>)
    requires comment.Obj?
    ensures r.Ok? ==> (r.value.Some? <==> IsT1(comment))
    decreases Size(comment), 2
  {
    if GetOr(comment, "kind", Null) != Ok(Str("t1")) then Ok(None)
    else
      var data :- GetOr(comment, "data", Obj([]));
      var author :- GetOr(data, "author", Str(""));
      var body :- GetOr(data, "body", Str(""));
      var score :- GetOr(data, "score", Str(""));
      var replies :- GetOr(data, "replies", Str(""));
      if !replies.Obj? then Ok(Some(Comment(author, body, score, [])))
      else
        var rd := GetOr(replies, "data", Obj([])).value;
        var children :- GetOr(rd, "children", Arr([]));
        GetOrSmaller(comment, "data", Obj([]));
        GetOrSmaller(data, "replies", Str(""));
        GetOrSmaller(replies, "data", Obj([]));
        GetOrSmaller(rd, "children", Arr([]));
        var sub :- ExtractComments(children);
        Ok(Some(Comment(author, body, score, sub)))
  }

  /** The replies member of a comment's data, when the data is a dict. */
  function RepliesOf(comment: Json): Json
    requires comment.Obj?
  {
    var data := GetOr(comment, "data", Obj([])).value;
    if data.Obj? then GetOr(data, "replies", Str("")).value else Null
  }

  /** A comment whose `replies` member is missing or not a dict gets no
      replies; one whose `replies` is a dict gets the records extracted
      from `replies.data.children`. */
  lemma CommentReplies(comment: Json)
    requires comment.Obj?
    ensures var r := CommentOf(comment);
      r.Ok? && r.value.Some? && !RepliesOf(comment).Obj? ==> r.value.value.replies == []
    ensures var r := CommentOf(comment); var rs := RepliesOf(comment);
      r.Ok? && r.value.Some? && rs.Obj? ==>
        var rd := GetOr(rs, "data", Obj([])).value;
        GetOr(rd, "children", Arr([])).Ok?
        && ExtractComments(GetOr(rd, "children", Arr([])).value) == Ok(r.value.value.replies)
  {
  }

  /** `_extract_comments` keeps exactly the `t1` dict children, in order:
      the k-th record is the one built for the k-th such child. */
  lemma {:induction false} ExtractKeepsT1(items: seq<Json>, bound: nat)
    requires forall x :: x in items && x.Obj? ==> Size(x) < bound
    ensures var r := ExtractItems(items, bound);
      r.Ok? ==>
        |r.value| == |T1Children(items)|
        && forall k :: 0 <= k < |r.value| ==> CommentOf(T1Children(items)[k]) == Ok(Some(r.value[k]))
    decreases |items|
  {
    if items != [] {
      ExtractKeepsT1(items[1..], bound);
      var r := ExtractItems(items, bound);
      if r.Ok? {
        var rest := ExtractItems(items[1..], bound).value;
        var tail := T1Children(items[1..]);
        if IsT1(items[0]) {
          var c := CommentOf(items[0]).value.value;
          assert r.value == [c] + rest;
          assert T1Children(items) == [items[0]] + tail;
          forall k | 0 <= k < |r.value|
            ensures CommentOf(T1Children(items)[k]) == Ok(Some(r.value[k]))
          {
            if k > 0 {
              assert r.value[k] == rest[k - 1];
              assert T1Children(items)[k] == tail[k - 1];
            }
          }
        } else {
          assert r.value == [] + rest;
          assert T1Children(items) == [] + tail;
        }
      }
    }
  }

  /** Iterating a dict or a string yields strings only, so nothing is kept. */
  lemma {:induction false} ExtractSkipsScalars(items: seq<Json>, bound: nat)
    requires forall x :: x in items ==> x.Str?
    ensures ExtractItems(items, bound) == Ok([])
    decreases |items|
  {
    if items != [] {
      ExtractSkipsScalars(items[1..], bound);
      var none: seq<Comment> := [];
      assert none + none == none;
    }
  }

  lemma ExtractFromNonList(comments: Json)
    requires comments.Obj? || comments.Str?
    ensures ExtractComments(comments) == Ok([])
  {
    ExtractSkipsScalars(Iter(comments).value, Size(comments));
  }

  /** The post URL `scrape_post_details` requests. */
  function PostUrl(permalink: string): string {
    RedditOrigin + permalink + ".json"
  }

  /** `scrape_post_details(permalink)` given the outcome of its request. A
      request that raises leaves `response` unbound, so the handler
      raises; an error status gives None, as does a document that is not a
      list of at least two elements. */
  function ScrapePostDetails(reply: Reply): (r: Result<Option<Details>>)
    ensures reply.NoResponse? ==> r == Err(UnboundLocalError)
    ensures reply.Response? && RaisesForStatus(reply.status) ==> r == Ok(None)
    ensures reply.Response? && !RaisesForStatus(reply.status) && reply.body.None? ==> r == Err(JsonDecodeError)
    ensures reply.Response? && reply.body.Some? && !(reply.body.value.Arr? && |reply.body.value.items| >= 2) ==> r == Ok(None)
    ensures r.Ok? && r.value.Some? ==>
      reply.Response? && !RaisesForStatus(reply.status) && reply.body.Some?
      && reply.body.value.Arr? && |reply.body.value.items| >= 2
      && MainPost(reply.body.value.items[0]).Ok?
      && Index(MainPost(reply.body.value.items[0]).value, "title") == Ok(r.value.value.title)
      && GetOr(MainPost(reply.body.value.items[0]).value, "selftext", Str("")) == Ok(r.value.value.body)
      && CommentsOf(reply.body.value.items[1]) == Ok(r.value.value.comments)
    ensures (reply.Response? && !RaisesForStatus(reply.status) && reply.body.Some?
             && reply.body.value.Arr? && |reply.body.value.items| >= 2) ==>
        var main := MainPost(reply.body.value.items[0]);
        (main.Err? ==> r == Err(main.error))
        && (main.Ok? && Index(main.value, "title").Err? ==> r == Err(Index(main.value, "title").error))
  {
    match reply
    case NoResponse => Err(UnboundLocalError)
    case Response(status, body) =>
      if RaisesForStatus(status) then Ok(None)
      else if body.None? then Err(JsonDecodeError)
      else if !body.value.Arr? || |body.value.items| < 2 then Ok(None)
      else
        var listing := body.value.items;
        var main :- MainPost(listing[0]);
        var title :- Index(main, "title");
        var text :- GetOr(main, "selftext", Str(""));
        var comments :- CommentsOf(listing[1]);
        Ok(Some(Details(title, text, comments)))
  }

  /** `post_data[0]["data"]["children"][0]["data"]`: the post itself. */
  function MainPost(listing: Json): Result<Json> {
    var data :- Index(listing, "data");
    var children :- Index(data, "children");
    var first :- At(children, 0);
    Index(first, "data")
  }

  /** `_extract_comments(post_data[1]["data"]["children"])`. */
  function CommentsOf(listing: Json): Result<seq<Comment>> {
    var data :- Index(listing, "data");
    var children :- Index(data, "children");
    ExtractComments(children)
  }
}
