# Reddit-to-article pipeline: verified model of its data-handling core

The repository gathers Reddit posts, tracks them in Google Sheets, has
language models (Gemini, Puter, GitHub models) analyse the posts and write
articles, and stores images on Google Drive. Most of the code is glue
around vendor SDKs. This project models the parts that have statable
behaviour once every SDK or HTTP call is replaced by an abstract outcome:

- **Reddit scraper (`YARS`).** Modules `RedditCore`, `RedditListing`,
  `RedditUser`, `RedditPost` and `RedditSearch`.
  - The server is a scripted sequence of replies: a status with a parsed
    body, or a request that raised.
  - Cursor pagination in `fetch_subreddit_posts` and `scrape_user_data`
    becomes loops proved against recursive "walk" functions.
  - `_extract_comments` is a structural recursion over the JSON tree.
  - `scrape_post_details` and `handle_search` reshape single responses.
- **`GoogleSheetsClient`.** Module `SheetsModel` holds the pure row logic.
  Module `Sheets` holds class `SheetsClient`: a map from worksheet titles
  to grids, changed in place by `append_row`, `clear` and `update_cell`.
- **`GeminiClient`.** Modules `GeminiText` and `Gemini` cover:
  - the MIME table;
  - code-fence stripping;
  - the line filter that drops introduction and conclusion sections;
  - the batch-analysis fallback and its stable sort by "id";
  - selection of the first image part.
- **Puter client (`PuterAI`).** Module `PuterClient` covers key checking,
  message normalisation, payload shaping, and the mapping from HTTP
  outcome to result dict.
- **Failover wrappers.** Module `PuterApi` covers `ChatCompletion.create`
  (every key with Claude, then every key with GPT-4o) and
  `ImageGeneration.create`. Module `GitHubApi` covers
  `GitHubCompletion.create`.
- **`GoogleDriveClient`.** Module `Drive` covers upload and folder
  metadata, batch upload with partial failure, the `list_files` query and
  page loop, file links and embed HTML.

Shared modules:

- `Py` holds Python's `Option` and the `Result` type with the exceptions
  the code raises.
- `Json` holds the JSON value type. Objects are association lists, so
  insertion order is kept as in a Python `dict`. It also defines the
  Python operations on such values: `d[k]`, `d.get(k, default)`, `k in d`,
  iteration and truthiness.
- `Text` holds string helpers such as `find`, `rfind`, `split`, `join`,
  `strip` and `lower`.

## Model

| member | source | states |
|---|---|---|
| RedditCore.ConvertTimestamp | yars/yars.py:123-127 | a falsy timestamp gives ""; any other value gives the formatter's result |
| RedditCore.RaisesForStatus | yars/yars.py:257 | `raise_for_status` raises, and the response tests false, exactly for statuses 400 to 599 |
| RedditCore.ReplyAt | yars/yars.py:256 | the outcome of the i-th `session.get`: the scripted reply, or a request that raised once the script is used up |
| RedditListing.FetchSubredditPosts | yars/yars.py:215-322 | computes `Fetch`; an unknown category raises ValueError with the source's message before any request is sent; at most `max(limit,0)` records; every request asks for page size `min(100, limit)` |
| RedditListing.Fetch | yars/yars.py:215-322 | `fetch_subreddit_posts` as a function of the server's replies: an unknown category raises ValueError with no request; otherwise the walk from no cursor and no records, with page size `min(100, limit)` |
| RedditListing.ListingUrl | yars/yars.py:235-246 | the endpoint of each category: `<name>/<category>.json`, with `/submitted/` for the three user categories |
| RedditListing.PageSize | yars/yars.py:229 | `min(100, limit)` |
| RedditListing.Walk | yars/yars.py:234-320 | the while loop: stop once `limit` records are held; otherwise one request with the current cursor, then stop, raise or go on at the page's cursor as the iteration decides |
| RedditListing.PageStep | yars/yars.py:254-316 | one iteration: a raised request or an error status ends the loop; a body that is not JSON, a missing `data` or `children` raises; an empty page ends it; otherwise the page's records, then stop when `after` is falsy |
| RedditListing.NextCursor | yars/yars.py:314 | `data.get("after")`, None when absent |
| RedditListing.PageRecords | yars/yars.py:274-312 | the inner for-loop: children in order, a skipped child using none of the budget, a kept one using one unit, leaving the page when the budget is spent |
| RedditListing.Skipped | yars/yars.py:278-281 | a post is skipped only with a non-empty allow-list and a `link_flair_text` member whose value is not listed |
| RedditListing.PostRecord | yars/yars.py:275-292 | the record of one child: `data`, `created_utc`, `title`, `author` and `permalink` are mandatory, `selftext` and `link_flair_text` default to "", the date is the converted timestamp |
| RedditListing.Paginate | yars/yars.py:234-320 | the while loop computes the walk: records in page order then in-page order, and requests in order with the server's cursor |
| RedditListing.ReadPage | yars/yars.py:254-316 | one iteration (request outcome, `response.json()`, children, records, next cursor) equals `PageStep` |
| RedditListing.CollectRecords | yars/yars.py:274-312 | the inner for-loop equals `PageRecords`: a skipped post consumes no budget, and the loop stops when the budget is used |
| RedditListing.PageRecordsBound | yars/yars.py:309-312 | a page contributes at most the remaining budget |
| RedditListing.PageStepBound | yars/yars.py:269-312 | a page step that does not raise yields at most the remaining budget |
| RedditListing.WalkBound | yars/yars.py:234-316 | the walk returns at most `limit` records and keeps the earlier records as its prefix |
| RedditListing.WalkPageSize | yars/yars.py:248-256 | every request of the walk has the same endpoint and page size |
| RedditListing.FetchBound | yars/yars.py:229-312 | at most `max(limit,0)` records; the page size is `min(100, limit)` on every request |
| RedditListing.PostRecordAdmitted | yars/yars.py:277-291 | with an active allow-list, a child whose data has a flair member with an unlisted value is skipped; a child with no flair member or a listed one gets exactly the record it would get with no allow-list; with no allow-list no child is skipped; a kept record is the unfiltered record of a child that is not skipped, and its flair is listed or "" |
| RedditListing.ScreenedPage | yars/yars.py:274-312 | skipping exactly the unlisted children gives the records of the remaining children built with no allow-list, a skipped child using none of the budget |
| RedditListing.PageRecordsAdmitted | yars/yars.py:274-312 | a page's records satisfy the allow-list; when every child's data is a dict they are the records of the children not skipped, built with no allow-list; when every child is let through they are the records with no allow-list |
| RedditListing.PageStepAdmitted | yars/yars.py:269-312 | an iteration's records satisfy the allow-list; when the list decides every child it equals the iteration that skips exactly the unlisted children; when it lets every child through it equals the iteration with no allow-list |
| RedditListing.WalkAdmitted | yars/yars.py:234-316 | the walk's records satisfy the allow-list; it equals the walk that skips exactly the unlisted children when every child is decided, and the walk with no allow-list when every child is let through |
| RedditListing.FetchAdmitted | yars/yars.py:278-281 | every returned record satisfies the allow-list; when every child's data is a dict the fetch is the walk that skips exactly the unlisted children and builds the others' records with no allow-list; when every child is let through the fetch equals the fetch with no allow-list |
| RedditListing.FetchFirstRequest | yars/yars.py:229-256 | for a positive limit the first request is for the category's endpoint with no cursor; a limit of 0 or less returns [] and sends nothing |
| RedditPost.T1Children | yars/yars.py:104-105 | the children kept are the dict children of kind "t1", taken from the input |
| RedditPost.IsT1 | yars/yars.py:105 | a dict whose `kind` is "t1" |
| RedditPost.ExtractItems | yars/yars.py:103-121 | the loop over the iterated children, one record per dict of kind "t1", the first exception raised ending it |
| RedditPost.RepliesOf | yars/yars.py:106-114 | `comment.get("data", {}).get("replies", "")` |
| RedditPost.ExtractComments | yars/yars.py:101-121 | iterating a value that is not iterable raises TypeError |
| RedditPost.CommentOf | yars/yars.py:105-119 | a child yields a record exactly when it is a dict of kind "t1" |
| RedditPost.CommentReplies | yars/yars.py:114-118 | the recursion happens only when `replies` is a dict, on `replies.data.children`; otherwise replies is [] |
| RedditPost.ExtractKeepsT1 | yars/yars.py:101-121 | one record per "t1" dict child, in order, the k-th built from the k-th such child |
| RedditPost.ExtractSkipsScalars | yars/yars.py:104-105 | a sequence of strings yields no records |
| RedditPost.ExtractFromNonList | yars/yars.py:101-105 | iterating a dict or a string (keys or characters) yields no records |
| RedditPost.ScrapePostDetails | yars/yars.py:74-99 | a raised request gives UnboundLocalError; an error status gives None; a body that is not JSON raises; anything but a list of at least 2 gives None; otherwise the title is `[0]["data"]["children"][0]["data"]["title"]`, the body that dict's "selftext" or "", the comments those of element 1, and a missing post or title raises its error |
| RedditPost.PostUrl | yars/yars.py:75 | "https://www.reddit.com" + permalink + ".json" |
| RedditPost.MainPost | yars/yars.py:93 | `post_data[0]["data"]["children"][0]["data"]`, each step raising its own error |
| RedditPost.CommentsOf | yars/yars.py:97 | `_extract_comments` of element 1's `data.children` |
| RedditSearch.Head | yars/yars.py:60 | `x[:269]` keeps a prefix of at most n of a string or list; other values raise TypeError |
| RedditSearch.CursorsSent | yars/yars.py:37-40 | `after`/`before` are set only when truthy, and no other parameter changes |
| RedditSearch.WithCursors | yars/yars.py:37-40 | `params` after setting `after` and `before`, each only when truthy |
| RedditSearch.HitsOfEach | yars/yars.py:54-62 | one record per child, in order |
| RedditSearch.HitOf | yars/yars.py:55-61 | one result record: `data`, `title` and `permalink` mandatory, the link "https://www.reddit.com" + permalink, the description `selftext` (default "") cut to 269 |
| RedditSearch.HitsOf | yars/yars.py:53-62 | the records of the children in order, or the first exception |
| RedditSearch.SearchOutcome | yars/yars.py:42-64 | the result of one search request: a raised request gives UnboundLocalError, an error status [], a body that is not JSON raises, otherwise the records of `data.children` |
| RedditSearch.HitShape | yars/yars.py:55-61 | the link is "https://www.reddit.com" + permalink; a string description is a prefix of selftext of at most 269 characters |
| RedditSearch.HandleSearch | yars/yars.py:36-64 | the request carries the cursored parameters; the result is `SearchOutcome` of the reply |
| RedditSearch.CollectHits | yars/yars.py:53-62 | the loop equals `HitsOf` |
| RedditSearch.SearchReddit | yars/yars.py:65-68 | the site-wide search URL with q/limit/sort=relevance/type=link |
| RedditSearch.SearchSubreddit | yars/yars.py:69-72 | the subreddit search URL with `restrict_sr`, as written (sort is always "relevance") |
| RedditSearch.SearchParams | yars/yars.py:67 | q, limit, sort "relevance", type "link", in that order |
| RedditSearch.SubredditSearchUrl | yars/yars.py:70 | "https://www.reddit.com/r/" + subreddit + "/search.json" |
| RedditSearch.SubredditParams | yars/yars.py:71 | as written: the search parameters and `restrict_sr=on`, the `sort` argument unused |
| RedditSearch.SubredditParamsCorrected | yars/yars.py:69-71 | corrected: the same parameters with the requested sort |
| RedditSearch.SortIgnored | yars/yars.py:69-72 | as written, a call asking for sort "new" still sends "relevance" |
| RedditSearch.SortSent | yars/yars.py:69-72 | the corrected parameters send the requested sort and otherwise agree with the written ones |
| RedditUser.ScrapeUserData | yars/yars.py:129-213 | computes `Feed` as written (the stale response is replayed); at most `max(limit,0)` items |
| RedditUser.ScrapeUserDataCorrected | yars/yars.py:136-149 | computes the corrected `Feed`; at most `max(limit,0)` items; at most one request more than the server answers |
| RedditUser.Feed | yars/yars.py:129-213 | `scrape_user_data` as a function of the server's replies, as written or corrected: the walk from no cursor, no previous response and no items |
| RedditUser.FeedUrl | yars/yars.py:131 | "https://www.reddit.com/user/" + username + "/.json" |
| RedditUser.Walk | yars/yars.py:136-210 | the while loop: stop once `count >= limit`; otherwise one request, then stop, raise or go on at the page's cursor, `count` grown by the children consumed |
| RedditUser.Iteration | yars/yars.py:137-149 | one request: a response is processed; as written a raised request raises UnboundLocalError with no earlier response, ends the loop when the earlier response failed, and otherwise processes the earlier response again; corrected it ends the loop |
| RedditUser.FeedStep | yars/yars.py:150-207 | processing one response: an error status, a body that is not JSON, a missing `data` or `children` and an empty page end the loop; otherwise the page's items, then stop when `after` is falsy |
| RedditUser.PageItems | yars/yars.py:169-203 | the item loop: the first `budget` children in order, each using one unit, records only for t3 and t1 |
| RedditUser.ItemRecord | yars/yars.py:170-200 | `kind` and `data` mandatory; a t3 child gives a post record, a t1 child a comment record with `link_flair_text`, others nothing; other members default, the URL is "https://www.reddit.com" + permalink |
| RedditUser.FeedLoop | yars/yars.py:136-210 | the `while count < limit` loop equals the walk |
| RedditUser.Iterate | yars/yars.py:137-207 | one iteration, including the `except` branch that reads the previous response, equals `Iteration` |
| RedditUser.ReadFeedPage | yars/yars.py:150-207 | parse, missing data/children, empty page, items and cursor, as `FeedStep` |
| RedditUser.CollectItems | yars/yars.py:169-203 | the item loop equals `PageItems`: every item uses one unit of the limit; only t3 and t1 produce records |
| RedditUser.PageItemsBound | yars/yars.py:169-203 | a page yields at most min(children, budget) items |
| RedditUser.FeedStepBound | yars/yars.py:150-207 | a page step consumes at most the budget and yields no more than it consumes |
| RedditUser.WalkBound | yars/yars.py:136-207 | the walk returns at most `limit` items and keeps earlier items as its prefix |
| RedditUser.FeedBound | yars/yars.py:129-213 | the result has at most `max(limit,0)` items |
| RedditUser.CorrectedRequests | yars/yars.py:136-149 | the corrected loop sends at most one request beyond the server's answers |
| RedditUser.BareChildRecord | yars/yars.py:172-184 | a "t3" child with empty data gives a post record of defaults |
| RedditUser.StaleReplayDuplicates | yars/yars.py:137-149 | as written, one answered request and limit 3 return the same post three times; the corrected loop returns it once |
| RedditUser.UnboundResponse | yars/yars.py:137-145 | as written, a first request that raises gives UnboundLocalError; the corrected loop gives [] |
| SheetsModel.HeaderFor | google_sheets_utils.py:58-63 | a known sheet's header contains "Title" |
| SheetsModel.Repaired | google_sheets_utils.py:48-104 | the values after `get_worksheet`: a missing or empty known sheet holds its header; a known sheet whose first row lacks "Title" gets the header in front; others unchanged |
| SheetsModel.RepairedShape | google_sheets_utils.py:48-104 | a known sheet that is missing or empty gets just its header; one whose first row lacks "Title" becomes header + all old rows in order; anything else is unchanged |
| SheetsModel.RepairStable | google_sheets_utils.py:64-87 | rows appended after a repair are kept by the next repair |
| SheetsModel.Values | google_sheets_utils.py:241 | the generic row is the dict's values in order |
| SheetsModel.Field | google_sheets_utils.py:225 | `post_data.get(key, default)` |
| SheetsModel.RowFor | google_sheets_utils.py:222-241 | the five fixed columns of the Reddit sheet, the five of the done sheet with status defaulting to "Completed", or the dict's values |
| SheetsModel.RowsFor | google_sheets_utils.py:298-300 | one row per post, in order |
| SheetsModel.Added | google_sheets_utils.py:215-216 | the rows a batch appends: at most one per post, in order, each post on the Reddit data sheet checked against the sheet including the batch's earlier rows |
| SheetsModel.AddedElsewhere | google_sheets_utils.py:215 | on any sheet but the Reddit data sheet no post is skipped: the rows are `RowsFor` of the posts |
| SheetsModel.DuplicateGrows | google_sheets_utils.py:150-191 | appending rows never turns a duplicate into a non-duplicate |
| SheetsModel.AddedSkipsKnown | google_sheets_utils.py:215-216 | on the Reddit data sheet a post that already duplicates the sheet before the batch adds no row |
| SheetsModel.DoneRecordRow | google_sheets_utils.py:320-328 | the done-article row carries title, author, created_utc, the article and the given status |
| SheetsModel.DoneRecord | google_sheets_utils.py:320-326 | the dict `mark_as_done` builds: title, author, created_utc of the post, the article, the status |
| SheetsModel.IndexOf | google_sheets_utils.py:167-168 | `list.index`: the first position holding the header |
| SheetsModel.TitleAuthor | google_sheets_utils.py:156-168 | the Title and Author columns by name when both headers are present, otherwise columns 0 and 1 |
| SheetsModel.Norm | google_sheets_utils.py:174-184 | `strip().lower()` |
| SheetsModel.Matches | google_sheets_utils.py:182-186 | the row is long enough for both columns and its normalised title and author equal the normalised query |
| SheetsModel.Duplicate | google_sheets_utils.py:150-191 | more than one row, and some data row matches |
| SheetsModel.NormIdempotent | google_sheets_utils.py:174-184 | strip+lower is idempotent |
| SheetsModel.DuplicateNormalized | google_sheets_utils.py:173-186 | duplicate detection depends only on the normalised title and author |
| SheetsModel.FirstStatus | google_sheets_utils.py:387-391 | the first header whose lowercase is "status", or -1 |
| SheetsModel.IsStatus | google_sheets_utils.py:389 | `header.lower() == "status"` |
| SheetsModel.Pending | google_sheets_utils.py:400 | the status cell is missing, empty, or not "completed" in lower case |
| SheetsModel.FirstPending | google_sheets_utils.py:397-402 | the first data row whose status cell is missing, empty or not "completed" (any case); None iff there is none |
| SheetsModel.RecordKeys | google_sheets_utils.py:407-413 | the record's keys are exactly the header names |
| SheetsModel.RecordValue | google_sheets_utils.py:407-413 | the value for a header is the row's cell under its last occurrence, or "" past the row's end |
| SheetsModel.Cell | google_sheets_utils.py:410-413 | the row's cell, or "" past its end |
| SheetsModel.RecordUpTo | google_sheets_utils.py:408-413 | the dict built header by header, a repeated header taking the later cell |
| SheetsModel.FirstUnprocessed | google_sheets_utils.py:380-415 | None for at most one row; the first data row without a status column, otherwise the first pending one; None when there is none or it is empty; otherwise its record |
| SheetsModel.RolesUpTo | google_sheets_utils.py:447-458 | the title/status/article columns found are within the headers and have the right names |
| SheetsModel.IsTitle | google_sheets_utils.py:453 | the lowercase header is "title" |
| SheetsModel.IsArticle | google_sheets_utils.py:457 | the lowercase header is "article", "content" or "article_content" |
| SheetsModel.TitleLast | google_sheets_utils.py:451-454 | the title column is the last "title" header |
| SheetsModel.StatusLast | google_sheets_utils.py:455-456 | the status column is the last "status" header |
| SheetsModel.ArticleLast | google_sheets_utils.py:457-458 | the article column is the last article/content header |
| SheetsModel.TitleRow | google_sheets_utils.py:465-469 | the first data row whose title cell equals the title exactly, or -1 |
| SheetsModel.SetCell | google_sheets_utils.py:477-485 | `update_cell` sets one cell, grows the grid as needed, and leaves every other cell unchanged |
| SheetsModel.MarkedCells | google_sheets_utils.py:460-485 | after marking, the matched row holds the status in the status column and the article in the article column (or in a new "Article_Content" column) |
| SheetsModel.Marked | google_sheets_utils.py:438-488 | None for at most one row, no title column or no data row with that exact title; otherwise the grid after the cell updates |
| SheetsModel.Written | google_sheets_utils.py:475-485 | the status update when there is a status column, then the article into its column, or a new "Article_Content" column after the last header |
| Sheets.SheetsClient.AppendRow | google_sheets_utils.py:244 | the row is appended to that worksheet and no other worksheet changes |
| Sheets.SheetsClient.Clear | google_sheets_utils.py:69 | the worksheet becomes empty |
| Sheets.SheetsClient.UpdateCell | google_sheets_utils.py:477 | the worksheet becomes `SetCell` of it, 1-based |
| Sheets.SheetsClient.GetWorksheet | google_sheets_utils.py:48-104 | the worksheet is created or repaired as `RepairedRows`; an unreachable service raises and nothing changes |
| Sheets.SheetsClient.RepairedRows | google_sheets_utils.py:48-104 | the worksheet's values once `get_worksheet` has run |
| Sheets.SheetsClient.GetRowCount | google_sheets_utils.py:106-128 | max(0, rows - 1) after the repair; 0 on error |
| Sheets.SheetsClient.IsDuplicatePost | google_sheets_utils.py:130-196 | `Duplicate` of the repaired sheet; False on error |
| Sheets.SheetsClient.AddToSheet | google_sheets_utils.py:198-253 | appends exactly one row unless the post is a duplicate on the Reddit data sheet; returns whether it appended |
| Sheets.SheetsClient.BatchAddToSheets | google_sheets_utils.py:281-306 | the sheet becomes its repaired rows followed by `Added`: each post's row in order, a post on the Reddit data sheet skipped when it duplicates the sheet as it stands by then; the count is the number of rows added, at most the number of posts; on another sheet every post is added in order |
| Sheets.SheetsClient.MarkAsDone | google_sheets_utils.py:308-328 | the done-article sheet becomes its repaired rows plus the row of the done dict when `ok`; `ok` fails only when the done sheet is also the Reddit data sheet and the post is a duplicate; with distinct names the row (title, author, created_utc, article, status) is always appended |
| Sheets.SheetsClient.GetFirstUnprocessedPost | google_sheets_utils.py:363-419 | `FirstUnprocessed` of the sheet; None on error |
| Sheets.SheetsClient.MarkPostAsDone | google_sheets_utils.py:421-494 | succeeds iff `Marked` is defined, and the sheet becomes that grid; otherwise nothing changes |
| Sheets.SheetsClient.WriteCells | google_sheets_utils.py:475-485 | the `update_cell` calls produce `Written` |
| Sheets.SheetsClient.ScanDuplicates | google_sheets_utils.py:181-191 | the row loop decides `Duplicate` |
| Sheets.SheetsClient.FindStatus | google_sheets_utils.py:387-391 | the loop finds `FirstStatus` |
| Sheets.SheetsClient.FindPending | google_sheets_utils.py:398-402 | the loop finds `FirstPending` |
| Sheets.SheetsClient.BuildRecord | google_sheets_utils.py:408-413 | the loop builds `RecordUpTo` over all headers |
| Sheets.SheetsClient.ScanRoles | google_sheets_utils.py:447-458 | the loop finds `RolesUpTo` |
| Sheets.SheetsClient.FindTitleRow | google_sheets_utils.py:465-469 | the loop finds `TitleRow` |
| Gemini.MimeTypeListed | gemini.py:524-545 | a listed extension gets its table entry; "application/octet-stream" exactly for unlisted ones |
| Gemini.MimeType | gemini.py:524-545 | `mime_types.get(file_ext, 'application/octet-stream')` over the 18-entry table |
| Gemini.DefaultUnlisted | gemini.py:524-543 | no table entry is the default type |
| Gemini.ExtractImageAsWritten | gemini.py:159-163 | as written: AttributeError iff a part without inline data or MIME type comes before every image part; otherwise the first image part's data, or None |
| Gemini.ImagePart | gemini.py:160 | a part with inline data whose MIME type starts with "image/" |
| Gemini.Raises | gemini.py:160 | a part whose `inline_data` or MIME type is None, on which the test raises AttributeError |
| Gemini.TextBeforeImageRaises | gemini.py:159-163 | a text part followed by an image part raises as written |
| Gemini.ExtractImage | gemini.py:159-163 | corrected: the data of the first part whose MIME type starts with "image/", None iff there is none |
| Gemini.ImageResponse | gemini.py:153-165 | the result of `generate_image` (and of `edit_image`, gemini.py 210-222) as written: a reply whose `parts` is None raises TypeError on iteration; otherwise AttributeError iff a part without inline data or MIME type comes before every image part; otherwise the reply's text and the first image part's data, None only when no part is an image |
| Gemini.ImageResponseCorrected | gemini.py:153-165 | corrected: never raises; the reply's text and the first image part's data, None iff there are no parts or no part is an image |
| Gemini.StrLeTotal | gemini.py:499 | Python's string order is total |
| Gemini.StrLe | gemini.py:499 | Python's `<=` on strings: code point by code point, a proper prefix first |
| Gemini.IdKey | gemini.py:499 | `x.get("id", 0)` as a sort key: integers and booleans as integers, strings, and values no comparison accepts |
| Gemini.KeyLe | gemini.py:499 | the order on sort keys |
| Gemini.StrLeTrans | gemini.py:499 | and transitive |
| Gemini.StrLeAntisym | gemini.py:499 | and antisymmetric |
| Gemini.StrLeRefl | gemini.py:499 | and reflexive |
| Gemini.KeyLeOrder | gemini.py:499 | the order on sort keys is a total order |
| Gemini.InsertPermutation | gemini.py:499 | insertion adds exactly the element |
| Gemini.Insert | gemini.py:499 | an element placed before the first element whose key is not smaller |
| Gemini.SortByKey | gemini.py:499 | insertion sort by key, keeping equal keys in order |
| Gemini.SortResults | gemini.py:499 | `results.sort(key=...)`: a non-dict raises AttributeError, two or more keys that do not compare raise TypeError, otherwise the stable sort by key |
| Gemini.InsertLowerBound | gemini.py:499 | insertion keeps a lower bound |
| Gemini.InsertSorted | gemini.py:499 | insertion keeps a list sorted |
| Gemini.InsertWithKey | gemini.py:499 | the elements with a given key after insertion are the inserted element (when its key is that key) followed by the list's elements with that key, in order: insertion places the element before all elements with an equal key |
| Gemini.SortPermutation | gemini.py:499 | the sort is a permutation |
| Gemini.SortSorted | gemini.py:499 | the sort's result is sorted by id |
| Gemini.SortStable | gemini.py:499 | the sort is stable: elements with equal ids keep their order |
| Gemini.PostsJson | gemini.py:418-424 | one entry per post, in order, with id = index and title/body defaulting to ""; a non-dict post raises AttributeError |
| Gemini.PostJson | gemini.py:420-424 | `{"id": i, "title": post.get("title", ""), "body": post.get("body", "")}` |
| Gemini.Fallback | gemini.py:494-496 | n copies of `{"should_process": False}` |
| Gemini.AnalyzeRedditPostsBatch | gemini.py:390-511 | the method computes `Analysis` |
| Gemini.Analysis | gemini.py:403-511 | no posts give []; a non-dict post or a failed call gives []; a reply that is not a JSON list gives the fallback; a list is sorted, and a failed sort gives [] |
| Gemini.AnalysisFallback | gemini.py:494-505 | an unparsable or non-list reply gives one fallback verdict per post |
| Gemini.AnalysisSorted | gemini.py:499-501 | a list of dicts with comparable ids comes back sorted by id, as a permutation and stably |
| Gemini.AnalysisUnsortable | gemini.py:507-511 | a list the sort cannot order gives [] through the outer handler |
| GeminiText.FirstNewline | gemini.py:481 | `find('\n')` is the first newline |
| GeminiText.CutAtLastFence | gemini.py:486-488 | cutting at `rfind` leaves no fence after the cut |
| GeminiText.UnfencedShape | gemini.py:479-488 | a fenced text keeps the piece after its first newline, up to its last fence |
| GeminiText.Unfenced | gemini.py:479-488 | a text starting with a fence loses everything through its first newline, then everything from its last fence; other text is unchanged |
| GeminiText.UnfencedPlain | gemini.py:479 | a text without a leading fence is unchanged |
| GeminiText.StripFence | gemini.py:479-488 | the step-by-step reassignments compute `Unfenced` |
| GeminiText.KeptSubsequence | gemini.py:619-644 | the kept lines are a subsequence of the input, in order |
| GeminiText.AnyIn | gemini.py:627-637 | some keyword is a substring of the lowercase line |
| GeminiText.FilterStep | gemini.py:623-641 | one line: intro or conclusion heading dropped with skipping on; another heading turns skipping off; kept iff skipping is off |
| GeminiText.Kept | gemini.py:619-642 | the lines the loop keeps, from a given flag |
| GeminiText.OpeningDropped | gemini.py:627-634 | a "#" line with an introduction or conclusion word is dropped and turns skipping on |
| GeminiText.SectionWordsCovered | gemini.py:627-637 | every word of the reset test is one of the skip words |
| GeminiText.HeadingKept | gemini.py:637-641 | any other "#" line turns skipping off and is kept |
| GeminiText.BodyLine | gemini.py:640-641 | a line without "#" is kept iff skipping is off, and leaves the flag unchanged |
| GeminiText.NoHeadingsKept | gemini.py:619-644 | a text with no "#" line is kept whole |
| GeminiText.CleanedWithoutHeadings | gemini.py:609-646 | without headings the result is the unfenced text, stripped |
| GeminiText.SectionStep | gemini.py:623-641 | one iteration of the filter equals `FilterStep` |
| GeminiText.KeepLines | gemini.py:619-642 | the loop equals `Kept` |
| GeminiText.FilterSections | gemini.py:619-646 | split, filter, join, strip |
| GeminiText.CleanedText | gemini.py:606-646 | the reply unfenced, split into lines, filtered, joined and stripped |
| GeminiText.CleanReply | gemini.py:606-652 | after the SDK call: the cleaned reply text, or "" when the call raised |
| GeminiText.GenerateContent | gemini.py:597-603 | the SDK call: a keyword it does not accept gives no reply (TypeError), otherwise the service's reply |
| GeminiText.WebSearchKeywordRejected | gemini.py:597-603 | the call as written passes a keyword (`generation_config`) the SDK does not accept |
| GeminiText.GenerateTextWithWebSearch | gemini.py:546-652 | as written: always "", since the SDK call rejects its keywords with TypeError, which the method catches |
| GeminiText.GenerateTextWithWebSearchCorrected | gemini.py:546-652 | corrected (settings passed as `config`): the cleaned reply text, or "" when the service call raised |
| PuterClient.InitAuthorization | puter/client.py:9-29 | a None or empty key raises ValueError; otherwise the Authorization header is "Bearer " + key |
| PuterClient.Init | puter/client.py:9-29 | a None or empty key raises ValueError("api key is required"); otherwise the client with the drivers URL, the key and the headers |
| PuterClient.Headers | puter/client.py:14-29 | the fixed browser headers with "Authorization": "Bearer " + key |
| PuterClient.NormalizedDict | puter/client.py:38-43 | a message with content but no role becomes exactly a user message with that content; others pass through |
| PuterClient.Normalized | puter/client.py:40-43 | a message with content but no role becomes `{"role": "user", "content": ...}`; any other passes through; the `in` tests and indexing raise as Python does on non-dicts |
| PuterClient.NormalizedIdempotent | puter/client.py:38-43 | normalising twice changes nothing |
| PuterClient.FormatMessages | puter/client.py:38-43 | count and order kept, each message normalised; the error is the first message's error |
| PuterClient.SendRequest | puter/client.py:82-112 | status 200 gives the parsed JSON (a body that is not JSON gives the network-error dict with status 0) or, for an image, the content with the Content-Type or ""; any other status gives `StatusMessage` with that status; a request exception gives "network error: " with status 0, any other exception "unexpected error: " with -1; an image request never returns a JSON body |
| PuterClient.SendRequestFailure | puter/client.py:88-112 | fails iff the request raised, the status is not 200, or the JSON body is invalid; carries the server's status, 0 for request errors, -1 for others |
| PuterClient.StatusMessages | puter/client.py:101-107 | fixed messages for 401/403/429/500, "request failed: " + text otherwise |
| PuterClient.StatusMessage | puter/client.py:101-106 | the fixed message for 401/403/429/500, "request failed: " + text otherwise |
| PuterClient.CreateCompletion | puter/client.py:31-60 | the payload has the fixed interface, driver, test mode and method; the messages are sent normalised; "stream" is present iff streaming |
| PuterClient.CompletionPayloadLookups | puter/client.py:45-58 | the payload built has those members |
| PuterClient.CreateImage | puter/client.py:62-80 | the payload has the fixed interface, test mode and method and the prompt; "model" is present iff the model is truthy |
| PuterClient.ImagePayloadLookups | puter/client.py:66-77 | the payload built has those members |
| PuterApi.KeysOf | puter_api.py:13 | a scalar key is a one-element list |
| PuterApi.ResultOf | puter_api.py:25 | `response['result']`: only a parsed JSON body can hold it |
| PuterApi.Extract | puter_api.py:25-41 | `['result']['message']['content'][0]['text']` for Claude, `['result']['message']['content']` for GPT-4o, a missing member raising |
| PuterApi.Try | puter_api.py:18-29 | one attempt: the call, then the extraction; an exception from either fails it |
| PuterApi.Slot | puter_api.py:17-45 | the attempt at each position: every key with Claude, then every key with GPT-4o |
| PuterApi.AllFailed | puter_api.py:48-50 | `{"error": "All API attempts failed. Last error: " + str(last_error)}` |
| PuterApi.Run | puter_api.py:16-50 | the attempts in schedule order up to the first success, whose value is returned; after all fail, the error dict naming the last failure |
| PuterApi.SlotOrder | puter_api.py:17-45 | every Claude attempt comes before any GPT-4o attempt; no (model, key) pair is tried twice |
| PuterApi.RunFirstSuccess | puter_api.py:17-45 | the first successful attempt decides the result; no later attempt is made |
| PuterApi.RunAllFail | puter_api.py:17-50 | when all fail, 2·n attempts are made and the error names the last failure |
| PuterApi.TryEachKey | puter_api.py:17-29 | one model's loop over the keys, in order, stopping at the first extracted answer |
| PuterApi.Create | puter_api.py:9-50 | at most 2·n attempts, in schedule order; the result is `Run` |
| PuterApi.CreateImage | puter_api.py:55-75 | an empty key raises the client's ValueError; otherwise the payload has the image-generation members, the prompt and no model, the response is the client's reply to that payload, an error reply is passed on with its message and no image data, and an image reply's data is copied |
| GitHubApi.TokensOf | github_api.py:8 | a scalar token is a one-element list |
| GitHubApi.Try | github_api.py:13-27 | one attempt: `response.choices[0].message.content`, an empty choice list raising IndexError |
| GitHubApi.AllFailed | github_api.py:34-36 | `{"error": "All GitHub API attempts failed. Last error: " + str(last_error)}` |
| GitHubApi.Run | github_api.py:11-36 | tokens in order up to the first success, whose content is returned; after all fail, the error dict naming the last failure |
| GitHubApi.RunFirstSuccess | github_api.py:12-27 | the first successful token decides the result; no later token is tried |
| GitHubApi.RunAllFail | github_api.py:28-36 | when all fail, each token is tried once and the error names the last failure |
| GitHubApi.NoTokens | github_api.py:11-36 | with no token the error reads "Last error: None" and no call is made |
| GitHubApi.Create | github_api.py:6-36 | at most one attempt per token, in order; the result is `Run` |
| Drive.ParentsIffFolder | google_drive_utils.py:53-54 | "parents" is set iff a folder id is given, as that one id, and nothing else changes |
| Drive.WithParents | google_drive_utils.py:53-54 | `file_metadata['parents'] = [folder_id]` when the folder id is truthy |
| Drive.Basename | google_drive_utils.py:49 | the base name is the suffix after the last "/" |
| Drive.UploadMetadataFields | google_drive_utils.py:48-54 | the upload's name is the base name; parents iff a folder is given |
| Drive.UploadMetadata | google_drive_utils.py:48-54 | the upload's metadata: the base name, then parents when a folder is given |
| Drive.FolderMetadata | google_drive_utils.py:141-147 | the folder's metadata: name, folder MIME type, then parents when a parent is given |
| Drive.FolderMetadataFields | google_drive_utils.py:141-147 | a folder has its name and the folder MIME type; parents iff a parent is given |
| Drive.UploadImage | google_drive_utils.py:27-73 | a missing file raises FileNotFoundError; the MIME type falls back to "application/octet-stream"; succeeds iff the create and share calls succeed |
| Drive.CreateFolder | google_drive_utils.py:130-154 | sends the folder metadata and returns the API's answer |
| Drive.UploadImagesBatch | google_drive_utils.py:108-128 | the loop computes `Uploaded` |
| Drive.Uploaded | google_drive_utils.py:119-128 | the answers of the successful uploads among the first n, in order |
| Drive.UploadedBound | google_drive_utils.py:119-128 | at most one result per path, each a successful upload |
| Drive.UploadedAll | google_drive_utils.py:119-128 | when all succeed, every result is present, in input order |
| Drive.UploadedPrefix | google_drive_utils.py:119-128 | the results for a prefix of the paths are a prefix of the results |
| Drive.QueryCases | google_drive_utils.py:167-175 | "" without folder and query; the folder clause comes first; the two are joined by " and " |
| Drive.Query | google_drive_utils.py:167-175 | the folder clause "'<id>' in parents" when the id is truthy, the query when truthy, joined by " and " |
| Drive.ListingPages | google_drive_utils.py:177-194 | the result is every page's files, in order, up to the first page without a next token |
| Drive.FilesOf | google_drive_utils.py:188 | `response.get('files', [])` as `extend` iterates it |
| Drive.NextToken | google_drive_utils.py:189 | `response.get('nextPageToken')` |
| Drive.Listing | google_drive_utils.py:177-194 | the pages' files in order, up to the first page without a truthy next token; an error from a page or from running out of pages propagates |
| Drive.TokenSent | google_drive_utils.py:178-189 | the token of each request: none first, then the previous page's token |
| Drive.ListFiles | google_drive_utils.py:156-194 | the loop computes `Listing`; each request carries the query and the previous page's token |
| Drive.PrependTwice | google_drive_utils.py:188 | extending twice equals extending once with the concatenation |
| Drive.FileLinkTypes | google_drive_utils.py:101-106 | "view" gives webViewLink, "download" gives webContentLink ("" when missing), anything else raises ValueError |
| Drive.FileLink | google_drive_utils.py:75-106 | `get_file_link`: errors of the sharing and fetch calls propagate; 'view' gives webViewLink, 'download' webContentLink ('' when missing), anything else raises ValueError |
| Drive.ImageEmbedHtml | google_drive_utils.py:206-233 | an exception from the sharing call propagates and no tag is built; otherwise the tag is `EmbedHtml` |
| Drive.EmbedHtmlShape | google_drive_utils.py:229-233 | the tag has the direct-view source and width, ends with the alt text, and has a height attribute iff the height is truthy |
| Drive.DirectLink | google_drive_utils.py:229 | "https://drive.google.com/uc?export=view&id=" + id |
| Drive.HeightAttr | google_drive_utils.py:232 | ` height="<h>"` for a truthy height, "" otherwise |
| Drive.EmbedHtml | google_drive_utils.py:229-233 | `<img src="<link>" width="<w>"<height_attr> alt="Google Drive Image">` |
| Json.Truthy | yars/yars.py:125 | Python truthiness: None, False, 0, "" and empty containers are false |
| Json.Index | yars/yars.py:270 | `d[key]`: KeyError for a missing key, TypeError on a non-dict |
| Json.At | yars/yars.py:93 | `x[i]` on a list or string (IndexError past the end); KeyError on a dict; TypeError otherwise |
| Json.GetOr | yars/yars.py:290 | `d.get(key, default)`; AttributeError on a non-dict |
| Json.Has | yars/yars.py:278 | `key in x` for a dict, list or string; TypeError otherwise |
| Json.Iter | yars/yars.py:274 | `for x in j`: list elements, dict keys or string characters; TypeError otherwise |
| Json.Assign | yars/yars.py:38 | `d[key] = value`: an existing member keeps its place, a new one goes last |
| Json.PyStr | yars/yars.py:59 | `str(x)` as an f-string shows it |
| Text.StartsWith | gemini.py:479 | `s.startswith(prefix)` |
| Text.Find | gemini.py:481 | `s.find(sub)`: the first occurrence, or -1 |
| Text.RFind | gemini.py:486 | `s.rfind(sub)`: the last occurrence, or -1 |
| Text.Split | gemini.py:619 | `s.split(sep)` for a one-character separator |
| Text.Join | gemini.py:645 | `sep.join(pieces)` |
| Text.JoinSplit | gemini.py:619-645 | joining the pieces of a split gives back the string |
| Text.ContainsFind | gemini.py:627 | `sub in s` holds exactly when `find` finds it |
| Text.Lower | gemini.py:624 | `s.lower()` on ASCII letters |
| Text.Strip | gemini.py:647 | `s.strip()`: Python's whitespace removed at both ends |
| Text.IntToString | google_drive_utils.py:232 | `str(n)` for an integer |
| Py.KeyRepr | puter_api.py:48 | `repr(key)` as a KeyError prints it |
| Py.ErrorText | puter_api.py:48 | `str(e)` of the modelled exceptions |
| Py.LastErrorText | puter_api.py:48 | `str(last_error)`, "None" before any failure |

## Left out

- HTTP transport, retries, proxies, user agents, timeouts: each request is one abstract outcome (a status with a body, or a raised request).
- Sleeps between pages and between batch adds: timing only, no effect on results.
- Logging and `print`: side effects only.
- `datetime.fromtimestamp(...).strftime`: it depends on the host time zone, so it is a parameter `fmt`; only the falsy-to-"" case is fixed.
- RedditCore.ConvertTimestamp: a timestamp that makes the formatter raise is passed on as the formatter's error; the exception types themselves are not modelled.
- Text.Lower: only ASCII letters are folded; Python's Unicode case tables are not modelled. Text.Strip removes Python's full whitespace set.
- `read_from_sheet` (`get_all_records`) and `process_post` (async wrapper over the miner): outside the modelled row logic.
- Sheets.SheetsClient: `get_first_unprocessed_post` and `mark_post_as_done` open a spreadsheet by a second configured id. They are modelled on the same worksheets as the other operations.
- Sheets.SheetsClient: the service either answers every call or none (`reachable`); a failure partway through an operation is not modelled.
- SheetsModel.SetCell: the gspread grid limit of 1000 rows by 20 columns is not modelled; the grid grows as needed.
- File reading, PIL image conversion and temporary files in gemini.py: file system and image library.
- The dynamic import of the posts file in `analyze_reddit_posts_batch`: the posts and the model's reply text are parameters; `json.loads` is the parameter `loads`.
- Gemini.SortResults: `results.sort` sorts in place; it is modelled on values.
- Gemini.SortResults: keys of mixed kinds raise TypeError. Ids that are lists (compared element-wise in Python) are also treated as TypeError, and the TypeError message is not modelled.
- Gemini.ExtractImageAsWritten: the SDK's `Part` always has an `inline_data` attribute, so the `hasattr` test always passes; this is modelled as such.
- `ImageGeneration.create(save_to_file=True)`: writes a file.
- PuterApi.CreateImage: a configured key list passed to the client as `api_key` is not modelled; the key is a string.
- The Puter chat call (`PuterChatCompletion.create` in puter/chat_completion.py, a one-line delegation to the client): modelled as the parameter `call`.
- The OpenAI SDK call of `GitHubCompletion.create`: the parameter `call`.
- Drive.ListFiles: the Drive API is a finite sequence of pages; asking for a page past the end is an API error.
- Drive.UploadImagesBatch: the upload of the i-th path is the parameter `upload(i)`, standing for `upload_image`, whose exception is caught.
- `delete_file` and `example_usage`: a single SDK call with no logic of its own, and a demonstration script. The permission calls of `get_file_link` and `get_image_embed_html` are the input `granted`; what they send is not modelled.
- Json.Num: numbers are integers. Reddit's floating-point `created_utc` and `score`, and any other fractional value, are not representable; the timestamp reaches the formatter `fmt` as an integer.
- RedditListing.Fetch: the listing request's `raw_json=1` and `t` (the `time_filter` argument) parameters are not modelled; they are the same on every request and do not influence which pages are requested or what is collected.
- Py.ErrorText: the text of TypeError, AttributeError, IndexError and JsonDecodeError is a fixed stand-in, not Python's `str(e)` (which depends on the operand types and positions, for example "string indices must be integers"). A KeyError shows the key's `repr`, but backslashes and non-printable characters in the key are not escaped. These texts reach the "Last error: ..." message of PuterApi.Create and GitHubApi.Create and the "network error: ..." message of PuterClient.SendRequest.
- SheetsModel.Values: cell values are strings; `add_to_sheet` and `batch_add_to_sheets` append `post_data` values of any type (None, numbers), which gspread converts itself; that conversion is not modelled.

## Findings

| source | as written | input that shows it | evidently intended | confidence | as-written member | corrected member |
|---|---|---|---|---|---|---|
| yars/yars.py:137-149 | when `session.get` raises after a successful page, the handler reads the previous `response` and processes that page again | limit 3, the server answers one page holding one post and a cursor, then stops answering: the same post is returned three times after three requests | a failed request ends the loop with the items so far | not executed | RedditUser.StaleReplayDuplicates | RedditUser.ScrapeUserDataCorrected |
| yars/yars.py:137-145 | when the first `session.get` raises, the handler reads the unbound `response` and raises UnboundLocalError | limit 1, the server does not answer | return the empty list | not executed | RedditUser.UnboundResponse | RedditUser.ScrapeUserDataCorrected |
| yars/yars.py:69-72 | `search_subreddit` takes `sort` but always sends "relevance" | sort = "new" | send the requested sort | not executed | RedditSearch.SortIgnored | RedditSearch.SortSent |
| gemini.py:159-163 | `hasattr(part, 'inline_data')` always holds, so a part without inline data raises AttributeError before a later image part is reached | a reply with a text part followed by an image part | skip parts without image data | not executed | Gemini.TextBeforeImageRaises | Gemini.ImageResponseCorrected |
| gemini.py:597-603 | `generate_content` is called with `generation_config`, `safety_settings` and `tools`, keywords the google-genai client's `generate_content(model, contents, config)` does not take, so TypeError is raised, caught, and "" returned | any prompt | pass the settings in `config` | medium; not executed; rests on the google-genai signature, which is not part of this model | GeminiText.GenerateTextWithWebSearch | GeminiText.GenerateTextWithWebSearchCorrected |
