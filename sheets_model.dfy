/** The row logic of `GoogleSheetsClient` on worksheet values: header
    repair, duplicate detection, the rows appended for a post, the first
    unprocessed row and its record, and the cells `mark_post_as_done`
    writes. A worksheet's values are its rows of cell strings, as
    `get_all_values` returns them. */
module SheetsModel {
  import opened Py
  import opened Json
  import Text

  type Row = seq<string>
  type Grid = seq<Row>

  /** A post as the callers pass it: a dict with string values. */
  type Record = seq<(string, string)>

  const RedditHeader: Row := ["Title", "Author", "CreatedUTC", "Body", "LinkFlairText"]
  const DoneHeader: Row := ["Title", "Author", "CreatedUTC", "ArticleContent", "Status"]

  /** The header row of the two known worksheets; other worksheets have none. */
  function HeaderFor(name: string, redditData: string, doneArticle: string): (r: Option<Row>)
    ensures r.Some? ==> "Title" in r.value
  {
    if name == redditData then Some(RedditHeader)
    else if name == doneArticle then Some(DoneHeader)
    else None
  }

  /** The values of a worksheet after `get_worksheet`: a missing or empty
      known worksheet gets its header row; a known worksheet whose first
      row lacks "Title" gets the header row in front of all its rows; any
      other worksheet is left as it is (a missing one is created empty). */
  function Repaired(header: Option<Row>, existing: Option<Grid>): Grid {
    if existing.None? || existing.value == [] then
      (if header.Some? then [header.value] else [])
    else if header.Some? && "Title" !in existing.value[0] then [header.value] + existing.value
    else existing.value
  }

  /** For a known worksheet the first row afterwards names a "Title"
      column, and the rows that were there stay, in order, at the end. */
  lemma RepairedShape(header: Option<Row>, existing: Option<Grid>)
    requires header.Some? ==> "Title" in header.value
    ensures var r := Repaired(header, existing);
      (header.Some? ==> r != [] && "Title" in r[0])
      && (existing.Some? ==> |existing.value| <= |r| && r[|r| - |existing.value|..] == existing.value)
      && (header.None? ==> r == if existing.Some? then existing.value else [])
  {
    var r := Repaired(header, existing);
    if existing.Some? && existing.value == [] {
      assert r[|r|..] == [];
    }
  }

  /** Repairing a repaired worksheet, with rows appended since, changes
      nothing. */
  lemma RepairStable(header: Option<Row>, existing: Option<Grid>, appended: Grid)
    requires header.Some? ==> "Title" in header.value
    ensures Repaired(header, Some(Repaired(header, existing) + appended)) == Repaired(header, existing) + appended
  {
    RepairedShape(header, existing);
    var r := Repaired(header, existing);
    if r != [] {
      assert (r + appended)[0] == r[0];
    }
  }

  /** Updating one worksheet twice keeps the second values. */
  lemma UpdateTwice(m: map<string, Grid>, name: string, first: Grid, second: Grid)
    ensures m[name := first][name := second] == m[name := second]
  {
  }

  /** `post_data.get(key, default)`. */
  function Field(post: Record, key: string, default: string): string {
    match Lookup(post, key)
    case Some(v) => v
    case None => default
  }

  /** `list(post_data.values())`. */
  function Values(post: Record): (r: Row)
    ensures |r| == |post| && forall i :: 0 <= i < |post| ==> r[i] == post[i].1
  {
    seq(|post|, i requires 0 <= i < |post| => post[i].1)
  }

  /** The row `add_to_sheet` appends: the fixed five columns of a known
      worksheet (status defaulting to "Completed"), or the post's values
      for any other worksheet. */
  function RowFor(name: string, redditData: string, doneArticle: string, post: Record): Row {
    if name == redditData then
      [Field(post, "title", ""), Field(post, "author", ""), Field(post, "created_utc", ""),
       Field(post, "body", ""), Field(post, "link_flair_text", "")]
    else if name == doneArticle then
      [Field(post, "title", ""), Field(post, "author", ""), Field(post, "created_utc", ""),
       Field(post, "article_content", ""), Field(post, "status", "Completed")]
    else Values(post)
  }

  /** The rows appended for `posts`, in order, when none is skipped. */
  function RowsFor(name: string, redditData: string, doneArticle: string, posts: seq<Record>): (r: Grid)
    ensures |r| == |posts| && forall i :: 0 <= i < |posts| ==> r[i] == RowFor(name, redditData, doneArticle, posts[i])
  {
    seq(|posts|, i requires 0 <= i < |posts| => RowFor(name, redditData, doneArticle, posts[i]))
  }

  /** The rows `batch_add_to_sheets` appends to a worksheet holding `base`:
      the posts in order, each one unless, on the Reddit data worksheet, it
      duplicates the worksheet as it stands by then, rows added earlier in
      the same batch included. */
  function Added(name: string, redditData: string, doneArticle: string, base: Grid, posts: seq<Record>): (r: Grid)
    ensures |r| <= |posts|
    decreases |posts|
  {
    if posts == [] then []
    else
      var prev := Added(name, redditData, doneArticle, base, posts[..|posts| - 1]);
      var post := posts[|posts| - 1];
      if name == redditData && Duplicate(base + prev, Field(post, "title", ""), Field(post, "author", "")) then prev
      else prev + [RowFor(name, redditData, doneArticle, post)]
  }

  /** Away from the Reddit data worksheet nothing is skipped. */
  lemma {:induction false} AddedElsewhere(name: string, redditData: string, doneArticle: string, base: Grid, posts: seq<Record>)
    requires name != redditData
    ensures Added(name, redditData, doneArticle, base, posts) == RowsFor(name, redditData, doneArticle, posts)
    decreases |posts|
  {
    if posts != [] {
      var init := posts[..|posts| - 1];
      AddedElsewhere(name, redditData, doneArticle, base, init);
      assert RowsFor(name, redditData, doneArticle, posts)
        == RowsFor(name, redditData, doneArticle, init) + [RowFor(name, redditData, doneArticle, posts[|posts| - 1])];
    }
  }

  /** Appending rows never removes a duplicate. */
  lemma DuplicateGrows(rows: Grid, extra: Grid, title: string, author: string)
    requires Duplicate(rows, title, author)
    ensures Duplicate(rows + extra, title, author)
  {
    var i :| 1 <= i < |rows| && Matches(rows[i], TitleAuthor(rows[0]), title, author);
    assert (rows + extra)[0] == rows[0] && (rows + extra)[i] == rows[i];
  }

  /** On the Reddit data worksheet a post already on the worksheet before
      the batch is never appended. */
  lemma AddedSkipsKnown(redditData: string, doneArticle: string, base: Grid, posts: seq<Record>, i: nat)
    requires i < |posts|
    requires Duplicate(base, Field(posts[i], "title", ""), Field(posts[i], "author", ""))
    ensures Added(redditData, redditData, doneArticle, base, posts[..i + 1])
         == Added(redditData, redditData, doneArticle, base, posts[..i])
  {
    var prefix := posts[..i + 1];
    assert prefix[..|prefix| - 1] == posts[..i] && prefix[|prefix| - 1] == posts[i];
    DuplicateGrows(base, Added(redditData, redditData, doneArticle, base, posts[..i]),
      Field(posts[i], "title", ""), Field(posts[i], "author", ""));
  }

  /** The dict `mark_as_done` hands to `add_to_sheet`. */
  function DoneRecord(post: Record, article: string, status: string): Record {
    [("title", Field(post, "title", "")), ("author", Field(post, "author", "")),
     ("created_utc", Field(post, "created_utc", "")), ("article_content", article), ("status", status)]
  }

  /** The done-article row built from that dict carries the post's title,
      author and creation time, the article and the given status. */
  lemma DoneRecordRow(post: Record, article: string, status: string)
    ensures var rec := DoneRecord(post, article, status);
      [Field(rec, "title", ""), Field(rec, "author", ""), Field(rec, "created_utc", ""),
       Field(rec, "article_content", ""), Field(rec, "status", "Completed")]
      == [Field(post, "title", ""), Field(post, "author", ""), Field(post, "created_utc", ""), article, status]
  {
    var rec := DoneRecord(post, article, status);
    assert "title"[0] != "author"[0] && "title"[0] != "created_utc"[0] && "title"[0] != "article_content"[0] && "title"[0] != "status"[0];
    assert "author"[0] != "created_utc"[0] && "author"[1] != "article_content"[1] && "author"[0] != "status"[0];
    assert "created_utc"[0] != "article_content"[0] && "created_utc"[0] != "status"[0];
    assert "article_content"[0] != "status"[0];
    assert rec[1..][1..][1..][1..] == [("status", status)];
    assert Lookup(rec, "author") == Lookup(rec[1..], "author");
    assert Lookup(rec, "created_utc") == Lookup(rec[1..], "created_utc") == Lookup(rec[1..][1..], "created_utc");
    assert Lookup(rec, "article_content") == Lookup(rec[1..], "article_content") == Lookup(rec[1..][1..], "article_content")
      == Lookup(rec[1..][1..][1..], "article_content");
    assert Lookup(rec, "status") == Lookup(rec[1..], "status") == Lookup(rec[1..][1..], "status")
      == Lookup(rec[1..][1..][1..], "status") == Lookup(rec[1..][1..][1..][1..], "status");
  }

  /** `s.strip().lower()`. */
  function Norm(s: string): string {
    Text.Lower(Text.Strip(s))
  }

  /** `headers.index(h)` for a header that is present. */
  function IndexOf(headers: Row, h: string): (r: nat)
    requires h in headers
    ensures r < |headers| && headers[r] == h && forall j :: 0 <= j < r ==> headers[j] != h
  {
    if headers[0] == h then 0 else 1 + IndexOf(headers[1..], h)
  }

  /** The title and author columns: by header name when both are
      present, otherwise the first two columns. */
  function TitleAuthor(headers: Row): (nat, nat) {
    if "Title" in headers && "Author" in headers then (IndexOf(headers, "Title"), IndexOf(headers, "Author"))
    else (0, 1)
  }

  /** A data row long enough for both columns whose normalised title and
      author equal the normalised query. */
  predicate Matches(row: Row, cols: (nat, nat), title: string, author: string) {
    |row| > cols.0 && |row| > cols.1 && Norm(row[cols.0]) == Norm(title) && Norm(row[cols.1]) == Norm(author)
  }

  /** `is_duplicate_post` on the worksheet's values. */
  predicate Duplicate(rows: Grid, title: string, author: string) {
    |rows| > 1 && exists i :: 1 <= i < |rows| && Matches(rows[i], TitleAuthor(rows[0]), title, author)
  }

  lemma {:induction false} LowerIdempotent(s: string)
    ensures Text.Lower(Text.Lower(s)) == Text.Lower(s)
  {
    var l := Text.Lower(s);
    assert forall i :: 0 <= i < |l| ==> Text.LowerChar(l[i]) == l[i];
  }

  lemma TrimLeftNoop(s: string)
    requires s == [] || !Text.IsSpace(s[0])
    ensures Text.TrimLeft(s) == s
  {
  }

  lemma TrimRightNoop(s: string)
    requires s == [] || !Text.IsSpace(s[|s| - 1])
    ensures Text.TrimRight(s) == s
  {
  }

  /** A normalised string is its own normal form. */
  lemma NormIdempotent(s: string)
    ensures Norm(Norm(s)) == Norm(s)
  {
    var left := Text.TrimLeft(s);
    var stripped := Text.TrimRight(left);
    var n := Text.Lower(stripped);
    if n != [] {
      assert !Text.IsSpace(stripped[0]) && !Text.IsSpace(stripped[|stripped| - 1]);
      assert !Text.IsSpace(n[0]) && !Text.IsSpace(n[|n| - 1]);
    }
    TrimLeftNoop(n);
    TrimRightNoop(n);
    LowerIdempotent(stripped);
  }

  /** Duplicate detection ignores case and surrounding whitespace of the
      queried title and author. */
  lemma DuplicateNormalized(rows: Grid, title: string, author: string)
    ensures Duplicate(rows, title, author) == Duplicate(rows, Norm(title), Norm(author))
  {
    NormIdempotent(title);
    NormIdempotent(author);
  }

  /** `header.lower() == "status"`. */
  predicate IsStatus(h: string) {
    Text.Lower(h) == "status"
  }

  /** The first "status" column at or after `k`, or -1. */
  function FirstStatus(headers: Row, k: nat): (r: int)
    requires k <= |headers|
    ensures r == -1 || k <= r < |headers|
    ensures r >= 0 ==> IsStatus(headers[r])
    ensures forall j :: k <= j < |headers| && (r == -1 || j < r) ==> !IsStatus(headers[j])
    decreases |headers| - k
  {
    if k == |headers| then -1
    else if IsStatus(headers[k]) then k
    else FirstStatus(headers, k + 1)
  }

  /** A row counts as unprocessed when its status cell is missing, empty
      or not "completed" in any case. */
  predicate Pending(row: Row, status: nat) {
    status >= |row| || row[status] == "" || Text.Lower(row[status]) != "completed"
  }

  /** The first pending row at or after index `k`. */
  function FirstPending(rows: Grid, status: nat, k: nat): (r: Option<Row>)
    requires k <= |rows|
    ensures r.Some? ==> exists i :: k <= i < |rows| && rows[i] == r.value && Pending(rows[i], status)
    ensures r.None? ==> forall i :: k <= i < |rows| ==> !Pending(rows[i], status)
    decreases |rows| - k
  {
    if k == |rows| then None
    else if Pending(rows[k], status) then Some(rows[k])
    else FirstPending(rows, status, k + 1)
  }

  /** `row[i]` when the row has that cell, "" otherwise. */
  function Cell(row: Row, i: nat): string {
    if i < |row| then row[i] else ""
  }

  /** The dict built from the first `n` headers and the row's cells. */
  function RecordUpTo(headers: Row, row: Row, n: nat): Record
    requires n <= |headers|
  {
    if n == 0 then [] else Assign(RecordUpTo(headers, row, n - 1), headers[n - 1], Cell(row, n - 1))
  }

  /** The record has exactly the header names as keys. */
  lemma {:induction false} RecordKeys(headers: Row, row: Row, n: nat, key: string)
    requires n <= |headers|
    ensures Lookup(RecordUpTo(headers, row, n), key).Some? <==> key in headers[..n]
  {
    if n > 0 {
      RecordKeys(headers, row, n - 1, key);
      assert headers[..n] == headers[..n - 1] + [headers[n - 1]];
    }
  }

  /** A header name maps to the cell under its last occurrence, "" past
      the end of the row. */
  lemma {:induction false} RecordValue(headers: Row, row: Row, n: nat, i: nat)
    requires i < n <= |headers|
    requires forall j :: i < j < n ==> headers[j] != headers[i]
    ensures Lookup(RecordUpTo(headers, row, n), headers[i]) == Some(Cell(row, i))
  {
    if i < n - 1 {
      RecordValue(headers, row, n - 1, i);
    }
  }

  /** `get_first_unprocessed_post` on the worksheet's values: the first
      data row when there is no status column, otherwise the first
      pending data row; None when there is no data row, no such row, or
      the row found is empty. */
  function FirstUnprocessed(rows: Grid): Option<Record> {
    if |rows| <= 1 then None
    else
      var status := FirstStatus(rows[0], 0);
      var row := if status == -1 then Some(rows[1]) else FirstPending(rows, status, 1);
      if row.None? || row.value == [] then None
      else Some(RecordUpTo(rows[0], row.value, |rows[0]|))
  }

  /** The columns `mark_post_as_done` uses, each the last header of its
      kind (-1 when absent). */
  datatype Roles = Roles(title: int, status: int, article: int)

  predicate IsTitle(h: string) {
    Text.Lower(h) == "title"
  }

  predicate IsArticle(h: string) {
    var l := Text.Lower(h);
    l == "article" || l == "content" || l == "article_content"
  }

  /** The roles found among the first `n` headers. */
  function RolesUpTo(headers: Row, n: nat): (r: Roles)
    requires n <= |headers|
    ensures -1 <= r.title < n && -1 <= r.status < n && -1 <= r.article < n
    ensures r.title >= 0 ==> IsTitle(headers[r.title])
    ensures r.status >= 0 ==> IsStatus(headers[r.status])
    ensures r.article >= 0 ==> IsArticle(headers[r.article]) && !IsTitle(headers[r.article]) && !IsStatus(headers[r.article])
  {
    if n == 0 then Roles(-1, -1, -1)
    else
      var r := RolesUpTo(headers, n - 1);
      var h := headers[n - 1];
      if IsTitle(h) then r.(title := n - 1)
      else if IsStatus(h) then r.(status := n - 1)
      else if IsArticle(h) then r.(article := n - 1)
      else r
  }

  /** The title column is the last header that reads "title". */
  lemma {:induction false} TitleLast(headers: Row, n: nat)
    requires n <= |headers|
    ensures forall j :: RolesUpTo(headers, n).title < j < n ==> !IsTitle(headers[j])
  {
    if n > 0 {
      TitleLast(headers, n - 1);
    }
  }

  /** The status column is the last header that reads "status" (a header
      that also reads "title" is taken as the title). */
  lemma {:induction false} StatusLast(headers: Row, n: nat)
    requires n <= |headers|
    ensures forall j :: RolesUpTo(headers, n).status < j < n ==> !IsStatus(headers[j]) || IsTitle(headers[j])
  {
    if n > 0 {
      StatusLast(headers, n - 1);
    }
  }

  /** The article column is the last header that names the article, among
      those that are neither the title nor a status. */
  lemma {:induction false} ArticleLast(headers: Row, n: nat)
    requires n <= |headers|
    ensures forall j :: RolesUpTo(headers, n).article < j < n ==> !IsArticle(headers[j]) || IsTitle(headers[j]) || IsStatus(headers[j])
  {
    if n > 0 {
      ArticleLast(headers, n - 1);
    }
  }

  /** The first data row whose title cell equals `title` exactly, or -1. */
  function TitleRow(rows: Grid, col: nat, title: string, k: nat): (r: int)
    requires 1 <= k <= |rows|
    ensures r == -1 || k <= r < |rows|
    ensures r >= 0 ==> col < |rows[r]| && rows[r][col] == title
    ensures forall i :: k <= i < |rows| && (r == -1 || i < r) ==> !(col < |rows[i]| && rows[i][col] == title)
    decreases |rows| - k
  {
    if k == |rows| then -1
    else if col < |rows[k]| && rows[k][col] == title then k
    else TitleRow(rows, col, title, k + 1)
  }

  /** `update_cell` at the 0-based row `r` and column `c`: the grid grows
      with empty rows and cells as needed. */
  function SetCell(grid: Grid, r: nat, c: nat, v: string): (g: Grid)
    ensures |g| == if r < |grid| then |grid| else r + 1
    ensures c < |g[r]| && g[r][c] == v
    ensures forall i, j :: 0 <= i < |grid| && 0 <= j < |grid[i]| && (i != r || j != c) ==> j < |g[i]| && g[i][j] == grid[i][j]
  {
    var rows := if r < |grid| then grid else grid + seq(r + 1 - |grid|, _ => []);
    var row := if c < |rows[r]| then rows[r] else rows[r] + seq(c + 1 - |rows[r]|, _ => "");
    rows[r := row[c := v]]
  }

  /** The worksheet after `mark_post_as_done`, or None when it returns
      False: status into the status column, the article into the article
      column, or into a new column headed "Article_Content" after the
      last header. */
  function Marked(rows: Grid, title: string, article: string, status: string): Option<Grid> {
    if |rows| <= 1 then None
    else
      var roles := RolesUpTo(rows[0], |rows[0]|);
      if roles.title == -1 then None
      else
        var r := TitleRow(rows, roles.title, title, 1);
        if r == -1 then None
        else Some(Written(rows, roles, r, article, status))
  }

  /** The cell updates of `mark_post_as_done` in data row `r`. */
  function Written(rows: Grid, roles: Roles, r: nat, article: string, status: string): Grid
    requires rows != [] && roles.status >= -1 && roles.article >= -1
  {
    var g := if roles.status != -1 then SetCell(rows, r, roles.status, status) else rows;
    if roles.article != -1 then SetCell(g, r, roles.article, article)
    else SetCell(SetCell(g, 0, |rows[0]|, "Article_Content"), r, |rows[0]|, article)
  }

  /** What a successful `mark_post_as_done` leaves in the row of the
      first post with that exact title: the status in the status column,
      the article in the article column (a new one when there was none,
      headed "Article_Content"), and the row's title unchanged. */
  lemma MarkedCells(rows: Grid, title: string, article: string, status: string)
    requires Marked(rows, title, article, status).Some?
    ensures var g := Marked(rows, title, article, status).value;
      var roles := RolesUpTo(rows[0], |rows[0]|);
      var r := TitleRow(rows, roles.title, title, 1);
      var col := if roles.article != -1 then roles.article else |rows[0]|;
      |g| == |rows| && 1 <= r < |rows|
      && rows[r][roles.title] == title && g[r][roles.title] == title
      && col < |g[r]| && g[r][col] == article
      && (roles.status != -1 ==> g[r][roles.status] == status)
      && (roles.article == -1 ==> |rows[0]| < |g[0]| && g[0][|rows[0]|] == "Article_Content")
  {
    var g := Marked(rows, title, article, status).value;
    var roles := RolesUpTo(rows[0], |rows[0]|);
    assert roles.title != roles.status && roles.title != roles.article;
    assert roles.status != -1 && roles.article != -1 ==> roles.status != roles.article;
  }
}
