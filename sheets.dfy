/** `GoogleSheetsClient`: the worksheets of one spreadsheet, read and
    updated through the gspread calls `append_row`, `clear` and
    `update_cell`. Every public operation catches the service's
    exceptions and answers with a fallback value instead. */
module Sheets {
  import opened Py
  import opened Json
  import opened SheetsModel

  class SheetsClient {
    /** The worksheets of the spreadsheet, by title, as `get_all_values`
        returns them. */
    var sheets: map<string, Grid>
    /** Whether the service answers at all; when it does not, every call
        into it raises and each operation takes its exception path. */
    const reachable: bool
    /** The titles configured as `REDDIT_DATA` and `DONE_ARTICLE`. */
    const redditData: string
    const doneArticle: string

    constructor (sheets: map<string, Grid>, reachable: bool, redditData: string, doneArticle: string)
      ensures this.sheets == sheets && this.reachable == reachable
      ensures this.redditData == redditData && this.doneArticle == doneArticle
    {
      this.sheets := sheets;
      this.reachable := reachable;
      this.redditData := redditData;
      this.doneArticle := doneArticle;
    }

    function Rows(name: string): Option<Grid>
      reads this
    {
      if name in sheets then Some(sheets[name]) else None
    }

    function Header(name: string): (r: Option<Row>)
      ensures r.Some? ==> "Title" in r.value
    {
      HeaderFor(name, redditData, doneArticle)
    }

    /** The values of worksheet `name` once `get_worksheet` has run. */
    function RepairedRows(name: string): Grid
      reads this
    {
      Repaired(Header(name), Rows(name))
    }

    /** `worksheet.append_row(row)`. */
    method AppendRow(name: string, row: Row)
      requires name in sheets
      modifies this
      ensures sheets == old(sheets)[name := old(sheets[name]) + [row]]
    {
      sheets := sheets[name := sheets[name] + [row]];
    }

    /** `worksheet.clear()`. */
    method Clear(name: string)
      requires name in sheets
      modifies this
      ensures sheets == old(sheets)[name := []]
    {
      sheets := sheets[name := []];
    }

    /** `worksheet.update_cell(row, col, value)`, 1-based. */
    method UpdateCell(name: string, row: nat, col: nat, value: string)
      requires name in sheets && row >= 1 && col >= 1
      modifies this
      ensures sheets == old(sheets)[name := SetCell(old(sheets[name]), row - 1, col - 1, value)]
    {
      sheets := sheets[name := SetCell(sheets[name], row - 1, col - 1, value)];
    }

    /** `get_worksheet(name)`: creates a missing worksheet and gives a
        known worksheet its header row, re-appending the rows it had when
        the first of them lacked "Title". */
    method GetWorksheet(name: string) returns (r: Result<Grid>)
      modifies this
      ensures !reachable ==> r.Err? && sheets == old(sheets)
      ensures reachable ==> sheets == old(sheets)[name := old(RepairedRows(name))] && r == Ok(sheets[name])
    {
      if !reachable {
        return Err(Sdk("service unavailable"));
      }
      var header := Header(name);
      ghost var target := RepairedRows(name);
      if name !in sheets {
        sheets := sheets[name := []];
        if header.Some? {
          AppendRow(name, header.value);
        }
      } else {
        var all := sheets[name];
        if all == [] {
          if header.Some? {
            AppendRow(name, header.value);
          }
        } else if header.Some? && "Title" !in all[0] {
          Clear(name);
          AppendRow(name, header.value);
          assert target == [header.value] + all;
          var k := 0;
          assert [] + [header.value] == [header.value] + all[..k];
          while k < |all|
            invariant 0 <= k <= |all|
            invariant sheets == old(sheets)[name := [header.value] + all[..k]]
          {
            AppendRow(name, all[k]);
            assert ([header.value] + all[..k]) + [all[k]] == [header.value] + all[..k + 1];
            k := k + 1;
          }
          assert all[..k] == all;
        }
      }
      assert sheets[name] == target;
      r := Ok(sheets[name]);
    }

    /** `get_row_count(name)`: the rows below the header, 0 on failure. */
    method GetRowCount(name: string) returns (n: nat)
      modifies this
      ensures !reachable ==> n == 0 && sheets == old(sheets)
      ensures reachable ==>
        sheets == old(sheets)[name := old(RepairedRows(name))]
        && n == if |sheets[name]| > 0 then |sheets[name]| - 1 else 0
    {
      var w := GetWorksheet(name);
      if w.Err? {
        return 0;
      }
      n := if |w.value| > 0 then |w.value| - 1 else 0;
    }

    /** `is_duplicate_post(title, author, name)`. */
    method IsDuplicatePost(title: string, author: string, name: string) returns (b: bool)
      modifies this
      ensures !reachable ==> !b && sheets == old(sheets)
      ensures reachable ==>
        sheets == old(sheets)[name := old(RepairedRows(name))] && b == Duplicate(sheets[name], title, author)
    {
      var w := GetWorksheet(name);
      if w.Err? {
        return false;
      }
      b := ScanDuplicates(w.value, title, author);
    }

    /** `add_to_sheet(post, name, skipDuplicateCheck)`: one row for the
        post unless it is a duplicate on the Reddit data worksheet. */
    method AddToSheet(post: Record, name: string, skipDuplicateCheck: bool) returns (ok: bool)
      modifies this
      ensures !reachable ==> !ok && sheets == old(sheets)
      ensures reachable ==>
        sheets == old(sheets)[name := old(RepairedRows(name)) + if ok then [RowFor(name, redditData, doneArticle, post)] else []]
      ensures reachable ==>
        (ok <==> !(name == redditData && !skipDuplicateCheck
                   && Duplicate(old(RepairedRows(name)), Field(post, "title", ""), Field(post, "author", ""))))
    {
      if name == redditData && !skipDuplicateCheck {
        var dup := IsDuplicatePost(Field(post, "title", ""), Field(post, "author", ""), redditData);
        if dup {
          assert old(RepairedRows(name)) + [] == old(RepairedRows(name));
          return false;
        }
        RepairStable(Header(name), old(Rows(name)), []);
        assert old(RepairedRows(name)) + [] == old(RepairedRows(name));
      }
      var w := GetWorksheet(name);
      if w.Err? {
        return false;
      }
      AppendRow(name, RowFor(name, redditData, doneArticle, post));
      return true;
    }

    /** `batch_add_to_sheets(posts, name)`: adds the posts one by one and
        counts the ones added; on the Reddit data worksheet each post is
        checked against the rows the batch has added so far. */
    method BatchAddToSheets(posts: seq<Record>, name: string) returns (count: nat)
      modifies this
      ensures count <= |posts|
      ensures !reachable || posts == [] ==> count == 0 && sheets == old(sheets)
      ensures reachable && posts != [] ==>
        var base := old(RepairedRows(name));
        name in sheets && sheets == old(sheets)[name := sheets[name]]
        && |sheets[name]| == |base| + count && sheets[name][..|base|] == base
      ensures reachable && posts != [] ==>
        var added := Added(name, redditData, doneArticle, old(RepairedRows(name)), posts);
        sheets[name] == old(RepairedRows(name)) + added && count == |added|
      ensures reachable && name != redditData ==>
        count == |posts|
        && (posts != [] ==> sheets[name] == old(RepairedRows(name)) + RowsFor(name, redditData, doneArticle, posts))
    {
      count := 0;
      ghost var s0 := sheets;
      ghost var r0 := Rows(name);
      ghost var base := RepairedRows(name);
      ghost var appended: Grid := [];
      var k := 0;
      while k < |posts|
        invariant 0 <= k <= |posts| && count <= k
        invariant !reachable || k == 0 ==> count == 0 && sheets == s0 && appended == []
        invariant reachable && k > 0 ==> sheets == s0[name := base + appended] && |appended| == count
        invariant reachable ==> appended == Added(name, redditData, doneArticle, base, posts[..k])
      {
        if reachable && k > 0 {
          RepairStable(Header(name), r0, appended);
          assert Rows(name) == Some(base + appended);
        }
        assert reachable ==> RepairedRows(name) == base + appended;
        ghost var before := sheets;
        ghost var prev := appended;
        var row := RowFor(name, redditData, doneArticle, posts[k]);
        var added := AddToSheet(posts[k], name, false);
        ghost var next := base + appended + if added then [row] else [];
        if reachable {
          assert sheets == before[name := next];
        }
        if added {
          appended := appended + [row];
          count := count + 1;
        }
        if reachable {
          assert next == base + appended;
          if k > 0 {
            UpdateTwice(s0, name, base + prev, next);
          }
        }
        if reachable {
          assert posts[..k + 1][..k] == posts[..k] && posts[..k + 1][k] == posts[k];
        }
        k := k + 1;
      }
      if reachable && posts != [] {
        assert (base + appended)[..|base|] == base;
        assert posts[..k] == posts;
        if name != redditData {
          AddedElsewhere(name, redditData, doneArticle, base, posts);
        }
      }
    }

    /** `mark_as_done(post, article, status)`: one row on the done-article
        worksheet. */
    method MarkAsDone(post: Record, article: string, status: string) returns (ok: bool)
      modifies this
      ensures !reachable ==> !ok && sheets == old(sheets)
      ensures reachable ==>
        sheets == old(sheets)[doneArticle := old(RepairedRows(doneArticle))
          + if ok then [RowFor(doneArticle, redditData, doneArticle, DoneRecord(post, article, status))] else []]
      ensures reachable ==>
        (ok <==> !(doneArticle == redditData
                   && Duplicate(old(RepairedRows(doneArticle)), Field(post, "title", ""), Field(post, "author", ""))))
      ensures reachable && doneArticle != redditData ==>
        ok && sheets == old(sheets)[doneArticle := old(RepairedRows(doneArticle))
          + [[Field(post, "title", ""), Field(post, "author", ""), Field(post, "created_utc", ""), article, status]]]
    {
      DoneRecordRow(post, article, status);
      ok := AddToSheet(DoneRecord(post, article, status), doneArticle, false);
    }

    /** `get_first_unprocessed_post(name)`. */
    method GetFirstUnprocessedPost(name: string) returns (r: Option<Record>)
      ensures r == if reachable && name in sheets then FirstUnprocessed(sheets[name]) else None
    {
      if !reachable || name !in sheets {
        return None;
      }
      var values := sheets[name];
      if |values| <= 1 {
        return None;
      }
      var headers := values[0];
      var status := FindStatus(headers);
      var row: Option<Row>;
      if status == -1 {
        row := Some(values[1]);
      } else {
        row := FindPending(values, status);
      }
      if row.None? || row.value == [] {
        return None;
      }
      var post := BuildRecord(headers, row.value);
      return Some(post);
    }

    /** `mark_post_as_done(title, article, status)` on the Reddit data
        worksheet. */
    method MarkPostAsDone(title: string, article: string, status: string) returns (ok: bool)
      modifies this
      ensures var m := if reachable && redditData in old(sheets) then Marked(old(sheets[redditData]), title, article, status) else None;
        ok == m.Some? && sheets == if ok then old(sheets)[redditData := m.value] else old(sheets)
    {
      if !reachable || redditData !in sheets {
        return false;
      }
      var values := sheets[redditData];
      if |values| <= 1 {
        return false;
      }
      var headers := values[0];
      var roles := ScanRoles(headers);
      var ti := roles.title;
      if ti == -1 {
        assert Marked(values, title, article, status).None?;
        return false;
      }
      var r := FindTitleRow(values, ti, title);
      if r == -1 {
        assert Marked(values, title, article, status).None?;
        return false;
      }
      assert Marked(values, title, article, status) == Some(Written(values, roles, r, article, status));
      WriteCells(r, roles, article, status);
      return true;
    }

    /** The `update_cell` calls of `mark_post_as_done` for data row `r`. */
    method WriteCells(r: nat, roles: Roles, article: string, status: string)
      requires redditData in sheets && sheets[redditData] != [] && roles.status >= -1 && roles.article >= -1
      modifies this
      ensures sheets == old(sheets)[redditData := Written(old(sheets[redditData]), roles, r, article, status)]
    {
      ghost var s0 := sheets;
      ghost var g := sheets[redditData];
      var width := |sheets[redditData][0]|;
      assert sheets == s0[redditData := g];
      if roles.status != -1 {
        UpdateCell(redditData, r + 1, roles.status + 1, status);
        UpdateTwice(s0, redditData, g, SetCell(g, r, roles.status, status));
        g := SetCell(g, r, roles.status, status);
      }
      if roles.article != -1 {
        UpdateCell(redditData, r + 1, roles.article + 1, article);
        UpdateTwice(s0, redditData, g, SetCell(g, r, roles.article, article));
        g := SetCell(g, r, roles.article, article);
      } else {
        UpdateCell(redditData, 1, width + 1, "Article_Content");
        UpdateTwice(s0, redditData, g, SetCell(g, 0, width, "Article_Content"));
        g := SetCell(g, 0, width, "Article_Content");
        UpdateCell(redditData, r + 1, width + 1, article);
        UpdateTwice(s0, redditData, g, SetCell(g, r, width, article));
        g := SetCell(g, r, width, article);
      }
    }

    /** The duplicate scan of `is_duplicate_post` over the rows below the
        header. */
    static method ScanDuplicates(rows: Grid, title: string, author: string) returns (b: bool)
      ensures b == Duplicate(rows, title, author)
    {
      if |rows| <= 1 {
        return false;
      }
      var cols := TitleAuthor(rows[0]);
      var matches := row => Matches(row, cols, title, author);
      b := AnyDataRow(rows, matches);
      assert forall i :: 1 <= i < |rows| ==> matches(rows[i]) == Matches(rows[i], cols, title, author);
    }

    /** The `for ... in enumerate(all_values[1:], 1)` loop that returns
        True at the first data row passing `test`. */
    static method AnyDataRow(rows: Grid, test: Row -> bool) returns (b: bool)
      ensures b <==> exists i :: 1 <= i < |rows| && test(rows[i])
    {
      var i := 1;
      while i < |rows|
        invariant 1 <= i && (i <= |rows| || i == 1)
        invariant forall j :: 1 <= j < i && j < |rows| ==> !test(rows[j])
      {
        if test(rows[i]) {
          return true;
        }
        i := i + 1;
      }
      return false;
    }

    /** The first "status" header, or -1. */
    static method FindStatus(headers: Row) returns (status: int)
      ensures status == FirstStatus(headers, 0)
    {
      status := -1;
      var i := 0;
      while i < |headers|
        invariant 0 <= i <= |headers|
        invariant FirstStatus(headers, i) == FirstStatus(headers, 0)
      {
        if IsStatus(headers[i]) {
          status := i;
          break;
        }
        i := i + 1;
      }
    }

    /** The first data row whose status is not "completed". */
    static method FindPending(values: Grid, status: nat) returns (row: Option<Row>)
      requires |values| >= 1
      ensures row == FirstPending(values, status, 1)
    {
      row := None;
      var k := 1;
      while k < |values|
        invariant 1 <= k <= |values|
        invariant FirstPending(values, status, k) == FirstPending(values, status, 1)
      {
        if Pending(values[k], status) {
          row := Some(values[k]);
          break;
        }
        k := k + 1;
      }
    }

    /** The dict from the header names to the row's cells. */
    static method BuildRecord(headers: Row, row: Row) returns (post: Record)
      ensures post == RecordUpTo(headers, row, |headers|)
    {
      post := [];
      var j := 0;
      while j < |headers|
        invariant 0 <= j <= |headers|
        invariant post == RecordUpTo(headers, row, j)
      {
        post := Assign(post, headers[j], Cell(row, j));
        j := j + 1;
      }
    }

    /** The column scan of `mark_post_as_done`: the last title, status
        and article headers. */
    static method ScanRoles(headers: Row) returns (roles: Roles)
      ensures roles == RolesUpTo(headers, |headers|)
    {
      var ti, si, ai := -1, -1, -1;
      var i := 0;
      while i < |headers|
        invariant 0 <= i <= |headers|
        invariant Roles(ti, si, ai) == RolesUpTo(headers, i)
      {
        if IsTitle(headers[i]) {
          ti := i;
        } else if IsStatus(headers[i]) {
          si := i;
        } else if IsArticle(headers[i]) {
          ai := i;
        }
        i := i + 1;
      }
      roles := Roles(ti, si, ai);
    }

    /** The first data row whose title cell equals `title`, or -1. */
    static method FindTitleRow(values: Grid, col: nat, title: string) returns (r: int)
      requires |values| >= 1
      ensures r == TitleRow(values, col, title, 1)
    {
      r := -1;
      var k := 1;
      while k < |values|
        invariant 1 <= k <= |values|
        invariant TitleRow(values, col, title, k) == TitleRow(values, col, title, 1)
      {
        if col < |values[k]| && values[k][col] == title {
          r := k;
          break;
        }
        k := k + 1;
      }
    }
  }
}
