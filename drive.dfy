/** `GoogleDriveClient`: the metadata it sends when uploading a file or
    creating a folder, the batch upload that collects what succeeded, the
    search query and the page-by-page listing, the shareable link, and the
    embed HTML. Every Drive API call is an input: what it returned, or the
    exception it raised. */
module Drive {
  import opened Py
  import opened Json
  import Text

  const OctetStream: string := "application/octet-stream"
  const FolderMime: string := "application/vnd.google-apps.folder"

  // ---------------------------------------------------------------------
  // File metadata

  /** A folder id is given when it is truthy: present and non-empty. */
  predicate Given(id: Option<string>) {
    id.Some? && id.value != ""
  }

  /** `if folder_id: file_metadata['parents'] = [folder_id]`. */
  function WithParents(fields: seq<(string, Json)>, folder: Option<string>): seq<(string, Json)> {
    if Given(folder) then Assign(fields, "parents", Arr([Str(folder.value)])) else fields
  }

  /** The 'parents' key is set exactly when a folder id is given, to the
      one-element list holding it, and no other key changes. */
  lemma ParentsIffFolder(fields: seq<(string, Json)>, folder: Option<string>)
    requires Lookup(fields, "parents").None?
    ensures Lookup(WithParents(fields, folder), "parents").Some? <==> Given(folder)
    ensures Given(folder) ==> Lookup(WithParents(fields, folder), "parents") == Some(Arr([Str(folder.value)]))
    ensures forall k :: k != "parents" ==> Lookup(WithParents(fields, folder), k) == Lookup(fields, k)
  {
  }

  /** `os.path.basename(path)`: what follows the last '/'. */
  function Basename(path: string): (r: string)
    ensures |r| <= |path| && r == path[|path| - |r|..]
    ensures '/' !in r
  {
    var k := Text.RFind(path, "/");
    if k == -1 then
      assert forall i :: 0 <= i < |path| ==> path[i] != '/' by {
        forall i | 0 <= i < |path|
          ensures path[i] != '/'
        {
          assert !Text.OccursAt(path, "/", i);
          assert path[i..i + 1] == [path[i]];
        }
      }
      path
    else
      assert forall i :: k + 1 <= i < |path| ==> path[i] != '/' by {
        forall i | k + 1 <= i < |path|
          ensures path[i] != '/'
        {
          assert !Text.OccursAt(path, "/", i);
          assert path[i..i + 1] == [path[i]];
        }
      }
      path[k + 1..]
  }

  /** The metadata `upload_image` sends: the file's base name, and its
      parent folder when one is given. */
  function UploadMetadata(path: string, folder: Option<string>): Json {
    Obj(WithParents([("name", Str(Basename(path)))], folder))
  }

  /** The metadata `create_folder` sends: the name, the folder MIME type,
      and the parent folder when one is given. */
  function FolderMetadata(name: string, parent: Option<string>): Json {
    Obj(WithParents([("name", Str(name)), ("mimeType", Str(FolderMime))], parent))
  }

  /** The upload names the file by its base name, and has a parent
      exactly when a folder id is given. */
  lemma UploadMetadataFields(path: string, folder: Option<string>)
    ensures var m := UploadMetadata(path, folder).fields;
      Lookup(m, "name") == Some(Str(Basename(path)))
      && (Lookup(m, "parents").Some? <==> Given(folder))
      && (Given(folder) ==> Lookup(m, "parents") == Some(Arr([Str(folder.value)])))
  {
    var base := [("name", Str(Basename(path)))];
    assert |base[0].0| != |"parents"|;
    ParentsIffFolder(base, folder);
  }

  /** A new folder carries the folder MIME type, and has a parent exactly
      when a parent id is given. */
  lemma FolderMetadataFields(name: string, parent: Option<string>)
    ensures var m := FolderMetadata(name, parent).fields;
      Lookup(m, "name") == Some(Str(name))
      && Lookup(m, "mimeType") == Some(Str(FolderMime))
      && (Lookup(m, "parents").Some? <==> Given(parent))
      && (Given(parent) ==> Lookup(m, "parents") == Some(Arr([Str(parent.value)])))
  {
    var base := [("name", Str(name)), ("mimeType", Str(FolderMime))];
    assert |base[0].0| != |"parents"| && |base[1].0| != |"parents"|;
    assert base[0].0 != "mimeType" by { assert |base[0].0| != |"mimeType"|; }
    LookupFound(base, "parents");
    LookupAt(base, "mimeType", 1);
    ParentsIffFolder(base, parent);
  }

  /** `upload_image(image_path, folder_id)`: a missing file raises
      FileNotFoundError; otherwise the guessed MIME type (or the generic
      binary type) and the metadata go to `files().create`, whose answer is
      returned once the file is shared with anyone (`share` is what
      `permissions().create` does with the file's id). */
  method UploadImage(path: string, folder: Option<string>, fileExists: bool, guessed: Option<string>,
                     create: (Json, string) -> Result<Json>, share: Json -> Result<Json>)
    returns (r: Result<Json>, metadata: Json, mime: string)
    ensures !fileExists ==> r == Err(FileNotFoundError("Image file not found: " + path))
    ensures fileExists ==>
      mime == (if guessed.Some? then guessed.value else OctetStream)
      && metadata == UploadMetadata(path, folder)
    ensures r.Ok? <==>
      fileExists && create(metadata, mime).Ok?
      && Index(create(metadata, mime).value, "id").Ok?
      && share(Index(create(metadata, mime).value, "id").value).Ok?
    ensures r.Ok? ==> r.value == create(metadata, mime).value
  {
    metadata := Null;
    mime := "";
    if !fileExists {
      return Err(FileNotFoundError("Image file not found: " + path)), metadata, mime;
    }
    mime := if guessed.Some? then guessed.value else OctetStream;
    var fields := [("name", Str(Basename(path)))];
    if Given(folder) {
      fields := Assign(fields, "parents", Arr([Str(folder.value)]));
    }
    metadata := Obj(fields);
    var file := create(metadata, mime);
    if file.Err? {
      return Err(file.error), metadata, mime;
    }
    var id := Index(file.value, "id");
    if id.Err? {
      return Err(id.error), metadata, mime;
    }
    var shared := share(id.value);
    if shared.Err? {
      return Err(shared.error), metadata, mime;
    }
    r := Ok(file.value);
  }

  /** `create_folder(folder_name, parent_folder_id)`. */
  method CreateFolder(name: string, parent: Option<string>, create: Json -> Result<Json>)
    returns (r: Result<Json>, metadata: Json)
    ensures metadata == FolderMetadata(name, parent) && r == create(metadata)
  {
    var fields := [("name", Str(name)), ("mimeType", Str(FolderMime))];
    if Given(parent) {
      fields := Assign(fields, "parents", Arr([Str(parent.value)]));
    }
    metadata := Obj(fields);
    r := create(metadata);
  }

  // ---------------------------------------------------------------------
  // upload_images_batch

  /** The files the batch collects from the first `n` uploads, where
      `upload(i)` is what `upload_image` did with the i-th path. */
  function Uploaded(upload: nat -> Result<Json>, n: nat): seq<Json> {
    if n == 0 then []
    else Uploaded(upload, n - 1) + (if upload(n - 1).Ok? then [upload(n - 1).value] else [])
  }

  /** `upload_images_batch`: one upload per path, in order; a failed
      upload is reported and skipped. */
  method UploadImagesBatch(paths: seq<string>, upload: nat -> Result<Json>) returns (r: seq<Json>)
    ensures r == Uploaded(upload, |paths|)
  {
    r := [];
    for i := 0 to |paths|
      invariant r == Uploaded(upload, i)
    {
      var file := upload(i);
      if file.Ok? {
        r := r + [file.value];
      }
    }
  }

  /** No more files than paths, and every file collected is the answer of
      a successful upload. */
  lemma {:induction false} UploadedBound(upload: nat -> Result<Json>, n: nat)
    ensures |Uploaded(upload, n)| <= n
    ensures forall x :: x in Uploaded(upload, n) ==> exists i :: 0 <= i < n && upload(i) == Ok(x)
  {
    if n > 0 {
      UploadedBound(upload, n - 1);
    }
  }

  /** When every upload succeeds, the batch returns all the files, in the
      order of the paths. */
  lemma {:induction false} UploadedAll(upload: nat -> Result<Json>, n: nat)
    requires forall i :: 0 <= i < n ==> upload(i).Ok?
    ensures |Uploaded(upload, n)| == n
    ensures forall i :: 0 <= i < n ==> Uploaded(upload, n)[i] == upload(i).value
  {
    if n > 0 {
      UploadedAll(upload, n - 1);
    }
  }

  /** The files keep the order of their paths: the files of a prefix of
      the paths come first. */
  lemma {:induction false} UploadedPrefix(upload: nat -> Result<Json>, m: nat, n: nat)
    requires m <= n
    ensures Uploaded(upload, m) <= Uploaded(upload, n)
    decreases n - m
  {
    if m < n {
      UploadedPrefix(upload, m, n - 1);
    }
  }

  // ---------------------------------------------------------------------
  // list_files

  /** The query of `list_files`: the folder clause first, then the caller's
      query, joined by " and ". */
  function Query(folder: Option<string>, query: Option<string>): string {
    var clauses := (if Given(folder) then ["'" + folder.value + "' in parents"] else [])
      + (if Given(query) then [query.value] else []);
    if clauses == [] then ""
    else if |clauses| == 1 then clauses[0]
    else clauses[0] + " and " + clauses[1]
  }

  /** The query is empty without folder and query, one clause with either,
      and the folder clause before the query with both. */
  lemma QueryCases(folder: Option<string>, query: Option<string>)
    ensures var q := Query(folder, query);
      (q == "" <==> !Given(folder) && !Given(query))
      && (Given(folder) ==> Text.StartsWith(q, "'" + folder.value + "' in parents"))
      && (Given(query) && !Given(folder) ==> q == query.value)
      && (Given(folder) && Given(query) ==> q == "'" + folder.value + "' in parents and " + query.value)
  {
    var q := Query(folder, query);
    if Given(folder) {
      var clause := "'" + folder.value + "' in parents";
      if Given(query) {
        assert q == clause + (" and " + query.value);
      } else {
        assert q == clause + [];
      }
    }
  }

  /** `response.get('files', [])`, as `extend` iterates it. */
  function FilesOf(page: Json): Result<seq<Json>> {
    var files :- GetOr(page, "files", Arr([]));
    Iter(files)
  }

  /** `response.get('nextPageToken')` (None for a page that is not a
      dict, which `FilesOf` already rejects). */
  function NextToken(page: Json): Json {
    match GetOr(page, "nextPageToken", Null)
    case Ok(t) => t
    case Err(_) => Null
  }

  /** The listing from the `k`-th page on, where `pages[i]` is the
      answer to the i-th request: each page's files, up to and including
      the first page without a next-page token. Running out of pages
      stands for the API failing to answer. */
  function Listing(pages: seq<Json>, k: nat): Result<seq<Json>>
    decreases |pages| - k
  {
    if k >= |pages| then Err(Sdk("no response from the Drive API"))
    else
      var files :- FilesOf(pages[k]);
      if !Truthy(NextToken(pages[k])) then Ok(files)
      else
        var rest :- Listing(pages, k + 1);
        Ok(files + rest)
  }

  /** The files of pages `k` through `m`, in page order. */
  function FilesIn(pages: seq<Json>, k: nat, m: nat): seq<Json>
    requires k <= m < |pages|
    requires forall j :: k <= j <= m ==> FilesOf(pages[j]).Ok?
    decreases m - k
  {
    FilesOf(pages[k]).value + (if k == m then [] else FilesIn(pages, k + 1, m))
  }

  /** When page `m` is the first without a next-page token, the listing is
      the concatenation of the files of the pages up to `m`, in order. */
  lemma {:induction false} ListingPages(pages: seq<Json>, k: nat, m: nat)
    requires k <= m < |pages|
    requires forall j :: k <= j <= m ==> FilesOf(pages[j]).Ok?
    requires forall j :: k <= j < m ==> Truthy(NextToken(pages[j]))
    requires !Truthy(NextToken(pages[m]))
    ensures Listing(pages, k) == Ok(FilesIn(pages, k, m))
    decreases m - k
  {
    var files := FilesOf(pages[k]).value;
    if k < m {
      ListingPages(pages, k + 1, m);
    } else {
      assert files + [] == files;
    }
  }

  /** The page token sent with the i-th request: none first, then the
      token of the page before. */
  function TokenSent(pages: seq<Json>, i: nat): Json
    requires i <= |pages|
  {
    if i == 0 then Null else NextToken(pages[i - 1])
  }

  function Prepend(files: seq<Json>, rest: Result<seq<Json>>): Result<seq<Json>> {
    if rest.Ok? then Ok(files + rest.value) else rest
  }

  /** `list_files(folder_id, query)`: request page after page with the same
      query, extending the results with each page's files, until a page
      has no next-page token. `requests` lists the (query, page token)
      pairs sent. */
  method ListFiles(folder: Option<string>, query: Option<string>, pages: seq<Json>)
    returns (r: Result<seq<Json>>, requests: seq<(string, Json)>)
    ensures r == Listing(pages, 0)
    ensures |requests| <= |pages| + 1
    ensures forall i :: 0 <= i < |requests| && i <= |pages| ==> requests[i] == (Query(folder, query), TokenSent(pages, i))
  {
    var q := Query(folder, query);
    var results: seq<Json> := [];
    var token: Json := Null;
    requests := [];
    var i := 0;
    assert Listing(pages, 0).Ok? ==> [] + Listing(pages, 0).value == Listing(pages, 0).value;
    while i < |pages|
      invariant 0 <= i <= |pages|
      invariant token == TokenSent(pages, i)
      invariant |requests| == i && forall j :: 0 <= j < i ==> requests[j] == (q, TokenSent(pages, j))
      invariant Listing(pages, 0) == Prepend(results, Listing(pages, i))
      decreases |pages| - i
    {
      requests := requests + [(q, token)];
      var files := FilesOf(pages[i]);
      if files.Err? {
        return Err(files.error), requests;
      }
      results := results + files.value;
      token := NextToken(pages[i]);
      if !Truthy(token) {
        return Ok(results), requests;
      }
      PrependTwice(results[..|results| - |files.value|], files.value, Listing(pages, i + 1));
      assert results[..|results| - |files.value|] + files.value == results;
      i := i + 1;
    }
    requests := requests + [(q, token)];
    r := Err(Sdk("no response from the Drive API"));
  }

  lemma PrependTwice(a: seq<Json>, b: seq<Json>, rest: Result<seq<Json>>)
    ensures Prepend(a, Prepend(b, rest)) == Prepend(a + b, rest)
  {
    if rest.Ok? {
      assert a + (b + rest.value) == (a + b) + rest.value;
    }
  }

  // ---------------------------------------------------------------------
  // get_file_link and get_image_embed_html

  /** `get_file_link(file_id, link_type)`: after sharing the file
      (`granted`) and fetching its links (`fetched`), 'view' gives the
      webViewLink and 'download' the webContentLink, '' when missing; any
      other link type raises ValueError. */
  function FileLink(granted: Result<Json>, fetched: Result<Json>, linkType: string): Result<Json> {
    var _ :- granted;
    var file :- fetched;
    if linkType == "view" then GetOr(file, "webViewLink", Str(""))
    else if linkType == "download" then GetOr(file, "webContentLink", Str(""))
    else Err(ValueError("link_type must be either 'view' or 'download'"))
  }

  /** With both calls answered, only 'view' and 'download' are accepted,
      and each reads its own member of the file. */
  lemma FileLinkTypes(granted: Result<Json>, fetched: Result<Json>, linkType: string)
    requires granted.Ok? && fetched.Ok? && fetched.value.Obj?
    ensures FileLink(granted, fetched, linkType).Err? <==> linkType != "view" && linkType != "download"
    ensures var f := fetched.value.fields;
      (linkType == "view" ==> FileLink(granted, fetched, linkType) == Ok(if Lookup(f, "webViewLink").Some? then Lookup(f, "webViewLink").value else Str("")))
      && (linkType == "download" ==> FileLink(granted, fetched, linkType) == Ok(if Lookup(f, "webContentLink").Some? then Lookup(f, "webContentLink").value else Str("")))
  {
  }

  function DirectLink(fileId: string): string {
    "https://drive.google.com/uc?export=view&id=" + fileId
  }

  /** `height_attr`: present only for a truthy height. */
  function HeightAttr(height: Option<int>): string {
    if height.Some? && height.value != 0 then " height=\"" + Text.IntToString(height.value) + "\"" else ""
  }

  /** The `<img>` tag `get_image_embed_html` returns. */
  function EmbedHtml(fileId: string, width: int, height: Option<int>): string {
    "<img src=\"" + DirectLink(fileId) + "\" width=\"" + Text.IntToString(width) + "\"" + HeightAttr(height)
    + " alt=\"Google Drive Image\">"
  }

  /** `get_image_embed_html(file_id, width, height)` given the outcome of
      the call that shares the file with anyone as a reader (`granted`):
      an exception from that call propagates and no tag is built;
      otherwise the tag is returned. */
  function ImageEmbedHtml(granted: Result<Json>, fileId: string, width: int, height: Option<int>): (r: Result<string>)
    ensures r.Err? <==> granted.Err?
    ensures r.Err? ==> r.error == granted.error
    ensures r.Ok? ==> r.value == EmbedHtml(fileId, width, height)
  {
    var _ :- granted;
    Ok(EmbedHtml(fileId, width, height))
  }

  /** The tag opens with the direct view link of the file as its source
      and the width, and ends with the alt text; the height attribute
      between them is there exactly when the height is truthy. */
  lemma EmbedHtmlShape(fileId: string, width: int, height: Option<int>)
    ensures var html := EmbedHtml(fileId, width, height);
      var head := "<img src=\"" + DirectLink(fileId) + "\" width=\"" + Text.IntToString(width) + "\"";
      var tail := " alt=\"Google Drive Image\">";
      |head| + |tail| <= |html|
      && html[..|head|] == head
      && html[|html| - |tail|..] == tail
      && (|html| > |head| + |tail| <==> height.Some? && height.value != 0)
  {
    var head := "<img src=\"" + DirectLink(fileId) + "\" width=\"" + Text.IntToString(width) + "\"";
    var attr := HeightAttr(height);
    var tail := " alt=\"Google Drive Image\">";
    var html := EmbedHtml(fileId, width, height);
    assert html == head + attr + tail;
    assert (head + attr + tail)[..|head|] == head;
    assert (head + attr + tail)[|head + attr|..] == tail;
  }
}
