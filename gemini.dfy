/** `GeminiClient`'s handling of what the model answers: the MIME table
    for uploaded documents, picking the image out of an image-generation
    reply, and turning a batch-analysis reply into a list of per-post
    verdicts sorted by id. The SDK call itself is an input: the reply's
    text, its parts, or `None` when the call raised. */
module Gemini {
  import opened Py
  import opened Json
  import Text
  import GeminiText

  // ---------------------------------------------------------------------
  // _get_mime_type

  const OctetStream: string := "application/octet-stream"

  const MimeTable: seq<(string, string)> := [
    (".pdf", "application/pdf"),
    (".js", "application/javascript"),
    (".py", "text/x-python"),
    (".txt", "text/plain"),
    (".html", "text/html"),
    (".htm", "text/html"),
    (".css", "text/css"),
    (".md", "text/markdown"),
    (".csv", "text/csv"),
    (".xml", "text/xml"),
    (".rtf", "text/rtf"),
    (".json", "application/json"),
    (".doc", "application/msword"),
    (".docx", "application/vnd.openxmlformats-officedocument.wordprocessingml.document"),
    (".xls", "application/vnd.ms-excel"),
    (".xlsx", "application/vnd.openxmlformats-officedocument.spreadsheetml.sheet"),
    (".ppt", "application/vnd.ms-powerpoint"),
    (".pptx", "application/vnd.openxmlformats-officedocument.presentationml.presentation")
  ]

  /** `mime_types.get(file_ext, 'application/octet-stream')`. */
  function MimeType(ext: string): string {
    match Lookup(MimeTable, ext)
    case Some(m) => m
    case None => OctetStream
  }

  /** A listed extension gets its entry of the table; any other extension
      gets 'application/octet-stream', which no entry maps to. */
  lemma MimeTypeListed(ext: string)
    ensures (exists i :: 0 <= i < |MimeTable| && MimeTable[i].0 == ext) <==> MimeType(ext) != OctetStream
    ensures MimeType(ext) != OctetStream ==> (ext, MimeType(ext)) in MimeTable
  {
    LookupFound(MimeTable, ext);
    DefaultUnlisted();
  }

  lemma DefaultUnlisted()
    ensures forall i :: 0 <= i < |MimeTable| ==> MimeTable[i].1 != OctetStream
  {
    forall i | 0 <= i < |MimeTable|
      ensures MimeTable[i].1 != OctetStream
    {
      if i == 14 {
        assert MimeTable[i].1[12] != OctetStream[12];
      } else {
        assert |MimeTable[i].1| != |OctetStream|;
      }
    }
  }

  // ---------------------------------------------------------------------
  // Image-part selection in generate_image / edit_image

  type Bytes = seq<bv8>

  /** The `inline_data` of a reply part: a MIME type (which the SDK may
      leave unset) and the raw bytes. */
  datatype Blob = Blob(mimeType: Option<string>, data: Bytes)

  /** A part of the SDK's reply. Every part has an `inline_data`
      attribute; it is `None` for a text part. */
  datatype Part = Part(inlineData: Option<Blob>)

  /** A part carrying inline data whose MIME type starts with "image/". */
  predicate ImagePart(p: Part) {
    p.inlineData.Some? && p.inlineData.value.mimeType.Some?
    && Text.StartsWith(p.inlineData.value.mimeType.value, "image/")
  }

  /** A part on which the loop's test `part.inline_data.mime_type.startswith`
      reaches into `None` and raises AttributeError. */
  predicate Raises(p: Part) {
    p.inlineData.None? || p.inlineData.value.mimeType.None?
  }

  /** The image-extraction loop as written: the `hasattr` guard always
      passes, so the first part without inline data (or without a MIME
      type) that comes before any image part raises AttributeError. */
  method ExtractImageAsWritten(parts: seq<Part>) returns (r: Result<Option<Bytes>>)
    ensures r.Err? <==> exists i :: 0 <= i < |parts| && Raises(parts[i]) && forall j :: 0 <= j < i ==> !ImagePart(parts[j])
    ensures r.Err? ==> r.error == AttributeError
    ensures r == Ok(None) <==> forall i :: 0 <= i < |parts| ==> !ImagePart(parts[i]) && !Raises(parts[i])
    ensures r.Ok? && r.value.Some? ==>
      exists i :: 0 <= i < |parts| && ImagePart(parts[i])
        && r.value.value == parts[i].inlineData.value.data
        && forall j :: 0 <= j < i ==> !ImagePart(parts[j]) && !Raises(parts[j])
  {
    r := Ok(None);
    var i := 0;
    while i < |parts|
      invariant 0 <= i <= |parts|
      invariant r == Ok(None)
      invariant forall j :: 0 <= j < i ==> !ImagePart(parts[j]) && !Raises(parts[j])
    {
      var part := parts[i];
      if part.inlineData.None? || part.inlineData.value.mimeType.None? {
        return Err(AttributeError);
      }
      if Text.StartsWith(part.inlineData.value.mimeType.value, "image/") {
        r := Ok(Some(part.inlineData.value.data));
        break;
      }
      i := i + 1;
    }
  }

  /** A reply whose text part precedes its image part: the loop as written
      raises on the text part, although an image part follows. */
  lemma TextBeforeImageRaises()
    ensures var parts := [Part(None), Part(Some(Blob(Some("image/png"), [1])))];
      (exists i :: 0 <= i < |parts| && Raises(parts[i]) && forall j :: 0 <= j < i ==> !ImagePart(parts[j]))
      && ImagePart(parts[1])
  {
    var parts := [Part(None), Part(Some(Blob(Some("image/png"), [1])))];
    assert Raises(parts[0]);
    assert "image/png"[..|"image/"|] == "image/";
  }

  /** The image-extraction loop as evidently intended: parts that carry no
      image are passed over, and the data of the first image part is
      returned, or `None` when there is none. */
  method ExtractImage(parts: seq<Part>) returns (r: Option<Bytes>)
    ensures r.None? <==> forall i :: 0 <= i < |parts| ==> !ImagePart(parts[i])
    ensures r.Some? ==>
      exists i :: 0 <= i < |parts| && ImagePart(parts[i])
        && r.value == parts[i].inlineData.value.data
        && forall j :: 0 <= j < i ==> !ImagePart(parts[j])
  {
    r := None;
    var i := 0;
    while i < |parts|
      invariant 0 <= i <= |parts|
      invariant r.None?
      invariant forall j :: 0 <= j < i ==> !ImagePart(parts[j])
    {
      var part := parts[i];
      if part.inlineData.Some? && part.inlineData.value.mimeType.Some?
        && Text.StartsWith(part.inlineData.value.mimeType.value, "image/")
      {
        r := Some(part.inlineData.value.data);
        break;
      }
      i := i + 1;
    }
  }

  /** The dict `generate_image` and `edit_image` return. */
  datatype ImageReply = ImageReply(text: Option<string>, imageData: Option<Bytes>)

  /** The result `generate_image` and `edit_image` build from the SDK's
      reply, as written: its text and the data of its first image part.
      The SDK's `parts` is None when the reply has no content, and the loop
      then raises TypeError; the AttributeError of the loop is not caught
      either, and both propagate. */
  method ImageResponse(text: Option<string>, replyParts: Option<seq<Part>>) returns (r: Result<ImageReply>)
    ensures replyParts.None? ==> r == Err(TypeError)
    ensures replyParts.Some? ==> var parts := replyParts.value;
      && (r.Err? <==> exists i :: 0 <= i < |parts| && Raises(parts[i]) && forall j :: 0 <= j < i ==> !ImagePart(parts[j]))
      && (r.Err? ==> r.error == AttributeError)
      && (r.Ok? ==> r.value.text == text)
      && (r.Ok? && r.value.imageData.None? ==> forall i :: 0 <= i < |parts| ==> !ImagePart(parts[i]))
      && (r.Ok? && r.value.imageData.Some? ==>
        exists i :: 0 <= i < |parts| && ImagePart(parts[i])
          && r.value.imageData.value == parts[i].inlineData.value.data
          && forall j :: 0 <= j < i ==> !ImagePart(parts[j]))
  {
    var result := ImageReply(text, None);
    if replyParts.None? {
      return Err(TypeError);
    }
    var data :- ExtractImageAsWritten(replyParts.value);
    r := Ok(result.(imageData := data));
  }

  /** The same result with the corrected loop, which also reads a reply
      without parts as having none: it never raises, and the image data is
      that of the first image part, None exactly when there is none. */
  method ImageResponseCorrected(text: Option<string>, replyParts: Option<seq<Part>>) returns (r: ImageReply)
    ensures r.text == text
    ensures replyParts.None? ==> r.imageData.None?
    ensures replyParts.Some? ==> var parts := replyParts.value;
      && (r.imageData.None? <==> forall i :: 0 <= i < |parts| ==> !ImagePart(parts[i]))
      && (r.imageData.Some? ==>
        exists i :: 0 <= i < |parts| && ImagePart(parts[i])
          && r.imageData.value == parts[i].inlineData.value.data
          && forall j :: 0 <= j < i ==> !ImagePart(parts[j]))
  {
    r := ImageReply(text, None);
    var parts := if replyParts.Some? then replyParts.value else [];
    var data := ExtractImage(parts);
    r := r.(imageData := data);
  }

  // ---------------------------------------------------------------------
  // The sort key of analyze_reddit_posts_batch: x.get("id", 0)

  /** A sort key as Python orders it: integers (booleans count as 0 and 1)
      among themselves, strings among themselves, and `Unordered` for
      values no comparison accepts (None, dicts). The order across kinds
      below only serves to make the order total; the modelled code never
      sorts a list whose keys mix kinds (Python raises TypeError). */
  datatype Key = IntKey(n: int) | StrKey(s: string) | Unordered

  /** Python's string comparison: code point by code point, a proper
      prefix first. */
  predicate StrLe(a: string, b: string)
    decreases |a|
  {
    a == [] || (b != [] && (a[0] < b[0] || (a[0] == b[0] && StrLe(a[1..], b[1..]))))
  }

  lemma {:induction false} StrLeTotal(a: string, b: string)
    ensures StrLe(a, b) || StrLe(b, a)
    decreases |a|
  {
    if a != [] && b != [] && a[0] == b[0] {
      StrLeTotal(a[1..], b[1..]);
    }
  }

  lemma {:induction false} StrLeTrans(a: string, b: string, c: string)
    requires StrLe(a, b) && StrLe(b, c)
    ensures StrLe(a, c)
    decreases |a|
  {
    if a != [] && b != [] && c != [] && a[0] == b[0] && b[0] == c[0] {
      StrLeTrans(a[1..], b[1..], c[1..]);
    }
  }

  lemma {:induction false} StrLeAntisym(a: string, b: string)
    requires StrLe(a, b) && StrLe(b, a)
    ensures a == b
    decreases |a|
  {
    if a != [] {
      StrLeAntisym(a[1..], b[1..]);
      assert a == [a[0]] + a[1..];
      assert b == [b[0]] + b[1..];
    }
  }

  lemma {:induction false} StrLeRefl(a: string)
    ensures StrLe(a, a)
    decreases |a|
  {
    if a != [] {
      StrLeRefl(a[1..]);
    }
  }

  function Rank(k: Key): nat {
    match k
    case IntKey(_) => 0
    case StrKey(_) => 1
    case Unordered => 2
  }

  predicate KeyLe(a: Key, b: Key) {
    Rank(a) < Rank(b)
    || (Rank(a) == Rank(b) &&
        match a
        case IntKey(n) => n <= b.n
        case StrKey(s) => StrLe(s, b.s)
        case Unordered => true)
  }

  /** `KeyLe` is a total order on keys. */
  lemma KeyLeOrder(a: Key, b: Key, c: Key)
    ensures KeyLe(a, a)
    ensures KeyLe(a, b) || KeyLe(b, a)
    ensures KeyLe(a, b) && KeyLe(b, a) ==> a == b
    ensures KeyLe(a, b) && KeyLe(b, c) ==> KeyLe(a, c)
  {
    if a.StrKey? {
      StrLeRefl(a.s);
      if b.StrKey? {
        StrLeTotal(a.s, b.s);
        if StrLe(a.s, b.s) && StrLe(b.s, a.s) {
          StrLeAntisym(a.s, b.s);
        }
        if c.StrKey? && StrLe(a.s, b.s) && StrLe(b.s, c.s) {
          StrLeTrans(a.s, b.s, c.s);
        }
      }
    }
  }

  /** The key `x.get("id", 0)`; a missing id counts as 0. */
  function IdKey(x: Json): Key {
    match GetOr(x, "id", Num(0))
    case Ok(Num(n)) => IntKey(n)
    case Ok(Bool(b)) => IntKey(if b then 1 else 0)
    case Ok(Str(s)) => StrKey(s)
    case _ => Unordered
  }

  // ---------------------------------------------------------------------
  // results.sort(key=lambda x: x.get("id", 0))

  /** `x` placed before the first element whose key is not smaller. */
  function Insert(x: Json, s: seq<Json>): seq<Json>
    decreases |s|
  {
    if s == [] then [x]
    else if KeyLe(IdKey(x), IdKey(s[0])) then [x] + s
    else [s[0]] + Insert(x, s[1..])
  }

  /** The list sorted by key, equal keys keeping their order. */
  function SortByKey(s: seq<Json>): seq<Json>
    decreases |s|
  {
    if s == [] then [] else Insert(s[0], SortByKey(s[1..]))
  }

  predicate Sorted(s: seq<Json>) {
    forall i, j :: 0 <= i < j < |s| ==> KeyLe(IdKey(s[i]), IdKey(s[j]))
  }

  /** The elements of `s` whose key is `k`, in order. */
  function WithKey(s: seq<Json>, k: Key): seq<Json>
    decreases |s|
  {
    if s == [] then []
    else (if IdKey(s[0]) == k then [s[0]] else []) + WithKey(s[1..], k)
  }

  lemma {:induction false} InsertPermutation(x: Json, s: seq<Json>)
    ensures multiset(Insert(x, s)) == multiset(s) + multiset{x}
    decreases |s|
  {
    if s != [] && !KeyLe(IdKey(x), IdKey(s[0])) {
      InsertPermutation(x, s[1..]);
      assert s == [s[0]] + s[1..];
    }
  }

  /** An element no greater than every element of a sorted list can go
      in front of it. */
  lemma SortedCons(h: Json, t: seq<Json>)
    requires Sorted(t)
    requires forall j :: 0 <= j < |t| ==> KeyLe(IdKey(h), IdKey(t[j]))
    ensures Sorted([h] + t)
  {
    var r := [h] + t;
    forall i, j | 0 <= i < j < |r|
      ensures KeyLe(IdKey(r[i]), IdKey(r[j]))
    {
      if i == 0 {
        assert r[j] == t[j - 1];
      } else {
        assert r[i] == t[i - 1] && r[j] == t[j - 1];
      }
    }
  }

  /** A lower bound of `x` and of every element of `s` bounds every
      element of `Insert(x, s)`. */
  lemma {:induction false} InsertLowerBound(x: Json, s: seq<Json>, b: Key)
    requires KeyLe(b, IdKey(x))
    requires forall j :: 0 <= j < |s| ==> KeyLe(b, IdKey(s[j]))
    ensures forall j :: 0 <= j < |Insert(x, s)| ==> KeyLe(b, IdKey(Insert(x, s)[j]))
    decreases |s|
  {
    if s != [] && !KeyLe(IdKey(x), IdKey(s[0])) {
      InsertLowerBound(x, s[1..], b);
      var t := Insert(x, s[1..]);
      assert forall j :: 1 <= j < |t| + 1 ==> ([s[0]] + t)[j] == t[j - 1];
    }
  }

  lemma {:induction false} InsertSorted(x: Json, s: seq<Json>)
    requires Sorted(s)
    ensures Sorted(Insert(x, s))
    decreases |s|
  {
    if s == [] {
    } else if KeyLe(IdKey(x), IdKey(s[0])) {
      forall j | 0 <= j < |s|
        ensures KeyLe(IdKey(x), IdKey(s[j]))
      {
        KeyLeOrder(IdKey(x), IdKey(s[0]), IdKey(s[j]));
      }
      SortedCons(x, s);
    } else {
      var k0 := IdKey(s[0]);
      KeyLeOrder(IdKey(x), k0, k0);
      assert Sorted(s[1..]) by {
        forall i, j | 0 <= i < j < |s[1..]|
          ensures KeyLe(IdKey(s[1..][i]), IdKey(s[1..][j]))
        {
          assert s[1..][i] == s[i + 1] && s[1..][j] == s[j + 1];
        }
      }
      InsertSorted(x, s[1..]);
      InsertLowerBound(x, s[1..], k0);
      SortedCons(s[0], Insert(x, s[1..]));
    }
  }

  /** An element placed by `Insert` passes over elements with a smaller
      key only, so among the elements of its own key it comes first. */
  lemma {:induction false} InsertWithKey(x: Json, s: seq<Json>, k: Key)
    ensures WithKey(Insert(x, s), k) == (if IdKey(x) == k then [x] else []) + WithKey(s, k)
    decreases |s|
  {
    var kx := IdKey(x);
    if s == [] {
      assert WithKey([x], k) == (if kx == k then [x] else []) + WithKey([], k);
    } else if KeyLe(kx, IdKey(s[0])) {
      assert ([x] + s)[1..] == s;
    } else {
      KeyLeOrder(kx, kx, kx);
      assert IdKey(s[0]) != kx;
      var t := Insert(x, s[1..]);
      InsertWithKey(x, s[1..], k);
      assert ([s[0]] + t)[1..] == t;
      var head := if IdKey(s[0]) == k then [s[0]] else [];
      var mine := if kx == k then [x] else [];
      calc {
        WithKey(Insert(x, s), k);
        head + WithKey(t, k);
        head + (mine + WithKey(s[1..], k));
        { assert head == [] || mine == []; }
        mine + (head + WithKey(s[1..], k));
        mine + WithKey(s, k);
      }
    }
  }

  /** The sort is a permutation of its input. */
  lemma {:induction false} SortPermutation(s: seq<Json>)
    ensures multiset(SortByKey(s)) == multiset(s)
    decreases |s|
  {
    if s != [] {
      var t := SortByKey(s[1..]);
      assert SortByKey(s) == Insert(s[0], t);
      SortPermutation(s[1..]);
      InsertPermutation(s[0], t);
      assert s == [s[0]] + s[1..];
      assert multiset(s) == multiset(s[1..]) + multiset{s[0]};
    }
  }

  /** The sort orders its result by key. */
  lemma {:induction false} SortSorted(s: seq<Json>)
    ensures Sorted(SortByKey(s))
    decreases |s|
  {
    if s != [] {
      SortSorted(s[1..]);
      InsertSorted(s[0], SortByKey(s[1..]));
    }
  }

  /** The sort is stable: for every key, the elements with that key come
      out in the order they went in. */
  lemma {:induction false} SortStable(s: seq<Json>, k: Key)
    ensures WithKey(SortByKey(s), k) == WithKey(s, k)
    decreases |s|
  {
    if s != [] {
      SortStable(s[1..], k);
      InsertWithKey(s[0], SortByKey(s[1..]), k);
    }
  }

  /** Keys that Python can compare with each other: all integers or all
      strings. */
  predicate Comparable(items: seq<Json>) {
    (forall i :: 0 <= i < |items| ==> IdKey(items[i]).IntKey?)
    || (forall i :: 0 <= i < |items| ==> IdKey(items[i]).StrKey?)
  }

  /** `results.sort(key=...)`: every element's key is computed first (a
      non-dict has no `get`: AttributeError); a list of two or more
      elements whose keys do not compare raises TypeError. */
  function SortResults(items: seq<Json>): Result<seq<Json>> {
    if exists i :: 0 <= i < |items| && !items[i].Obj? then Err(AttributeError)
    else if |items| >= 2 && !Comparable(items) then Err(TypeError)
    else Ok(SortByKey(items))
  }

  // ---------------------------------------------------------------------
  // analyze_reddit_posts_batch

  /** The entry `posts_json` gets for the post at index `i`. */
  function PostJson(i: nat, post: Json): Json
    requires post.Obj?
  {
    Obj([("id", Num(i)),
         ("title", GetOr(post, "title", Str("")).value),
         ("body", GetOr(post, "body", Str("")).value)])
  }

  /** The loop that builds `posts_json`: one entry per post, in order;
      a post that is not a dict makes `post.get` raise. */
  method PostsJson(posts: seq<Json>) returns (r: Result<seq<Json>>)
    ensures r.Ok? <==> forall i :: 0 <= i < |posts| ==> posts[i].Obj?
    ensures r.Err? ==> r.error == AttributeError
    ensures r.Ok? ==> |r.value| == |posts| && forall i :: 0 <= i < |posts| ==> r.value[i] == PostJson(i, posts[i])
  {
    var out: seq<Json> := [];
    var i := 0;
    while i < |posts|
      invariant 0 <= i <= |posts|
      invariant |out| == i
      invariant forall j :: 0 <= j < i ==> posts[j].Obj? && out[j] == PostJson(j, posts[j])
    {
      var post := posts[i];
      var title :- GetOr(post, "title", Str(""));
      var body := GetOr(post, "body", Str("")).value;
      out := out + [Obj([("id", Num(i)), ("title", title), ("body", body)])];
      i := i + 1;
    }
    r := Ok(out);
  }

  /** The verdict returned for every post when the reply is not a JSON
      list. */
  const NotProcessed: Json := Obj([("should_process", Bool(false))])

  function Fallback(n: nat): (r: seq<Json>)
    ensures |r| == n && forall i :: 0 <= i < n ==> r[i] == NotProcessed
  {
    seq(n, _ => NotProcessed)
  }

  /** What `analyze_reddit_posts_batch` returns for the posts of the loaded
      file, the model's reply text (`None` when the SDK call raised or the
      reply has no text) and the JSON parser (`None` for a JSONDecodeError).
      Any exception outside the parsing block is caught and gives []. */
  function Analysis(posts: seq<Json>, reply: Option<string>, loads: string -> Option<Json>): seq<Json> {
    if posts == [] then []
    else if exists i :: 0 <= i < |posts| && !posts[i].Obj? then []
    else if reply.None? then []
    else
      match loads(GeminiText.Unfenced(reply.value))
      case Some(Arr(items)) =>
        (match SortResults(items)
         case Ok(sorted) => sorted
         case Err(_) => [])
      case _ => Fallback(|posts|)
  }

  /** The body of `analyze_reddit_posts_batch` once the file is loaded:
      the empty check, the `posts_json` loop, the fence stripping, the
      parse with its fallback, and the sort. */
  method AnalyzeRedditPostsBatch(posts: seq<Json>, reply: Option<string>, loads: string -> Option<Json>)
    returns (r: seq<Json>)
    ensures r == Analysis(posts, reply, loads)
  {
    if posts == [] {
      return [];
    }
    var postsJson := PostsJson(posts);
    if postsJson.Err? || reply.None? {
      return [];
    }
    var text := GeminiText.StripFence(reply.value);
    var parsed := loads(text);
    if parsed.None? || !parsed.value.Arr? {
      return Fallback(|posts|);
    }
    var sorted := SortResults(parsed.value.items);
    if sorted.Err? {
      return [];
    }
    r := sorted.value;
  }

  /** An unparsable reply, or one that is not a list, gives one
      `{"should_process": False}` per post; no posts give []. */
  lemma AnalysisFallback(posts: seq<Json>, reply: Option<string>, loads: string -> Option<Json>)
    requires forall i :: 0 <= i < |posts| ==> posts[i].Obj?
    requires reply.Some?
    requires loads(GeminiText.Unfenced(reply.value)).None? || !loads(GeminiText.Unfenced(reply.value)).value.Arr?
    ensures var r := Analysis(posts, reply, loads);
      |r| == |posts| && forall i :: 0 <= i < |r| ==> r[i] == NotProcessed
  {
  }

  /** A parsed list of dicts with comparable ids comes back sorted by id,
      as a permutation of the list, and stably: entries with the same id
      keep the order the model gave them. */
  lemma AnalysisSorted(posts: seq<Json>, reply: Option<string>, loads: string -> Option<Json>)
    requires forall i :: 0 <= i < |posts| ==> posts[i].Obj?
    requires posts != [] && reply.Some?
    requires loads(GeminiText.Unfenced(reply.value)).Some?
    requires var p := loads(GeminiText.Unfenced(reply.value)).value;
      p.Arr? && (forall i :: 0 <= i < |p.items| ==> p.items[i].Obj?) && Comparable(p.items)
    ensures var items := loads(GeminiText.Unfenced(reply.value)).value.items;
      var r := Analysis(posts, reply, loads);
      Sorted(r) && multiset(r) == multiset(items)
      && forall k :: WithKey(r, k) == WithKey(items, k)
  {
    var items := loads(GeminiText.Unfenced(reply.value)).value.items;
    assert Analysis(posts, reply, loads) == SortByKey(items);
    SortSorted(items);
    SortPermutation(items);
    forall k
      ensures WithKey(SortByKey(items), k) == WithKey(items, k)
    {
      SortStable(items, k);
    }
  }

  /** A reply list holding anything but dicts, or dicts whose ids do not
      compare, makes the sort raise, and the method answers []. */
  lemma AnalysisUnsortable(posts: seq<Json>, reply: Option<string>, loads: string -> Option<Json>)
    requires forall i :: 0 <= i < |posts| ==> posts[i].Obj?
    requires posts != [] && reply.Some?
    requires loads(GeminiText.Unfenced(reply.value)).Some?
    requires var p := loads(GeminiText.Unfenced(reply.value)).value;
      p.Arr? && ((exists i :: 0 <= i < |p.items| && !p.items[i].Obj?) || (|p.items| >= 2 && !Comparable(p.items)))
    ensures Analysis(posts, reply, loads) == []
  {
  }
}
