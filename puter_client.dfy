/** The Puter driver client `PuterAI`: it holds the API key and the request
    headers, shapes the payloads of chat completion and image generation,
    and maps the HTTP outcome of a request to the dict it returns. The
    POST itself is an input: the transport's answer to a payload. */
module PuterClient {
  import opened Py
  import opened Json

  type Bytes = seq<bv8>

  const Url: string := "https://api.puter.com/drivers/call"

  /** A `PuterAI` object. Its fields are set once, by `__init__`. */
  datatype Client = Client(url: string, apiKey: string, headers: seq<(string, string)>)

  /** The request headers sent with every call. */
  function Headers(apiKey: string): seq<(string, string)> {
    [("Accept", "*/*"), ("Accept-Language", "en-US,en;q=0.9"), ("Authorization", "Bearer " + apiKey)] + BrowserHeaders
  }

  /** The headers after "Authorization", which do not depend on the key. */
  const BrowserHeaders: seq<(string, string)> := [
    ("Connection", "keep-alive"),
    ("Content-Type", "application/json;charset=UTF-8"),
    ("Origin", "https://playground.puter.site"),
    ("Referer", "https://playground.puter.site/"),
    ("Sec-Fetch-Dest", "empty"),
    ("Sec-Fetch-Mode", "cors"),
    ("Sec-Fetch-Site", "cross-site"),
    ("User-Agent", "Mozilla/5.0 (Windows NT 10.0; Win64; x64) AppleWebKit/537.36 (KHTML, like Gecko) Chrome/135.0.0.0 Safari/537.36"),
    ("sec-ch-ua", "\"Chromium\";v=\"135\", \"Not-A.Brand\";v=\"8\""),
    ("sec-ch-ua-mobile", "?0"),
    ("sec-ch-ua-platform", "\"Windows\"")
  ]

  /** `PuterAI(api_key)`: a missing or empty key raises ValueError. */
  function Init(apiKey: Option<string>): Result<Client> {
    if apiKey.None? || apiKey.value == "" then Err(ValueError("api key is required"))
    else Ok(Client(Url, apiKey.value, Headers(apiKey.value)))
  }

  /** The constructor accepts exactly the non-empty keys, and the client
      then authorizes with "Bearer " followed by the key. */
  lemma InitAuthorization(apiKey: Option<string>)
    ensures Init(apiKey).Ok? <==> apiKey.Some? && apiKey.value != ""
    ensures Init(apiKey).Ok? ==>
      Init(apiKey).value.apiKey == apiKey.value
      && Lookup(Init(apiKey).value.headers, "Authorization") == Some("Bearer " + apiKey.value)
  {
    if apiKey.Some? && apiKey.value != "" {
      var h := Headers(apiKey.value);
      assert |h[0].0| != |"Authorization"| && |h[1].0| != |"Authorization"|;
      LookupAt(h, "Authorization", 2);
    }
  }

  // ---------------------------------------------------------------------
  // create_completion

  /** What the formatting loop appends for one message: a message with
      "content" but no "role" becomes a user message with that content;
      any other message passes through. The `in` tests and the indexing
      follow Python on whatever value the caller passed. */
  function Normalized(msg: Json): Result<Json> {
    var hasRole :- Has(msg, "role");
    if hasRole then Ok(msg)
    else
      var hasContent :- Has(msg, "content");
      if !hasContent then Ok(msg)
      else
        var content :- Index(msg, "content");
        Ok(Obj([("role", Str("user")), ("content", content)]))
  }

  /** For a dict message, normalisation adds the user role exactly when
      the role is missing and a content is present. */
  lemma NormalizedDict(msg: Json)
    requires msg.Obj?
    ensures Normalized(msg).Ok?
    ensures Lookup(msg.fields, "role").None? && Lookup(msg.fields, "content").Some? ==>
      Normalized(msg).value == Obj([("role", Str("user")), ("content", Lookup(msg.fields, "content").value)])
    ensures Lookup(msg.fields, "role").Some? || Lookup(msg.fields, "content").None? ==>
      Normalized(msg).value == msg
  {
  }

  /** A normalised dict message is left alone by a second normalisation. */
  lemma NormalizedIdempotent(msg: Json)
    requires msg.Obj?
    ensures Normalized(msg).Ok? && Normalized(Normalized(msg).value) == Normalized(msg)
  {
    NormalizedDict(msg);
    var m := Normalized(msg).value;
    if m != msg {
      assert m.fields[0] == ("role", Str("user"));
      assert Lookup(m.fields, "role") == Some(Str("user"));
    }
  }

  /** The loop that builds `formatted_messages`: one entry per message, in
      order, each the normalised message; the first message on which a
      test or an index raises ends the call with that exception. */
  method FormatMessages(messages: seq<Json>) returns (r: Result<seq<Json>>)
    ensures r.Ok? <==> forall i :: 0 <= i < |messages| ==> Normalized(messages[i]).Ok?
    ensures r.Ok? ==> |r.value| == |messages| && forall i :: 0 <= i < |messages| ==> Normalized(messages[i]) == Ok(r.value[i])
    ensures r.Err? ==> exists i :: 0 <= i < |messages| && Normalized(messages[i]) == Err(r.error)
  {
    var formatted: seq<Json> := [];
    var i := 0;
    while i < |messages|
      invariant 0 <= i <= |messages|
      invariant |formatted| == i
      invariant forall j :: 0 <= j < i ==> Normalized(messages[j]) == Ok(formatted[j])
    {
      var msg := messages[i];
      var next := Normalized(msg);
      if next.Err? {
        return Err(next.error);
      }
      formatted := formatted + [next.value];
      i := i + 1;
    }
    r := Ok(formatted);
  }

  /** A payload for the drivers endpoint: its top-level members, and the
      members of its "args" dict. */
  predicate PayloadHas(payload: Json, top: seq<(string, Json)>, args: seq<(string, Json)>) {
    payload.Obj?
    && (forall i :: 0 <= i < |top| ==> Lookup(payload.fields, top[i].0) == Some(top[i].1))
    && Lookup(payload.fields, "args").Some?
    && Lookup(payload.fields, "args").value.Obj?
    && forall i :: 0 <= i < |args| ==> Lookup(Lookup(payload.fields, "args").value.fields, args[i].0) == Some(args[i].1)
  }

  /** The "args" dict of a payload. */
  function Args(payload: Json): seq<(string, Json)>
    requires payload.Obj? && Lookup(payload.fields, "args").Some? && Lookup(payload.fields, "args").value.Obj?
  {
    Lookup(payload.fields, "args").value.fields
  }

  // ---------------------------------------------------------------------
  // _send_request

  /** What the POST did: the server answered (status, the body parsed as
      JSON or `None` when it is not JSON, the raw body, the Content-Type
      header and the body as text), or `requests` raised one of its own
      exceptions, or something else raised. */
  datatype HttpOutcome =
    | Answered(status: int, json: Option<Json>, content: Bytes, contentType: Option<string>, text: string)
    | RequestException(message: string)
    | OtherException(message: string)

  /** The dict `_send_request` returns: the parsed JSON body, the image
      dict `{"success": True, "image_data", "content_type"}`, or the error
      dict `{"error", "status"}`. */
  datatype Reply =
    | JsonBody(body: Json)
    | Image(data: Bytes, contentType: string)
    | Failure(message: string, status: int)

  /** The error message for a status other than 200. */
  function StatusMessage(status: int, text: string): string {
    if status == 401 then "invalid api key"
    else if status == 403 then "forbidden - check your api key"
    else if status == 429 then "too many requests"
    else if status == 500 then "server error"
    else "request failed: " + text
  }

  /** `_send_request` given the outcome of the POST. A body that is not
      JSON makes `response.json()` raise `requests`' JSONDecodeError, which
      is a RequestException. */
  function SendRequest(outcome: HttpOutcome, expectJson: bool): (r: Reply)
    ensures !expectJson ==> !r.JsonBody?
    ensures outcome.Answered? && outcome.status == 200 && expectJson && outcome.json.Some? ==>
      r == JsonBody(outcome.json.value)
    ensures outcome.Answered? && outcome.status == 200 && expectJson && outcome.json.None? ==>
      r == Failure("network error: " + ErrorText(JsonDecodeError), 0)
    ensures outcome.Answered? && outcome.status == 200 && !expectJson ==>
      r == Image(outcome.content, if outcome.contentType.Some? then outcome.contentType.value else "")
    ensures outcome.Answered? && outcome.status != 200 ==>
      r == Failure(StatusMessage(outcome.status, outcome.text), outcome.status)
    ensures outcome.RequestException? ==> r == Failure("network error: " + outcome.message, 0)
    ensures outcome.OtherException? ==> r == Failure("unexpected error: " + outcome.message, -1)
  {
    match outcome
    case RequestException(m) => Failure("network error: " + m, 0)
    case OtherException(m) => Failure("unexpected error: " + m, -1)
    case Answered(status, json, content, contentType, text) =>
      if status == 200 then
        if expectJson then
          (match json
           case Some(j) => JsonBody(j)
           case None => Failure("network error: " + ErrorText(JsonDecodeError), 0))
        else Image(content, if contentType.Some? then contentType.value else "")
      else Failure(StatusMessage(status, text), status)
  }

  /** A request fails exactly when it raised, the status is not 200, or a
      JSON body was expected and is not JSON; a failure never carries
      status 200, and it carries the server's status when there was one. */
  lemma SendRequestFailure(outcome: HttpOutcome, expectJson: bool)
    ensures SendRequest(outcome, expectJson).Failure? <==>
      !outcome.Answered? || outcome.status != 200 || (expectJson && outcome.json.None?)
    ensures var r := SendRequest(outcome, expectJson);
      r.Failure? ==>
        r.status != 200
        && (outcome.Answered? && outcome.status != 200 ==> r.status == outcome.status)
        && (outcome.RequestException? ==> r.status == 0)
        && (outcome.OtherException? ==> r.status == -1)
  {
  }

  /** The four statuses with a message of their own get it whatever the
      body; any other status reports the body's text after a fixed
      prefix. */
  lemma StatusMessages(status: int, text: string)
    ensures status in {401, 403, 429, 500} ==> StatusMessage(status, text) == StatusMessage(status, "")
    ensures status !in {401, 403, 429, 500} ==>
      StatusMessage(status, text) == "request failed: " + text
      && StatusMessage(status, text)[|"request failed: "|..] == text
  {
  }

  // ---------------------------------------------------------------------
  // The client's two calls

  /** `create_completion`: normalise the messages, build the payload (with
      "stream" in its args only for a streaming call) and send it; `send`
      is the transport's answer to a payload. */
  method CreateCompletion(client: Client, messages: seq<Json>, model: string, driver: string, stream: bool,
                          send: Json -> HttpOutcome)
    returns (r: Result<Reply>, payload: Json)
    ensures r.Err? <==> exists i :: 0 <= i < |messages| && Normalized(messages[i]).Err?
    ensures r.Ok? ==>
      PayloadHas(payload,
        [("interface", Str("puter-chat-completion")), ("driver", Str(driver)), ("test_mode", Bool(false)), ("method", Str("complete"))],
        [("model", Str(model))])
      && Lookup(Args(payload), "messages").Some?
      && Lookup(Args(payload), "messages").value.Arr?
      && (var sent := Lookup(Args(payload), "messages").value.items;
          |sent| == |messages| && forall i :: 0 <= i < |messages| ==> Normalized(messages[i]) == Ok(sent[i]))
      && (Lookup(Args(payload), "stream").Some? <==> stream)
      && (stream ==> Lookup(Args(payload), "stream") == Some(Bool(true)))
      && r.value == SendRequest(send(payload), true)
  {
    payload := Null;
    var formatted := FormatMessages(messages);
    if formatted.Err? {
      return Err(formatted.error), payload;
    }
    var args := [("messages", Arr(formatted.value)), ("model", Str(model))];
    assert args[0].0[0] == 'm' && args[1].0[0] == 'm' && args[0].0[1] == 'e' && args[1].0[1] == 'o';
    LookupAt(args, "messages", 0);
    LookupAt(args, "model", 1);
    assert Lookup(args, "stream").None? by {
      LookupFound(args, "stream");
      assert |args[0].0| != |"stream"| && |args[1].0| != |"stream"|;
    }
    if stream {
      args := Assign(args, "stream", Bool(true));
    }
    payload := Obj([("interface", Str("puter-chat-completion")), ("driver", Str(driver)), ("test_mode", Bool(false)),
                    ("method", Str("complete")), ("args", Obj(args))]);
    CompletionPayloadLookups(payload, model, driver, args);
    r := Ok(SendRequest(send(payload), true));
  }

  lemma CompletionPayloadLookups(payload: Json, model: string, driver: string, args: seq<(string, Json)>)
    requires payload == Obj([("interface", Str("puter-chat-completion")), ("driver", Str(driver)), ("test_mode", Bool(false)),
                             ("method", Str("complete")), ("args", Obj(args))])
    requires Lookup(args, "model") == Some(Str(model))
    ensures PayloadHas(payload,
        [("interface", Str("puter-chat-completion")), ("driver", Str(driver)), ("test_mode", Bool(false)), ("method", Str("complete"))],
        [("model", Str(model))])
    ensures Args(payload) == args
  {
    var f := payload.fields;
    assert f[0].0[0] == 'i' && f[1].0[0] == 'd' && f[2].0[0] == 't' && f[3].0[0] == 'm' && f[4].0[0] == 'a';
    LookupAt(f, "interface", 0);
    LookupAt(f, "driver", 1);
    LookupAt(f, "test_mode", 2);
    LookupAt(f, "method", 3);
    LookupAt(f, "args", 4);
  }

  /** `create_image`: the payload carries the prompt, and a model only
      when one is given and non-empty; the reply is the image dict or the
      error dict. */
  method CreateImage(client: Client, prompt: string, model: Option<string>, send: Json -> HttpOutcome)
    returns (r: Reply, payload: Json)
    ensures PayloadHas(payload,
        [("interface", Str("puter-image-generation")), ("test_mode", Bool(false)), ("method", Str("generate"))],
        [("prompt", Str(prompt))])
    ensures (Lookup(Args(payload), "model").Some? <==> model.Some? && model.value != "")
    ensures model.Some? && model.value != "" ==> Lookup(Args(payload), "model") == Some(Str(model.value))
    ensures r == SendRequest(send(payload), false) && (r.Image? || r.Failure?)
  {
    var args := [("prompt", Str(prompt))];
    if model.Some? && model.value != "" {
      args := Assign(args, "model", Str(model.value));
    }
    payload := Obj([("interface", Str("puter-image-generation")), ("test_mode", Bool(false)), ("method", Str("generate")),
                    ("args", Obj(args))]);
    ImagePayloadLookups(payload, prompt, args);
    r := SendRequest(send(payload), false);
  }

  lemma ImagePayloadLookups(payload: Json, prompt: string, args: seq<(string, Json)>)
    requires payload == Obj([("interface", Str("puter-image-generation")), ("test_mode", Bool(false)), ("method", Str("generate")),
                             ("args", Obj(args))])
    requires Lookup(args, "prompt") == Some(Str(prompt))
    ensures PayloadHas(payload,
        [("interface", Str("puter-image-generation")), ("test_mode", Bool(false)), ("method", Str("generate"))],
        [("prompt", Str(prompt))])
    ensures Args(payload) == args
  {
    var f := payload.fields;
    assert f[0].0[0] == 'i' && f[1].0[0] == 't' && f[2].0[0] == 'm' && f[3].0[0] == 'a';
    LookupAt(f, "interface", 0);
    LookupAt(f, "test_mode", 1);
    LookupAt(f, "method", 2);
    LookupAt(f, "args", 3);
  }
}
