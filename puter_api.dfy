/** The application-level Puter wrappers: `ChatCompletion.create`, which
    fails over across the configured API keys, first with Claude and then
    with GPT-4o, and `ImageGeneration.create`, which shapes the image
    reply. Each SDK call is an input: what the call with a given model and
    key answers, or the exception it raised. */
module PuterApi {
  import opened Py
  import opened Json
  import PuterClient

  /** `api_keys.PUTER_API_KEY`: one key or a list of keys. */
  datatype KeySetting = Scalar(key: string) | KeyList(keys: seq<string>)

  /** The keys tried, in order: a single key is a one-element list. */
  function KeysOf(setting: KeySetting): (r: seq<string>)
    ensures setting.Scalar? ==> r == [setting.key]
    ensures setting.KeyList? ==> r == setting.keys
  {
    match setting
    case Scalar(k) => [k]
    case KeyList(ks) => ks
  }

  datatype Model = Claude | Gpt4o

  /** `response['result']` on the dict the client returned: only a parsed
      JSON body can hold "result"; the image and error dicts do not. */
  function ResultOf(reply: PuterClient.Reply): Result<Json> {
    match reply
    case JsonBody(j) => Index(j, "result")
    case _ => Err(KeyError(Name("result")))
  }

  /** What a successful call returns: `['result']['message']['content'][0]['text']`
      for Claude, `['result']['message']['content']` for GPT-4o. A missing
      member raises, and the attempt counts as failed. */
  function Extract(model: Model, reply: PuterClient.Reply): Result<Json> {
    var result :- ResultOf(reply);
    var message :- Index(result, "message");
    var content :- Index(message, "content");
    if model == Gpt4o then Ok(content)
    else
      var first :- At(content, 0);
      Index(first, "text")
  }

  /** An attempt: the SDK call with the model and the key at `index`
      (`call` says what it returned or raised), then the extraction. */
  function Try(call: (Model, nat) -> Result<PuterClient.Reply>, model: Model, index: nat): Result<Json> {
    var reply :- call(model, index);
    Extract(model, reply)
  }

  /** The attempt at position `p` of the schedule over `n` keys: every
      Claude attempt in key order, then every GPT-4o attempt. */
  function Slot(n: nat, p: nat): (Model, nat)
    requires p < 2 * n
  {
    if p < n then (Claude, p) else (Gpt4o, p - n)
  }

  /** Claude comes before GPT-4o, and no (model, key) pair is tried
      twice. */
  lemma SlotOrder(n: nat, p: nat, q: nat)
    requires p < q < 2 * n
    ensures Slot(n, q).0 == Claude ==> Slot(n, p).0 == Claude
    ensures Slot(n, p) != Slot(n, q)
    ensures Slot(n, p).0 == Slot(n, q).0 ==> Slot(n, p).1 < Slot(n, q).1
  {
  }

  function AllFailed(last: Option<Error>): Json {
    Obj([("error", Str("All API attempts failed. Last error: " + LastErrorText(last)))])
  }

  /** The outcome of the attempts from position `p` of the schedule on,
      `last` being the last error so far: the value returned and the
      number of attempts made in all. */
  function Run(n: nat, call: (Model, nat) -> Result<PuterClient.Reply>, p: nat, last: Option<Error>): (Json, nat)
    requires p <= 2 * n
    decreases 2 * n - p
  {
    if p == 2 * n then (AllFailed(last), p)
    else
      match Try(call, Slot(n, p).0, Slot(n, p).1)
      case Ok(v) => (v, p + 1)
      case Err(e) => Run(n, call, p + 1, Some(e))
  }

  /** The first successful attempt decides the result, and no attempt
      follows it. */
  lemma {:induction false} RunFirstSuccess(n: nat, call: (Model, nat) -> Result<PuterClient.Reply>, p: nat, last: Option<Error>, q: nat)
    requires p <= q < 2 * n
    requires Try(call, Slot(n, q).0, Slot(n, q).1).Ok?
    requires forall k :: p <= k < q ==> Try(call, Slot(n, k).0, Slot(n, k).1).Err?
    ensures Run(n, call, p, last) == (Try(call, Slot(n, q).0, Slot(n, q).1).value, q + 1)
    decreases q - p
  {
    if p < q {
      RunFirstSuccess(n, call, p + 1, Some(Try(call, Slot(n, p).0, Slot(n, p).1).error), q);
    }
  }

  /** When every attempt fails, all 2·n are made and the error names the
      last one's exception (None when there was no key at all). */
  lemma {:induction false} RunAllFail(n: nat, call: (Model, nat) -> Result<PuterClient.Reply>, p: nat, last: Option<Error>)
    requires p <= 2 * n
    requires forall k :: p <= k < 2 * n ==> Try(call, Slot(n, k).0, Slot(n, k).1).Err?
    ensures Run(n, call, p, last) ==
      (AllFailed(if p < 2 * n then Some(Try(call, Slot(n, 2 * n - 1).0, Slot(n, 2 * n - 1).1).error) else last), 2 * n)
    decreases 2 * n - p
  {
    if p < 2 * n {
      RunAllFail(n, call, p + 1, Some(Try(call, Slot(n, p).0, Slot(n, p).1).error));
    }
  }

  /** Where the attempts with `model` start in the schedule. */
  function Base(n: nat, model: Model): nat {
    if model == Claude then 0 else n
  }

  /** One of the two loops of `ChatCompletion.create`: every key in order
      with `model`, returning at the first extracted answer; a failed
      attempt records its exception in `last_error`. */
  method TryEachKey(n: nat, call: (Model, nat) -> Result<PuterClient.Reply>, model: Model, last0: Option<Error>)
    returns (answer: Option<Json>, last: Option<Error>, calls: seq<(Model, nat)>)
    ensures |calls| <= n && forall k :: 0 <= k < |calls| ==> calls[k] == (model, k)
    ensures answer.Some? ==> Run(n, call, Base(n, model), last0) == (answer.value, Base(n, model) + |calls|)
    ensures answer.None? ==> |calls| == n && Run(n, call, Base(n, model), last0) == Run(n, call, Base(n, model) + n, last)
  {
    var base := Base(n, model);
    last := last0;
    calls := [];
    for i := 0 to n
      invariant |calls| == i && forall k :: 0 <= k < i ==> calls[k] == (model, k)
      invariant Run(n, call, base, last0) == Run(n, call, base + i, last)
    {
      calls := calls + [(model, i)];
      // the `try` block: the SDK call, then the extraction
      var outcome := Try(call, model, i);
      if outcome.Ok? {
        return Some(outcome.value), last, calls;
      }
      last := Some(outcome.error);
    }
    answer := None;
  }

  /** The Claude attempts over all `n` keys followed by GPT-4o attempts
      follow the schedule. */
  lemma ScheduleConcat(n: nat, first: seq<(Model, nat)>, second: seq<(Model, nat)>)
    requires |first| <= n && forall k :: 0 <= k < |first| ==> first[k] == (Claude, k)
    requires second != [] ==> |first| == n
    requires |second| <= n && forall k :: 0 <= k < |second| ==> second[k] == (Gpt4o, k)
    ensures |first + second| <= 2 * n
    ensures forall p :: 0 <= p < |first + second| ==> (first + second)[p] == Slot(n, p)
  {
    forall p | 0 <= p < |first + second|
      ensures (first + second)[p] == Slot(n, p)
    {
      if p >= |first| {
        assert (first + second)[p] == second[p - n];
      }
    }
  }

  /** `ChatCompletion.create(messages)`: the loop over the keys with
      Claude, then the loop over the keys with GPT-4o. It returns the
      first extracted answer, or the error dict; `calls` lists the
      attempts made, as (model, key index). */
  method Create(setting: KeySetting, call: (Model, nat) -> Result<PuterClient.Reply>)
    returns (r: Json, calls: seq<(Model, nat)>)
    ensures var n := |KeysOf(setting)|;
      |calls| <= 2 * n
      && (forall p :: 0 <= p < |calls| ==> calls[p] == Slot(n, p))
      && (r, |calls|) == Run(n, call, 0, None)
  {
    var keys := KeysOf(setting);
    var n := |keys|;
    assert Base(n, Claude) == 0 && Base(n, Gpt4o) == n;
    var answer, last, claudeCalls := TryEachKey(n, call, Claude, None);
    if answer.Some? {
      ScheduleConcat(n, claudeCalls, []);
      assert claudeCalls + [] == claudeCalls;
      return answer.value, claudeCalls;
    }
    var gptCalls;
    answer, last, gptCalls := TryEachKey(n, call, Gpt4o, last);
    ScheduleConcat(n, claudeCalls, gptCalls);
    calls := claudeCalls + gptCalls;
    if answer.Some? {
      return answer.value, calls;
    }
    r := AllFailed(last);
  }

  // ---------------------------------------------------------------------
  // ImageGeneration.create

  /** The dict `ImageGeneration.create` returns: the client's reply under
      "response", and either its "error" or its "image_data". */
  datatype ImageResult = ImageResult(response: PuterClient.Reply, error: Option<string>, imageData: Option<PuterClient.Bytes>)

  /** `ImageGeneration.create(prompt, api_key)` without saving to a file:
      with no key given the configured one is used; the client raises on
      an empty key; an error reply is passed on with its message, and an
      image reply with its data. */
  method CreateImage(prompt: string, apiKey: Option<string>, configured: string, send: Json -> PuterClient.HttpOutcome)
    returns (r: Result<ImageResult>, payload: Json)
    ensures var key := if apiKey.Some? then apiKey.value else configured;
      r.Err? <==> key == ""
    ensures r.Err? ==> r.error == ValueError("api key is required")
    ensures r.Ok? ==>
      PuterClient.PayloadHas(payload,
        [("interface", Str("puter-image-generation")), ("test_mode", Bool(false)), ("method", Str("generate"))],
        [("prompt", Str(prompt))])
      && Lookup(PuterClient.Args(payload), "model").None?
      && r.value.response == PuterClient.SendRequest(send(payload), false)
    ensures r.Ok? ==>
      (r.value.response.Failure? || r.value.response.Image?)
      && (r.value.response.Failure? ==> r.value.error == Some(r.value.response.message) && r.value.imageData.None?)
      && (r.value.response.Image? ==> r.value.imageData == Some(r.value.response.data) && r.value.error.None?)
  {
    var key := if apiKey.Some? then apiKey.value else configured;
    payload := Null;
    var init := PuterClient.Init(Some(key));
    if init.Err? {
      return Err(init.error), payload;
    }
    var response;
    response, payload := PuterClient.CreateImage(init.value, prompt, None, send);
    var result := ImageResult(response, None, None);
    if response.Failure? {
      result := result.(error := Some(response.message));
      return Ok(result), payload;
    }
    result := result.(imageData := Some(response.data));
    r := Ok(result);
  }
}
