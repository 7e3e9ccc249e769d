/** `GitHubCompletion.create`: the chat call against the GitHub models
    endpoint, failing over across the configured tokens in order. The SDK
    call is an input: for each token index, the message contents of the
    reply's choices, or the exception the call raised. */
module GitHubApi {
  import opened Py
  import opened Json

  /** `api_keys.GITHUB_TOKEN`: one token or a list of tokens. */
  datatype TokenSetting = Scalar(token: string) | TokenList(tokens: seq<string>)

  /** The tokens tried, in order: a single token is a one-element list. */
  function TokensOf(setting: TokenSetting): (r: seq<string>)
    ensures setting.Scalar? ==> r == [setting.token]
    ensures setting.TokenList? ==> r == setting.tokens
  {
    match setting
    case Scalar(t) => [t]
    case TokenList(ts) => ts
  }

  /** One attempt: `response.choices[0].message.content`, where `call`
      gives the contents of the choices, or the exception raised. */
  function Try(call: nat -> Result<seq<Json>>, index: nat): Result<Json> {
    var choices :- call(index);
    if choices == [] then Err(IndexError) else Ok(choices[0])
  }

  function AllFailed(last: Option<Error>): Json {
    Obj([("error", Str("All GitHub API attempts failed. Last error: " + LastErrorText(last)))])
  }

  /** The outcome of the attempts from token `p` on, `last` being the last
      error so far: the value returned and the number of attempts made in
      all. */
  function Run(n: nat, call: nat -> Result<seq<Json>>, p: nat, last: Option<Error>): (Json, nat)
    requires p <= n
    decreases n - p
  {
    if p == n then (AllFailed(last), p)
    else
      match Try(call, p)
      case Ok(v) => (v, p + 1)
      case Err(e) => Run(n, call, p + 1, Some(e))
  }

  /** The first token whose attempt succeeds decides the result, and no
      later token is tried. */
  lemma {:induction false} RunFirstSuccess(n: nat, call: nat -> Result<seq<Json>>, p: nat, last: Option<Error>, q: nat)
    requires p <= q < n && Try(call, q).Ok?
    requires forall k :: p <= k < q ==> Try(call, k).Err?
    ensures Run(n, call, p, last) == (Try(call, q).value, q + 1)
    decreases q - p
  {
    if p < q {
      RunFirstSuccess(n, call, p + 1, Some(Try(call, p).error), q);
    }
  }

  /** When every attempt fails, each token is tried once and the error
      names the last exception; with no token it reads "Last error: None". */
  lemma {:induction false} RunAllFail(n: nat, call: nat -> Result<seq<Json>>, p: nat, last: Option<Error>)
    requires p <= n
    requires forall k :: p <= k < n ==> Try(call, k).Err?
    ensures Run(n, call, p, last) == (AllFailed(if p < n then Some(Try(call, n - 1).error) else last), n)
    decreases n - p
  {
    if p < n {
      RunAllFail(n, call, p + 1, Some(Try(call, p).error));
    }
  }

  /** With no token at all, no call is made. */
  lemma NoTokens(call: nat -> Result<seq<Json>>)
    ensures Run(0, call, 0, None) == (Obj([("error", Str("All GitHub API attempts failed. Last error: None"))]), 0)
  {
    assert "All GitHub API attempts failed. Last error: " + "None" == "All GitHub API attempts failed. Last error: None";
  }

  /** `GitHubCompletion.create(messages)`: the loop over the tokens. It
      returns the first content, or the error dict; `calls` lists the
      token indices tried. */
  method Create(setting: TokenSetting, call: nat -> Result<seq<Json>>) returns (r: Json, calls: seq<nat>)
    ensures var n := |TokensOf(setting)|;
      |calls| <= n
      && (forall p :: 0 <= p < |calls| ==> calls[p] == p)
      && (r, |calls|) == Run(n, call, 0, None)
  {
    var tokens := TokensOf(setting);
    var n := |tokens|;
    var last: Option<Error> := None;
    calls := [];
    for i := 0 to n
      invariant |calls| == i && forall p :: 0 <= p < i ==> calls[p] == p
      invariant Run(n, call, 0, None) == Run(n, call, i, last)
    {
      calls := calls + [i];
      var response := call(i);
      if response.Ok? {
        if response.value == [] {
          last := Some(IndexError);
        } else {
          return response.value[0], calls;
        }
      } else {
        last := Some(response.error);
      }
    }
    r := AllFailed(last);
  }
}
