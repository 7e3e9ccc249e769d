/** What the Reddit scraper (`YARS`) shares between its operations: the
    outcome of one HTTP GET, the server modelled as the scripted sequence
    of those outcomes, and the timestamp conversion applied to records.

    The transport (a `requests` session with a random user agent, an
    optional proxy and a retry policy for 429/500/502/503/504) is not
    modelled: each GET is one `Reply`, whatever retries happened inside it. */
module RedditCore {
  import opened Py
  import opened Json

  /** The outcome of `session.get(...)`. `NoResponse`: the call itself
      raised (a connection error, a timeout, retries exhausted), so no
      response object exists. `Response`: the server answered with
      `status`; `body` is the parsed JSON, or `None` when `response.json()`
      would raise. */
  datatype Reply =
    | NoResponse
    | Response(status: int, body: Option<Json>)

  /** `response.raise_for_status()` raises for client and server errors;
      `bool(response)` is false exactly then. */
  predicate RaisesForStatus(status: int) {
    400 <= status < 600
  }

  /** The reply to the `i`-th request of a run. The server answers the
      requests in order from the script; once the script is exhausted it
      no longer answers. */
  function ReplyAt(replies: seq<Reply>, i: nat): Reply {
    if i < |replies| then replies[i] else NoResponse
  }

  const RedditOrigin: string := "https://www.reddit.com"

  /** `_convert_timestamp`: a falsy timestamp becomes the empty string;
      any other is handed to `datetime.fromtimestamp(..).strftime(..)`,
      which depends on the host's time zone and is therefore the
      parameter `fmt` (it may raise, for a value that is not a number). */
  function ConvertTimestamp(ts: Json, fmt: Json -> Result<string>): (r: Result<string>)
    ensures !Truthy(ts) ==> r == Ok("")
    ensures Truthy(ts) ==> r == fmt(ts)
  {
    if !Truthy(ts) then Ok("") else fmt(ts)
  }

  function Max(a: int, b: int): int {
    if a < b then b else a
  }
}
