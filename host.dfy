/**
 * What the notifier takes from its JavaScript host, made explicit: JSON
 * bodies, the clock, the process (its environment and command line) and the
 * runtime services it calls but does not implement (fetch, HMAC-SHA256 with
 * base64, encodeURIComponent).
 */
module Host {
  import opened Wrappers

  /**
   * A JSON value as `JSON.stringify` writes it. Object members keep their
   * insertion order; members whose value is `undefined` are left out by the
   * encoder, so they never appear here.
   */
  datatype Json =
    | JBool(b: bool)
    | JString(s: string)
    | JArray(items: seq<Json>)
    | JObject(members: seq<(string, Json)>)

  /** One call of `fetch(url, { method: 'POST', body })` with a JSON body. */
  datatype Request = Request(url: string, body: Json)

  /**
   * An instant as the notifier reads it: `Date.now()` in milliseconds and the
   * `zh-CN` renderings of `toLocaleString` and `toLocaleDateString`.
   */
  datatype Moment = Moment(epochMillis: nat, dateTime: string, date: string)

  /** The running process: `process.env`, which `quickSend` writes, and `process.argv`. */
  class Process {
    var env: map<string, string>
    const argv: seq<string>

    constructor (env: map<string, string>, argv: seq<string>)
      ensures this.env == env && this.argv == argv
    {
      this.env := env;
      this.argv := argv;
    }
  }

  /** `process.env[key]`: undefined when the variable is not set. */
  function EnvGet(env: map<string, string>, key: string): Option<string> {
    if key in env then Some(env[key]) else None
  }

  /**
   * The runtime services the client calls. `fetches` records every call of
   * `fetch`, in order. `respond(i, request)` is what the i-th call yields: the
   * `errcode` of the JSON reply, or None when `fetch` or `response.json()`
   * throws or the reply has no numeric `errcode`.
   */
  class Runtime {
    var fetches: seq<Request>
    const respond: (nat, Request) -> Option<int>
    /** base64 of HMAC-SHA256 under the key (first argument) of the UTF-8 message (second argument). */
    const hmacSha256Base64: (string, string) -> string
    const encodeUriComponent: string -> string

    constructor (respond: (nat, Request) -> Option<int>,
                 hmacSha256Base64: (string, string) -> string,
                 encodeUriComponent: string -> string)
      ensures fetches == []
      ensures this.respond == respond
      ensures this.hmacSha256Base64 == hmacSha256Base64
      ensures this.encodeUriComponent == encodeUriComponent
    {
      fetches := [];
      this.respond := respond;
      this.hmacSha256Base64 := hmacSha256Base64;
      this.encodeUriComponent := encodeUriComponent;
    }

    /** Performs one POST and reports the `errcode` the reply carries, if any. */
    method Fetch(request: Request) returns (errcode: Option<int>)
      modifies this
      ensures fetches == old(fetches) + [request]
      ensures errcode == respond(|old(fetches)|, request)
    {
      errcode := respond(|fetches|, request);
      fetches := fetches + [request];
    }
  }
}
