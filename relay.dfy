/**
  What the two relay endpoints share: the HTTP response they build, the
  cross-origin headers, the fixed caller-facing messages, the inputs that stand
  for I/O (the parsed request body, the environment key, the upstream reply)
  and the classification of a failed upstream reply.
 */
module Relay {

  import opened Wrappers
  import opened Js

  /** The JSON body of a response. `NoBody` is the preflight's null body;
      `ImageBody.text` is None when the JSON field `text` is null. */
  datatype Body =
    | NoBody
    | ErrorBody(error: Message)
    | PromptBody(prompt: string)
    | ImageBody(imageUrl: string, text: Option<JsValue>)

  datatype Response = Response(status: int, headers: map<string, string>, body: Body)

  const CorsHeaders: map<string, string> := map[
    "Access-Control-Allow-Origin" := "*",
    "Access-Control-Allow-Headers" :=
      "authorization, x-client-info, apikey, content-type, x-supabase-client-platform, "
      + "x-supabase-client-platform-version, x-supabase-client-runtime, x-supabase-client-runtime-version"
  ]

  const JsonHeaders: map<string, string> := CorsHeaders["Content-Type" := "application/json"]

  /** The fixed caller-facing error messages; `Text` gives the words on the wire. */
  datatype Message =
    | DescriptionRequired
    | InvalidStyle
    | PromptRequired
    | ConfigurationError
    | RateLimited
    | AuthenticationFailed
    | Unavailable
    | PromptFailed
    | ImageFailed
    | Unexpected

  function Text(m: Message): string
  {
    match m
    case DescriptionRequired => "Description is required and cannot be empty"
    case InvalidStyle => "Invalid style parameter"
    case PromptRequired => "Prompt is required and cannot be empty"
    case ConfigurationError => "Service configuration error. Please contact support."
    case RateLimited => "Rate limit exceeded. Please try again later."
    case AuthenticationFailed => "Service authentication failed. Please contact support."
    case Unavailable => "Service temporarily unavailable. Please try again later."
    case PromptFailed => "Failed to generate prompt. Please try again."
    case ImageFailed => "Failed to generate image. Please try again."
    case Unexpected => "An unexpected error occurred. Please try again."
  }

  /** The answer to a CORS preflight: status 200, a null body, the CORS headers only. */
  function Preflight(): (r: Response)
    ensures r.status == 200 && r.body.NoBody?
    ensures "Content-Type" !in r.headers
    ensures "Access-Control-Allow-Origin" in r.headers && r.headers["Access-Control-Allow-Origin"] == "*"
  {
    Response(200, CorsHeaders, NoBody)
  }

  function Failure(status: int, message: Message): Response
  {
    Response(status, JsonHeaders, ErrorBody(message))
  }

  function Success(body: Body): Response
  {
    Response(200, JsonHeaders, body)
  }

  /** The parsed request body. `Unreadable`: `req.json()` threw. `NullJson`: the body
      was the JSON literal null, which the destructuring assignment rejects with a
      TypeError. Any other JSON value is `Destructured`, with the fields it lacks Undefined. */
  datatype RequestJson<F> = Unreadable | NullJson | Destructured(fields: F)

  /** The environment lookup of the upstream API key. */
  predicate KeyConfigured(key: Option<string>)
  {
    key.Some? && key.value != ""
  }

  /** The single upstream call a relay makes: the model, the key (sent in the URL) and
      the one text part. The generation settings it also sends are not modelled. */
  datatype UpstreamRequest = UpstreamRequest(model: string, key: string, text: string)

  /** What a relay decides before contacting upstream: answer at once, or make the
      call that `request` describes. */
  datatype Plan<Q> = Respond(response: Response) | Call(request: Q)

  /** The JSON body of an upstream reply: `Malformed` when `response.json()` throws or
      yields null, on which reading `candidates` throws. */
  datatype Parse<T> = Malformed | Parsed(value: T)

  /** The outcome of the upstream call: `FetchFailed` when `fetch` itself throws. */
  datatype Upstream<T> = FetchFailed | Replied(status: int, body: Parse<T>)

  /** `response.ok` of the Fetch standard. */
  predicate IsOk(status: int)
    ensures IsOk(status) ==> status != 429 && status != 401 && status != 403 && status < 500
  {
    200 <= status <= 299
  }

  /** The caller-facing response to a failed upstream reply. The upstream body plays no
      part, so nothing of it reaches the caller; `generic` is the relay's own
      "Failed to generate ..." message for the statuses no band claims. */
  function Classify(status: int, generic: Message): (r: Response)
    ensures r.headers == JsonHeaders && r.body.ErrorBody?
    ensures status == 429 ==> r.status == 429 && r.body.error == RateLimited
    ensures status == 401 || status == 403 ==> r.status == 500 && r.body.error == AuthenticationFailed
    ensures status >= 500 ==> r.status == 503 && r.body.error == Unavailable
    ensures status != 429 && status != 401 && status != 403 && status < 500 ==>
              r.status == 500 && r.body.error == generic
  {
    if status == 429 then Failure(429, RateLimited)
    else if status == 401 || status == 403 then Failure(500, AuthenticationFailed)
    else if status >= 500 then Failure(503, Unavailable)
    else Failure(500, generic)
  }

  /** The two relays apply one failure policy: for every failed status they answer
      with the same caller status, and with the same message except in the generic band. */
  lemma SameFailurePolicy(status: int)
    requires !IsOk(status)
    ensures Classify(status, PromptFailed).status == Classify(status, ImageFailed).status
    ensures (Classify(status, PromptFailed) == Classify(status, ImageFailed))
              <==> (status == 429 || status == 401 || status == 403 || status >= 500)
  {
  }
}
