/** The client's request helper: which server a path goes to, the URL and
    request it sends, and how a response is turned into a value or an error,
    both for mutations (`apiRequest`) and for queries (`getQueryFn`). The
    network itself is outside the model: a request is a value and the
    response is a parameter. */
module QueryClient {
  import opened Wrappers
  import opened Text

  const DefaultOllamaUrl := "https://ollama.com"
  const DefaultApiBaseUrl := "http://localhost:3000"
  /** Paths under this prefix are proxied to the model server. */
  const OllamaPrefix := "/api/ollama"

  /** `env || fallback` for a build-time variable: an unset or empty value
      falls back. */
  function ConfiguredOr(env: Option<string>, fallback: string): (u: string)
    ensures env.Some? && env.value != "" ==> u == env.value
    ensures env.None? || env.value == "" ==> u == fallback
  {
    if env.Some? && env.value != "" then env.value else fallback
  }

  /** The two base URLs, fixed when the client is built. */
  datatype Config = Config(ollamaUrl: string, apiBaseUrl: string)

  /** The base URLs from `VITE_OLLAMA_URL` and `VITE_API_BASE_URL`; neither
      is ever empty. */
  function ConfigFrom(ollamaEnv: Option<string>, apiEnv: Option<string>): (c: Config)
    ensures c.ollamaUrl == ConfiguredOr(ollamaEnv, DefaultOllamaUrl)
    ensures c.apiBaseUrl == ConfiguredOr(apiEnv, DefaultApiBaseUrl)
    ensures c.ollamaUrl != "" && c.apiBaseUrl != ""
  {
    Config(ConfiguredOr(ollamaEnv, DefaultOllamaUrl), ConfiguredOr(apiEnv, DefaultApiBaseUrl))
  }

  predicate IsOllamaRequest(url: string) {
    StartsWith(url, OllamaPrefix)
  }

  function BaseUrl(c: Config, url: string): string {
    if IsOllamaRequest(url) then c.ollamaUrl else c.apiBaseUrl
  }

  /** The path part sent: the proxy prefix is replaced by nothing. */
  function FinalUrl(url: string): string {
    if IsOllamaRequest(url) then ReplaceFirst(url, OllamaPrefix, "") else url
  }

  /** The URL fetched: the chosen base followed by the final path. A path
      under the proxy prefix goes to the model server with the prefix
      removed; any other path goes unchanged to the API server. */
  function RequestUrl(c: Config, url: string): (u: string)
    ensures IsOllamaRequest(url) ==> u == c.ollamaUrl + url[|OllamaPrefix|..]
    ensures !IsOllamaRequest(url) ==> u == c.apiBaseUrl + url
  {
    if IsOllamaRequest(url) then ReplaceAtStart(url, OllamaPrefix); BaseUrl(c, url) + FinalUrl(url)
    else BaseUrl(c, url) + FinalUrl(url)
  }

  /** The generate call of the new-conversation flow reaches the model
      server's own `/api/generate`; the store's paths go to the API server. */
  lemma RequestUrlExamples(c: Config)
    ensures RequestUrl(c, "/api/ollama/api/generate") == c.ollamaUrl + "/api/generate"
    ensures RequestUrl(c, "/api/chats") == c.apiBaseUrl + "/api/chats"
  {
    assert StartsWith("/api/ollama/api/generate", OllamaPrefix);
    assert "/api/ollama/api/generate"[|OllamaPrefix|..] == "/api/generate";
    assert !StartsWith("/api/chats", OllamaPrefix) by {
      assert "/api/chats"[5] != OllamaPrefix[5];
    }
  }

  /** The prefix test is on characters, not path segments: `/api/ollamafoo`
      also goes to the model server, as the path `foo`. */
  lemma PrefixNotSegmentBounded(c: Config)
    ensures RequestUrl(c, "/api/ollamafoo") == c.ollamaUrl + "foo"
  {
    assert StartsWith("/api/ollamafoo", OllamaPrefix);
    assert "/api/ollamafoo"[|OllamaPrefix|..] == "foo";
  }

  /** The JSON values the client sends. */
  datatype Json =
    | JString(s: string)
    | JNumber(n: int)
    | JBool(b: bool)
    | JArray(items: seq<Json>)
    | JObject(members: seq<(string, Json)>)

  /** An uploaded file, by name and contents. */
  datatype File = File(name: string, bytes: seq<int>)

  datatype FormValue = TextValue(text: string) | FileValue(file: File)
  datatype FormEntry = FormEntry(name: string, value: FormValue)

  /** The `data` argument: a plain object or a `FormData`. */
  datatype Payload = JsonData(json: Json) | FormData(entries: seq<FormEntry>)

  /** A request body: none, `JSON.stringify` of a value, or multipart form data. */
  datatype Body = NoBody | JsonBody(json: Json) | FormBody(entries: seq<FormEntry>)

  datatype Request = Request(verb: string, url: string, headers: seq<(string, string)>, body: Body)

  const JsonContentType: (string, string) := ("Content-Type", "application/json")

  /** JavaScript truthiness of the `data` argument: an empty string, zero and
      `false` are falsy; objects, arrays and forms are truthy. */
  predicate Truthy(p: Payload) {
    match p
    case JsonData(JString(s)) => s != ""
    case JsonData(JNumber(n)) => n != 0
    case JsonData(JBool(b)) => b
    case JsonData(_) => true
    case FormData(_) => true
  }

  /** `data ? … : …`: data is sent only when it is given and truthy. */
  predicate HasData(data: Option<Payload>) {
    data.Some? && Truthy(data.value)
  }

  /** The request `apiRequest` sends, as written. Truthy data is sent as
      JSON with a JSON content type; `JSON.stringify` of a `FormData` object
      is `{}`, so form data is sent as an empty object. Absent or falsy data
      sends no header and no body. */
  function ApiRequestAsWritten(c: Config, verb: string, url: string, data: Option<Payload>): (req: Request)
    ensures req.verb == verb && req.url == RequestUrl(c, url)
    ensures HasData(data) <==> req.headers == [JsonContentType]
    ensures !HasData(data) <==> req.headers == [] && req.body == NoBody
    ensures HasData(data) && data.value.JsonData? ==> req.body == JsonBody(data.value.json)
    ensures data.Some? && data.value.FormData? ==> req.body == JsonBody(JObject([]))
  {
    if !HasData(data) then Request(verb, RequestUrl(c, url), [], NoBody)
    else Request(verb, RequestUrl(c, url), [JsonContentType],
      match data.value
      case JsonData(j) => JsonBody(j)
      case FormData(_) => JsonBody(JObject([])))
  }

  /** As written, a form request carries none of its entries: two forms with
      different prompts produce the same request. */
  lemma FormDataLost(c: Config, url: string, p1: string, p2: string)
    ensures ApiRequestAsWritten(c, "POST", url, Some(FormData([FormEntry("prompt", TextValue(p1))])))
         == ApiRequestAsWritten(c, "POST", url, Some(FormData([FormEntry("prompt", TextValue(p2))])))
  {
  }

  /** Falsy data is dropped: an empty string, `0` or `false` is sent like no
      data at all. */
  lemma FalsyDataDropped(c: Config, verb: string, url: string)
    ensures ApiRequestAsWritten(c, verb, url, Some(JsonData(JString("")))) == ApiRequestAsWritten(c, verb, url, None)
    ensures ApiRequestAsWritten(c, verb, url, Some(JsonData(JNumber(0)))) == ApiRequestAsWritten(c, verb, url, None)
    ensures ApiRequestAsWritten(c, verb, url, Some(JsonData(JBool(false)))) == ApiRequestAsWritten(c, verb, url, None)
  {
  }

  /** The request `apiRequest` is evidently meant to send: the same test on
      the data, but a form goes as a multipart body with no explicit content
      type (the browser supplies the boundary). */
  function ApiRequest(c: Config, verb: string, url: string, data: Option<Payload>): (req: Request)
    ensures req.verb == verb && req.url == RequestUrl(c, url)
    ensures HasData(data) && data.value.JsonData? <==> req.headers == [JsonContentType]
    ensures !HasData(data) <==> req.body == NoBody
    ensures HasData(data) && data.value.JsonData? ==> req.body == JsonBody(data.value.json)
    ensures data.Some? && data.value.FormData? ==> req.body == FormBody(data.value.entries)
  {
    if !HasData(data) then Request(verb, RequestUrl(c, url), [], NoBody)
    else match data.value
      case JsonData(j) => Request(verb, RequestUrl(c, url), [JsonContentType], JsonBody(j))
      case FormData(es) => Request(verb, RequestUrl(c, url), [], FormBody(es))
  }

  /** The corrected request keeps what the caller sent: payloads that are
      sent at all give different requests when they differ. */
  lemma ApiRequestKeepsPayload(c: Config, verb: string, url: string, d1: Option<Payload>, d2: Option<Payload>)
    requires HasData(d1) && HasData(d2)
    ensures ApiRequest(c, verb, url, d1) == ApiRequest(c, verb, url, d2) ==> d1 == d2
  {
  }

  /** Both agree on everything but form data: requests without data or with
      JSON data are sent the same way. */
  lemma AsWrittenAgreesOnJson(c: Config, verb: string, url: string, data: Option<Payload>)
    ensures ApiRequestAsWritten(c, verb, url, data) == ApiRequest(c, verb, url, data)
        <==> data.None? || data.value.JsonData?
  {
  }

  /** An abstract fetch response. */
  datatype Response = Response(status: nat, statusText: string, text: string)

  /** `res.ok`: a status in the range 200-299. */
  predicate Ok(res: Response) {
    200 <= res.status <= 299
  }

  const ApiFailurePrefix := "API request failed: "

  /** What `apiRequest` resolves to: the response itself when it is ok, and
      otherwise an error naming the status. */
  function ApiResponse(res: Response): (r: Result<Response, string>)
    ensures r.Success? <==> Ok(res)
    ensures r.Success? ==> r.value == res
    ensures r.Failure? ==> r.error == ApiFailurePrefix + NatToString(res.status)
  {
    if !Ok(res) then Failure(ApiFailurePrefix + NatToString(res.status)) else Success(res)
  }

  /** The status can be read back from the error of a failed request. */
  lemma ApiFailureStatus(res: Response)
    requires !Ok(res)
    ensures var e := ApiResponse(res).error;
      && StartsWith(e, ApiFailurePrefix)
      && AllDigits(e[|ApiFailurePrefix|..])
      && ParseNat(e[|ApiFailurePrefix|..]) == res.status
  {
    var e := ApiResponse(res).error;
    assert e[|ApiFailurePrefix|..] == NatToString(res.status);
    ParseNatToString(res.status);
  }

  /** The error `throwIfResNotOk` raises for a non-ok response: the status,
      then the body, or the status text when the body is empty. */
  function NotOkMessage(res: Response): string {
    NatToString(res.status) + ": " + (if res.text != "" then res.text else res.statusText)
  }

  /** `throwIfResNotOk`: no error for an ok response, otherwise its message. */
  function ThrowIfResNotOk(res: Response): (e: Option<string>)
    ensures e.None? <==> Ok(res)
    ensures e.Some? ==> e.value == NotOkMessage(res)
  {
    if !Ok(res) then Some(NotOkMessage(res)) else None
  }

  /** The message splits back into the status and the text it reports. */
  lemma NotOkMessageParts(res: Response)
    ensures var m := NotOkMessage(res); var n := |NatToString(res.status)|;
      && n + 2 <= |m|
      && AllDigits(m[..n]) && ParseNat(m[..n]) == res.status
      && m[n..n + 2] == ": "
      && m[n + 2..] == (if res.text != "" then res.text else res.statusText)
  {
    var m := NotOkMessage(res);
    var n := |NatToString(res.status)|;
    assert m[..n] == NatToString(res.status);
    ParseNatToString(res.status);
  }

  /** The `on401` option of a query function. */
  datatype UnauthorizedBehavior = ReturnNull | Throw

  /** The query client's default: a 401 is an error like any other. */
  const DefaultOn401 := Throw

  /** What a query resolves to: the parsed body, `null`, or an error. */
  datatype QueryResult = Data(text: string) | Null | QueryError(message: string)

  /** A query: with `returnNull`, a 401 yields `null`; otherwise a non-ok
      response fails with `throwIfResNotOk`'s message, and an ok one yields
      its body. */
  function QueryOutcome(on401: UnauthorizedBehavior, res: Response): (q: QueryResult)
    ensures q.Null? <==> on401 == ReturnNull && res.status == 401
    ensures q.QueryError? <==> !(on401 == ReturnNull && res.status == 401) && !Ok(res)
    ensures q.QueryError? ==> q.message == NotOkMessage(res)
    ensures q.Data? ==> q.text == res.text
  {
    if on401 == ReturnNull && res.status == 401 then Null
    else match ThrowIfResNotOk(res)
      case Some(e) => QueryError(e)
      case None => Data(res.text)
  }

  /** With the client's default behaviour a query never yields `null`, and a
      401 fails like any other non-ok status. */
  lemma DefaultQueryNeverNull(res: Response)
    ensures QueryOutcome(DefaultOn401, res) != Null
    ensures res.status == 401 ==> QueryOutcome(DefaultOn401, res) == QueryError(NotOkMessage(res))
  {
  }
}
