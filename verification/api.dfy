/** The HTTP service layer: request construction for the skip-by-location
    query, the request configuration merge, the ok / not-ok decision and the
    verb helpers. The network call (`fetch`), body decoding (`response.json()`),
    `JSON.stringify` and `URLSearchParams` percent-encoding are parameters. */
module Api {
  import opened Wrappers
  import opened Text

  const ApiBaseUrl: string := "https://app.wewantwaste.co.uk/api"
  const LocationPath: string := "/skips/by-location?"
  const ContentTypeHeader: string := "Content-Type"
  const JsonContentType: string := "application/json"

  /** A JavaScript `Error`; only its message is observable to callers. */
  datatype Error = Error(message: string)

  type Headers = map<string, string>

  /** The `options` object a caller may pass; `None` means the key is absent. */
  datatype Options = Options(verb: Option<string>, headers: Option<Headers>, body: Option<string>)

  const NoOptions: Options := Options(None, None, None)

  /** The configuration object handed to `fetch`. */
  datatype Config = Config(headers: Headers, verb: Option<string>, body: Option<string>)

  datatype Request = Request(url: string, config: Config)

  /** What `response.json()` produced on an answered request. */
  datatype Reply<T> = Reply(ok: bool, status: int, statusText: string, json: Result<T, Error>)

  /** What `fetch` produced: an answer, or a rejected promise. */
  datatype Transport<T> = Answered(reply: Reply<T>) | NetworkFailure(error: Error)

  // ---------------------------------------------------------------------------
  // Query string for the location lookup

  /** The `URLSearchParams` entries, in insertion order: `postcode` always,
      then `area` only when `area` is truthy (a non-empty string). */
  function LocationParams(postcode: string, area: string): (ps: seq<(string, string)>)
    ensures |ps| >= 1 && ps[0] == ("postcode", postcode)
    ensures |ps| == 2 <==> area != ""
    ensures |ps| <= 2
    ensures |ps| == 2 ==> ps[1] == ("area", area)
  {
    [("postcode", postcode)] + (if area != "" then [("area", area)] else [])
  }

  function EncodePair(p: (string, string), encode: string -> string): string {
    Join([encode(p.0), encode(p.1)], '=')
  }

  /** `URLSearchParams.toString()`: encoded `name=value` pairs joined by '&'. */
  function QueryString(ps: seq<(string, string)>, encode: string -> string): string
    requires |ps| >= 1
  {
    Join(seq(|ps|, i requires 0 <= i < |ps| => EncodePair(ps[i], encode)), '&')
  }

  /** Reads a query string back into its `[name, value]` pieces. */
  function ParseQuery(q: string): seq<seq<string>> {
    var parts := Split(q, '&');
    seq(|parts|, i requires 0 <= i < |parts| => Split(parts[i], '='))
  }

  /** Encoders in the style of `URLSearchParams`: they escape '&' and '='. */
  ghost predicate SafeEncoder(encode: string -> string) {
    forall x :: '&' !in encode(x) && '=' !in encode(x)
  }

  /** The endpoint passed to `apiRequest` by `getSkipsByLocation`. */
  function LocationEndpoint(postcode: string, area: string, encode: string -> string): (e: string)
    ensures |e| > |LocationPath| && e[..|LocationPath|] == LocationPath
  {
    LocationPath + QueryString(LocationParams(postcode, area), encode)
  }

  /** The endpoint is the fixed path followed by a query that reads back as the
      postcode entry, followed by the area entry exactly when the area is non-empty. */
  lemma LocationEndpointParses(postcode: string, area: string, encode: string -> string)
    requires SafeEncoder(encode)
    ensures var e := LocationEndpoint(postcode, area, encode);
      && e[..|LocationPath|] == LocationPath
      && var q := ParseQuery(e[|LocationPath|..]);
      && q[0] == [encode("postcode"), encode(postcode)]
      && (|q| == 2 <==> area != "")
      && |q| <= 2
      && (area != "" ==> q[1] == [encode("area"), encode(area)])
  {
    var ps := LocationParams(postcode, area);
    var e := LocationEndpoint(postcode, area, encode);
    assert e[|LocationPath|..] == QueryString(ps, encode);
    QueryRoundTrip(ps, encode);
  }

  lemma QueryRoundTrip(ps: seq<(string, string)>, encode: string -> string)
    requires |ps| >= 1
    requires SafeEncoder(encode)
    ensures var q := ParseQuery(QueryString(ps, encode));
      && |q| == |ps|
      && forall i :: 0 <= i < |ps| ==> q[i] == [encode(ps[i].0), encode(ps[i].1)]
  {
    var pairs := seq(|ps|, i requires 0 <= i < |ps| => EncodePair(ps[i], encode));
    forall k | 0 <= k < |pairs|
      ensures '&' !in pairs[k]
    {
      var a, b := encode(ps[k].0), encode(ps[k].1);
      assert pairs[k] == EncodePair(ps[k], encode) == Join([a, b], '=');
      JoinTwo(a, b, '=');
    }
    SplitJoin(pairs, '&');
    forall i | 0 <= i < |ps|
      ensures Split(pairs[i], '=') == [encode(ps[i].0), encode(ps[i].1)]
    {
      SplitJoin([encode(ps[i].0), encode(ps[i].1)], '=');
    }
  }

  // ---------------------------------------------------------------------------
  // Request configuration

  const DefaultHeaders: Headers := map[ContentTypeHeader := JsonContentType]

  /** The inner `{ 'Content-Type': ..., ...options.headers }` object. */
  function MergedHeaders(options: Options): Headers {
    match options.headers
    case Some(h) => DefaultHeaders + h
    case None => DefaultHeaders
  }

  /** The configuration as written: `...options` is spread after `headers`,
      so a caller-supplied `headers` key replaces the merged headers. */
  function BuildConfig(options: Options): (c: Config)
    ensures options.headers.Some? ==> c.headers == options.headers.value
    ensures options.headers.None? ==> c.headers == map[ContentTypeHeader := JsonContentType]
    ensures c.verb == options.verb && c.body == options.body
  {
    Config(
      if options.headers.Some? then options.headers.value else MergedHeaders(options),
      options.verb,
      options.body)
  }

  /** The configuration with the header merge the code evidently intends: the
      JSON content type is always present unless the caller overrides that very
      header, and every caller header is kept. */
  function BuildConfigMerged(options: Options): (c: Config)
    ensures ContentTypeHeader in c.headers
    ensures options.headers.Some? ==> forall k :: k in options.headers.value ==>
      k in c.headers && c.headers[k] == options.headers.value[k]
    ensures (options.headers.None? || ContentTypeHeader !in options.headers.value) ==>
      c.headers[ContentTypeHeader] == JsonContentType
    ensures forall k :: k in c.headers ==>
      k == ContentTypeHeader || (options.headers.Some? && k in options.headers.value)
    ensures c.verb == options.verb && c.body == options.body
  {
    Config(MergedHeaders(options), options.verb, options.body)
  }

  /** A caller that passes its own headers loses the JSON content type. */
  lemma SpreadDropsContentType()
    ensures var o := Options(None, Some(map["Authorization" := "token"]), None);
      && ContentTypeHeader !in BuildConfig(o).headers
      && ContentTypeHeader in BuildConfigMerged(o).headers
  {
    var o := Options(None, Some(map["Authorization" := "token"]), None);
    assert ContentTypeHeader != "Authorization";
  }

  /** Without caller headers, which is every call this service makes, the two
      configurations agree. */
  lemma ConfigsAgreeWithoutHeaders(options: Options)
    requires options.headers.None?
    ensures BuildConfig(options) == BuildConfigMerged(options)
  {
  }

  function RequestFor(endpoint: string, options: Options): (r: Request)
    ensures |r.url| >= |ApiBaseUrl| && r.url[..|ApiBaseUrl|] == ApiBaseUrl && r.url[|ApiBaseUrl|..] == endpoint
    ensures r.config == BuildConfigMerged(options)
  {
    Request(ApiBaseUrl + endpoint, BuildConfigMerged(options))
  }

  // ---------------------------------------------------------------------------
  // Response handling

  const StatusPrefix: string := "API Error: "

  /** The message of the error thrown for a non-ok response. */
  function StatusMessage(status: int, statusText: string): (msg: string)
    ensures |msg| > |StatusPrefix| + |statusText| && msg[..|StatusPrefix|] == StatusPrefix
    ensures msg[|msg| - |statusText|..] == statusText
    ensures ParseStatusMessage(msg) == Some((status, statusText))
  {
    var rest := IntToString(status) + " " + statusText;
    StatusRestParses(status, statusText);
    PrefixedMessageParses(rest, status, statusText);
    StatusPrefix + rest
  }

  /** The part after the prefix splits at its first space into code and text. */
  lemma StatusRestParses(status: int, statusText: string)
    ensures var code := IntToString(status);
      var rest := code + " " + statusText;
      && ' ' in rest
      && IndexOf(rest, ' ') == |code|
      && ParseInt(rest[..|code|]) == Some(status)
      && rest[|code| + 1..] == statusText
  {
    var code := IntToString(status);
    var rest := code + " " + statusText;
    assert rest[|code|] == ' ';
    assert rest[..|code|] == code;
    ParseIntToString(status);
  }

  lemma PrefixedMessageParses(rest: string, status: int, statusText: string)
    requires ' ' in rest
    requires ParseInt(rest[..IndexOf(rest, ' ')]) == Some(status)
    requires rest[IndexOf(rest, ' ') + 1..] == statusText
    ensures ParseStatusMessage(StatusPrefix + rest) == Some((status, statusText))
  {
    var msg := StatusPrefix + rest;
    assert msg[..|StatusPrefix|] == StatusPrefix;
    assert msg[|StatusPrefix|..] == rest;
  }

  /** Reads status code and status text back out of a status-error message. */
  function ParseStatusMessage(msg: string): Option<(int, string)> {
    var prefix := StatusPrefix;
    if |msg| < |prefix| || msg[..|prefix|] != prefix then None
    else
      var rest := msg[|prefix|..];
      if ' ' !in rest then None
      else
        var i := IndexOf(rest, ' ');
        match ParseInt(rest[..i])
        case Some(code) => Some((code, rest[i + 1..]))
        case None => None
  }

  /** The `try` body after `fetch` settles: a rejected fetch is rethrown
      unchanged, a non-ok status throws without reading the body, and an ok
      response yields whatever `response.json()` yields. */
  function Settle<T>(t: Transport<T>): (r: Result<T, Error>)
    ensures t.NetworkFailure? ==> r == Failure(t.error)
    ensures t.Answered? && !t.reply.ok ==>
      r.Failure? && ParseStatusMessage(r.error.message) == Some((t.reply.status, t.reply.statusText))
    ensures t.Answered? && t.reply.ok ==> r == t.reply.json
  {
    match t
    case NetworkFailure(e) => Failure(e)
    case Answered(reply) =>
      if !reply.ok then
        Failure(Error(StatusMessage(reply.status, reply.statusText)))
      else reply.json
  }

  /** A non-ok response fails the same way whatever its body holds. */
  lemma NotOkIgnoresBody<T>(status: int, statusText: string, a: Result<T, Error>, b: Result<T, Error>)
    ensures Settle(Answered(Reply(false, status, statusText, a)))
         == Settle(Answered(Reply(false, status, statusText, b)))
  {
  }

  /** `apiRequest(endpoint, options)`, with `fetch` as a parameter. */
  function ApiRequest<T>(endpoint: string, options: Options, fetch: Request -> Transport<T>): (r: Result<T, Error>)
    ensures var t := fetch(Request(ApiBaseUrl + endpoint, BuildConfigMerged(options)));
      && (t.NetworkFailure? ==> r == Failure(t.error))
      && (t.Answered? && t.reply.ok ==> r == t.reply.json)
      && (t.Answered? && !t.reply.ok ==> r == Failure(Error(StatusMessage(t.reply.status, t.reply.statusText))))
  {
    Settle(fetch(RequestFor(endpoint, options)))
  }

  /** `skipAPI.getSkipsByLocation(postcode, area)`: a plain JSON GET of the
      location endpoint. */
  function GetSkipsByLocation<T>(postcode: string, area: string, encode: string -> string,
                                 fetch: Request -> Transport<T>): (r: Result<T, Error>)
    ensures var req := Request(ApiBaseUrl + LocationEndpoint(postcode, area, encode),
                               Config(DefaultHeaders, None, None));
      r == Settle(fetch(req))
  {
    ApiRequest(LocationEndpoint(postcode, area, encode), NoOptions, fetch)
  }

  // ---------------------------------------------------------------------------
  // Verb helpers (`api.get/post/put/delete`): the options each one passes

  function GetOptions(): Options {
    NoOptions
  }

  function PostOptions(json: string): Options {
    Options(Some("POST"), None, Some(json))
  }

  function PutOptions(json: string): Options {
    Options(Some("PUT"), None, Some(json))
  }

  function DeleteOptions(): Options {
    Options(Some("DELETE"), None, None)
  }

  /** `api.get`: no method of its own, no body, the JSON content type. */
  function Get<T>(endpoint: string, fetch: Request -> Transport<T>): (r: Result<T, Error>)
    ensures r == Settle(fetch(Request(ApiBaseUrl + endpoint, Config(DefaultHeaders, None, None))))
    ensures BuildConfig(GetOptions()) == Config(DefaultHeaders, None, None)
  {
    ApiRequest(endpoint, GetOptions(), fetch)
  }

  /** `api.post`: method POST and the stringified data as body. */
  function Post<D, T>(endpoint: string, data: D, stringify: D -> string,
                      fetch: Request -> Transport<T>): (r: Result<T, Error>)
    ensures var config := Config(DefaultHeaders, Some("POST"), Some(stringify(data)));
      && r == Settle(fetch(Request(ApiBaseUrl + endpoint, config)))
      && BuildConfig(PostOptions(stringify(data))) == config
  {
    ApiRequest(endpoint, PostOptions(stringify(data)), fetch)
  }

  /** `api.put`: method PUT and the stringified data as body. */
  function Put<D, T>(endpoint: string, data: D, stringify: D -> string,
                     fetch: Request -> Transport<T>): (r: Result<T, Error>)
    ensures var config := Config(DefaultHeaders, Some("PUT"), Some(stringify(data)));
      && r == Settle(fetch(Request(ApiBaseUrl + endpoint, config)))
      && BuildConfig(PutOptions(stringify(data))) == config
  {
    ApiRequest(endpoint, PutOptions(stringify(data)), fetch)
  }

  /** `api.delete`: method DELETE and no body. */
  function Delete<T>(endpoint: string, fetch: Request -> Transport<T>): (r: Result<T, Error>)
    ensures r == Settle(fetch(Request(ApiBaseUrl + endpoint, Config(DefaultHeaders, Some("DELETE"), None))))
    ensures BuildConfig(DeleteOptions()) == Config(DefaultHeaders, Some("DELETE"), None)
  {
    ApiRequest(endpoint, DeleteOptions(), fetch)
  }
}
