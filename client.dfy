/** The API client: how each operation shapes its request, what the transport
    is asked, and how its reply becomes a Source or a failure. */
module ApiClient {
  import opened Values
  import Errors
  import Sources
  import Storage

  /** The upload endpoint, relative to the API base https://api.tinify.com. */
  const ShrinkUrl := "/shrink"

  datatype HttpMethod = Get | Post

  /** A request body: none, raw bytes, or a JSON document. */
  datatype Body = NoBody | Raw(bytes: string) | JsonBody(json: Json)

  /** One request as the transport receives it. */
  datatype Request = Request(verb: HttpMethod, url: string, body: Body)

  /** What the transport produces for a request, after its own retries:
      an HTTP response, or a failure with no response at all. For an answered
      request `decoded` is the body as JSON decoding yields it (None when the
      body is not a JSON object). */
  datatype Reply =
    | Answered(status: int, headers: Sources.Headers, content: string, decoded: Option<map<string, string>>)
    | TransportFailure

  /** Why a failure leaves the client as something other than the library's
      own exceptions. */
  datatype Cause =
    | TransportError          // no HTTP response (DNS, TLS, connection)
    | HttpStatus(status: int) // a 3xx or 5xx response, raised by the transport and not caught
    | UndecodableErrorBody    // a 4xx response whose body is not JSON
    | MissingErrorField       // a 4xx body without `message` or `error`: null reaches a string parameter
    | MalformedHeaders        // a header with no value: `array_combine` fails
    | NullLocation            // a source without location passed where a URL string is required
    | UnreadableFile          // `file_get_contents` returned false

  /** How an operation fails. */
  datatype Failure =
    | InvalidUrl(message: string)                  // InvalidUrlException
    | Api(exception: Errors.NetworkException)      // thrown by createExceptionFromResponse
    | Untranslated(cause: Cause)

  predicate HasErrorFields(decoded: Option<map<string, string>>)
  {
    decoded.Some? && "message" in decoded.value && "error" in decoded.value
  }

  /** The JSON of `fromUrl`: {"source": {"url": url}}. */
  function SourceUrlBody(url: string): (j: Json)
    ensures j.JObject? && j.fields.Keys == {"source"}
    ensures Lookup(j, ["source"]).Some? && Lookup(j, ["source"]).value.JObject?
    ensures Lookup(j, ["source"]).value.fields.Keys == {"url"}
    ensures Lookup(j, ["source", "url"]) == Some(JString(url))
  {
    var j := JObject(map["source" := JObject(map["url" := JString(url)])]);
    assert ["source", "url"][1..] == ["url"];
    j
  }

  /** The metadata `preserve` sends when the caller gives none: an empty array. */
  const NoMetadata := JList([])

  /** The JSON of `preserve`: {"preserve": metadata}. */
  function PreserveBody(metadata: Json): (j: Json)
    ensures j.JObject? && j.fields.Keys == {"preserve"}
    ensures Lookup(j, ["preserve"]) == Some(metadata)
  {
    JObject(map["preserve" := metadata])
  }

  /** `preserve` called without metadata sends {"preserve": []}. */
  lemma PreserveDefaultBody()
    ensures PreserveBody(NoMetadata) == JObject(map["preserve" := JList([])])
    ensures Lookup(PreserveBody(NoMetadata), ["preserve"]) == Some(JList([]))
  {
  }

  /** The JSON of `resize`: {"resize": {"method", "width", "height"}}, the
      arguments passed on unchanged. */
  function ResizeBody(resizeMethod: string, width: int, height: int): (j: Json)
    ensures j.JObject? && j.fields.Keys == {"resize"}
    ensures Lookup(j, ["resize"]).Some? && Lookup(j, ["resize"]).value.JObject?
    ensures Lookup(j, ["resize"]).value.fields.Keys == {"method", "width", "height"}
    ensures Lookup(j, ["resize", "method"]) == Some(JString(resizeMethod))
    ensures Lookup(j, ["resize", "width"]) == Some(JInt(width))
    ensures Lookup(j, ["resize", "height"]) == Some(JInt(height))
  {
    var j := JObject(map["resize" := JObject(map["method" := JString(resizeMethod),
                                                 "width" := JInt(width),
                                                 "height" := JInt(height)])]);
    assert ["resize", "method"][1..] == ["method"];
    assert ["resize", "width"][1..] == ["width"];
    assert ["resize", "height"][1..] == ["height"];
    j
  }

  /** The JSON of `toCloud`: {"store": configuration merged with {"path": bucketPath}}.
      The path is always the bucket path, even when the configuration has its
      own `path`; every other configuration key is sent as it is. */
  function StoreBody(config: map<string, Json>, bucketPath: string): (j: Json)
    ensures j.JObject? && j.fields.Keys == {"store"}
    ensures Lookup(j, ["store"]).Some? && Lookup(j, ["store"]).value.JObject?
    ensures Lookup(j, ["store"]).value.fields.Keys == config.Keys + {"path"}
    ensures Lookup(j, ["store", "path"]) == Some(JString(bucketPath))
    ensures forall k :: k in config && k != "path" ==> Lookup(j, ["store", k]) == Some(config[k])
  {
    var store := Storage.ArrayMerge(config, map["path" := JString(bucketPath)]);
    var j := JObject(map["store" := JObject(store)]);
    LookupNested(j.fields, "store", store);
    j
  }

  /** `createExceptionFromResponse` for a 4xx response: the exception built
      from the body's `message` and `error` and the response status. It has
      no success case: translation always ends in a failure. */
  function Translate(status: int, decoded: Option<map<string, string>>): (f: Failure)
    ensures f.Api? <==> HasErrorFields(decoded)
    ensures decoded.None? ==> f == Untranslated(UndecodableErrorBody)
    ensures f.Api? ==> f.exception.status == Some(status) && f.exception.kind == Errors.Classify(status)
    ensures f.Api? ==> f.exception == Errors.Create(decoded.value["message"], decoded.value["error"], status)
  {
    match decoded
    case None => Untranslated(UndecodableErrorBody)
    case Some(body) =>
      if "message" in body && "error" in body then Api(Errors.Create(body["message"], body["error"], status))
      else Untranslated(MissingErrorField)
  }

  /** `createSourceFromResponse`: the headers reduced to their first values,
      the content kept as the data. */
  function SourceFromResponse(headers: Sources.Headers, content: string): (r: Result<Sources.Source, Failure>)
    ensures r.Ok? <==> Sources.EveryHeaderHasValue(headers)
    ensures r.Err? ==> r.error == Untranslated(MalformedHeaders)
    ensures r.Ok? ==> Sources.NewSource(headers, content) == Some(r.value)
  {
    match Sources.NewSource(headers, content)
    case Some(s) => Ok(s)
    case None => Err(Untranslated(MalformedHeaders))
  }

  /** The result of a request as the client's operations are meant to report
      it: a success response becomes a Source, a 4xx response (the transport's
      ClientException) is translated, and everything else propagates. */
  function Outcome(reply: Reply): (r: Result<Sources.Source, Failure>)
    ensures reply.TransportFailure? ==> r == Err(Untranslated(TransportError))
    ensures reply.Answered? && reply.status < 300 ==> r == SourceFromResponse(reply.headers, reply.content)
    ensures reply.Answered? && 400 <= reply.status <= 499 ==> r == Err(Translate(reply.status, reply.decoded))
    ensures reply.Answered? && 300 <= reply.status && !(400 <= reply.status <= 499) ==>
              r == Err(Untranslated(HttpStatus(reply.status)))
    ensures r.Ok? ==> reply.Answered? && reply.status < 300
  {
    match reply
    case TransportFailure => Err(Untranslated(TransportError))
    case Answered(status, headers, content, decoded) =>
      if status < 300 then SourceFromResponse(headers, content)
      else if 400 <= status <= 499 then Err(Translate(status, decoded))
      else Err(Untranslated(HttpStatus(status)))
  }

  /** A failure is one of the library's NetworkExceptions exactly for a 4xx
      response with a readable error body; such an exception carries the
      response status and is always an AccountError or a ClientError, never a
      ServerError or the base class. */
  lemma {:induction false} TranslationBoundary(reply: Reply)
    ensures (Outcome(reply).Err? && Outcome(reply).error.Api?) <==>
            (reply.Answered? && 400 <= reply.status <= 499 && HasErrorFields(reply.decoded))
    ensures Outcome(reply).Err? && Outcome(reply).error.Api? ==>
            var e := Outcome(reply).error.exception;
            e.status == Some(reply.status) &&
            (e.kind == Errors.AccountError || e.kind == Errors.ClientError)
  {
  }

  /** A success response yields the Source built from it; any other reply is
      a failure. */
  lemma SuccessBuildsSource(reply: Reply)
    ensures Outcome(reply).Ok? <==>
            reply.Answered? && reply.status < 300 && Sources.EveryHeaderHasValue(reply.headers)
    ensures Outcome(reply).Ok? ==>
            Sources.NewSource(reply.headers, reply.content) == Some(Outcome(reply).value)
  {
  }

  /** Server errors are not caught by the client: a 5xx response reaches the
      caller as the transport raised it, not as a ServerError. */
  lemma ServerErrorsNotTranslated(reply: Reply)
    requires reply.Answered? && 500 <= reply.status
    ensures Outcome(reply) == Err(Untranslated(HttpStatus(reply.status)))
  {
  }

  /** The result of `upload` followed by `createSourceFromResponse` as the
      source writes it. The transport's responses are lazy: `request` returns
      at once and the status is checked only when the headers are read in
      `createSourceFromResponse`, outside the `try` of `upload`. Every 3xx,
      4xx or 5xx response therefore escapes as the transport's own exception. */
  function UploadOutcomeAsWritten(reply: Reply): (r: Result<Sources.Source, Failure>)
    ensures !(r.Err? && r.error.Api?)
  {
    match reply
    case TransportFailure => Err(Untranslated(TransportError))
    case Answered(status, headers, content, _) =>
      if status < 300 then SourceFromResponse(headers, content)
      else Err(Untranslated(HttpStatus(status)))
  }

  /** An expired API key (401) on upload: as written the caller sees an
      untranslated transport exception, while the intended outcome is an
      AccountError carrying the API's message, type and status. */
  lemma UnauthorizedUploadCounterexample()
    ensures var reply := Answered(401, map[], "", Some(map["message" := "Credentials are invalid.",
                                                          "error" := "Unauthorized"]));
            UploadOutcomeAsWritten(reply) == Err(Untranslated(HttpStatus(401))) &&
            Outcome(reply).Err? && Outcome(reply).error.Api? &&
            Outcome(reply).error.exception.kind == Errors.AccountError &&
            Outcome(reply).error.exception.status == Some(401)
  {
  }

  /** `toBuffer` on the result of `download`. */
  function BufferOf(r: Result<Sources.Source, Failure>): (b: Result<string, Failure>)
    ensures b.Ok? <==> r.Ok?
    ensures b.Ok? ==> b.value == r.value.ToBuffer()
    ensures b.Err? ==> b.error == r.error
  {
    match r
    case Ok(s) => Ok(s.ToBuffer())
    case Err(f) => Err(f)
  }

  /** The client. `transport` stands for the HTTP client it owns (base URI,
      basic auth with the token, proxy, retries): given every request it has
      received so far, it answers the last one. `validUrl` stands for PHP's
      URL validation filter. `log` is every request the transport received. */
  class Client {
    const token: string
    const proxy: Option<string>
    const transport: seq<Request> -> Reply
    const validUrl: string -> bool
    var log: seq<Request>

    constructor (token: string, proxy: Option<string>, transport: seq<Request> -> Reply, validUrl: string -> bool)
      ensures this.token == token && this.proxy == proxy
      ensures this.transport == transport && this.validUrl == validUrl
      ensures log == []
    {
      this.token := token;
      this.proxy := proxy;
      this.transport := transport;
      this.validUrl := validUrl;
      log := [];
    }

    /** `$this->http->request(...)`: the transport records the request and answers it. */
    method Send(req: Request) returns (reply: Reply)
      modifies this
      ensures log == old(log) + [req]
      ensures reply == transport(log)
    {
      log := log + [req];
      reply := transport(log);
    }

    /** `upload` followed by `createSourceFromResponse`: one POST. */
    method Upload(body: Body, url: string) returns (r: Result<Sources.Source, Failure>)
      modifies this
      ensures log == old(log) + [Request(Post, url, body)]
      ensures r == Outcome(transport(log))
    {
      var reply := Send(Request(Post, url, body));
      r := Outcome(reply);
    }

    /** `fromBuffer`: one POST of the raw buffer to the shrink endpoint. */
    method FromBuffer(buffer: string) returns (r: Result<Sources.Source, Failure>)
      modifies this
      ensures log == old(log) + [Request(Post, ShrinkUrl, Raw(buffer))]
      ensures r == Outcome(transport(log))
    {
      r := Upload(Raw(buffer), ShrinkUrl);
    }

    /** `fromFile`: `fromBuffer` on the file's contents, given here as read
        (None when the file cannot be read, which sends nothing). */
    method FromFile(contents: Option<string>) returns (r: Result<Sources.Source, Failure>)
      modifies this
      ensures contents.None? ==> log == old(log) && r == Err(Untranslated(UnreadableFile))
      ensures contents.Some? ==> log == old(log) + [Request(Post, ShrinkUrl, Raw(contents.value))]
      ensures contents.Some? ==> r == Outcome(transport(log))
    {
      match contents
      case None =>
        r := Err(Untranslated(UnreadableFile));
      case Some(buffer) =>
        r := FromBuffer(buffer);
    }

    /** `fromUrl`: an invalid URL is rejected before any request; a valid one
        is sent as {"source": {"url": url}} in one POST to the shrink endpoint. */
    method FromUrl(url: string) returns (r: Result<Sources.Source, Failure>)
      modifies this
      ensures !validUrl(url) ==> log == old(log) && r == Err(InvalidUrl(Errors.InvalidUrlMessage(url)))
      ensures validUrl(url) ==> log == old(log) + [Request(Post, ShrinkUrl, JsonBody(SourceUrlBody(url)))]
      ensures validUrl(url) ==> r == Outcome(transport(log))
    {
      if !validUrl(url) {
        r := Err(InvalidUrl(Errors.InvalidUrlMessage(url)));
        return;
      }
      r := Upload(JsonBody(SourceUrlBody(url)), ShrinkUrl);
    }

    /** `preserve`: one POST of {"preserve": metadata} to the source's location
        (callers that give no metadata pass NoMetadata). */
    method Preserve(source: Sources.Source, metadata: Json) returns (r: Result<Sources.Source, Failure>)
      modifies this
      ensures source.Location().None? ==> log == old(log) && r == Err(Untranslated(NullLocation))
      ensures source.Location().Some? ==>
                log == old(log) + [Request(Post, source.Location().value, JsonBody(PreserveBody(metadata)))] &&
                r == Outcome(transport(log))
    {
      match source.Location()
      case None =>
        r := Err(Untranslated(NullLocation));
      case Some(location) =>
        r := Upload(JsonBody(PreserveBody(metadata)), location);
    }

    /** `resize`: one POST of {"resize": {method, width, height}} to the
        source's location. */
    method Resize(source: Sources.Source, resizeMethod: string, width: int, height: int)
      returns (r: Result<Sources.Source, Failure>)
      modifies this
      ensures source.Location().None? ==> log == old(log) && r == Err(Untranslated(NullLocation))
      ensures source.Location().Some? ==>
                log == old(log) + [Request(Post, source.Location().value,
                                           JsonBody(ResizeBody(resizeMethod, width, height)))] &&
                r == Outcome(transport(log))
    {
      match source.Location()
      case None =>
        r := Err(Untranslated(NullLocation));
      case Some(location) =>
        r := Upload(JsonBody(ResizeBody(resizeMethod, width, height)), location);
    }

    /** `toCloud`: one POST of {"store": configuration + path} to the source's
        location. */
    method ToCloud(source: Sources.Source, bucketPath: string, storage: Storage.StorageConfig)
      returns (r: Result<Sources.Source, Failure>)
      modifies this
      ensures source.Location().None? ==> log == old(log) && r == Err(Untranslated(NullLocation))
      ensures source.Location().Some? ==>
                log == old(log) + [Request(Post, source.Location().value,
                                           JsonBody(StoreBody(storage.Configuration(), bucketPath)))] &&
                r == Outcome(transport(log))
    {
      var store := StoreBody(storage.Configuration(), bucketPath);
      match source.Location()
      case None =>
        r := Err(Untranslated(NullLocation));
      case Some(location) =>
        r := Upload(JsonBody(store), location);
    }

    /** `download`: a source without location is returned unchanged and
        nothing is sent; otherwise one GET to the location. */
    method Download(source: Sources.Source) returns (r: Result<Sources.Source, Failure>)
      modifies this
      ensures source.Location().None? ==> log == old(log) && r == Ok(source)
      ensures source.Location().Some? ==>
                log == old(log) + [Request(Get, source.Location().value, NoBody)] &&
                r == Outcome(transport(log))
    {
      match source.Location()
      case None =>
        r := Ok(source);
      case Some(location) =>
        var reply := Send(Request(Get, location, NoBody));
        r := Outcome(reply);
    }

    /** `toBuffer`: the bytes of the downloaded source. */
    method ToBuffer(source: Sources.Source) returns (r: Result<string, Failure>)
      modifies this
      ensures source.Location().None? ==> log == old(log) && r == Ok(source.data)
      ensures source.Location().Some? ==>
                log == old(log) + [Request(Get, source.Location().value, NoBody)] &&
                r == BufferOf(Outcome(transport(log)))
    {
      var downloaded := Download(source);
      r := BufferOf(downloaded);
    }
  }

  /** Downloads are not cached: asking twice for the bytes of a source that
      has a location sends two GETs to it. */
  method ToBufferTwice(client: Client, source: Sources.Source) returns (first: Result<string, Failure>, second: Result<string, Failure>)
    requires source.Location().Some?
    modifies client
    ensures client.log == old(client.log) + [Request(Get, source.Location().value, NoBody),
                                             Request(Get, source.Location().value, NoBody)]
  {
    first := client.ToBuffer(source);
    second := client.ToBuffer(source);
  }
}
