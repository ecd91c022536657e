/**
 * The version 1 REST client: the request it builds for each operation, the
 * projection `sendMessage` applies to the handled response, and the two
 * webhook parsers, which hand a decoded body to a callback only when every
 * required key is present.
 *
 * The client calls three things it does not define: `json_encode`,
 * `json_decode` and the HTTP exchange libcurl performs. They are the fields of
 * an `Io` value passed to every operation.
 */
module RestV1 {
  import opened Wrappers
  import opened PhpValues
  import opened PhpStrings
  import opened RestErrorHandler

  /** The fixed base URL of the version 1 API. */
  const ApiUrl: string := "https://api.clickatell.com/rest"

  /** The value of the `X-Version` header. */
  const ApiVersion: string := "1"

  /** An HTTP request as it leaves the client. */
  datatype Request = Request(verb: string, url: string, headers: seq<string>, body: Option<string>)

  /** What the exchange hands back: the raw body and the HTTP status. */
  datatype Response = Response(body: string, status: int)

  /** The collaborators: `json_encode`, `json_decode($s, true)` and one HTTP exchange. */
  datatype Io = Io(jsonEncode: Value -> string, jsonDecode: string -> Option<Value>, exchange: Request -> Response)

  /** The four headers every request carries, in this order. */
  function Headers(apiToken: string): (r: seq<string>) {
    [ "X-Version: " + ApiVersion,
      "Content-Type: application/json",
      "Accept: application/json",
      "Authorization: bearer " + apiToken ]
  }

  /** The URL of a resource: the base URL, a slash, then the resource path. */
  function Endpoint(uri: string): (r: string) {
    ApiUrl + "/" + uri
  }

  /**
   * `$customRequest == null`. PHP 8 compares `null` with a string as "" with
   * that string, so `null` and "" both pass.
   */
  predicate LooselyNull(customRequest: Option<string>): (b: bool)
    ensures b <==> customRequest.None? || LooseEqualsStrings(customRequest.value, "")
  {
    customRequest.None? || customRequest.value == ""
  }

  /**
   * The request `curl($uri, $data, $customRequest)` sends. A body is sent only
   * when the data is truthy; the verb is then POST, or the custom verb when
   * one is given. With falsy data neither is set and libcurl issues a GET,
   * whatever custom verb was asked for.
   */
  function RequestFor(apiToken: string, uri: string, data: Value, customRequest: Option<string>,
                      jsonEncode: Value -> string): (r: Request)
    ensures r.url == Endpoint(uri) && r.headers == Headers(apiToken)
    ensures r.body.Some? <==> Truthy(data)
    ensures r.body.Some? ==> r.body.value == jsonEncode(CastToArray(data))
    ensures !Truthy(data) ==> r.verb == "GET"
    ensures Truthy(data) ==> (r.verb == "POST" <==> customRequest.None? || customRequest.value in {"", "POST"})
    ensures Truthy(data) && !LooselyNull(customRequest) ==> r.verb == customRequest.value
  {
    Request(
      if !Truthy(data) then "GET" else if LooselyNull(customRequest) then "POST" else customRequest.value,
      Endpoint(uri),
      Headers(apiToken),
      if Truthy(data) then Some(jsonEncode(CastToArray(data))) else None)
  }

  /** Sending `req` and passing the answer through the error handler. */
  function Exchange(io: Io, req: Request): (r: Result<Value, ClientError>)
    ensures r.Success? <==>
      DecodesTruthy(io.jsonDecode, io.exchange(req).body) && io.exchange(req).status in AcceptedStatuses
    ensures r.Success? ==> r.value == io.jsonDecode(io.exchange(req).body).value
  {
    var response := io.exchange(req);
    Handle(io.jsonDecode, response.body, response.status)
  }

  /**
   * What `sendMessage($message)` returns or throws: `$response['data']['message']`
   * of the handled answer. Reading an offset of a string throws.
   */
  function SendMessageResult(apiToken: string, message: Value, io: Io): (r: Result<Value, ClientError>)
    ensures var handled := Exchange(io, RequestFor(apiToken, "message", message, None, io.jsonEncode));
      handled.Failure? ==> r == Failure(handled.error)
    ensures var handled := Exchange(io, RequestFor(apiToken, "message", message, None, io.jsonEncode));
      r.Success? ==> handled.Success? && Index(handled.value, "data").Some?
                     && Index(Index(handled.value, "data").value, "message") == Some(r.value)
  {
    match Exchange(io, RequestFor(apiToken, "message", message, None, io.jsonEncode))
    case Success(response) => Project(response)
    case Failure(e) => Failure(e)
  }

  /** `$response['data']['message']`, or the TypeError a string raises on the way. */
  function Project(response: Value): (r: Result<Value, ClientError>)
    ensures response.Str? ==> r == Failure(StringOffset)
    ensures !response.Str? && Index(response, "data").value.Str? ==> r == Failure(StringOffset)
    ensures !response.Str? && !Index(response, "data").value.Str? ==>
              r == Success(Index(Index(response, "data").value, "message").value)
  {
    match Index(response, "data")
    case None => Failure(StringOffset)
    case Some(data) =>
      match Index(data, "message")
      case None => Failure(StringOffset)
      case Some(m) => Success(m)
  }

  /**
   * The options of a libcurl handle that decide the request: the URL, the
   * header list, and the POST, POSTFIELDS and CUSTOMREQUEST settings.
   */
  class CurlHandle {
    var url: string
    var httpHeader: seq<string>
    var post: bool
    var postFields: Option<string>
    var customRequest: Option<string>

    /** `curl_init()`: nothing set; the default request is a body-less GET. */
    constructor ()
      ensures url == "" && httpHeader == [] && !post && postFields == None && customRequest == None
    {
      url := "";
      httpHeader := [];
      post := false;
      postFields := None;
      customRequest := None;
    }

    /**
     * The request libcurl sends for these options: CUSTOMREQUEST replaces the
     * verb; otherwise POST (which POSTFIELDS switches on) gives POST and
     * anything else a GET. The body is the POSTFIELDS data, sent only in POST mode.
     */
    function Outgoing(): (r: Request)
      reads this
      ensures r.url == url && r.headers == httpHeader
      ensures r.body.Some? ==> post && r.body == postFields
      ensures customRequest.None? ==> (r.verb == "POST" <==> post)
      ensures customRequest.Some? ==> r.verb == customRequest.value
    {
      Request(
        if customRequest.Some? then customRequest.value else if post then "POST" else "GET",
        url,
        httpHeader,
        if post then postFields else None)
    }

    /** `curl_setopt($ch, CURLOPT_URL, $u)`. */
    method SetUrl(u: string)
      modifies this
      ensures url == u
      ensures httpHeader == old(httpHeader) && post == old(post)
      ensures postFields == old(postFields) && customRequest == old(customRequest)
    {
      url := u;
    }

    /** `curl_setopt($ch, CURLOPT_HTTPHEADER, $hs)`. */
    method SetHttpHeader(hs: seq<string>)
      modifies this
      ensures httpHeader == hs
      ensures url == old(url) && post == old(post)
      ensures postFields == old(postFields) && customRequest == old(customRequest)
    {
      httpHeader := hs;
    }

    /** `curl_setopt($ch, CURLOPT_POST, 1)`. */
    method SetPost()
      modifies this
      ensures post
      ensures url == old(url) && httpHeader == old(httpHeader)
      ensures postFields == old(postFields) && customRequest == old(customRequest)
    {
      post := true;
    }

    /** `curl_setopt($ch, CURLOPT_POSTFIELDS, $data)`, which also selects POST mode. */
    method SetPostFields(data: string)
      modifies this
      ensures post && postFields == Some(data)
      ensures url == old(url) && httpHeader == old(httpHeader) && customRequest == old(customRequest)
    {
      post := true;
      postFields := Some(data);
    }

    /** `curl_setopt($ch, CURLOPT_CUSTOMREQUEST, $verb)`. */
    method SetCustomRequest(verb: string)
      modifies this
      ensures customRequest == Some(verb)
      ensures url == old(url) && httpHeader == old(httpHeader)
      ensures post == old(post) && postFields == old(postFields)
    {
      customRequest := Some(verb);
    }
  }

  /** The version 1 client. Its token is fixed when it is constructed. */
  class RestV1 {
    const apiToken: string

    constructor (apiToken: string)
      ensures this.apiToken == apiToken
    {
      this.apiToken := apiToken;
    }

    /**
     * `curl($uri, $data, $customRequest)`: configure a handle option by
     * option, run the exchange, and classify the answer.
     */
    method Curl(uri: string, data: Value, customRequest: Option<string>, io: Io) returns (r: Result<Value, ClientError>)
      ensures r == Exchange(io, RequestFor(apiToken, uri, data, customRequest, io.jsonEncode))
    {
      var payload := if Truthy(data) then CastToArray(data) else data;
      var headers := Headers(apiToken);
      var endpoint := Endpoint(uri);
      var ch := new CurlHandle();
      ch.SetUrl(endpoint);
      ch.SetHttpHeader(headers);
      if Truthy(payload) && LooselyNull(customRequest) {
        ch.SetPost();
        ch.SetPostFields(io.jsonEncode(payload));
      } else if Truthy(payload) && !LooselyNull(customRequest) {
        ch.SetCustomRequest(customRequest.value);
        ch.SetPostFields(io.jsonEncode(payload));
      }
      var response := io.exchange(ch.Outgoing());
      r := Handle(io.jsonDecode, response.body, response.status);
    }

    /** `sendMessage($message)`: POST the message and return `data.message` of the answer. */
    method SendMessage(message: Value, io: Io) returns (r: Result<Value, ClientError>)
      requires message.Arr?
      ensures r == SendMessageResult(apiToken, message, io)
    {
      var response := Curl("message", message, None, io);
      match response
      case Success(v) => r := Project(v);
      case Failure(e) => r := Failure(e);
    }

    /** `getMessageStatus($uuid)`: a body-less GET of `message/<uuid>`, answer unchanged. */
    method GetMessageStatus(uuid: string, io: Io) returns (r: Result<Value, ClientError>)
      ensures r == Exchange(io, Request("GET", Endpoint("message/" + uuid), Headers(apiToken), None))
    {
      r := Curl("message/" + uuid, EmptyArray, None, io);
    }

    /** `getAccountBalance()`: a body-less GET of `account/balance/`, answer unchanged. */
    method GetAccountBalance(io: Io) returns (r: Result<Value, ClientError>)
      ensures r == Exchange(io, Request("GET", Endpoint("account/balance/"), Headers(apiToken), None))
    {
      r := Curl("account/balance/", EmptyArray, None, io);
    }

    /**
     * `stopMessage($uuid)`: asks for DELETE, but with empty data the verb is
     * never set, so this is the same body-less GET as `getMessageStatus`.
     */
    method StopMessage(uuid: string, io: Io) returns (r: Result<Value, ClientError>)
      ensures r == Exchange(io, Request("GET", Endpoint("message/" + uuid), Headers(apiToken), None))
    {
      r := Curl("message/" + uuid, EmptyArray, Some("DELETE"), io);
    }
  }

  // ---------------------------------------------------------------------
  // Properties of the requests
  // ---------------------------------------------------------------------

  /** Every request goes to the base URL, a slash, then the resource path, with the four headers. */
  lemma RequestShape(apiToken: string, uri: string, data: Value, customRequest: Option<string>,
                     jsonEncode: Value -> string)
    ensures var req := RequestFor(apiToken, uri, data, customRequest, jsonEncode);
      && req.url == "https://api.clickatell.com/rest/" + uri
      && req.headers == ["X-Version: 1", "Content-Type: application/json",
                         "Accept: application/json", "Authorization: bearer " + apiToken]
  {
    assert ApiUrl + "/" == "https://api.clickatell.com/rest/";
    assert "X-Version: " + ApiVersion == "X-Version: 1";
  }

  /** With empty data the custom verb is ignored: the request is a body-less GET. */
  lemma EmptyDataIgnoresVerb(apiToken: string, uri: string, customRequest: Option<string>,
                             jsonEncode: Value -> string)
    ensures RequestFor(apiToken, uri, EmptyArray, customRequest, jsonEncode)
         == RequestFor(apiToken, uri, EmptyArray, None, jsonEncode)
    ensures RequestFor(apiToken, uri, EmptyArray, customRequest, jsonEncode).verb == "GET"
    ensures RequestFor(apiToken, uri, EmptyArray, customRequest, jsonEncode).body == None
  {
  }

  /**
   * With truthy data the body is the JSON encoding of the data, and the verb
   * is POST unless a non-empty custom verb is given.
   */
  lemma DataIsSentAsBody(apiToken: string, uri: string, data: Value, customRequest: Option<string>,
                         jsonEncode: Value -> string)
    requires data.Arr? && data.entries != []
    ensures var req := RequestFor(apiToken, uri, data, customRequest, jsonEncode);
      && req.body == Some(jsonEncode(data))
      && (req.verb == "POST" <==> customRequest.None? || customRequest.value in {"", "POST"})
  {
  }

  /** `sendMessage([])` sends no body at all: the request is a GET of `message`. */
  lemma EmptyMessageIsGet(apiToken: string, jsonEncode: Value -> string)
    ensures RequestFor(apiToken, "message", EmptyArray, None, jsonEncode)
         == Request("GET", Endpoint("message"), Headers(apiToken), None)
  {
  }

  /** A response whose code is not accepted surfaces its `error` member, and nothing is projected. */
  lemma SendMessageRejected(apiToken: string, message: Value, io: Io)
    requires var resp := io.exchange(RequestFor(apiToken, "message", message, None, io.jsonEncode));
      DecodesTruthy(io.jsonDecode, resp.body) && resp.status !in AcceptedStatuses
      && io.jsonDecode(resp.body).value.Arr?
    ensures var resp := io.exchange(RequestFor(apiToken, "message", message, None, io.jsonEncode));
      SendMessageResult(apiToken, message, io)
        == Failure(ApiError(Index(io.jsonDecode(resp.body).value, "error").value))
  {
  }

  /**
   * Any accepted answer whose `data` member can be read yields its
   * `data.message`: the stored value, or `null` where a level is missing or
   * not an array.
   */
  lemma SendMessageProjection(apiToken: string, message: Value, io: Io)
    requires var resp := io.exchange(RequestFor(apiToken, "message", message, None, io.jsonEncode));
      var answer := io.jsonDecode(resp.body);
      resp.status in AcceptedStatuses && DecodesTruthy(io.jsonDecode, resp.body)
      && !answer.value.Str? && !Index(answer.value, "data").value.Str?
    ensures var resp := io.exchange(RequestFor(apiToken, "message", message, None, io.jsonEncode));
      var data := Index(io.jsonDecode(resp.body).value, "data").value;
      SendMessageResult(apiToken, message, io) == Success(Index(data, "message").value)
  {
  }

  /**
   * An accepted answer that is a string, or whose `data` member is a string,
   * makes `sendMessage` throw PHP 8's TypeError instead of returning.
   */
  lemma SendMessageStringAnswer(apiToken: string, message: Value, io: Io)
    requires var resp := io.exchange(RequestFor(apiToken, "message", message, None, io.jsonEncode));
      var answer := io.jsonDecode(resp.body);
      resp.status in AcceptedStatuses && DecodesTruthy(io.jsonDecode, resp.body)
      && (answer.value.Str? || Index(answer.value, "data").value.Str?)
    ensures SendMessageResult(apiToken, message, io) == Failure(StringOffset)
  {
  }

  // ---------------------------------------------------------------------
  // Webhook parsers
  // ---------------------------------------------------------------------

  /** The keys a delivery-status callback must carry. */
  const StatusCallbackKeys: seq<string> :=
    ["apiKey", "messageId", "requestId", "clientMessageId", "to", "from", "status",
     "statusDescription", "timestamp"]

  /** The keys a reply callback must carry. */
  const ReplyCallbackKeys: seq<string> :=
    ["integrationId", "messageId", "replyMessageId", "apiKey", "fromNumber", "toNumber",
     "timestamp", "text", "charset", "udh", "network", "keyword"]

  /**
   * `if (!array_diff($keys, array_keys($body))) { $callback($body); }`: the
   * calls made to the callback, in order.
   */
  function Dispatch(required: seq<string>, body: Value): (calls: seq<Value>)
    requires body.Arr?
    ensures calls == [] || calls == [body]
    ensures calls == [body] <==> forall k :: k in required ==> k in Keys(body.entries)
  {
    var missing := ArrayDiff(required, Keys(body.entries));
    assert missing != [] ==> missing[0] in required && missing[0] !in Keys(body.entries);
    if missing == [] then [body] else []
  }

  /**
   * `parseStatusCallback($callback)`, given the decoded body: the callback is
   * called once, with the body, exactly when all nine keys are present.
   */
  function ParseStatusCallback(body: Value): (calls: seq<Value>)
    requires body.Arr?
    ensures calls == [] || calls == [body]
    ensures calls == [body] <==> forall k :: k in StatusCallbackKeys ==> k in Keys(body.entries)
  {
    Dispatch(StatusCallbackKeys, body)
  }

  /**
   * `parseReplyCallback($callback)`, given the decoded body: the callback is
   * called once, with the body, exactly when all twelve keys are present.
   */
  function ParseReplyCallback(body: Value): (calls: seq<Value>)
    requires body.Arr?
    ensures calls == [] || calls == [body]
    ensures calls == [body] <==> forall k :: k in ReplyCallbackKeys ==> k in Keys(body.entries)
  {
    Dispatch(ReplyCallbackKeys, body)
  }

  /**
   * A body without the key `messageId`, including one that spells it
   * `MessageId`, never reaches the status callback: keys are compared exactly.
   */
  lemma StatusCallbackNeedsMessageId(body: Value)
    requires body.Arr?
    requires "messageId" !in Keys(body.entries)
    ensures ParseStatusCallback(body) == []
  {
    assert StatusCallbackKeys[1] == "messageId";
  }

  /** Nor does such a body reach the reply callback. */
  lemma ReplyCallbackNeedsMessageId(body: Value)
    requires body.Arr?
    requires "messageId" !in Keys(body.entries)
    ensures ParseReplyCallback(body) == []
  {
    assert ReplyCallbackKeys[1] == "messageId";
  }
}
