/**
  The RESTCONF controller client: one value per controller (base URL and
  credentials), five request builders, the header/authentication step every
  request passes through, and the classification of the controller's answer.

  The HTTP exchange itself is not modelled: its outcome is a parameter
  (`Exchange`), either a failure of the transport or of reading the body, or a
  status with a body.
*/
module NsoController {
  import opened Wrappers
  import opened Json
  import opened Strings

  /** The media type of both the `Accept` and the `Content-Type` header. */
  const MediaType: string := "application/yang-data+json"

  /** Namespace segments that prefix every controller path. */
  const DataRoot: string := "/data"
  const OperationsRoot: string := "/operations"
  const QueryEndpoint: string := "/tailf/query"

  /** The device-list resource under `/data`, with its field projection. */
  const DevicesResource: string :=
    "/tailf-ncs:devices/device?fields=address;name;device-type;authgroup&depth=2"

  datatype Method = GET | POST | PUT | PATCH | DELETE

  /** Method, absolute URL and optional body of one controller request. */
  datatype RestconfRequest = RestconfRequest(verb: Method, url: string, body: Option<string>)

  /** What a URL under the controller's base address addresses. */
  datatype Endpoint =
    | DataResource(path: string)   // `/data` + path
    | Operation(path: string)      // `/operations` + path
    | TailfQuery                   // `/tailf/query`

  /** The outcome of one HTTP exchange. */
  datatype Exchange =
    | ExchangeFailed(reason: string)   // the transport gave up (refused, DNS, timeout)
    | BodyUnreadable(reason: string)   // a response arrived but its body could not be read
    | Received(code: int, status: string, body: string)

  datatype ControllerError =
    | Transport(reason: string)                  // the exchange error, as it came
    | HttpStatus(status: string, body: string)   // non-2xx status line and raw body
    | Logical(errors: Value)                     // the `errors` member of a 2xx body

  /** A 2xx status code. */
  predicate IsSuccessCode(code: int) {
    200 <= code <= 299
  }

  /** The answer of the controller for one exchange: transport failures as they are,
      then the status check, then the `errors` member, else the body untouched. */
  function Classify(outcome: Exchange, read: Reader): Result<string, ControllerError> {
    match outcome
    case ExchangeFailed(reason) => Failure(Transport(reason))
    case BodyUnreadable(reason) => Failure(Transport(reason))
    case Received(code, status, body) =>
      if !IsSuccessCode(code) then Failure(HttpStatus(status, body))
      else match Get(read(body), "errors")
        case Some(errors) => Failure(Logical(errors))
        case None => Success(body)
  }

  /** The error text the client reports. */
  function Message(e: ControllerError): string {
    match e
    case Transport(reason) => reason
    case HttpStatus(status, body) => "Status " + status + " returned from NSO: " + body
    case Logical(errors) => "Error returned from NSO: " + Text(Some(errors))
  }

  /** Exactly the 2xx answers whose body has no top-level `errors` member succeed,
      and they yield the body unchanged. */
  lemma ClassifySucceedsExactly(outcome: Exchange, read: Reader)
    ensures Classify(outcome, read).Success? <==>
              outcome.Received? && IsSuccessCode(outcome.code) && Get(read(outcome.body), "errors").None?
    ensures Classify(outcome, read).Success? ==> Classify(outcome, read).value == outcome.body
  {
  }

  /** A failed exchange or body read is reported with its own reason and no body. */
  lemma TransportFailurePassesThrough(outcome: Exchange, read: Reader)
    requires outcome.ExchangeFailed? || outcome.BodyUnreadable?
    ensures Classify(outcome, read) == Failure(Transport(outcome.reason))
    ensures Message(Classify(outcome, read).error) == outcome.reason
  {
  }

  /** The status is checked before the body: a non-2xx answer reports its status
      line and raw body, whether or not the body has an `errors` member. */
  lemma StatusCheckedFirst(code: int, status: string, body: string, read: Reader)
    requires !IsSuccessCode(code)
    ensures Classify(Received(code, status, body), read) == Failure(HttpStatus(status, body))
    ensures IsInfix(status, Message(HttpStatus(status, body)))
    ensures IsInfix(body, Message(HttpStatus(status, body)))
  {
    InfixOfConcat("Status ", status, " returned from NSO: " + body);
    assert "Status " + status + (" returned from NSO: " + body) == Message(HttpStatus(status, body));
    InfixOfConcat("Status " + status + " returned from NSO: ", body, "");
    assert "Status " + status + " returned from NSO: " + body + "" == Message(HttpStatus(status, body));
  }

  /** A 2xx answer carrying a top-level `errors` member is an error that carries
      that member's value. */
  lemma ErrorsMemberIsReported(code: int, status: string, body: string, read: Reader)
    requires IsSuccessCode(code) && Get(read(body), "errors").Some?
    ensures Classify(Received(code, status, body), read) == Failure(Logical(Get(read(body), "errors").value))
  {
  }

  /** The controller answers 200 with `{"errors":{"error":[{"error-message":"bad path"}]}}`:
      the call fails with a logical error whose text names "bad path". */
  lemma BadPathScenario(body: string, read: Reader)
    requires read(body) == JObject([("errors", BadPathErrors())])
    ensures Classify(Received(200, "200 OK", body), read) == Failure(Logical(BadPathErrors()))
    ensures IsInfix("bad path", Message(Logical(BadPathErrors())))
  {
    assert Get(read(body), "errors") == Some(BadPathErrors());
    BadPathRendered();
    InfixGrows("bad path", Render(BadPathErrors()), "Error returned from NSO: ", "");
    assert Message(Logical(BadPathErrors())) == "Error returned from NSO: " + Render(BadPathErrors()) + "";
  }

  lemma BadPathRendered()
    ensures IsInfix("bad path", Render(BadPathErrors()))
  {
    var text := JString("bad path");
    InfixInString("bad path");
    InfixInMember("bad path", "error-message", text);
    InfixInItem("bad path", JObject([("error-message", text)]));
    InfixInMember("bad path", "error", JArray([JObject([("error-message", text)])]));
  }

  function BadPathErrors(): Value {
    JObject([("error", JArray([JObject([("error-message", JString("bad path"))])]))])
  }

  /** A request object as the HTTP library builds it: method, URL and body fixed at
      construction, headers and basic-auth credentials set afterwards in place. */
  class HttpRequest {
    const verb: Method
    const url: string
    const body: Option<string>
    var header: map<string, seq<string>>
    /** The credentials the `Authorization: Basic` header carries. */
    var basicAuth: Option<(string, string)>

    constructor (r: RestconfRequest)
      ensures verb == r.verb && url == r.url && body == r.body
      ensures header == map[] && basicAuth == None
    {
      verb, url, body := r.verb, r.url, r.body;
      header, basicAuth := map[], None;
    }

    /** Method, URL and body of this request. */
    function Line(): RestconfRequest {
      RestconfRequest(verb, url, body)
    }
  }

  /** Adds one value to a header, after the values the header already has. */
  function AddHeader(h: map<string, seq<string>>, key: string, value: string): (h': map<string, seq<string>>)
    ensures h'.Keys == h.Keys + {key}
    ensures h'[key] == (if key in h then h[key] else []) + [value]
    ensures forall k :: k in h && k != key ==> h'[k] == h[k]
  {
    h[key := (if key in h then h[key] else []) + [value]]
  }

  /** The two media-type headers added to a request that had none are exactly
      `Accept` and `Content-Type`, each holding the media type once. */
  lemma HeadersOfFreshRequest()
    ensures AddHeader(AddHeader(map[], "Accept", MediaType), "Content-Type", MediaType)
            == map["Accept" := [MediaType], "Content-Type" := [MediaType]]
  {
    var h := AddHeader(AddHeader(map[], "Accept", MediaType), "Content-Type", MediaType);
    var m := map["Accept" := [MediaType], "Content-Type" := [MediaType]];
    assert h.Keys == m.Keys;
    assert h["Accept"] == m["Accept"];
  }

  datatype Controller = Controller(url: string, username: string, password: string) {

    /** What a URL addresses on this controller, if it is one of its endpoints. */
    function Route(target: string): Option<Endpoint> {
      if !(url <= target) then None
      else
        var rest := target[|url|..];
        if DataRoot <= rest then Some(DataResource(rest[|DataRoot|..]))
        else if OperationsRoot <= rest then Some(Operation(rest[|OperationsRoot|..]))
        else if rest == QueryEndpoint then Some(TailfQuery)
        else None
    }

    /** The URL of an endpoint on this controller. */
    function Target(e: Endpoint): string {
      match e
      case DataResource(path) => url + DataRoot + path
      case Operation(path) => url + OperationsRoot + path
      case TailfQuery => url + QueryEndpoint
    }

    /** `Route` recovers every endpoint from its URL ... */
    lemma RouteTarget(e: Endpoint)
      ensures Route(Target(e)) == Some(e)
    {
      var rest := Target(e)[|url|..];
      match e
      case DataResource(path) =>
        assert rest == DataRoot + path;
      case Operation(path) =>
        assert rest == OperationsRoot + path;
        assert rest[1] == 'o';
      case TailfQuery =>
        assert rest == QueryEndpoint;
        assert rest[1] == 't';
    }

    /** ... and every URL it routes is the URL of the endpoint it names. */
    lemma TargetRoute(target: string)
      requires Route(target).Some?
      ensures Target(Route(target).value) == target
    {
      var rest := target[|url|..];
      assert target == url + rest;
      if DataRoot <= rest {
        assert rest == DataRoot + rest[|DataRoot|..];
      } else if OperationsRoot <= rest {
        assert rest == OperationsRoot + rest[|OperationsRoot|..];
      }
    }

    /** The device list: GET of the projected device resource, without a body. */
    function GetDevicesRequest(): (r: RestconfRequest)
      ensures r.verb == GET && r.body == None
      ensures Route(r.url) == Some(DataResource(DevicesResource))
    {
      var r := RestconfRequest(GET, url + DataRoot + DevicesResource, None);
      RouteTarget(DataResource(DevicesResource));
      r
    }

    /** A configuration read: GET of `/data` + purl, without a body. */
    function GetConfigRequest(purl: string): (r: RestconfRequest)
      ensures r.verb == GET && r.body == None
      ensures Route(r.url) == Some(DataResource(purl))
    {
      var r := RestconfRequest(GET, url + DataRoot + purl, None);
      RouteTarget(DataResource(purl));
      r
    }

    /** A configuration edit: the caller's method on `/data` + purl, with the payload. */
    function EditConfigRequest(purl: string, payload: string, httpMethod: Method): (r: RestconfRequest)
      ensures r.verb == httpMethod && r.body == Some(payload)
      ensures Route(r.url) == Some(DataResource(purl))
    {
      var r := RestconfRequest(httpMethod, url + DataRoot + purl, Some(payload));
      RouteTarget(DataResource(purl));
      r
    }

    /** A query: POST of the payload to the fixed query endpoint. */
    function QueryRequest(payload: string): (r: RestconfRequest)
      ensures r.verb == POST && r.body == Some(payload)
      ensures Route(r.url) == Some(TailfQuery)
    {
      var r := RestconfRequest(POST, url + QueryEndpoint, Some(payload));
      RouteTarget(TailfQuery);
      r
    }

    /** An action: POST of the payload to `/operations` + purl. */
    function ExecOperationsRequest(purl: string, payload: string): (r: RestconfRequest)
      ensures r.verb == POST && r.body == Some(payload)
      ensures Route(r.url) == Some(Operation(purl))
    {
      var r := RestconfRequest(POST, url + OperationsRoot + purl, Some(payload));
      RouteTarget(Operation(purl));
      r
    }

    /** The request carries this controller's credentials and both media-type headers. */
    predicate Prepared(req: HttpRequest)
      reads req
    {
      && req.basicAuth == Some((username, password))
      && "Accept" in req.header && MediaType in req.header["Accept"]
      && "Content-Type" in req.header && MediaType in req.header["Content-Type"]
    }

    /** Sets basic authentication and adds the two media-type headers, in place. */
    method PrepareRequest(req: HttpRequest)
      modifies req
      ensures req.basicAuth == Some((username, password))
      ensures req.header == AddHeader(AddHeader(old(req.header), "Accept", MediaType), "Content-Type", MediaType)
      ensures Prepared(req)
    {
      req.basicAuth := Some((username, password));
      req.header := AddHeader(req.header, "Accept", MediaType);
      req.header := AddHeader(req.header, "Content-Type", MediaType);
    }

    /** Prepares the request, exchanges it (with the given outcome) and classifies the answer. */
    method MakeRequest(req: HttpRequest, outcome: Exchange, read: Reader) returns (r: Result<string, ControllerError>)
      modifies req
      ensures req.basicAuth == Some((username, password))
      ensures req.header == AddHeader(AddHeader(old(req.header), "Accept", MediaType), "Content-Type", MediaType)
      ensures Prepared(req)
      ensures r == Classify(outcome, read)
    {
      PrepareRequest(req);
      match outcome
      case ExchangeFailed(reason) =>
        return Failure(Transport(reason));
      case BodyUnreadable(reason) =>
        return Failure(Transport(reason));
      case Received(code, status, data) =>
        if code < 200 || code > 299 {
          return Failure(HttpStatus(status, data));
        }
        var errors := Get(read(data), "errors");
        if errors.Some? {
          return Failure(Logical(errors.value));
        }
        return Success(data);
    }

    method GetDevices(outcome: Exchange, read: Reader) returns (r: Result<string, ControllerError>, sent: HttpRequest)
      ensures fresh(sent) && sent.Line() == GetDevicesRequest() && Prepared(sent)
      ensures sent.header == map["Accept" := [MediaType], "Content-Type" := [MediaType]]
      ensures r == Classify(outcome, read)
    {
      sent := new HttpRequest(GetDevicesRequest());
      r := MakeRequest(sent, outcome, read);
      HeadersOfFreshRequest();
    }

    method GetConfig(purl: string, outcome: Exchange, read: Reader) returns (r: Result<string, ControllerError>, sent: HttpRequest)
      ensures fresh(sent) && sent.Line() == GetConfigRequest(purl) && Prepared(sent)
      ensures sent.header == map["Accept" := [MediaType], "Content-Type" := [MediaType]]
      ensures r == Classify(outcome, read)
    {
      sent := new HttpRequest(GetConfigRequest(purl));
      r := MakeRequest(sent, outcome, read);
      HeadersOfFreshRequest();
    }

    method EditConfig(purl: string, payload: string, httpMethod: Method, outcome: Exchange, read: Reader)
      returns (r: Result<string, ControllerError>, sent: HttpRequest)
      ensures fresh(sent) && sent.Line() == EditConfigRequest(purl, payload, httpMethod) && Prepared(sent)
      ensures sent.header == map["Accept" := [MediaType], "Content-Type" := [MediaType]]
      ensures r == Classify(outcome, read)
    {
      sent := new HttpRequest(EditConfigRequest(purl, payload, httpMethod));
      r := MakeRequest(sent, outcome, read);
      HeadersOfFreshRequest();
    }

    method Query(payload: string, outcome: Exchange, read: Reader) returns (r: Result<string, ControllerError>, sent: HttpRequest)
      ensures fresh(sent) && sent.Line() == QueryRequest(payload) && Prepared(sent)
      ensures sent.header == map["Accept" := [MediaType], "Content-Type" := [MediaType]]
      ensures r == Classify(outcome, read)
    {
      sent := new HttpRequest(QueryRequest(payload));
      r := MakeRequest(sent, outcome, read);
      HeadersOfFreshRequest();
    }

    method ExecOperations(purl: string, payload: string, outcome: Exchange, read: Reader)
      returns (r: Result<string, ControllerError>, sent: HttpRequest)
      ensures fresh(sent) && sent.Line() == ExecOperationsRequest(purl, payload) && Prepared(sent)
      ensures sent.header == map["Accept" := [MediaType], "Content-Type" := [MediaType]]
      ensures r == Classify(outcome, read)
    {
      sent := new HttpRequest(ExecOperationsRequest(purl, payload));
      r := MakeRequest(sent, outcome, read);
      HeadersOfFreshRequest();
    }
  }
}
