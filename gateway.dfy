/**
  The RPC gateway: token authorization, construction of the controller path,
  mapping of edit operation types onto HTTP methods, and the five handlers.

  The process environment is replaced by a `Config` value (authorization token
  and controller), and the controller's exchange by its outcome. Each handler
  is specified as a `Plan`: either a local error, decided without contacting
  the controller, or one controller request and what to do with its answer.
*/
module Gateway {
  import opened Wrappers
  import opened Json
  import opened Strings
  import opened NsoController
  import opened Devices

  /** What the gateway reads once at start-up: the authorization token and the controller. */
  datatype Config = Config(token: string, controller: Controller)

  /** The `request` field every RPC message carries; absent when the caller leaves it out. */
  datatype RequestHeader = RequestHeader(token: string)

  /** The five RPCs with their fields. */
  datatype Call =
    | GetDevicesCall(header: Option<RequestHeader>)
    | ExecOperationCall(header: Option<RequestHeader>, path: string, options: string, jsonData: string)
    | GetConfigCall(header: Option<RequestHeader>, path: string, options: string)
    | QueryCall(header: Option<RequestHeader>, jsonQuery: string)
    | EditConfigCall(header: Option<RequestHeader>, path: string, options: string,
                     operationType: string, jsonData: string)

  datatype GatewayError =
    | PermissionDenied                      // the token check failed
    | Unsupported(operationType: string)    // an edit operation type with no HTTP method
    | Upstream(cause: ControllerError)      // the controller client's error, unchanged

  /** What a handler does with the controller's successful answer. */
  datatype Post = WrapResult | ReshapeDevices

  datatype Plan =
    | Local(error: GatewayError)
    | Remote(request: RestconfRequest, post: Post)

  datatype Reply =
    | Failed(error: GatewayError)
    | Envelope(result: string)
    | DeviceList(devices: seq<Device>)

  // ---------------------------------------------------------------- authorization

  /** The token of the `request` field, empty when the field is absent. */
  function TokenOf(header: Option<RequestHeader>): string {
    match header
    case Some(h) => h.token
    case None => ""
  }

  /** With no configured token every token passes; otherwise only the configured one. */
  function IsTokenValid(serverToken: string, token: string): (ok: bool)
    ensures ok <==> serverToken == "" || token == serverToken
  {
    if serverToken != "" then serverToken == token else true
  }

  /** The check every handler makes first, reading the token as the field getter does. */
  function Authorized(serverToken: string, header: Option<RequestHeader>): (ok: bool)
    ensures ok <==> serverToken == "" || (header.Some? && header.value.token == serverToken)
  {
    IsTokenValid(serverToken, TokenOf(header))
  }

  /** The token check as written: it dereferences the `request` field when a token is
      configured, so a call without that field gets no answer at all (`None`). */
  function TokenCheckAsWritten(serverToken: string, header: Option<RequestHeader>): (r: Option<bool>)
    ensures r.None? <==> serverToken != "" && header.None?
  {
    if serverToken != "" then
      match header
      case Some(h) => Some(serverToken == h.token)
      case None => None
    else Some(true)
  }

  /** Where the check as written answers, it agrees with `Authorized`; with a token
      configured and no `request` field it fails, where `Authorized` denies. */
  lemma TokenCheckAsWrittenDiffers(serverToken: string, header: Option<RequestHeader>)
    ensures TokenCheckAsWritten(serverToken, header).Some? ==>
              TokenCheckAsWritten(serverToken, header).value == Authorized(serverToken, header)
    ensures TokenCheckAsWritten("secret", None).None? && !Authorized("secret", None)
  {
  }

  // ---------------------------------------------------------------- paths and methods

  /** The controller path: the resource path, then `?` and the options when there are any. */
  function FullPath(path: string, options: string): (r: string)
    ensures path <= r
    ensures options == "" ==> r == path
    ensures options != "" ==> r[|path|..] == "?" + options
  {
    if options != "" then path + "?" + options else path
  }

  /** Splits a path at its first `?` into the resource path and the query options. */
  function SplitQuery(s: string): (string, string) {
    if s == [] then ("", "")
    else if s[0] == '?' then ("", s[1..])
    else
      var rest := SplitQuery(s[1..]);
      ([s[0]] + rest.0, rest.1)
  }

  /** Nothing but the separator is added: a path without `?` and its options are
      recovered exactly from the full path. */
  lemma {:induction false} FullPathRoundTrip(path: string, options: string)
    requires forall i :: 0 <= i < |path| ==> path[i] != '?'
    ensures SplitQuery(FullPath(path, options)) == (path, options)
  {
    if path == [] {
      if options != "" {
        assert FullPath(path, options) == "?" + options;
      }
    } else {
      var full := FullPath(path, options);
      assert full[0] == path[0] && full[1..] == FullPath(path[1..], options);
      FullPathRoundTrip(path[1..], options);
      assert [path[0]] + path[1..] == path;
    }
  }

  /** The edit operation types the gateway knows. */
  const SupportedOperations: set<string> := {"merge", "replace", "create", "delete"}

  /** The HTTP method of an edit operation type, if it has one. */
  function OperationMethod(operationType: string): (m: Option<Method>)
    ensures m.Some? <==> operationType in SupportedOperations
    ensures m.Some? ==> m.value != GET
  {
    if operationType == "merge" then Some(PATCH)
    else if operationType == "replace" then Some(PUT)
    else if operationType == "create" then Some(POST)
    else if operationType == "delete" then Some(DELETE)
    else None
  }

  /** The edit operation type an HTTP method stands for. */
  function OperationOf(m: Method): Option<string> {
    match m
    case PATCH => Some("merge")
    case PUT => Some("replace")
    case POST => Some("create")
    case DELETE => Some("delete")
    case GET => None
  }

  /** The mapping is one-to-one: merge/PATCH, replace/PUT, create/POST, delete/DELETE. */
  lemma OperationRoundTrip(operationType: string, m: Method)
    ensures OperationMethod(operationType) == Some(m) <==> OperationOf(m) == Some(operationType)
  {
  }

  /** The error text a caller sees. */
  function ErrorMessage(e: GatewayError): string {
    match e
    case PermissionDenied => "invalid token"
    case Unsupported(operationType) => "Operation type " + operationType + " not supported by this server"
    case Upstream(cause) => Message(cause)
  }

  /** The unsupported-operation error names the offending value. */
  lemma UnsupportedNamesValue(operationType: string)
    ensures IsInfix(operationType, ErrorMessage(Unsupported(operationType)))
  {
    InfixOfConcat("Operation type ", operationType, " not supported by this server");
  }

  // ---------------------------------------------------------------- handlers as plans

  function GetDevicesPlan(cfg: Config, header: Option<RequestHeader>): (p: Plan)
    ensures p.Local? <==> !Authorized(cfg.token, header)
    ensures p.Local? ==> p.error == PermissionDenied
    ensures p.Remote? ==> p.post == ReshapeDevices && p.request.verb == GET && p.request.body == None
                          && cfg.controller.Route(p.request.url) == Some(DataResource(DevicesResource))
  {
    if !Authorized(cfg.token, header) then Local(PermissionDenied)
    else Remote(cfg.controller.GetDevicesRequest(), ReshapeDevices)
  }

  function ExecOperationPlan(cfg: Config, header: Option<RequestHeader>, path: string, options: string,
                             jsonData: string): (p: Plan)
    ensures p.Local? <==> !Authorized(cfg.token, header)
    ensures p.Local? ==> p.error == PermissionDenied
    ensures p.Remote? ==> p.post == WrapResult && p.request.verb == POST && p.request.body == Some(jsonData)
                          && cfg.controller.Route(p.request.url) == Some(Operation(FullPath(path, options)))
  {
    if !Authorized(cfg.token, header) then Local(PermissionDenied)
    else Remote(cfg.controller.ExecOperationsRequest(FullPath(path, options), jsonData), WrapResult)
  }

  function GetConfigPlan(cfg: Config, header: Option<RequestHeader>, path: string, options: string): (p: Plan)
    ensures p.Local? <==> !Authorized(cfg.token, header)
    ensures p.Local? ==> p.error == PermissionDenied
    ensures p.Remote? ==> p.post == WrapResult && p.request.verb == GET && p.request.body == None
                          && cfg.controller.Route(p.request.url) == Some(DataResource(FullPath(path, options)))
  {
    if !Authorized(cfg.token, header) then Local(PermissionDenied)
    else Remote(cfg.controller.GetConfigRequest(FullPath(path, options)), WrapResult)
  }

  function QueryPlan(cfg: Config, header: Option<RequestHeader>, jsonQuery: string): (p: Plan)
    ensures p.Local? <==> !Authorized(cfg.token, header)
    ensures p.Local? ==> p.error == PermissionDenied
    ensures p.Remote? ==> p.post == WrapResult && p.request.verb == POST && p.request.body == Some(jsonQuery)
                          && cfg.controller.Route(p.request.url) == Some(TailfQuery)
  {
    if !Authorized(cfg.token, header) then Local(PermissionDenied)
    else Remote(cfg.controller.QueryRequest(jsonQuery), WrapResult)
  }

  function EditConfigPlan(cfg: Config, header: Option<RequestHeader>, path: string, options: string,
                          operationType: string, jsonData: string): (p: Plan)
    ensures p.Local? <==> !Authorized(cfg.token, header) || operationType !in SupportedOperations
    ensures p.Local? ==> p.error == if Authorized(cfg.token, header) then Unsupported(operationType)
                                   else PermissionDenied
    ensures p.Remote? ==> p.post == WrapResult && OperationOf(p.request.verb) == Some(operationType)
                          && p.request.body == Some(jsonData)
                          && cfg.controller.Route(p.request.url) == Some(DataResource(FullPath(path, options)))
  {
    if !Authorized(cfg.token, header) then Local(PermissionDenied)
    else match OperationMethod(operationType)
      case None => Local(Unsupported(operationType))
      case Some(m) =>
        OperationRoundTrip(operationType, m);
        Remote(cfg.controller.EditConfigRequest(FullPath(path, options), jsonData, m), WrapResult)
  }

  function PlanOf(cfg: Config, call: Call): Plan {
    match call
    case GetDevicesCall(h) => GetDevicesPlan(cfg, h)
    case ExecOperationCall(h, path, options, jsonData) => ExecOperationPlan(cfg, h, path, options, jsonData)
    case GetConfigCall(h, path, options) => GetConfigPlan(cfg, h, path, options)
    case QueryCall(h, jsonQuery) => QueryPlan(cfg, h, jsonQuery)
    case EditConfigCall(h, path, options, operationType, jsonData) =>
      EditConfigPlan(cfg, h, path, options, operationType, jsonData)
  }

  /** Carries a plan out, given the outcome of its controller exchange. */
  function Finish(plan: Plan, outcome: Exchange, read: Reader): Reply {
    match plan
    case Local(e) => Failed(e)
    case Remote(_, post) =>
      match Classify(outcome, read)
      case Failure(e) => Failed(Upstream(e))
      case Success(body) =>
        match post
        case WrapResult => Envelope(body)
        case ReshapeDevices => DeviceList(DevicesOf(read(body)))
  }

  /** The reply to a call. */
  function Serve(cfg: Config, call: Call, outcome: Exchange, read: Reader): Reply {
    Finish(PlanOf(cfg, call), outcome, read)
  }

  // ---------------------------------------------------------------- properties

  /** An invalid token is refused in every handler before the controller is contacted. */
  lemma DeniedWithoutControllerCall(cfg: Config, call: Call, outcome: Exchange, read: Reader)
    requires !Authorized(cfg.token, call.header)
    ensures PlanOf(cfg, call) == Local(PermissionDenied)
    ensures Serve(cfg, call, outcome, read) == Failed(PermissionDenied)
  {
  }

  /** A local error does not depend on the controller in any way. */
  lemma LocalErrorsIgnoreController(cfg: Config, call: Call, o1: Exchange, r1: Reader, o2: Exchange, r2: Reader)
    requires PlanOf(cfg, call).Local?
    ensures Serve(cfg, call, o1, r1) == Serve(cfg, call, o2, r2) == Failed(PlanOf(cfg, call).error)
  {
  }

  /** An edit with an unknown operation type fails locally, naming the type. */
  lemma UnsupportedWithoutControllerCall(cfg: Config, header: Option<RequestHeader>, path: string,
                                         options: string, operationType: string, jsonData: string)
    requires Authorized(cfg.token, header) && operationType !in SupportedOperations
    ensures PlanOf(cfg, EditConfigCall(header, path, options, operationType, jsonData)) == Local(Unsupported(operationType))
    ensures IsInfix(operationType, ErrorMessage(Unsupported(operationType)))
  {
    UnsupportedNamesValue(operationType);
  }

  /** On success the envelope's result is the controller's body, unmodified. */
  lemma EnvelopeIsBodyVerbatim(cfg: Config, call: Call, outcome: Exchange, read: Reader)
    requires !call.GetDevicesCall? && PlanOf(cfg, call).Remote?
    requires outcome.Received? && IsSuccessCode(outcome.code) && Get(read(outcome.body), "errors").None?
    ensures Serve(cfg, call, outcome, read) == Envelope(outcome.body)
  {
    ClassifySucceedsExactly(outcome, read);
  }

  /** A controller error reaches the caller unchanged, with no retry. */
  lemma ControllerErrorsPassThrough(cfg: Config, call: Call, outcome: Exchange, read: Reader)
    requires PlanOf(cfg, call).Remote? && Classify(outcome, read).Failure?
    ensures Serve(cfg, call, outcome, read) == Failed(Upstream(Classify(outcome, read).error))
    ensures ErrorMessage(Serve(cfg, call, outcome, read).error) == Message(Classify(outcome, read).error)
  {
  }

  /** An authorized device listing returns the reshaped device array of the answer. */
  lemma DevicesFromAnswer(cfg: Config, header: Option<RequestHeader>, outcome: Exchange, read: Reader)
    requires Authorized(cfg.token, header) && Classify(outcome, read).Success?
    ensures Serve(cfg, GetDevicesCall(header), outcome, read)
            == DeviceList(DevicesOf(read(Classify(outcome, read).value)))
  {
  }

  // ---------------------------------------------------------------- handlers as code

  /* Each handler below follows the source step by step: the token check, the path,
     the controller call, the wrapping of its answer. `sent` is the request handed to
     the controller client, `None` when the handler answers without contacting it. */

  /** What a plan sends to the controller. */
  function Sent(plan: Plan): Option<RestconfRequest> {
    if plan.Remote? then Some(plan.request) else None
  }

  method GetDevices(cfg: Config, header: Option<RequestHeader>, outcome: Exchange, read: Reader)
    returns (reply: Reply, sent: Option<RestconfRequest>)
    ensures reply == Serve(cfg, GetDevicesCall(header), outcome, read)
    ensures sent == Sent(PlanOf(cfg, GetDevicesCall(header)))
  {
    if !Authorized(cfg.token, header) {
      return Failed(PermissionDenied), None;
    }
    var devices, request := cfg.controller.GetDevices(outcome, read);
    sent := Some(request.Line());
    if devices.Failure? {
      return Failed(Upstream(devices.error)), sent;
    }
    var deviceArray := Reshape(read(devices.value));
    reply := DeviceList(deviceArray);
  }

  method ExecOperation(cfg: Config, header: Option<RequestHeader>, path: string, options: string,
                       jsonData: string, outcome: Exchange, read: Reader)
    returns (reply: Reply, sent: Option<RestconfRequest>)
    ensures reply == Serve(cfg, ExecOperationCall(header, path, options, jsonData), outcome, read)
    ensures sent == Sent(PlanOf(cfg, ExecOperationCall(header, path, options, jsonData)))
  {
    if !Authorized(cfg.token, header) {
      return Failed(PermissionDenied), None;
    }
    var fullPath := path;
    if options != "" {
      fullPath := fullPath + "?" + options;
    }
    var result, request := cfg.controller.ExecOperations(fullPath, jsonData, outcome, read);
    sent := Some(request.Line());
    if result.Failure? {
      return Failed(Upstream(result.error)), sent;
    }
    reply := Envelope(result.value);
  }

  method GetConfig(cfg: Config, header: Option<RequestHeader>, path: string, options: string,
                   outcome: Exchange, read: Reader)
    returns (reply: Reply, sent: Option<RestconfRequest>)
    ensures reply == Serve(cfg, GetConfigCall(header, path, options), outcome, read)
    ensures sent == Sent(PlanOf(cfg, GetConfigCall(header, path, options)))
  {
    if !Authorized(cfg.token, header) {
      return Failed(PermissionDenied), None;
    }
    var fullPath := path;
    if options != "" {
      fullPath := fullPath + "?" + options;
    }
    var config, request := cfg.controller.GetConfig(fullPath, outcome, read);
    sent := Some(request.Line());
    if config.Failure? {
      return Failed(Upstream(config.error)), sent;
    }
    reply := Envelope(config.value);
  }

  method Query(cfg: Config, header: Option<RequestHeader>, jsonQuery: string, outcome: Exchange, read: Reader)
    returns (reply: Reply, sent: Option<RestconfRequest>)
    ensures reply == Serve(cfg, QueryCall(header, jsonQuery), outcome, read)
    ensures sent == Sent(PlanOf(cfg, QueryCall(header, jsonQuery)))
  {
    if !Authorized(cfg.token, header) {
      return Failed(PermissionDenied), None;
    }
    var result, request := cfg.controller.Query(jsonQuery, outcome, read);
    sent := Some(request.Line());
    if result.Failure? {
      return Failed(Upstream(result.error)), sent;
    }
    reply := Envelope(result.value);
  }

  method EditConfig(cfg: Config, header: Option<RequestHeader>, path: string, options: string,
                    operationType: string, jsonData: string, outcome: Exchange, read: Reader)
    returns (reply: Reply, sent: Option<RestconfRequest>)
    ensures reply == Serve(cfg, EditConfigCall(header, path, options, operationType, jsonData), outcome, read)
    ensures sent == Sent(PlanOf(cfg, EditConfigCall(header, path, options, operationType, jsonData)))
  {
    if !Authorized(cfg.token, header) {
      return Failed(PermissionDenied), None;
    }
    var fullPath := path;
    if options != "" {
      fullPath := fullPath + "?" + options;
    }
    var httpMethod;
    if operationType == "merge" {
      httpMethod := PATCH;
    } else if operationType == "replace" {
      httpMethod := PUT;
    } else if operationType == "create" {
      httpMethod := POST;
    } else if operationType == "delete" {
      httpMethod := DELETE;
    } else {
      return Failed(Unsupported(operationType)), None;
    }
    var nsoReply, request := cfg.controller.EditConfig(fullPath, jsonData, httpMethod, outcome, read);
    sent := Some(request.Line());
    if nsoReply.Failure? {
      return Failed(Upstream(nsoReply.error)), sent;
    }
    reply := Envelope(nsoReply.value);
  }
}
