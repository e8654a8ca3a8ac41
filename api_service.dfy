/** The API client (src/services/api.ts): the call-creation payload
    normaliser, the routes of the service operations, and the session state
    that the request and response interceptors read and change. */
module ApiService {
  import opened Wrappers
  import opened Text
  import opened CallTypes

  // ---------------------------------------------------------------------
  // Call-creation payload
  // ---------------------------------------------------------------------

  /** JavaScript truthiness of an optional string: present and non-empty. */
  predicate Truthy(s: Option<string>) { s.Some? && s.value != "" }

  /** `a || b` on optional strings. */
  function Or(a: Option<string>, b: Option<string>): Option<string>
  {
    if Truthy(a) then a else b
  }

  /** `a || fallback` where the fallback is a plain string. */
  function OrElse(a: Option<string>, fallback: string): string
  {
    if Truthy(a) then a.value else fallback
  }

  const RequiredFieldsMessage: string := "Phone number and task/script are required"
  const DefaultLanguage: string := "en"
  const DefaultEndpoint: string := "https://api.bland.ai"

  /** The canonical body posted to `/calls`. `temperature` is the number
      0.7 on the wire; the model keeps it as seven tenths. */
  datatype Payload = Payload(
    phone_number: string,
    task: string,
    voice: string,
    wait_for_greeting: bool,
    record: bool,
    answered_by_enabled: bool,
    noise_cancellation: bool,
    interruption_threshold: int,
    block_interruptions: bool,
    max_duration: int,
    model: string,
    language: string,
    background_track: string,
    endpoint: string,
    voicemail_action: string,
    temperatureTenths: int,
    json_mode_enabled: bool,
    fromNumber: Option<string>)

  /** The provider settings that `createCall` always sends, whatever the
      request says. */
  predicate FixedProviderSettings(p: Payload)
  {
    && p.voice == "June"
    && p.wait_for_greeting
    && p.record
    && p.answered_by_enabled
    && !p.noise_cancellation
    && p.interruption_threshold == 100
    && !p.block_interruptions
    && p.max_duration == 12
    && p.model == "base"
    && p.background_track == "none"
    && p.voicemail_action == "hangup"
    && p.temperatureTenths == 7
    && p.json_mode_enabled
  }

  /** Errors `createCall` can raise: the local validation error, raised
      before anything is sent, and a failed request. */
  datatype ApiError = ValidationError(message: string) | RequestError(cause: HttpError)

  /** `createCall`'s validation and legacy-to-new conversion. */
  function Normalise(req: CreateCallRequest): (r: Result<Payload, ApiError>)
    ensures r.Failure? <==>
      (!Truthy(req.phone_number) && !Truthy(req.phoneNumber)) || (!Truthy(req.task) && !Truthy(req.baseScript))
    ensures r.Failure? ==> r.error == ValidationError(RequiredFieldsMessage)
    ensures r.Success? ==>
      && r.value.phone_number != ""
      && r.value.phone_number == (if Truthy(req.phone_number) then req.phone_number.value else req.phoneNumber.value)
      && r.value.task != ""
      && r.value.task == (if Truthy(req.task) then req.task.value else req.baseScript.value)
      && r.value.language == (if Truthy(req.language) then req.language.value else DefaultLanguage)
      && r.value.endpoint == (if Truthy(req.endpoint) then req.endpoint.value else DefaultEndpoint)
      && r.value.fromNumber == req.fromNumber
      && FixedProviderSettings(r.value)
  {
    var phoneNumber := Or(req.phone_number, req.phoneNumber);
    var task := Or(req.task, req.baseScript);
    if !Truthy(phoneNumber) || !Truthy(task) then
      Failure(ValidationError(RequiredFieldsMessage))
    else
      Success(Payload(
        phone_number := phoneNumber.value,
        task := task.value,
        voice := "June",
        wait_for_greeting := true,
        record := true,
        answered_by_enabled := true,
        noise_cancellation := false,
        interruption_threshold := 100,
        block_interruptions := false,
        max_duration := 12,
        model := "base",
        language := OrElse(req.language, DefaultLanguage),
        background_track := "none",
        endpoint := OrElse(req.endpoint, DefaultEndpoint),
        voicemail_action := "hangup",
        temperatureTenths := 7,
        json_mode_enabled := true,
        fromNumber := req.fromNumber))
  }

  /** The request fields `createCall` reads. */
  predicate SameUsedFields(a: CreateCallRequest, b: CreateCallRequest)
  {
    && a.phone_number == b.phone_number && a.phoneNumber == b.phoneNumber
    && a.task == b.task && a.baseScript == b.baseScript
    && a.language == b.language && a.endpoint == b.endpoint
    && a.fromNumber == b.fromNumber
  }

  /** The new-format provider options of a request (voice, model, flags,
      thresholds, ...) never reach the payload. */
  lemma NormaliseIgnoresProviderOptions(a: CreateCallRequest, b: CreateCallRequest)
    requires SameUsedFields(a, b)
    ensures Normalise(a) == Normalise(b)
  {
  }

  // ---------------------------------------------------------------------
  // Requests and routes
  // ---------------------------------------------------------------------

  datatype HttpMethod = Get | Post

  datatype Body = NoBody | CallBody(payload: Payload) | CredentialsBody(credentials: LoginRequest)

  /** A request as handed to the transport. */
  datatype Request = Request(verb: HttpMethod, path: string, headers: map<string, string>, body: Body)

  /** A failed request: the HTTP status when a response arrived (`None` for a
      transport failure without response) and the error message. */
  datatype HttpError = HttpError(status: Option<int>, message: string)

  /** What the backend did with a request: answered with data, or failed. */
  datatype Reply<+T> = Answered(data: T) | Rejected(error: HttpError)

  const AuthorizationHeader: string := "Authorization"
  const LoginPath: string := "/login"

  /** The headers every request starts with. */
  const JsonHeaders: map<string, string> := map["Content-Type" := "application/json"]

  /** The service operations of `authService` and `callsService`. */
  datatype Operation =
    | Login(credentials: LoginRequest)
    | CreateCall(payload: Payload)
    | GetCalls
    | DownloadPdf(callId: int)
    | GetCallDetails(callId: int)
    | ClearAllCalls
    | SyncWithBlandAi

  function CallPath(callId: int, leaf: string): string
  {
    "/calls/" + IntToString(callId) + "/" + leaf
  }

  /** The request each operation issues before interception. */
  function RequestFor(op: Operation): (r: Request)
    ensures r.headers == JsonHeaders && AuthorizationHeader !in r.headers
    ensures r.verb == Get <==> op.GetCalls? || op.DownloadPdf? || op.GetCallDetails?
  {
    match op
    case Login(credentials) => Request(Post, "/auth/login", JsonHeaders, CredentialsBody(credentials))
    case CreateCall(payload) => Request(Post, "/calls", JsonHeaders, CallBody(payload))
    case GetCalls => Request(Get, "/calls", JsonHeaders, NoBody)
    case DownloadPdf(callId) => Request(Get, CallPath(callId, "pdf"), JsonHeaders, NoBody)
    case GetCallDetails(callId) => Request(Get, CallPath(callId, "details"), JsonHeaders, NoBody)
    case ClearAllCalls => Request(Post, "/calls/clear", JsonHeaders, NoBody)
    case SyncWithBlandAi => Request(Post, "/calls/sync", JsonHeaders, NoBody)
  }

  /** Reads the call id out of `/calls/{id}/{leaf}`. */
  function CallIdIn(path: string, leaf: string): Option<int>
  {
    var lo, hi := |"/calls/"|, |path| - |leaf| - 1;
    if lo <= hi && path[..lo] == "/calls/" && path[hi..] == "/" + leaf && IsIntText(path[lo..hi])
    then Some(ParseInt(path[lo..hi]))
    else None
  }

  /** The backend's view of a request: which operation it asks for. */
  function Route(r: Request): Option<Operation>
  {
    match r.body
    case CredentialsBody(credentials) =>
      if r.verb == Post && r.path == "/auth/login" then Some(Login(credentials)) else None
    case CallBody(payload) =>
      if r.verb == Post && r.path == "/calls" then Some(CreateCall(payload)) else None
    case NoBody =>
      if r.verb == Get then
        if r.path == "/calls" then Some(GetCalls)
        else if CallIdIn(r.path, "pdf").Some? then Some(DownloadPdf(CallIdIn(r.path, "pdf").value))
        else if CallIdIn(r.path, "details").Some? then Some(GetCallDetails(CallIdIn(r.path, "details").value))
        else None
      else if r.path == "/calls/clear" then Some(ClearAllCalls)
      else if r.path == "/calls/sync" then Some(SyncWithBlandAi)
      else None
  }

  lemma CallIdInCallPath(callId: int, leaf: string, other: string)
    requires |leaf| > 0 && |other| > 0 && leaf[|leaf| - 1] != other[|other| - 1]
    ensures CallIdIn(CallPath(callId, leaf), leaf) == Some(callId)
    ensures CallIdIn(CallPath(callId, leaf), other) == None
    ensures CallPath(callId, leaf) != "/calls"
  {
    var path := CallPath(callId, leaf);
    var lo, hi := |"/calls/"|, |path| - |leaf| - 1;
    ParseIntToString(callId);
    assert path[lo..hi] == IntToString(callId);
    assert path[..lo] == "/calls/";
    assert path[hi..] == "/" + leaf;
    assert path[|path| - 1] == leaf[|leaf| - 1];
  }

  /** Every operation's request is routed back to that operation. */
  lemma RouteRequestFor(op: Operation)
    ensures Route(RequestFor(op)) == Some(op)
  {
    match op
    case DownloadPdf(callId) =>
      CallIdInCallPath(callId, "pdf", "details");
    case GetCallDetails(callId) =>
      CallIdInCallPath(callId, "details", "pdf");
    case _ =>
  }

  /** Distinct operations issue distinct requests: no two share a method,
      path and body. */
  lemma RequestIdentifiesOperation(a: Operation, b: Operation)
    requires RequestFor(a) == RequestFor(b)
    ensures a == b
  {
    RouteRequestFor(a);
    RouteRequestFor(b);
  }

  // ---------------------------------------------------------------------
  // Interceptors and the session they act on
  // ---------------------------------------------------------------------

  /** What the request interceptor makes of a request for a stored token. */
  function Authorise(r: Request, token: Option<string>): (out: Request)
    ensures out.verb == r.verb && out.path == r.path && out.body == r.body
    ensures Truthy(token) ==>
      && out.headers.Keys == r.headers.Keys + {AuthorizationHeader}
      && out.headers[AuthorizationHeader] == "Bearer " + token.value
      && (forall k :: k in r.headers && k != AuthorizationHeader ==> out.headers[k] == r.headers[k])
    ensures !Truthy(token) ==> out.headers == r.headers
  {
    if Truthy(token) then r.(headers := r.headers[AuthorizationHeader := "Bearer " + token.value]) else r
  }

  /** The request configuration the interceptor receives and edits in place. */
  class RequestConfig {
    const verb: HttpMethod
    const path: string
    const body: Body
    var headers: map<string, string>

    constructor (r: Request)
      ensures Snapshot() == r
    {
      verb, path, body, headers := r.verb, r.path, r.body, r.headers;
    }

    function Snapshot(): Request
      reads this
    {
      Request(verb, path, headers, body)
    }
  }

  /** The browser state the client depends on: the token kept in local
      storage and the page location. `sent` records every request handed to
      the transport, so that "nothing was sent" can be stated. */
  class Session {
    var token: Option<string>
    var location: string
    var sent: seq<Request>

    constructor (token: Option<string>, location: string)
      ensures this.token == token && this.location == location && sent == []
    {
      this.token, this.location, sent := token, location, [];
    }

    /** Request interceptor: attaches `Bearer <token>` when a non-empty
        token is stored; otherwise leaves the headers alone. */
    method AttachToken(config: RequestConfig)
      modifies config
      ensures config.Snapshot() == Authorise(old(config.Snapshot()), token)
    {
      if Truthy(token) {
        config.headers := config.headers[AuthorizationHeader := "Bearer " + token.value];
      }
    }

    /** Response error interceptor: a 401 removes the token and sends the
        browser to the login page; every error is passed on unchanged. */
    method RejectResponse(e: HttpError) returns (propagated: HttpError)
      modifies this
      ensures propagated == e
      ensures e.status == Some(401) ==> token == None && location == LoginPath
      ensures e.status != Some(401) ==> token == old(token) && location == old(location)
      ensures sent == old(sent)
    {
      if e.status == Some(401) {
        token := None;
        location := LoginPath;
      }
      propagated := e;
    }

    /** One service operation: the request interceptor, the transport
        (whose answer is `reply`) and the response interceptors. */
    method Send<T>(op: Operation, reply: Reply<T>) returns (res: Result<T, HttpError>)
      modifies this
      ensures sent == old(sent) + [Authorise(RequestFor(op), old(token))]
      ensures (AuthorizationHeader in sent[|sent| - 1].headers) == Truthy(old(token))
      ensures reply.Answered? ==> res == Success(reply.data) && token == old(token) && location == old(location)
      ensures reply.Rejected? ==> res == Failure(reply.error)
      ensures reply.Rejected? && reply.error.status == Some(401) ==> token == None && location == LoginPath
      ensures !(reply.Rejected? && reply.error.status == Some(401)) ==> token == old(token) && location == old(location)
    {
      var config := new RequestConfig(RequestFor(op));
      AttachToken(config);
      sent := sent + [config.Snapshot()];
      match reply
      case Answered(data) =>
        res := Success(data);
      case Rejected(error) =>
        var propagated := RejectResponse(error);
        res := Failure(propagated);
    }

    /** `callsService.createCall`: a request missing its phone number or its
        task fails before anything is sent; otherwise the normalised payload
        is posted to `/calls`. */
    method CreateCall(req: CreateCallRequest, reply: Reply<Call>) returns (res: Result<Call, ApiError>)
      modifies this
      ensures Normalise(req).Failure? ==>
        && res == Failure(ValidationError(RequiredFieldsMessage))
        && sent == old(sent) && token == old(token) && location == old(location)
      ensures Normalise(req).Success? ==>
        && sent == old(sent) + [Authorise(RequestFor(Operation.CreateCall(Normalise(req).value)), old(token))]
        && (reply.Answered? ==> res == Success(reply.data))
        && (reply.Rejected? ==> res == Failure(RequestError(reply.error)))
      ensures !(Normalise(req).Success? && reply.Rejected? && reply.error.status == Some(401)) ==>
        token == old(token) && location == old(location)
      ensures Normalise(req).Success? && reply.Rejected? && reply.error.status == Some(401) ==>
        token == None && location == LoginPath
    {
      match Normalise(req)
      case Failure(e) =>
        res := Failure(e);
      case Success(payload) =>
        var sendResult := Send(Operation.CreateCall(payload), reply);
        match sendResult
        case Success(call) => res := Success(call);
        case Failure(error) => res := Failure(RequestError(error));
    }
  }
}
