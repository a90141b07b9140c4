/** The HTTP layer of internal/routes: the request-reading early exits of
    the registration and login handlers, the projection setUserResponse
    applies to what the facade answers, and the decision inside the token
    middleware. Reading the body, JSON decoding, the host name and the
    elapsed time are inputs. */
module Routes {
  import opened Common
  import opened Models
  import Envelope
  import Strconv
  import Auth
  import Facade

  const UnreadableBody := "Unable to read request body"
  const UnparsableRequest := "Unable to parse request"
  const NoAuthHeader := "no authorization header provided"
  const AuthenticationError := "Authentication error"
  const ValidationError := "Validation error"

  /** The handler's collaborators: the facade and the auth service. */
  datatype Handler = Handler(service: Facade.Service, authService: Auth.AuthService)

  /** setUserResponse: the status parsed back from the message, and the
      record cut down to the client's view. Only id, names, email, shows and
      tokens are copied: the password digest and both times never leave, and
      of the message only the entries and the status survive, beside the host
      name. The record is dereferenced, so a response without one panics. */
  function SetUserResponse(res: UserResponse, hostName: string): (r: Outcome<(ParsedUserResponse, int)>)
    ensures r.Panicked? <==> res.user.None?
    ensures r.Returned? ==> r.value.1 == Strconv.Atoi(res.message.status)
    ensures r.Returned? ==>
              var u, out := res.user.value, r.value.0.user;
              && out.id == Hex(u.id) && out.fullName == u.fullName && out.username == u.username
              && out.email == u.email && out.shows == u.shows
              && out.token == u.token && out.refreshToken == u.refreshToken
              && out.password == "" && out.createdAt == "" && out.updatedAt == ""
    ensures r.Returned? ==>
              r.value.0.message == Message(res.message.errorLog, hostName, res.message.status, "", 0)
  {
    var status := Strconv.Atoi(res.message.status);
    match res.user
    case None => Panicked(NilDereference)
    case Some(u) =>
      Returned((ParsedUserResponse(
                  UserParsed(Hex(u.id), u.fullName, u.email, u.username, "", u.token, u.refreshToken, "", "", u.shows),
                  Message(res.message.errorLog, hostName, res.message.status, "", 0)),
                status))
  }

  /** The status handed to writeHeader: 200 after a successful login, and
      0 after a successful registration, whose message status is left empty. */
  lemma SuccessStatuses(user: User, hostName: string)
    ensures SetUserResponse(UserResponse(Some(user), EmptyMessage.(status := Strconv.Itoa(HttpOk))), hostName).value.1 == HttpOk
    ensures SetUserResponse(UserResponse(Some(user), EmptyMessage), hostName).value.1 == 0
  {
    Strconv.AtoiItoa(HttpOk);
  }

  /** The early exits shared by both handlers: a body that cannot be read or
      decoded gives one entry with status "400" and no request; the message
      status itself stays unset. */
  method ReadRequest(body: Result<string>, decode: string -> Result<User>) returns (request: Option<User>, message: Message)
    ensures body.Err? ==>
              request.None? && message == EmptyMessage.(errorLog := Envelope.Entries([body.error], UnreadableBody, HttpBadRequest))
    ensures body.Ok? && decode(body.value).Err? ==>
              request.None? && message == EmptyMessage.(errorLog := Envelope.Entries([decode(body.value).error], UnparsableRequest, HttpBadRequest))
    ensures body.Ok? && decode(body.value).Ok? ==> request == Some(decode(body.value).value) && message == EmptyMessage
  {
    message := EmptyMessage;
    if body.Err? {
      var errLogs := Envelope.ErrorLogs([body.error], UnreadableBody, HttpBadRequest);
      message := message.(errorLog := errLogs);
      return None, message;
    }
    var parsed := decode(body.value);
    if parsed.Err? {
      var errLogs := Envelope.ErrorLogs([parsed.error], UnparsableRequest, HttpBadRequest);
      message := message.(errorLog := errLogs);
      return None, message;
    }
    request := Some(parsed.value);
  }

  /** RegistrationHandler: read and decode the body, then register. The
      facade is reached only with a decoded request; whatever response
      results is what the deferred setUserResponse projects, and a response
      without a user (every error path) makes that projection panic. */
  method RegistrationHandler(h: Handler, body: Result<string>, decode: string -> Result<User>, env: Facade.Env, hostName: string)
    returns (response: UserResponse, written: Outcome<(ParsedUserResponse, int)>, facadeCalls: seq<Facade.Call>)
    modifies h.service.mongo
    ensures written == SetUserResponse(response, hostName)
    ensures facadeCalls == [] <==> body.Err? || decode(body.value).Err?
    ensures facadeCalls == [] ==>
              && response.user.None? && |response.message.errorLog| == 1
              && response.message.errorLog[0].status == Strconv.Itoa(HttpBadRequest)
              && written.Panicked? && h.service.mongo.users == old(h.service.mongo.users)
    ensures facadeCalls != [] ==> facadeCalls[0] == Facade.ValidateStruct(decode(body.value).value)
  {
    response := EmptyUserResponse;
    var request, message := ReadRequest(body, decode);
    if request.None? {
      response := response.(message := message);
      return response, SetUserResponse(response, hostName), [];
    }
    var served;
    served, facadeCalls := h.service.RegisterUser(request.value, env);
    if served.Returned? {
      response := served.value;
    }
    written := SetUserResponse(response, hostName);
  }

  /** LoginHandler: read and decode the body, then log in; as for
      registration, only a response carrying a user is written out. */
  method LoginHandler(h: Handler, body: Result<string>, decode: string -> Result<User>, env: Facade.Env, hostName: string)
    returns (response: UserResponse, written: Outcome<(ParsedUserResponse, int)>, facadeCalls: seq<Facade.Call>)
    modifies h.service.mongo
    ensures written == SetUserResponse(response, hostName)
    ensures facadeCalls == [] <==> body.Err? || decode(body.value).Err?
    ensures facadeCalls == [] ==>
              && response.user.None? && |response.message.errorLog| == 1
              && response.message.errorLog[0].status == Strconv.Itoa(HttpBadRequest)
              && written.Panicked? && h.service.mongo.users == old(h.service.mongo.users)
    ensures facadeCalls != [] ==> facadeCalls[0] == Facade.FindUserByUsername(decode(body.value).value)
  {
    response := EmptyUserResponse;
    var request, message := ReadRequest(body, decode);
    if request.None? {
      response := response.(message := message);
      return response, SetUserResponse(response, hostName), [];
    }
    var served;
    served, facadeCalls := h.service.LoginUser(request.value, env);
    if served.Returned? {
      response := served.value;
    }
    written := SetUserResponse(response, hostName);
  }

  /** What the middleware writes: the response, the status it passes to the
      header, and whether the wrapped handler ran. */
  datatype MiddlewareResult = MiddlewareResult(response: AuthResponse, status: int, nextInvoked: bool)

  /** The middleware's own decision: the response before the deferred step. */
  function Authenticate(auth: Auth.AuthService, clientToken: string, now: int): (r: Outcome<AuthResponse>)
    ensures clientToken == "" ==>
              r == Returned(AuthResponse("", "", "", EmptyMessage.(errorLog := Envelope.Entries([NoAuthHeader], AuthenticationError, HttpInternalServerError))))
    ensures clientToken != "" ==> (r.Panicked? <==> Auth.ValidateToken(auth, clientToken, now).Panicked?)
    ensures clientToken != "" && r.Returned? ==>
              match Auth.ValidateToken(auth, clientToken, now).value
              case Err(e) => r.value == AuthResponse("", "", "", EmptyMessage.(errorLog := Envelope.Entries([e], ValidationError, HttpForbidden)))
              case Ok(claims) => r.value == AuthResponse(claims.fullName, claims.email, claims.uid, EmptyMessage)
  {
    if clientToken == "" then
      Returned(EmptyAuthResponse.(message := EmptyMessage.(errorLog := Envelope.Entries([NoAuthHeader], AuthenticationError, HttpInternalServerError))))
    else
      match Auth.ValidateToken(auth, clientToken, now)
      case Panicked(why) => Panicked(why)
      case Returned(Err(e)) =>
        Returned(EmptyAuthResponse.(message := EmptyMessage.(errorLog := Envelope.Entries([e], ValidationError, HttpForbidden))))
      case Returned(Ok(claims)) =>
        Returned(EmptyAuthResponse.(userId := claims.uid, fullName := claims.fullName, email := claims.email))
  }

  /** setMiddlewareResponse: the host name is filled in and the status is
      parsed back from the message. */
  function SetMiddlewareResponse(res: AuthResponse, hostName: string): (r: (AuthResponse, int))
    ensures r.0.message.hostName == hostName && r.0.(message := res.message) == res
    ensures r.0.message.(hostName := res.message.hostName) == res.message
    ensures r.1 == Strconv.Atoi(res.message.status)
  {
    (res.(message := res.message.(hostName := hostName)), Strconv.Atoi(res.message.status))
  }

  /** Middleware as written. An empty header gives one "Authentication
      error" entry with status "500", and the token service is not asked; a
      validation error gives one "Validation error" entry with status "403"
      and no identity; a valid token copies the claims' identity. No branch
      sets the message status, so the header status is always Atoi("") = 0,
      and the wrapped handler is never invoked. */
  function Middleware(auth: Auth.AuthService, clientToken: string, now: int, hostName: string, timeTaken: string): (r: Outcome<MiddlewareResult>)
    ensures clientToken == "" ==>
              r == Returned(MiddlewareResult(
                     AuthResponse("", "", "", Message(Envelope.Entries([NoAuthHeader], AuthenticationError, HttpInternalServerError), hostName, "", timeTaken, 0)),
                     0, false))
    ensures clientToken != "" ==> (r.Panicked? <==> Auth.ValidateToken(auth, clientToken, now).Panicked?)
    ensures clientToken != "" && Auth.ValidateToken(auth, clientToken, now).Returned? && Auth.ValidateToken(auth, clientToken, now).value.Err? ==>
              r == Returned(MiddlewareResult(
                     AuthResponse("", "", "", Message(Envelope.Entries([Auth.ValidateToken(auth, clientToken, now).value.error], ValidationError, HttpForbidden), hostName, "", timeTaken, 0)),
                     0, false))
    ensures clientToken != "" && Auth.ValidateToken(auth, clientToken, now).Returned? && Auth.ValidateToken(auth, clientToken, now).value.Ok? ==>
              var claims := Auth.ValidateToken(auth, clientToken, now).value.value;
              r == Returned(MiddlewareResult(AuthResponse(claims.fullName, claims.email, claims.uid, Message([], hostName, "", timeTaken, 0)), 0, false))
    ensures r.Returned? ==> r.value.status == 0 && !r.value.nextInvoked
  {
    match Authenticate(auth, clientToken, now)
    case Panicked(why) => Panicked(why)
    case Returned(response) =>
      var (res, status) := SetMiddlewareResponse(response, hostName);
      Returned(MiddlewareResult(res.(message := res.message.(timeTaken := timeTaken)), status, false))
  }

  /** As written, a freshly issued access token does not get through: the
      inverted expiry check panics on it. */
  lemma FreshTokenRejected(auth: Auth.AuthService, user: User, issuedAt: int, now: int, hostName: string, timeTaken: string)
    requires Auth.RoundTrips(auth.jwt)
    requires Auth.GenerateAllTokens(auth, user, issuedAt).Returned?
    requires Auth.GenerateAllTokens(auth, user, issuedAt).value.token != ""
    requires now < issuedAt + Auth.AccessTtl
    ensures Middleware(auth, Auth.GenerateAllTokens(auth, user, issuedAt).value.token, now, hostName, timeTaken).Panicked?
  {
    Auth.FreshAccessTokenPanics(auth, user, issuedAt, now);
  }

  /** The middleware's evident intent: reject with the entry's own status,
      or pass the request on with the caller's identity. */
  datatype Gate = Forward(identity: AuthResponse) | Reject(response: AuthResponse, status: int)

  /** Middleware as evidently intended: the corrected validator, the status
      set on every rejection, and the wrapped handler reached exactly when
      the token is valid. */
  function MiddlewareCorrected(auth: Auth.AuthService, clientToken: string, now: int, hostName: string): (r: Gate)
    ensures r.Forward? <==> clientToken != "" && Auth.ValidateTokenCorrected(auth, clientToken, now).value.Ok?
    ensures r.Forward? ==>
              var claims := Auth.ValidateTokenCorrected(auth, clientToken, now).value.value;
              r.identity == AuthResponse(claims.fullName, claims.email, claims.uid, EmptyMessage)
    ensures clientToken == "" ==>
              r == Reject(AuthResponse("", "", "", Envelope.Failure(AuthenticationError, HttpInternalServerError, NoAuthHeader).(hostName := hostName)),
                          HttpInternalServerError)
    ensures r.Reject? ==>
              && |r.response.message.errorLog| == 1
              && r.response.message.status == r.response.message.errorLog[0].status == Strconv.Itoa(r.status)
              && (r.status == HttpInternalServerError || r.status == HttpForbidden)
    ensures clientToken != "" && r.Reject? ==>
              && Auth.ValidateTokenCorrected(auth, clientToken, now).value.Err?
              && r == Reject(AuthResponse("", "", "", Envelope.Failure(ValidationError, HttpForbidden,
                                                                       Auth.ValidateTokenCorrected(auth, clientToken, now).value.error).(hostName := hostName)),
                             HttpForbidden)
  {
    Strconv.AtoiItoa(HttpInternalServerError);
    Strconv.AtoiItoa(HttpForbidden);
    if clientToken == "" then
      var (res, status) := SetMiddlewareResponse(EmptyAuthResponse.(message := Envelope.Failure(AuthenticationError, HttpInternalServerError, NoAuthHeader)), hostName);
      Reject(res, status)
    else
      match Auth.ValidateTokenCorrected(auth, clientToken, now).value
      case Err(e) =>
        var (res, status) := SetMiddlewareResponse(EmptyAuthResponse.(message := Envelope.Failure(ValidationError, HttpForbidden, e)), hostName);
        Reject(res, status)
      case Ok(claims) => Forward(EmptyAuthResponse.(userId := claims.uid, fullName := claims.fullName, email := claims.email))
  }

  /** With the corrections, an access token is passed on, with its holder's
      name, email and id, for exactly its 24 hours. */
  lemma FreshTokenForwarded(auth: Auth.AuthService, user: User, issuedAt: int, now: int, hostName: string)
    requires Auth.RoundTrips(auth.jwt)
    requires Auth.GenerateAllTokens(auth, user, issuedAt).Returned?
    requires Auth.GenerateAllTokens(auth, user, issuedAt).value.token != ""
    ensures var g := MiddlewareCorrected(auth, Auth.GenerateAllTokens(auth, user, issuedAt).value.token, now, hostName);
            if now < issuedAt + Auth.AccessTtl then g == Forward(AuthResponse(user.fullName, user.email, Hex(user.id), EmptyMessage))
            else g.Reject? && g.status == HttpForbidden
  {
    Auth.AccessTokenRoundTrip(auth, user, issuedAt, now);
  }
}
