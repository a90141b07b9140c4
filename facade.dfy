/** The orchestration facade of internal/facade/facade.go: registration,
    login and show lookup as step sequences over the user store, the auth
    service, the struct validator and the phish.net client. Each method
    returns the calls it made, in order, so that which steps ran and which
    were skipped is part of its contract. */
module Facade {
  import opened Common
  import opened Models
  import Envelope
  import Auth
  import MongoDb
  import PhishNet
  import Strconv

  const ValidationError := "Validation error"
  const NewUserError := "New user error"
  const FindUserError := "Find user error"
  const VerificationError := "Verification error"
  const TokenUpdateError := "Token update error"
  const GetShowError := "Get show error"

  /** What one request sees of the outside world: the clock (one reading,
      in seconds), bcrypt's random salt, the object id minted for a time, and
      how the store's driver behaves. */
  datatype Env = Env(now: int, salt: string, objectIdAt: int -> ObjectId, driver: MongoDb.Driver)

  /** The facade's calls into its collaborators. */
  datatype Call =
    | ValidateStruct(request: User)
    | GenerateAllTokens(user: User)
    | AddNewUser(user: User)
    | FindUserByUsername(request: User)
    | VerifyPassword(userPassword: string, providedPassword: string)
    | UpdateAllTokens(token: string, refreshToken: string, userId: string)
    | PhishNetGetShow(date: string)

  /** The request as registration prepares it for the token service: both
      times set to now, an id minted from that time, and the user id its hex
      form; every other field as the client sent it. */
  function Stamped(request: User, now: int, objectIdAt: int -> ObjectId): (u: User)
    ensures u.createdAt == now && u.updatedAt == now && u.id == objectIdAt(now) && u.userId == Hex(objectIdAt(now))
    ensures u.(createdAt := request.createdAt, updatedAt := request.updatedAt, id := request.id, userId := request.userId) == request
  {
    request.(createdAt := now, updatedAt := now, id := objectIdAt(now), userId := Hex(objectIdAt(now)))
  }

  /** The facade's setlist loop: one song per row, in order, with only the
      title and the track time copied. */
  method Setlist(data: seq<PhishNet.PNData>) returns (songs: seq<Song>)
    ensures |songs| == |data|
    ensures forall i :: 0 <= i < |data| ==> songs[i] == Song("", data[i].song, data[i].tracktime, "")
  {
    songs := [];
    for i := 0 to |data|
      invariant |songs| == i
      invariant forall j :: 0 <= j < i ==> songs[j] == Song("", data[j].song, data[j].tracktime, "")
    {
      songs := songs + [Song("", data[i].song, data[i].tracktime, "")];
    }
  }

  class Service {
    const mongo: MongoDb.MongoService
    const phishNet: string -> Result<PhishNet.PNShowResponse>
    /** validator.Struct: the text of the validation error, if any. */
    const validator: User -> Option<string>
    const auth: Auth.AuthService

    constructor (mongo: MongoDb.MongoService, phishNet: string -> Result<PhishNet.PNShowResponse>,
                 validator: User -> Option<string>, auth: Auth.AuthService)
      ensures this.mongo == mongo && this.phishNet == phishNet && this.validator == validator && this.auth == auth
    {
      this.mongo := mongo;
      this.phishNet := phishNet;
      this.validator := validator;
      this.auth := auth;
    }

    /** RegisterUser: validate; stamp the times, the id and the user id; issue
        both tokens; store. Tokens are issued before the store is asked
        anything, so they are issued for a request that then fails. A failed
        step gives exactly one envelope entry, no user and no later step;
        success gives the stored record and an empty message. */
    method RegisterUser(userRequest: User, env: Env) returns (r: Outcome<UserResponse>, calls: seq<Call>)
      modifies mongo
      ensures |calls| >= 1 && calls[0] == ValidateStruct(userRequest)
      ensures validator(userRequest).Some? ==>
                && calls == [calls[0]]
                && r == Returned(UserResponse(None, Envelope.Failure(ValidationError, HttpBadRequest, validator(userRequest).value)))
                && mongo.users == old(mongo.users)
      ensures validator(userRequest).None? ==>
                var stamped := Stamped(userRequest, env.now, env.objectIdAt);
                |calls| >= 2 && calls[1] == GenerateAllTokens(stamped) &&
                match Auth.GenerateAllTokens(auth, stamped, env.now)
                case Panicked(why) => calls == calls[..2] && r == Panicked(why) && mongo.users == old(mongo.users)
                case Returned(pair) =>
                  var withTokens := stamped.(token := pair.token, refreshToken := pair.refreshToken);
                  && calls == calls[..2] + [AddNewUser(withTokens)]
                  && (r.Returned? && r.value.user.Some? <==> MongoDb.Accepts(old(mongo.users), withTokens, auth, env.salt, env.driver))
                  && (r.Returned? && r.value.user.Some? ==>
                        && r.value.user.value == withTokens.(password := Auth.HashPassword(auth, withTokens.password, env.salt).value)
                        && r.value.message == EmptyMessage
                        && mongo.users == old(mongo.users) + [r.value.user.value])
                  && (r.Returned? && r.value.user.None? ==>
                        && |r.value.message.errorLog| == 1
                        && r.value.message == Envelope.Failure(NewUserError, HttpInternalServerError, r.value.message.errorLog[0].trace)
                        && mongo.users == old(mongo.users))
                  && (r.Panicked? <==> MongoDb.ReachesHash(old(mongo.users), withTokens, env.driver) &&
                                       Auth.HashPassword(auth, withTokens.password, env.salt).Panicked?)
                  && (r.Panicked? ==> mongo.users == old(mongo.users))
    {
      var response := EmptyUserResponse;
      var message := EmptyMessage;
      calls := [ValidateStruct(userRequest)];
      var validationErr := validator(userRequest);
      if validationErr.Some? {
        var errLogs := Envelope.ErrorLogs([validationErr.value], ValidationError, HttpBadRequest);
        message := message.(errorLog := errLogs);
        message := message.(status := Strconv.Itoa(HttpBadRequest));
        response := response.(message := message);
        return Returned(response), calls;
      }
      var request := userRequest;
      request := request.(createdAt := env.now);
      request := request.(updatedAt := env.now);
      request := request.(id := env.objectIdAt(request.createdAt));
      request := request.(userId := Hex(request.id));
      calls := calls + [GenerateAllTokens(request)];
      var tokens := Auth.GenerateAllTokens(auth, request, env.now);
      if tokens.Panicked? {
        return Panicked(tokens.reason), calls;
      }
      request := request.(token := tokens.value.token);
      request := request.(refreshToken := tokens.value.refreshToken);
      calls := calls + [AddNewUser(request)];
      var added, _ := mongo.AddNewUser(request, auth, env.salt, env.driver);
      if added.Panicked? {
        return Panicked(added.reason), calls;
      }
      if added.value.Err? {
        var errLogs := Envelope.ErrorLogs([added.value.error], NewUserError, HttpInternalServerError);
        message := message.(errorLog := errLogs);
        message := message.(status := Strconv.Itoa(HttpInternalServerError));
        response := response.(message := message);
        return Returned(response), calls;
      }
      response := response.(message := message);
      response := response.(user := Some(added.value.value));
      r := Returned(response);
    }

    /** LoginUser: find the record by username; check the password against
        its digest; issue tokens from the record; store them. A failed step
        gives exactly one envelope entry, no user and no later step. Success
        gives status "200" and the record as it was found: the new tokens
        reach the store but not the response. */
    method LoginUser(userRequest: User, env: Env) returns (r: Outcome<UserResponse>, calls: seq<Call>)
      modifies mongo
      ensures |calls| >= 1 && calls[0] == FindUserByUsername(userRequest)
      ensures old(mongo.FindUserByUsername(userRequest, env.driver)).Err? ==>
                && calls == [calls[0]]
                && r == Returned(UserResponse(None, Envelope.Failure(FindUserError, HttpInternalServerError,
                                                                   old(mongo.FindUserByUsername(userRequest, env.driver)).error)))
                && mongo.users == old(mongo.users)
      ensures old(mongo.FindUserByUsername(userRequest, env.driver)).Ok? ==>
                var found := old(mongo.FindUserByUsername(userRequest, env.driver)).value;
                |calls| >= 2 && calls[1] == VerifyPassword(userRequest.password, found.password) &&
                if !Auth.VerifyPassword(auth, userRequest.password, found.password).0 then
                  && calls == calls[..2]
                  && r == Returned(UserResponse(None, Envelope.Failure(VerificationError, HttpInternalServerError, Auth.PasswordMismatch)))
                  && mongo.users == old(mongo.users)
                else
                  |calls| >= 3 && calls[2] == GenerateAllTokens(found) &&
                  match Auth.GenerateAllTokens(auth, found, env.now)
                  case Panicked(why) => calls == calls[..3] && r == Panicked(why) && mongo.users == old(mongo.users)
                  case Returned(pair) =>
                    && calls == calls[..3] + [UpdateAllTokens(pair.token, pair.refreshToken, found.userId)]
                    && if env.driver.updateOne.Some? then
                         && r == Returned(UserResponse(None, Envelope.Failure(TokenUpdateError, HttpInternalServerError, env.driver.updateOne.value)))
                         && mongo.users == old(mongo.users)
                       else
                         && r == Returned(UserResponse(Some(found), EmptyMessage.(status := Strconv.Itoa(HttpOk))))
                         && mongo.users == MongoDb.Upserted(old(mongo.users), found.userId,
                                                            MongoDb.TokenUpdate(pair.token, pair.refreshToken, env.now), env.driver.upsertId)
    {
      var message := EmptyMessage;
      var response := EmptyUserResponse;
      calls := [FindUserByUsername(userRequest)];
      var foundUser := mongo.FindUserByUsername(userRequest, env.driver);
      if foundUser.Err? {
        var errLogs := Envelope.ErrorLogs([foundUser.error], FindUserError, HttpInternalServerError);
        message := message.(errorLog := errLogs);
        message := message.(status := Strconv.Itoa(HttpInternalServerError));
        response := response.(message := message);
        return Returned(response), calls;
      }
      calls := calls + [VerifyPassword(userRequest.password, foundUser.value.password)];
      var (passwordIsValid, msg) := Auth.VerifyPassword(auth, userRequest.password, foundUser.value.password);
      if !passwordIsValid {
        var errLogs := Envelope.ErrorLogs([msg], VerificationError, HttpInternalServerError);
        message := message.(errorLog := errLogs);
        message := message.(status := Strconv.Itoa(HttpInternalServerError));
        response := response.(message := message);
        return Returned(response), calls;
      }
      calls := calls + [GenerateAllTokens(foundUser.value)];
      var tokens := Auth.GenerateAllTokens(auth, foundUser.value, env.now);
      if tokens.Panicked? {
        return Panicked(tokens.reason), calls;
      }
      calls := calls + [UpdateAllTokens(tokens.value.token, tokens.value.refreshToken, foundUser.value.userId)];
      var err, _ := mongo.UpdateAllTokens(tokens.value.token, tokens.value.refreshToken, foundUser.value.userId, env.now, env.driver);
      if err.Some? {
        var errLogs := Envelope.ErrorLogs([err.value], TokenUpdateError, HttpInternalServerError);
        message := message.(errorLog := errLogs);
        message := message.(status := Strconv.Itoa(HttpInternalServerError));
        response := response.(message := message);
        return Returned(response), calls;
      }
      response := response.(message := response.message.(status := Strconv.Itoa(HttpOk)));
      response := response.(user := Some(foundUser.value));
      r := Returned(response);
    }

    /** GetShow as written: a fetch error gives one "Get show error" entry;
        otherwise the songs keep the rows' order and count but only their
        titles and track times, and date and venue come from the first row,
        which an empty payload does not have. */
    method GetShow(date: string) returns (r: Outcome<GetShowResponse>, calls: seq<Call>)
      ensures calls == [PhishNetGetShow(date)]
      ensures phishNet(date).Err? ==>
                r == Returned(GetShowResponse(EmptyShow, Envelope.Failure(GetShowError, HttpInternalServerError, phishNet(date).error)))
      ensures phishNet(date).Ok? && phishNet(date).value.data == [] ==> r == Panicked(IndexOutOfRange)
      ensures phishNet(date).Ok? && phishNet(date).value.data != [] ==>
                var data := phishNet(date).value.data;
                && r.Returned? && r.value.message == EmptyMessage
                && r.value.show.date == data[0].showdate && r.value.show.venue == data[0].venue
                && |r.value.show.songs| == |data|
                && forall i :: 0 <= i < |data| ==> r.value.show.songs[i] == Song("", data[i].song, data[i].tracktime, "")
    {
      var response := GetShowResponse(EmptyShow, EmptyMessage);
      var message := EmptyMessage;
      calls := [PhishNetGetShow(date)];
      var showData := phishNet(date);
      if showData.Err? {
        var errLogs := Envelope.ErrorLogs([showData.error], GetShowError, HttpInternalServerError);
        message := message.(errorLog := errLogs);
        message := message.(status := Strconv.Itoa(HttpInternalServerError));
        response := response.(message := message);
        return Returned(response), calls;
      }
      var songs := Setlist(showData.value.data);
      if showData.value.data == [] {
        return Panicked(IndexOutOfRange), calls;
      }
      response := response.(show := Show(showData.value.data[0].showdate, showData.value.data[0].venue, songs));
      r := Returned(response);
    }

    /** GetShow with the guard the phish.net mapper has: an empty payload
        gives the empty show instead of a panic; everything else as written. */
    method GetShowCorrected(date: string) returns (r: Outcome<GetShowResponse>, calls: seq<Call>)
      ensures r.Returned?
      ensures calls == [PhishNetGetShow(date)]
      ensures phishNet(date).Err? ==>
                r.value == GetShowResponse(EmptyShow, Envelope.Failure(GetShowError, HttpInternalServerError, phishNet(date).error))
      ensures phishNet(date).Ok? && phishNet(date).value.data == [] ==> r.value == GetShowResponse(EmptyShow, EmptyMessage)
      ensures phishNet(date).Ok? && phishNet(date).value.data != [] ==>
                var data := phishNet(date).value.data;
                && r.value.message == EmptyMessage
                && r.value.show.date == data[0].showdate && r.value.show.venue == data[0].venue
                && |r.value.show.songs| == |data|
                && forall i :: 0 <= i < |data| ==> r.value.show.songs[i] == Song("", data[i].song, data[i].tracktime, "")
    {
      var response := GetShowResponse(EmptyShow, EmptyMessage);
      calls := [PhishNetGetShow(date)];
      var showData := phishNet(date);
      if showData.Err? {
        var message := EmptyMessage;
        var errLogs := Envelope.ErrorLogs([showData.error], GetShowError, HttpInternalServerError);
        message := message.(errorLog := errLogs);
        message := message.(status := Strconv.Itoa(HttpInternalServerError));
        return Returned(response.(message := message)), calls;
      }
      if showData.value.data == [] {
        return Returned(response), calls;
      }
      var songs := Setlist(showData.value.data);
      response := response.(show := Show(showData.value.data[0].showdate, showData.value.data[0].venue, songs));
      r := Returned(response);
    }
  }
}
