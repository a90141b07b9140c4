/** The user store of internal/services/mongodb/service.go: the `users`
    collection as a sequence of records in natural (insertion) order. The
    driver's own failures and the `_id` the server gives an upserted
    document are inputs (Driver); a query is a filter over the sequence. */
module MongoDb {
  import opened Common
  import opened Models
  import Auth

  /** The driver's "mongo: no documents in result" (ErrNoDocuments). */
  const NoDocuments := "mongo: no documents in result"

  /** The prefix FindUserByUsername puts on every failure (spelling as in the source). */
  const LoginIncorrect := "login or passowrd is incorrect; err: "

  /** How the driver behaves during one request: the error, if any, each call
      site gets back, and the `_id` the server assigns on an upsert. */
  datatype Driver = Driver(
    findEmail: Option<string>,
    findUsername: Option<string>,
    insertOne: Option<string>,
    findOne: Option<string>,
    updateOne: Option<string>,
    find: Option<string>,
    upsertId: ObjectId)

  const NoFaults := Driver(None, None, None, None, None, None, NilObjectId)

  /** The document keys the store filters on. The record type has no phone
      field, so no stored record carries one. */
  datatype Key = EmailKey | UsernameKey | PhoneKey | UserIdKey

  function Field(u: User, k: Key): Option<string> {
    match k
    case EmailKey => Some(u.email)
    case UsernameKey => Some(u.username)
    case PhoneKey => None
    case UserIdKey => Some(u.userId)
  }

  predicate Matches(u: User, k: Key, v: string) {
    Field(u, k) == Some(v)
  }

  /** Whether the filter bson.M{key: value} selects a record, for a `*string`
      value: a string matches that string, and a nil value encodes as null,
      which matches every record lacking the field (here: no phone key, or an
      absent string, written ""). */
  predicate Selects(u: User, k: Key, value: Option<string>) {
    match value
    case Some(v) => Matches(u, k, v)
    case None => Field(u, k) == None || Field(u, k) == Some("")
  }

  /** What Find(ctx, bson.M{key: value}) followed by cursor.All yields: the selected records in store order. */
  function Matching(users: seq<User>, k: Key, value: Option<string>): (r: seq<User>)
    ensures |r| <= |users|
    ensures forall x :: x in r ==> x in users && Selects(x, k, value)
  {
    if users == [] then []
    else (if Selects(users[0], k, value) then [users[0]] else []) + Matching(users[1..], k, value)
  }

  lemma {:induction false} MatchingComplete(users: seq<User>, k: Key, value: Option<string>, x: User)
    requires x in users && Selects(x, k, value)
    ensures x in Matching(users, k, value)
  {
    if users[0] != x {
      MatchingComplete(users[1..], k, value, x);
    }
  }

  /** Filtering distributes over concatenation, so the result keeps store order. */
  lemma {:induction false} MatchingAppend(a: seq<User>, b: seq<User>, k: Key, value: Option<string>)
    ensures Matching(a + b, k, value) == Matching(a, k, value) + Matching(b, k, value)
  {
    if a == [] {
      assert a + b == b;
    } else {
      var ab := a + b;
      assert ab[0] == a[0] && ab[1..] == a[1..] + b;
      var head := if Selects(a[0], k, value) then [a[0]] else [];
      MatchingAppend(a[1..], b, k, value);
      calc {
        Matching(ab, k, value);
        head + Matching(a[1..] + b, k, value);
        head + (Matching(a[1..], k, value) + Matching(b, k, value));
        (head + Matching(a[1..], k, value)) + Matching(b, k, value);
        Matching(a, k, value) + Matching(b, k, value);
      }
    }
  }

  /** Exactly the records the filter selects. */
  lemma MatchingExactly(users: seq<User>, k: Key, value: Option<string>)
    ensures forall x :: x in Matching(users, k, value) <==> x in users && Selects(x, k, value)
  {
    forall x | x in users && Selects(x, k, value) ensures x in Matching(users, k, value) {
      MatchingComplete(users, k, value, x);
    }
  }

  /** A record appears in the result as often as the filter selects it in the
      store: the result is the store with the other records dropped. */
  lemma {:induction false} MatchingCount(users: seq<User>, k: Key, value: Option<string>, x: User)
    ensures multiset(Matching(users, k, value))[x] == if Selects(x, k, value) then multiset(users)[x] else 0
  {
    if users != [] {
      var head := if Selects(users[0], k, value) then [users[0]] else [];
      assert Matching(users, k, value) == head + Matching(users[1..], k, value);
      assert users == [users[0]] + users[1..];
      assert multiset(users) == multiset([users[0]]) + multiset(users[1..]);
      MatchingCount(users[1..], k, value, x);
    }
  }

  /** A phone filter with a string value never selects a stored record. */
  lemma {:induction false} NoPhoneMatches(users: seq<User>, v: string)
    ensures Matching(users, PhoneKey, Some(v)) == []
  {
    if users != [] {
      NoPhoneMatches(users[1..], v);
    }
  }

  /** A phone filter with a nil value selects every stored record. */
  lemma {:induction false} NullPhoneMatchesAll(users: seq<User>)
    ensures Matching(users, PhoneKey, None) == users
  {
    if users != [] {
      NullPhoneMatchesAll(users[1..]);
      assert users == [users[0]] + users[1..];
    }
  }

  /** The position of the first record matching the filter: the one FindOne and UpdateOne act on. */
  function FirstIndex(users: seq<User>, k: Key, v: string): (r: Option<nat>)
    ensures r.Some? ==> r.value < |users| && Matches(users[r.value], k, v) &&
                        forall j :: 0 <= j < r.value ==> !Matches(users[j], k, v)
    ensures r.None? ==> forall j :: 0 <= j < |users| ==> !Matches(users[j], k, v)
  {
    if users == [] then None
    else if Matches(users[0], k, v) then Some(0)
    else match FirstIndex(users[1..], k, v)
         case None => None
         case Some(i) => Some(i + 1)
  }

  predicate Taken(users: seq<User>, k: Key, v: string) {
    FirstIndex(users, k, v).Some?
  }

  /** A value of a `$set` entry. */
  datatype BsonValue = BString(s: string) | BTime(t: int)

  /** bson.E: one key and its value. */
  datatype BsonE = E(key: string, value: BsonValue)

  /** `$set` of one entry on a record, for the record's bson keys. */
  function SetField(u: User, e: BsonE): User {
    match e
    case E("fullName", BString(s)) => u.(fullName := s)
    case E("email", BString(s)) => u.(email := s)
    case E("username", BString(s)) => u.(username := s)
    case E("password", BString(s)) => u.(password := s)
    case E("token", BString(s)) => u.(token := s)
    case E("refreshToken", BString(s)) => u.(refreshToken := s)
    case E("userId", BString(s)) => u.(userId := s)
    case E("createdAt", BTime(t)) => u.(createdAt := t)
    case E("updatedAt", BTime(t)) => u.(updatedAt := t)
    case _ => u
  }

  /** `$set` of a whole update document, entry by entry (a later entry for the same key wins). */
  function ApplySet(u: User, update: seq<BsonE>): User
    decreases |update|
  {
    if update == [] then u else ApplySet(SetField(u, update[0]), update[1..])
  }

  /** The document an upsert creates: the filter's userId, the server's `_id`, nothing else. */
  function UpsertDocument(userId: string, id: ObjectId): User {
    EmptyUser.(id := id, userId := userId)
  }

  /** The three entries UpdateAllTokens appends, in order. */
  function TokenUpdate(token: string, refreshToken: string, updatedAt: int): (update: seq<BsonE>)
    ensures |update| == 3
    ensures update[0].key == "token" && update[1].key == "refreshToken" && update[2].key == "updatedAt"
  {
    [E("token", BString(token)), E("refreshToken", BString(refreshToken)), E("updatedAt", BTime(updatedAt))]
  }

  /** The token update sets exactly the two tokens and updatedAt of a record. */
  lemma TokenUpdateSets(u: User, token: string, refreshToken: string, updatedAt: int)
    ensures ApplySet(u, TokenUpdate(token, refreshToken, updatedAt)) ==
            u.(token := token, refreshToken := refreshToken, updatedAt := updatedAt)
  {
    var update := TokenUpdate(token, refreshToken, updatedAt);
    var u1 := SetField(u, update[0]);
    var u2 := SetField(u1, update[1]);
    var u3 := SetField(u2, update[2]);
    assert ApplySet(u3, update[3..]) == u3;
    assert ApplySet(u2, update[2..]) == ApplySet(u3, update[3..]);
    assert ApplySet(u1, update[1..]) == ApplySet(u2, update[2..]);
  }

  /** The collection after UpdateOne(filter {userId}, $set update, upsert):
      the first record with the userId gets the entries set and every other
      record stays; without one, a single new record is appended. */
  function Upserted(users: seq<User>, userId: string, update: seq<BsonE>, upsertId: ObjectId): (r: seq<User>)
    ensures FirstIndex(users, UserIdKey, userId).Some? ==>
              var i := FirstIndex(users, UserIdKey, userId).value;
              |r| == |users| && r[i] == ApplySet(users[i], update) &&
              forall j :: 0 <= j < |users| && j != i ==> r[j] == users[j]
    ensures FirstIndex(users, UserIdKey, userId).None? ==>
              |r| == |users| + 1 && r[..|users|] == users && r[|users|] == ApplySet(UpsertDocument(userId, upsertId), update)
  {
    match FirstIndex(users, UserIdKey, userId)
    case Some(i) => users[i := ApplySet(users[i], update)]
    case None => users + [ApplySet(UpsertDocument(userId, upsertId), update)]
  }

  /** A record that matches, with no match before it, is the one FirstIndex names. */
  lemma FirstIndexAt(users: seq<User>, k: Key, v: string, i: nat)
    requires i < |users| && Matches(users[i], k, v)
    requires forall j :: 0 <= j < i ==> !Matches(users[j], k, v)
    ensures FirstIndex(users, k, v) == Some(i)
  {
  }

  /** After the token upsert, the record a lookup by userId finds is the
      updated one, carrying the new tokens and time. */
  lemma TokenUpsertStores(users: seq<User>, userId: string, token: string, refreshToken: string, updatedAt: int, upsertId: ObjectId)
    ensures var r := Upserted(users, userId, TokenUpdate(token, refreshToken, updatedAt), upsertId);
            var f := FirstIndex(r, UserIdKey, userId);
            f.Some? && r[f.value].token == token && r[f.value].refreshToken == refreshToken && r[f.value].updatedAt == updatedAt
  {
    var t := TokenUpdate(token, refreshToken, updatedAt);
    var r := Upserted(users, userId, t, upsertId);
    match FirstIndex(users, UserIdKey, userId)
    case Some(i) =>
      TokenUpdateSets(users[i], token, refreshToken, updatedAt);
      FirstIndexAt(r, UserIdKey, userId, i);
    case None =>
      TokenUpdateSets(UpsertDocument(userId, upsertId), token, refreshToken, updatedAt);
      FirstIndexAt(r, UserIdKey, userId, |users|);
  }

  /** Writing the same tokens a second time changes nothing: the second
      upsert finds the record the first one wrote and sets the same values. */
  lemma TokenUpsertIdempotent(users: seq<User>, userId: string, token: string, refreshToken: string, updatedAt: int, x: ObjectId, y: ObjectId)
    ensures var t := TokenUpdate(token, refreshToken, updatedAt);
            Upserted(Upserted(users, userId, t, x), userId, t, y) == Upserted(users, userId, t, x)
  {
    var t := TokenUpdate(token, refreshToken, updatedAt);
    var r := Upserted(users, userId, t, x);
    match FirstIndex(users, UserIdKey, userId)
    case Some(i) =>
      TokenUpdateSets(users[i], token, refreshToken, updatedAt);
      TokenUpdateSets(r[i], token, refreshToken, updatedAt);
      FirstIndexAt(r, UserIdKey, userId, i);
    case None =>
      TokenUpdateSets(UpsertDocument(userId, x), token, refreshToken, updatedAt);
      TokenUpdateSets(r[|users|], token, refreshToken, updatedAt);
      FirstIndexAt(r, UserIdKey, userId, |users|);
  }

  /** What the store asks of the driver and of the hasher, in order. */
  datatype StoreCall =
    | Find(key: Key, value: string)
    | HashPassword(password: string)
    | InsertOne(doc: User)
    | UpdateOne(userId: string, update: seq<BsonE>, upsert: bool)

  function EmailExists(email: string): string {
    "email: " + email + " already exists in the database"
  }

  function UsernameExists(username: string): string {
    "username: " + username + " already exists in the database"
  }

  /** When AddNewUser gets as far as hashing: neither lookup fails or finds a clash. */
  predicate ReachesHash(users: seq<User>, user: User, driver: Driver) {
    && driver.findEmail.None? && !Taken(users, EmailKey, user.email)
    && driver.findUsername.None? && !Taken(users, UsernameKey, user.username)
  }

  /** When AddNewUser inserts: it reaches the hash, the hasher returns, and
      the insert succeeds. */
  predicate Accepts(users: seq<User>, user: User, auth: Auth.AuthService, salt: string, driver: Driver) {
    && ReachesHash(users, user, driver)
    && Auth.HashPassword(auth, user.password, salt).Returned?
    && driver.insertOne.None?
  }

  class MongoService {
    var users: seq<User>

    constructor (initial: seq<User>)
      ensures users == initial
    {
      users := initial;
    }

    /** UpdateTokensById: UpdateOne with upsert. The first record with the
        userId gets the entries set and no other record changes; without one,
        a single new record is added. A driver error leaves the store alone. */
    method UpdateTokensById(userId: string, updateObj: seq<BsonE>, driver: Driver)
      returns (err: Option<string>, calls: seq<StoreCall>)
      modifies this
      ensures calls == [UpdateOne(userId, updateObj, true)]
      ensures err == driver.updateOne
      ensures err.Some? ==> users == old(users)
      ensures err.None? ==> users == Upserted(old(users), userId, updateObj, driver.upsertId)
    {
      calls := [UpdateOne(userId, updateObj, true)];
      if driver.updateOne.Some? {
        return driver.updateOne, calls;
      }
      err := None;
      match FirstIndex(users, UserIdKey, userId)
      case Some(i) =>
        users := users[i := ApplySet(users[i], updateObj)];
      case None =>
        users := users + [ApplySet(UpsertDocument(userId, driver.upsertId), updateObj)];
    }

    /** AddNewUser: email check, then username check, then hash, then insert.
        Nothing is inserted unless all of them succeed. */
    method AddNewUser(user: User, auth: Auth.AuthService, salt: string, driver: Driver)
      returns (r: Outcome<Result<User>>, calls: seq<StoreCall>)
      modifies this
      ensures |calls| >= 1 && calls[0] == Find(EmailKey, user.email)
      ensures r.Returned? && r.value.Ok? <==> Accepts(old(users), user, auth, salt, driver)
      ensures !(r.Returned? && r.value.Ok?) ==> users == old(users)
      ensures driver.findEmail.Some? ==>
                calls == [calls[0]] && r == Returned(Err(driver.findEmail.value))
      ensures driver.findEmail.None? && Taken(old(users), EmailKey, user.email) ==>
                calls == [calls[0]] && r == Returned(Err(EmailExists(user.email)))
      ensures driver.findEmail.None? && !Taken(old(users), EmailKey, user.email) ==>
                |calls| >= 2 && calls[1] == Find(UsernameKey, user.username)
      ensures driver.findEmail.None? && !Taken(old(users), EmailKey, user.email) && driver.findUsername.Some? ==>
                calls == calls[..2] && r == Returned(Err(driver.findUsername.value))
      ensures driver.findEmail.None? && !Taken(old(users), EmailKey, user.email) && driver.findUsername.None? &&
              Taken(old(users), UsernameKey, user.username) ==>
                calls == calls[..2] && r == Returned(Err(UsernameExists(user.username)))
      ensures HashPassword(user.password) in calls <==> ReachesHash(old(users), user, driver)
      ensures r.Panicked? <==> ReachesHash(old(users), user, driver) && Auth.HashPassword(auth, user.password, salt).Panicked?
      ensures HashPassword(user.password) in calls ==>
                |calls| >= 3 && calls[2] == HashPassword(user.password) &&
                match Auth.HashPassword(auth, user.password, salt)
                case Panicked(why) => calls == calls[..3] && r == Panicked(why)
                case Returned(digest) =>
                  var doc := user.(password := digest);
                  calls == calls[..3] + [InsertOne(doc)] &&
                  if driver.insertOne.Some? then r == Returned(Err(driver.insertOne.value))
                  else r == Returned(Ok(doc)) && users == old(users) + [doc]
    {
      calls := [Find(EmailKey, user.email)];
      if driver.findEmail.Some? {
        return Returned(Err(driver.findEmail.value)), calls;
      }
      if Taken(users, EmailKey, user.email) {
        return Returned(Err(EmailExists(user.email))), calls;
      }
      calls := calls + [Find(UsernameKey, user.username)];
      if driver.findUsername.Some? {
        return Returned(Err(driver.findUsername.value)), calls;
      }
      if Taken(users, UsernameKey, user.username) {
        return Returned(Err(UsernameExists(user.username))), calls;
      }
      calls := calls + [HashPassword(user.password)];
      var hashed := Auth.HashPassword(auth, user.password, salt);
      if hashed.Panicked? {
        return Panicked(hashed.reason), calls;
      }
      var doc := user.(password := hashed.value);
      calls := calls + [InsertOne(doc)];
      if driver.insertOne.Some? {
        return Returned(Err(driver.insertOne.value)), calls;
      }
      users := users + [doc];
      r := Returned(Ok(doc));
    }

    /** FindUserByUsername: the first record with the request's username. */
    function FindUserByUsername(user: User, driver: Driver): (r: Result<User>)
      reads this
      ensures driver.findOne.Some? ==> r == Err(LoginIncorrect + driver.findOne.value)
      ensures driver.findOne.None? && r.Ok? ==>
                exists i :: 0 <= i < |users| && users[i] == r.value && r.value.username == user.username &&
                            forall j :: 0 <= j < i ==> users[j].username != user.username
      ensures driver.findOne.None? && r.Err? ==>
                r.error == LoginIncorrect + NoDocuments && forall x :: x in users ==> x.username != user.username
    {
      if driver.findOne.Some? then Err(LoginIncorrect + driver.findOne.value)
      else match FirstIndex(users, UsernameKey, user.username)
           case None => Err(LoginIncorrect + NoDocuments)
           case Some(i) => Ok(users[i])
    }

    /** Find and decode all; one driver error covers Find and cursor.All. */
    function FindAll(k: Key, value: Option<string>, driver: Driver): (r: Result<seq<User>>)
      reads this
      ensures r.Err? <==> driver.find.Some?
      ensures r.Err? ==> r.error == driver.find.value
      ensures r.Ok? ==> forall x :: x in r.value <==> x in users && Selects(x, k, value)
    {
      MatchingExactly(users, k, value);
      if driver.find.Some? then Err(driver.find.value) else Ok(Matching(users, k, value))
    }

    /** AllUsersByEmail: the driver's error as is, or the records with that
        email (for a nil value, those without one), in store order. */
    function AllUsersByEmail(value: Option<string>, driver: Driver): (r: Result<seq<User>>)
      reads this
      ensures r.Err? <==> driver.find.Some?
      ensures r.Err? ==> r.error == driver.find.value
      ensures r.Ok? ==> r.value == Matching(users, EmailKey, value)
      ensures r.Ok? && value.Some? ==> forall x :: x in r.value <==> x in users && x.email == value.value
      ensures r.Ok? && value.None? ==> forall x :: x in r.value <==> x in users && x.email == ""
    {
      FindAll(EmailKey, value, driver)
    }

    /** AllUsersByPhone: no record has a phone field, so a string value finds
        none and a nil value finds them all. */
    function AllUsersByPhone(value: Option<string>, driver: Driver): (r: Result<seq<User>>)
      reads this
      ensures r.Err? <==> driver.find.Some?
      ensures r.Err? ==> r.error == driver.find.value
      ensures r.Ok? && value.Some? ==> r.value == []
      ensures r.Ok? && value.None? ==> r.value == users
    {
      NullPhoneMatchesAll(users);
      if value.Some? then
        NoPhoneMatches(users, value.value);
        FindAll(PhoneKey, value, driver)
      else
        FindAll(PhoneKey, value, driver)
    }

    /** AllUsersByUsername: the driver's error as is, or the records with that
        username (for a nil value, those without one), in store order. */
    function AllUsersByUsername(value: Option<string>, driver: Driver): (r: Result<seq<User>>)
      reads this
      ensures r.Err? <==> driver.find.Some?
      ensures r.Err? ==> r.error == driver.find.value
      ensures r.Ok? ==> r.value == Matching(users, UsernameKey, value)
      ensures r.Ok? && value.Some? ==> forall x :: x in r.value <==> x in users && x.username == value.value
      ensures r.Ok? && value.None? ==> forall x :: x in r.value <==> x in users && x.username == ""
    {
      FindAll(UsernameKey, value, driver)
    }

    /** UpdateAllTokens: the update document token, refreshToken, updatedAt,
        in that order, upserted on the userId. */
    method UpdateAllTokens(token: string, signedRefreshToken: string, userId: string, now: int, driver: Driver)
      returns (err: Option<string>, calls: seq<StoreCall>)
      modifies this
      ensures calls == [UpdateOne(userId, TokenUpdate(token, signedRefreshToken, now), true)]
      ensures err == driver.updateOne
      ensures err.Some? ==> users == old(users)
      ensures err.None? ==> users == Upserted(old(users), userId, TokenUpdate(token, signedRefreshToken, now), driver.upsertId)
      ensures err.None? && FirstIndex(old(users), UserIdKey, userId).Some? ==>
                var i := FirstIndex(old(users), UserIdKey, userId).value;
                users == old(users)[i := old(users)[i].(token := token, refreshToken := signedRefreshToken, updatedAt := now)]
      ensures err.None? && FirstIndex(old(users), UserIdKey, userId).None? ==>
                users == old(users) + [UpsertDocument(userId, driver.upsertId).(token := token, refreshToken := signedRefreshToken, updatedAt := now)]
    {
      var updateObj: seq<BsonE> := [];
      updateObj := updateObj + [E("token", BString(token))];
      updateObj := updateObj + [E("refreshToken", BString(signedRefreshToken))];
      var updatedAt := now;
      updateObj := updateObj + [E("updatedAt", BTime(updatedAt))];
      assert updateObj == TokenUpdate(token, signedRefreshToken, now);
      var i := FirstIndex(users, UserIdKey, userId);
      if i.Some? {
        TokenUpdateSets(users[i.value], token, signedRefreshToken, now);
      }
      TokenUpdateSets(UpsertDocument(userId, driver.upsertId), token, signedRefreshToken, now);
      err, calls := UpdateTokensById(userId, updateObj, driver);
    }
  }
}
