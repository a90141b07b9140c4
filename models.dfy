/** The records the service passes around (internal/models). */
module Models {
  import opened Common

  type byte = b: int | 0 <= b < 256

  /** bson primitive.ObjectID, as its bytes (twelve in the driver). */
  datatype ObjectId = ObjectId(bytes: seq<byte>)

  const HexDigits: string := "0123456789abcdef"

  function HexByte(b: byte): (s: string)
    ensures |s| == 2
  {
    [HexDigits[b / 16], HexDigits[b % 16]]
  }

  function HexBytes(bs: seq<byte>): (s: string)
    ensures |s| == 2 * |bs|
  {
    if bs == [] then "" else HexByte(bs[0]) + HexBytes(bs[1..])
  }

  /** ObjectID.Hex(): two lower-case hexadecimal digits per byte. */
  function Hex(id: ObjectId): (s: string)
    ensures |s| == 2 * |id.bytes|
  {
    HexBytes(id.bytes)
  }

  lemma HexByteInjective(a: byte, b: byte)
    requires HexByte(a) == HexByte(b)
    ensures a == b
  {
    assert HexDigits[a / 16] == HexDigits[b / 16] && HexDigits[a % 16] == HexDigits[b % 16];
    assert forall i, j :: 0 <= i < j < 16 ==> HexDigits[i] != HexDigits[j];
  }

  /** Distinct object ids have distinct hex strings, so a user id made by
      Hex never names two records created with different ids. */
  lemma {:induction false} HexInjective(a: ObjectId, b: ObjectId)
    requires Hex(a) == Hex(b)
    ensures a == b
    decreases |a.bytes|
  {
    if a.bytes != [] {
      var ha, hb := Hex(a), Hex(b);
      assert ha[..2] == HexByte(a.bytes[0]) && hb[..2] == HexByte(b.bytes[0]);
      HexByteInjective(a.bytes[0], b.bytes[0]);
      assert ha[2..] == Hex(ObjectId(a.bytes[1..])) && hb[2..] == Hex(ObjectId(b.bytes[1..]));
      HexInjective(ObjectId(a.bytes[1..]), ObjectId(b.bytes[1..]));
      assert a.bytes == [a.bytes[0]] + a.bytes[1..];
      assert b.bytes == [b.bytes[0]] + b.bytes[1..];
    }
  }

  const NilObjectId := ObjectId([0, 0, 0, 0, 0, 0, 0, 0, 0, 0, 0, 0])

  /** Go's zero time.Time (January 1 of year 1, UTC) in Unix seconds; every
      time below is whole seconds since the Unix epoch. */
  const ZeroTime: int := -62135596800

  /** The user record of internal/models/models.go (the one the facade and the
      store use), with the Shows list of internal/models/model.go. Optional
      `*string` fields are plain strings; "" stands for an absent field. */
  datatype User = User(
    id: ObjectId,
    fullName: string,
    email: string,
    username: string,
    password: string,
    token: string,
    refreshToken: string,
    createdAt: int,
    updatedAt: int,
    userId: string,
    shows: seq<string>)

  const EmptyUser := User(NilObjectId, "", "", "", "", "", "", ZeroTime, ZeroTime, "", [])

  /** UserParsedResponse: the projection sent back to the client. */
  datatype UserParsed = UserParsed(
    id: string,
    fullName: string,
    email: string,
    username: string,
    password: string,
    token: string,
    refreshToken: string,
    createdAt: string,
    updatedAt: string,
    shows: seq<string>)

  const EmptyUserParsed := UserParsed("", "", "", "", "", "", "", "", "", [])

  datatype ErrorLog = ErrorLog(status: string, trace: string, rootCause: string)

  datatype Message = Message(
    errorLog: seq<ErrorLog>,
    hostName: string,
    status: string,
    timeTaken: string,
    count: int)

  const EmptyMessage := Message([], "", "", "", 0)

  /** UserResponse as the facade fills it: the store record it got, if any. */
  datatype UserResponse = UserResponse(user: Option<User>, message: Message)

  const EmptyUserResponse := UserResponse(None, EmptyMessage)

  /** UserResponse as setUserResponse rebuilds it, around a parsed user. */
  datatype ParsedUserResponse = ParsedUserResponse(user: UserParsed, message: Message)

  datatype AuthResponse = AuthResponse(fullName: string, email: string, userId: string, message: Message)

  const EmptyAuthResponse := AuthResponse("", "", "", EmptyMessage)

  datatype Song = Song(songId: string, title: string, trackTime: string, gap: string)

  datatype Show = Show(date: string, venue: string, songs: seq<Song>)

  const EmptyShow := Show("", "", [])

  /** GetShowResponse; the phish.net mapper's ShowResponse has the same shape. */
  datatype GetShowResponse = GetShowResponse(show: Show, message: Message)

  const HttpOk := 200
  const HttpBadRequest := 400
  const HttpForbidden := 403
  const HttpInternalServerError := 500
}
