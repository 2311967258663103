/**
 * `get_current_user`: reading the caller's identity from an `Authorization: Bearer <jwt>`
 * header. The header must start with "Bearer "; the token is the second field of the header
 * split on single spaces; the token must have exactly three `.`-separated parts; the middle
 * part is padded with `=` and handed to base64url decoding and JSON parsing (one abstract
 * `Decoder` here); `sub`, `email` and `user_metadata` are read from the claims. The JWT
 * signature is never checked: nothing here verifies it.
 */
module BearerAuth {
  import opened Wrappers
  import opened PyText
  import opened Json

  const UNAUTHORIZED := 401
  const BEARER_PREFIX := "Bearer "
  const MISSING_HEADER_DETAIL := "Missing or invalid authorization header"
  const INVALID_FORMAT_DETAIL := "Invalid token format"
  const NO_USER_ID_DETAIL := "Invalid token: no user ID"
  const VALIDATION_FAILED_PREFIX := "Token validation failed: "

  /** FastAPI's `HTTPException(status_code, detail)`. */
  datatype HttpError = HttpError(status: int, detail: string)

  /** What the body of the `try` can raise: an `HTTPException`, or any other exception with its `str(e)`. */
  datatype Raised = HttpRaised(err: HttpError) | OtherRaised(message: string)

  /** The user record handed to endpoints: `{"id": ..., "email": ..., "user_metadata": ...}`. */
  datatype User = User(id: Json, email: Json, userMetadata: Json)

  /**
   * `json.loads(base64.urlsafe_b64decode(payload))`: the parsed claims, or the message of the
   * exception either library call raises.
   */
  type Decoder = string -> Result<Json, string>

  /**
   * The guard `authorization and authorization.startswith("Bearer ")`. The emptiness test adds
   * nothing: the guard holds exactly when the header is present and starts with the prefix.
   */
  predicate HasBearerPrefix(authorization: Option<string>): (ok: bool)
    ensures ok <==> authorization.Some? && StartsWith(authorization.value, BEARER_PREFIX)
  {
    authorization.Some? && authorization.value != "" && StartsWith(authorization.value, BEARER_PREFIX)
  }

  /**
   * `authorization.split(" ")[1]`; the split always has a second field because the prefix holds
   * a space. The token is the longest run of non-space characters right after "Bearer ": it
   * starts at index 7 and ends at the end of the header or at the next space.
   */
  function Token(header: string): (token: string)
    requires StartsWith(header, BEARER_PREFIX)
    ensures 7 + |token| <= |header| && header[7..7 + |token|] == token && ' ' !in token
    ensures 7 + |token| == |header| || header[7 + |token|] == ' '
  {
    assert header[6] == BEARER_PREFIX[6] == ' ';
    assert ' ' !in header[..6] by {
      forall i | 0 <= i < 6 ensures header[..6][i] != ' ' { assert header[i] == BEARER_PREFIX[i]; }
    }
    SecondField(header, 7, ' ');
    Split(header, ' ')[1]
  }

  /**
   * `payload + '=' * (4 - len(payload) % 4)`: the padded length is a multiple of four, and one
   * to four `=` are appended, four when the payload is already aligned.
   */
  function PadPayload(payload: string): (padded: string)
    ensures |padded| % 4 == 0
    ensures |payload| < |padded| <= |payload| + 4
    ensures |payload| % 4 == 0 ==> |padded| == |payload| + 4
    ensures padded[..|payload|] == payload
    ensures forall i :: |payload| <= i < |padded| ==> padded[i] == '='
  {
    payload + Repeat('=', 4 - |payload| % 4)
  }

  /** The message of the `AttributeError` raised by `user_data.get` when the JSON is not an object. */
  function NoGetMessage(j: Json): (message: string)
    ensures var name := TypeName(j);
      |message| == |name| + 32 && message[0] == '\'' && message[1..1 + |name|] == name &&
      message[1 + |name|..] == "' object has no attribute 'get'"
  {
    "'" + TypeName(j) + "' object has no attribute 'get'"
  }

  /** The user record built from a claims object with a truthy `sub`. */
  function UserOf(claims: map<string, Json>): (user: User)
    ensures "sub" in claims ==> user.id == claims["sub"]
    ensures "sub" !in claims ==> user.id == JNull
    ensures user.email == (if "email" in claims then claims["email"] else JNull)
    ensures user.userMetadata == (if "user_metadata" in claims then claims["user_metadata"] else JObject(map[]))
  {
    User(Get(claims, "sub", JNull), Get(claims, "email", JNull), Get(claims, "user_metadata", JObject(map[])))
  }

  /** The body of the `try` block: part count, padding, decoding and claim extraction. */
  function ParseToken(token: string, decode: Decoder): (r: Result<User, Raised>)
    ensures r.Failure? && r.error.HttpRaised? ==>
      r.error.err.status == UNAUTHORIZED &&
      r.error.err.detail in {INVALID_FORMAT_DETAIL, NO_USER_ID_DETAIL}
    ensures r.Success? ==> Truthy(r.value.id)
  {
    var parts := Split(token, '.');
    if |parts| != 3 then Failure(HttpRaised(HttpError(UNAUTHORIZED, INVALID_FORMAT_DETAIL)))
    else
      match decode(PadPayload(parts[1]))
      case Failure(message) => Failure(OtherRaised(message))
      case Success(JObject(claims)) =>
        if !Truthy(Get(claims, "sub", JNull)) then Failure(HttpRaised(HttpError(UNAUTHORIZED, NO_USER_ID_DETAIL)))
        else Success(UserOf(claims))
      case Success(other) => Failure(OtherRaised(NoGetMessage(other)))
  }

  /** The two `except` clauses: an `HTTPException` is re-raised, anything else becomes a 401. */
  function Rewrap(raised: Raised): (err: HttpError)
    ensures raised.HttpRaised? ==> err == raised.err
    ensures raised.OtherRaised? ==>
      && err.status == UNAUTHORIZED
      && StartsWith(err.detail, VALIDATION_FAILED_PREFIX)
      && err.detail[|VALIDATION_FAILED_PREFIX|..] == raised.message
  {
    match raised
    case HttpRaised(err) => err
    case OtherRaised(message) => HttpError(UNAUTHORIZED, VALIDATION_FAILED_PREFIX + message)
  }

  /** Whether `detail` is one of the messages `get_current_user` can produce. */
  predicate IsKnownDetail(detail: string) {
    || detail == MISSING_HEADER_DETAIL
    || detail == INVALID_FORMAT_DETAIL
    || detail == NO_USER_ID_DETAIL
    || StartsWith(detail, VALIDATION_FAILED_PREFIX)
  }

  /**
   * `get_current_user(authorization)`. Every failure is a 401 with one of the known details;
   * the missing-header error occurs exactly when the header is absent or lacks the prefix;
   * a success always carries a truthy user id.
   */
  function GetCurrentUser(authorization: Option<string>, decode: Decoder): (r: Result<User, HttpError>)
    ensures r.Failure? ==> r.error.status == UNAUTHORIZED && IsKnownDetail(r.error.detail)
    ensures r == Failure(HttpError(UNAUTHORIZED, MISSING_HEADER_DETAIL)) <==> !HasBearerPrefix(authorization)
    ensures r.Success? ==> Truthy(r.value.id)
  {
    if !HasBearerPrefix(authorization) then Failure(HttpError(UNAUTHORIZED, MISSING_HEADER_DETAIL))
    else
      var token := Token(authorization.value);
      match ParseToken(token, decode)
      case Success(user) => Success(user)
      case Failure(raised) =>
        var err := Rewrap(raised);
        assert err.detail != MISSING_HEADER_DETAIL by {
          if raised.OtherRaised? {
            assert err.detail[0] == 'T' != MISSING_HEADER_DETAIL[0];
          } else {
            assert |MISSING_HEADER_DETAIL| == 39;
            assert |INVALID_FORMAT_DETAIL| == 20 && |NO_USER_ID_DETAIL| == 25;
          }
        }
        Failure(err)
  }

  /** A second space right after "Bearer " yields the empty token: `"Bearer  x".split(" ")[1] == ""`. */
  lemma DoubleSpaceGivesEmptyToken(header: string)
    requires StartsWith(header, "Bearer  ")
    ensures StartsWith(header, BEARER_PREFIX) && Token(header) == ""
  {
    assert header[..7] == header[..8][..7];
    assert header[7] == ' ';
  }

  /**
   * Once the prefix is accepted, the result is "Invalid token format" exactly when the token
   * does not hold exactly two dots, that is, does not split into three parts.
   */
  lemma TokenFormatError(authorization: Option<string>, decode: Decoder)
    requires HasBearerPrefix(authorization)
    ensures GetCurrentUser(authorization, decode) == Failure(HttpError(UNAUTHORIZED, INVALID_FORMAT_DETAIL))
      <==> Occurrences(Token(authorization.value), '.') != 2
  {
    var token := Token(authorization.value);
    var parsed := ParseToken(token, decode);
    if parsed.Failure? {
      var err := Rewrap(parsed.error);
      if parsed.error.OtherRaised? {
        assert err.detail[0] == 'T' != INVALID_FORMAT_DETAIL[0];
      } else {
        assert |INVALID_FORMAT_DETAIL| == 20 && |NO_USER_ID_DETAIL| == 25;
      }
    }
  }

  /**
   * With a well-formed token whose payload decodes to a claims object, the user is returned
   * exactly when `sub` is present and truthy, with `email` defaulting to None and
   * `user_metadata` to `{}`; otherwise the result is "Invalid token: no user ID".
   */
  lemma ClaimExtraction(authorization: Option<string>, decode: Decoder, claims: map<string, Json>)
    requires HasBearerPrefix(authorization)
    requires var parts := Split(Token(authorization.value), '.');
      |parts| == 3 && decode(PadPayload(parts[1])) == Success(JObject(claims))
    ensures var r := GetCurrentUser(authorization, decode);
      && (r.Success? <==> "sub" in claims && Truthy(claims["sub"]))
      && (r.Failure? ==> r.error == HttpError(UNAUTHORIZED, NO_USER_ID_DETAIL))
      && (r.Success? ==>
            && r.value.id == claims["sub"]
            && r.value.email == (if "email" in claims then claims["email"] else JNull)
            && r.value.userMetadata == (if "user_metadata" in claims then claims["user_metadata"] else JObject(map[])))
  {
  }

  /**
   * Any exception other than an `HTTPException` (a decoding or parsing error, or `.get` on a
   * JSON value that is not an object) becomes a 401 whose detail is
   * "Token validation failed: " followed by the exception's message.
   */
  lemma OtherExceptionsWrapped(authorization: Option<string>, decode: Decoder)
    requires HasBearerPrefix(authorization)
    requires |Split(Token(authorization.value), '.')| == 3
    ensures var decoded := decode(PadPayload(Split(Token(authorization.value), '.')[1]));
      var r := GetCurrentUser(authorization, decode);
      && (decoded.Failure? ==> r == Failure(HttpError(UNAUTHORIZED, VALIDATION_FAILED_PREFIX + decoded.error)))
      && (decoded.Success? && !decoded.value.JObject? ==>
            r == Failure(HttpError(UNAUTHORIZED, VALIDATION_FAILED_PREFIX + NoGetMessage(decoded.value))))
  {
    var decoded := decode(PadPayload(Split(Token(authorization.value), '.')[1]));
    if decoded.Success? && !decoded.value.JObject? {
      assert ParseToken(Token(authorization.value), decode) == Failure(OtherRaised(NoGetMessage(decoded.value)));
    }
  }

  /**
   * Nothing but the middle part of the token matters: two headers whose tokens have three parts
   * and whose payloads decode alike get the same result, whatever their JWT header and
   * signature parts say. The signature is not verified.
   */
  lemma SignatureIgnored(a1: Option<string>, a2: Option<string>, d1: Decoder, d2: Decoder)
    requires HasBearerPrefix(a1) && HasBearerPrefix(a2)
    requires |Split(Token(a1.value), '.')| == 3 && |Split(Token(a2.value), '.')| == 3
    requires d1(PadPayload(Split(Token(a1.value), '.')[1])) == d2(PadPayload(Split(Token(a2.value), '.')[1]))
    ensures GetCurrentUser(a1, d1) == GetCurrentUser(a2, d2)
  {
    var (t1, t2) := (Token(a1.value), Token(a2.value));
    var (p1, p2) := (Split(t1, '.'), Split(t2, '.'));
    assert d1(PadPayload(p1[1])) == d2(PadPayload(p2[1]));
    assert ParseToken(t1, d1) == ParseToken(t2, d2);
  }

  /** A missing or non-Bearer header is rejected without consulting the decoder. */
  lemma HeaderCheckedFirst(authorization: Option<string>, d1: Decoder, d2: Decoder)
    requires !HasBearerPrefix(authorization)
    ensures GetCurrentUser(authorization, d1) == GetCurrentUser(authorization, d2)
  {
  }
}
