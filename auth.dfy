/**
 * Bearer-token handling of internal/auth/jwt.go: reading the token from the
 * `Authorization` header, classifying what the JWT library reports about it,
 * and the 401 answers of the authentication middleware.
 *
 * Signature checking and claim decoding belong to the JWT library; the model
 * takes the library's verdict on a token as an input (`ParseOutcome`).
 */
module Auth {
  import opened Wrappers
  import Text
  import Json
  import SdkClient

  /** `ErrMissingToken`, `ErrInvalidToken`, `ErrExpiredToken`. */
  datatype AuthError = MissingToken | InvalidToken | ExpiredToken

  function ErrorText(e: AuthError): (r: string)
    ensures r == "missing token" <==> e == MissingToken
    ensures r == "invalid token" <==> e == InvalidToken
    ensures r == "token expired" <==> e == ExpiredToken
  {
    match e
    case MissingToken => "missing token"
    case InvalidToken => "invalid token"
    case ExpiredToken => "token expired"
  }

  /** The index of the first space, if any. */
  function FirstSpace(s: string): (r: Option<nat>)
    ensures r.None? <==> ' ' !in s
    ensures r.Some? ==> r.value < |s| && s[r.value] == ' ' && ' ' !in s[..r.value]
  {
    if s == [] then None
    else if s[0] == ' ' then Some(0)
    else match FirstSpace(s[1..])
      case None => None
      case Some(i) =>
        assert s[..i + 1] == [s[0]] + s[1..][..i];
        Some(i + 1)
  }

  /** `strings.SplitN(s, " ", 2)`: the text before the first space and the rest, or the whole text. */
  function SplitFirstSpace(s: string): (r: seq<string>)
    ensures 1 <= |r| <= 2 && ' ' !in r[0]
    ensures |r| == 1 <==> ' ' !in s
    ensures |r| == 1 ==> r[0] == s
    ensures |r| == 2 ==> r[0] + " " + r[1] == s
  {
    match FirstSpace(s)
    case None => [s]
    case Some(i) =>
      assert s[..i] + " " + s[i + 1..] == s[..i] + s[i..i + 1] + s[i + 1..];
      assert s[..i] + s[i..i + 1] + s[i + 1..] == s;
      [s[..i], s[i + 1..]]
  }

  /** A split of a first word without spaces finds that word. */
  lemma {:induction false} SplitAtFirstWord(a: string, b: string)
    requires ' ' !in a
    ensures SplitFirstSpace(a + " " + b) == [a, b]
  {
    var s := a + " " + b;
    FirstSpaceAfter(a, b);
    assert s[..|a|] == a;
    assert s[|a| + 1..] == b;
  }

  lemma {:induction false} FirstSpaceAfter(a: string, b: string)
    requires ' ' !in a
    ensures FirstSpace(a + " " + b) == Some(|a|)
    decreases |a|
  {
    if a != [] {
      assert (a + " " + b)[1..] == a[1..] + " " + b;
      FirstSpaceAfter(a[1..], b);
    }
  }

  /**
   * `ExtractTokenFromRequest`, given the header's value (`Header.Get`
   * answers "" for a missing header).
   */
  function ExtractToken(header: string): (r: Result<string, AuthError>)
    ensures header == "" <==> r == Err(MissingToken)
    ensures header != "" && r.Err? ==> r.error == InvalidToken
    ensures r.Ok? <==>
      var parts := SplitFirstSpace(header);
      |parts| == 2 && Text.Lower(parts[0]) == "bearer"
    ensures r.Ok? ==> SplitFirstSpace(header)[0] + " " + r.value == header
  {
    if header == "" then Err(MissingToken)
    else
      var parts := SplitFirstSpace(header);
      if |parts| != 2 || Text.Lower(parts[0]) != "bearer" then Err(InvalidToken)
      else Ok(parts[1])
  }

  /**
   * Whatever follows the first space is the token, verbatim: under any casing
   * of "Bearer", for every token, spaces and the empty token included.
   */
  lemma ExtractBearer(scheme: string, token: string)
    requires Text.Lower(scheme) == "bearer"
    ensures ExtractToken(scheme + " " + token) == Ok(token)
  {
    assert ' ' !in scheme by {
      forall i | 0 <= i < |scheme|
        ensures scheme[i] != ' '
      {
        assert Text.LowerChar(scheme[i]) == "bearer"[i];
      }
    }
    SplitAtFirstWord(scheme, token);
  }

  /** A header with no space, or with another scheme, is refused as invalid. */
  lemma OtherSchemesRefused(scheme: string, rest: string)
    requires ' ' !in scheme && Text.Lower(scheme) != "bearer"
    ensures ExtractToken(scheme) == (if scheme == "" then Err(MissingToken) else Err(InvalidToken))
    ensures ExtractToken(scheme + " " + rest) == Err(InvalidToken)
  {
    SplitAtFirstWord(scheme, rest);
  }

  /**
   * The header the SDK sends, `f"Bearer {token}"` for a non-empty string
   * token, gives back the client's token.
   */
  lemma ClientHeaderAccepted(c: SdkClient.Client, t: string)
    requires c.token == Json.JStr(t) && t != ""
    ensures "Authorization" in SdkClient.Headers(c.token)
    ensures SdkClient.Headers(c.token)["Authorization"] == SdkClient.BearerOf(Json.JStr(t))
    ensures ExtractToken("Bearer " + t) == Ok(t)
  {
    assert Json.Truthy(c.token);
    LowerBearer();
    ExtractBearer("Bearer", t);
    assert "Bearer" + " " + t == "Bearer " + t;
  }

  lemma LowerBearer()
    ensures Text.Lower("Bearer") == "bearer"
  {
    var l := Text.Lower("Bearer");
    assert |l| == 6;
    forall i | 0 <= i < 6
      ensures l[i] == "bearer"[i]
    {
      assert l[i] == Text.LowerChar("Bearer"[i]);
    }
  }

  /** The claims a valid token carries. */
  datatype Claims = Claims(userId: string, role: string)

  /**
   * What the JWT library reports on a token: a parse error (expired or
   * otherwise), or a parsed token with its claims, whether those have the
   * expected type, and whether the token is valid.
   */
  datatype ParseOutcome =
    | ParseFailed(expired: bool)
    | Parsed(claims: Claims, claimsOk: bool, valid: bool)

  /** `ValidateToken`: an expired token, any other failure, or the claims. */
  function ValidateToken(p: ParseOutcome): (r: Result<Claims, AuthError>)
    ensures r == Err(ExpiredToken) <==> p == ParseFailed(true)
    ensures r.Ok? <==> p.Parsed? && p.claimsOk && p.valid
    ensures r.Ok? ==> r.value == p.claims
    ensures r.Err? ==> r.error != MissingToken
  {
    match p
    case ParseFailed(expired) => if expired then Err(ExpiredToken) else Err(InvalidToken)
    case Parsed(claims, claimsOk, valid) => if !claimsOk || !valid then Err(InvalidToken) else Ok(claims)
  }

  /** What the middleware does with a request: hand it on with the claims, or refuse it. */
  datatype AuthOutcome = Proceed(claims: Claims) | Unauthorized(status: int, message: string)

  /**
   * `Middleware`: the header is read, the token checked by the library
   * (`parse`), and every failure answered with 401 and one of three messages,
   * sent in the body `{"error":"unauthorized","message":…}`.
   */
  function Middleware(header: string, parse: string -> ParseOutcome): (r: AuthOutcome)
    ensures r.Unauthorized? ==> r.status == 401
    ensures ExtractToken(header).Err? ==> r == Unauthorized(401, "missing or invalid token")
    ensures ExtractToken(header).Ok? ==>
      var v := ValidateToken(parse(ExtractToken(header).value));
      && (v == Err(ExpiredToken) <==> r == Unauthorized(401, "token expired"))
      && (v == Err(InvalidToken) <==> r == Unauthorized(401, "invalid token"))
      && (v.Ok? ==> r == Proceed(v.value))
      && (r.Proceed? ==> v.Ok?)
  {
    match ExtractToken(header)
    case Err(_) => Unauthorized(401, "missing or invalid token")
    case Ok(token) =>
      match ValidateToken(parse(token))
      case Err(e) =>
        if e == ExpiredToken then Unauthorized(401, "token expired")
        else Unauthorized(401, "invalid token")
      case Ok(claims) => Proceed(claims)
  }

  /** Only a bearer header whose token the library accepts reaches the handler. */
  lemma MiddlewarePasses(header: string, parse: string -> ParseOutcome)
    ensures Middleware(header, parse).Proceed? <==>
      && ExtractToken(header).Ok?
      && parse(ExtractToken(header).value).Parsed?
      && parse(ExtractToken(header).value).claimsOk
      && parse(ExtractToken(header).value).valid
    ensures header == "" ==> Middleware(header, parse) == Unauthorized(401, "missing or invalid token")
  {
  }
}
