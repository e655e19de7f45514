/**
 * The API's access manager: finding the access token of a request,
 * turning the errors of JWT decoding into API errors, issuing a token's
 * claims, and finding the token's user. JWT signing and verification are
 * not modelled: decoding is given as its outcome, a payload or the
 * library's exception, and issuing returns the claims that are signed.
 */
module AccessManager {
  import opened Wrappers
  import opened Users

  /** The configuration entries the manager reads. */
  datatype Parameters = Parameters(leeway: int, expiration: int, issuer: string, audience: string,
                                   verificationKey: string, allowedAlgorithms: seq<string>, usedAlgorithm: string)

  /** What the manager reads of a request: the "access_token" query value and the Authorization header. */
  datatype Request = Request(accessTokenQuery: Option<string>, authorization: Option<string>)

  /** The claims of a token; absent claims are None, and `extra` holds any further string claims. */
  datatype Payload = Payload(iss: Option<string>, aud: Option<string>, iat: Option<int>, nbf: Option<int>,
                             exp: Option<int>, sub: Option<string>, scopes: seq<string>, extra: map<string, string>)

  /** A decoded token that has a subject. */
  datatype AccessToken = AccessToken(payload: Payload) {
    function UserId(): string
      requires payload.sub.Some?
    {
      payload.sub.value
    }

    /** A further string claim of the token, None when the token does not carry it. */
    function Claim(key: string): Option<string> {
      if key in payload.extra then Some(payload.extra[key]) else None
    }

    predicate IsInScope(scope: string) {
      scope in payload.scopes
    }
  }

  /** The API exceptions the manager throws. */
  datatype ApiError = NoAccessToken | InvalidAccessToken(token: string) | Forbidden

  /** The exception classes `decodeToken` catches. */
  datatype ExClass = DomainException | UnexpectedValueException | ExpiredException
                   | SignatureInvalidException | BeforeValidException

  /**
   * An exception of class `thrown` is caught by a clause for `clause`: the
   * same class, or UnexpectedValueException for the three php-jwt
   * exceptions that extend it.
   */
  predicate CaughtBy(thrown: ExClass, clause: ExClass) {
    thrown == clause ||
    (clause == UnexpectedValueException &&
     thrown in {ExpiredException, SignatureInvalidException, BeforeValidException})
  }

  /** The outcome of the first catch clause that catches `thrown`, None when none does. */
  function FirstCatch(clauses: seq<(ExClass, ApiError)>, thrown: ExClass): (r: Option<ApiError>)
    ensures r.Some? <==> exists i :: 0 <= i < |clauses| && CaughtBy(thrown, clauses[i].0)
    ensures r.Some? ==> exists i :: 0 <= i < |clauses| && CaughtBy(thrown, clauses[i].0) && r.value == clauses[i].1 &&
                                    forall j :: 0 <= j < i ==> !CaughtBy(thrown, clauses[j].0)
  {
    if clauses == [] then None
    else if CaughtBy(thrown, clauses[0].0) then Some(clauses[0].1)
    else
      var r := FirstCatch(clauses[1..], thrown);
      assert forall i :: 0 <= i < |clauses[1..]| ==> clauses[1..][i] == clauses[i + 1];
      r
  }

  /** The catch clauses of `decodeToken` in the order they are written. */
  function AsWrittenClauses(token: string): seq<(ExClass, ApiError)> {
    [(DomainException, InvalidAccessToken(token)), (UnexpectedValueException, InvalidAccessToken(token)),
     (ExpiredException, InvalidAccessToken(token)), (SignatureInvalidException, Forbidden),
     (BeforeValidException, InvalidAccessToken(token))]
  }

  /** The same clauses with the subclasses before UnexpectedValueException. */
  function Clauses(token: string): seq<(ExClass, ApiError)> {
    [(DomainException, InvalidAccessToken(token)), (ExpiredException, InvalidAccessToken(token)),
     (SignatureInvalidException, Forbidden), (BeforeValidException, InvalidAccessToken(token)),
     (UnexpectedValueException, InvalidAccessToken(token))]
  }

  /**
   * As written, a token with an invalid signature is reported as an invalid
   * token, and no decoding error is ever reported as forbidden: the clause
   * for UnexpectedValueException catches the signature error first.
   */
  lemma AsWrittenSignatureNeverForbidden(token: string, thrown: ExClass)
    ensures FirstCatch(AsWrittenClauses(token), SignatureInvalidException) == Some(InvalidAccessToken(token))
    ensures FirstCatch(AsWrittenClauses(token), thrown) == Some(InvalidAccessToken(token))
  {
    var c := AsWrittenClauses(token);
    assert CaughtBy(thrown, c[0].0) || CaughtBy(thrown, c[1].0);
  }

  /** With the clauses reordered, exactly an invalid signature is forbidden. */
  lemma SignatureForbidden(token: string, thrown: ExClass)
    ensures FirstCatch(Clauses(token), thrown) ==
            if thrown == SignatureInvalidException then Some(Forbidden) else Some(InvalidAccessToken(token))
  {
    var c := Clauses(token);
    assert c[1..][1..][1..][1..] == [c[4]];
    match thrown
    case DomainException =>
    case ExpiredException => assert c[1..][0] == c[1];
    case SignatureInvalidException => assert c[1..][1..][0] == c[2];
    case BeforeValidException => assert c[1..][1..][1..][0] == c[3];
    case UnexpectedValueException =>
  }

  /**
   * `decodeToken` as written, given the outcome of JWT decoding: a decoding
   * error becomes an API error by the catch clauses in their written order,
   * so every decoding error is an invalid token, and a payload without
   * subject is an invalid token too.
   */
  function DecodeToken(token: string, decoded: Result<Payload, ExClass>): (r: Result<AccessToken, ApiError>)
    ensures r.Success? <==> decoded.Success? && decoded.value.sub.Some?
    ensures r.Success? ==> r.value.payload == decoded.value && r.value.payload.sub.Some?
    ensures r.Failure? ==> r.error == InvalidAccessToken(token)
  {
    match decoded
    case Failure(thrown) =>
      AsWrittenSignatureNeverForbidden(token, thrown);
      Failure(FirstCatch(AsWrittenClauses(token), thrown).value)
    case Success(payload) =>
      if payload.sub.None? then Failure(InvalidAccessToken(token)) else Success(AccessToken(payload))
  }

  /** `decodeToken` with the catch clauses reordered: an invalid signature is forbidden. */
  function CorrectedDecodeToken(token: string, decoded: Result<Payload, ExClass>): (r: Result<AccessToken, ApiError>)
    ensures r.Success? <==> decoded.Success? && decoded.value.sub.Some?
    ensures r.Success? ==> r.value.payload == decoded.value && r.value.payload.sub.Some?
    ensures decoded.Success? && decoded.value.sub.None? ==> r == Failure(InvalidAccessToken(token))
    ensures decoded.Failure? ==>
              r == Failure(if decoded.error == SignatureInvalidException then Forbidden else InvalidAccessToken(token))
  {
    match decoded
    case Failure(thrown) =>
      SignatureForbidden(token, thrown);
      Failure(FirstCatch(Clauses(token), thrown).value)
    case Success(payload) =>
      if payload.sub.None? then Failure(InvalidAccessToken(token)) else Success(AccessToken(payload))
  }

  /**
   * The two orders differ only in the error an invalid signature gives:
   * they accept the same tokens, and agree on every other outcome.
   */
  lemma DecodeOrdersDiffer(token: string, decoded: Result<Payload, ExClass>)
    ensures DecodeToken(token, decoded).Success? <==> CorrectedDecodeToken(token, decoded).Success?
    ensures DecodeToken(token, decoded) != CorrectedDecodeToken(token, decoded) <==>
              decoded == Failure(SignatureInvalidException)
  {
  }

  /** `getUser`: the token's user, forbidden when missing or not allowed. */
  function GetUser(token: AccessToken, users: map<string, User>): (r: Result<User, ApiError>)
    requires token.payload.sub.Some?
    reads users.Values
    ensures r.Success? <==> token.UserId() in users && users[token.UserId()].IsAllowed()
    ensures r.Success? ==> r.value == users[token.UserId()]
    ensures r.Failure? ==> r.error == Forbidden
  {
    var id := token.UserId();
    if id !in users || !users[id].IsAllowed() then Failure(Forbidden) else Success(users[id])
  }

  /**
   * `issueToken`'s claims: issued and valid from `now`, expiring after the
   * given lifetime or the configured one, for the user and the scopes.
   */
  function IssueToken(userId: string, scopes: seq<string>, exp: Option<int>, params: Parameters, now: int): (p: Payload)
    ensures p.iat == p.nbf == Some(now)
    ensures p.exp == Some(now + exp.GetOr(params.expiration))
    ensures p.sub == Some(userId) && p.scopes == scopes
    ensures p.iss == Some(params.issuer) && p.aud == Some(params.audience)
    ensures p.extra == map[]
  {
    var lifetime := if exp.None? then params.expiration else exp.value;
    Payload(Some(params.issuer), Some(params.audience), Some(now), Some(now), Some(now + lifetime), Some(userId), scopes, map[])
  }

  /**
   * `issueToken` extended with the further claims its callers pass: the
   * claims of `IssueToken`, and the given ones besides.
   */
  function IssueTokenWithPayload(userId: string, scopes: seq<string>, exp: Option<int>, claims: map<string, string>,
                                 params: Parameters, now: int): (p: Payload)
    ensures p.extra == claims
    ensures p.(extra := map[]) == IssueToken(userId, scopes, exp, params, now)
  {
    IssueToken(userId, scopes, exp, params, now).(extra := claims)
  }

  /** `Strings::split` on a single space: the pieces between the spaces, empty ones included. */
  function SplitOnSpace(s: string): (r: seq<string>)
    ensures |r| >= 1
  {
    if s == [] then [""]
    else
      var rest := SplitOnSpace(s[1..]);
      if s[0] == ' ' then [""] + rest else [[s[0]] + rest[0]] + rest[1..]
  }

  /** The pieces joined back with spaces. */
  function JoinWithSpace(pieces: seq<string>): string
    requires |pieces| >= 1
  {
    if |pieces| == 1 then pieces[0] else pieces[0] + " " + JoinWithSpace(pieces[1..])
  }

  /** Splitting and joining again gives back the string, and no piece holds a space. */
  lemma {:induction false} SplitJoin(s: string)
    ensures JoinWithSpace(SplitOnSpace(s)) == s
    ensures forall i :: 0 <= i < |SplitOnSpace(s)| ==> ' ' !in SplitOnSpace(s)[i]
  {
    if s != [] {
      SplitJoin(s[1..]);
      var rest := SplitOnSpace(s[1..]);
      if s[0] == ' ' {
        assert SplitOnSpace(s)[1..] == rest;
        assert s == "" + " " + s[1..];
      } else {
        var r := SplitOnSpace(s);
        assert r[1..] == rest[1..];
        if |rest| == 1 {
          assert s == [s[0]] + rest[0];
        } else {
          assert JoinWithSpace(rest) == rest[0] + " " + JoinWithSpace(rest[1..]);
          assert s == [s[0]] + rest[0] + " " + JoinWithSpace(rest[1..]);
        }
        forall i | 0 <= i < |r| ensures ' ' !in r[i] {
          if i > 0 {
            assert r[i] == rest[i];
          }
        }
      }
    }
  }

  /** A string without spaces is one piece. */
  lemma {:induction false} SplitNoSpace(s: string)
    requires ' ' !in s
    ensures SplitOnSpace(s) == [s]
  {
    if s != [] {
      SplitNoSpace(s[1..]);
      assert s == [s[0]] + s[1..];
    }
  }

  /** A prefix without spaces joins the first piece of what follows it. */
  lemma {:induction false} SplitPrefix(a: string, b: string)
    requires ' ' !in a
    ensures SplitOnSpace(a + b) == [a + SplitOnSpace(b)[0]] + SplitOnSpace(b)[1..]
  {
    var B := SplitOnSpace(b);
    if a == [] {
      assert a + b == b && a + B[0] == B[0];
      assert B == [B[0]] + B[1..];
    } else {
      SplitPrefix(a[1..], b);
      assert (a + b)[0] == a[0] && (a + b)[1..] == a[1..] + b;
      var rest := SplitOnSpace(a[1..] + b);
      assert rest == [a[1..] + B[0]] + B[1..];
      assert rest[0] == a[1..] + B[0] && rest[1..] == B[1..];
      assert [a[0]] + (a[1..] + B[0]) == a + B[0];
    }
  }

  /** A bearer header splits into "Bearer" and the token. */
  lemma SplitBearer(t: string)
    requires ' ' !in t
    ensures SplitOnSpace("Bearer " + t) == ["Bearer", t]
  {
    SplitNoSpace(t);
    assert (" " + t)[1..] == t;
    assert SplitOnSpace(" " + t) == ["", t];
    SplitPrefix("Bearer", " " + t);
    assert "Bearer " + t == "Bearer" + (" " + t);
    assert SplitOnSpace(" " + t)[0] == "" && SplitOnSpace(" " + t)[1..] == [t];
    assert "Bearer" + "" == "Bearer";
  }

  /**
   * `getGivenAccessToken`: the query value when present; otherwise the
   * second half of an Authorization header of exactly two space-separated
   * parts whose first is "Bearer"; otherwise None. A missing header splits
   * like the empty string.
   */
  function GetGivenAccessToken(req: Request): (r: Option<string>)
    ensures req.accessTokenQuery.Some? ==> r == req.accessTokenQuery
    ensures req.accessTokenQuery.None? && r.Some? ==>
              req.authorization == Some("Bearer " + r.value) && ' ' !in r.value
  {
    if req.accessTokenQuery.Some? then req.accessTokenQuery
    else
      var parts := SplitOnSpace(req.authorization.GetOr(""));
      if |parts| == 2 && parts[0] == "Bearer" && ' ' !in parts[1] then
        SplitJoin(req.authorization.GetOr(""));
        assert |SplitOnSpace("")| == 1;
        assert parts[1..] == [parts[1]];
        assert JoinWithSpace(parts) == parts[0] + " " + parts[1] == "Bearer " + parts[1];
        Some(parts[1])
      else None
  }

  /** Every bearer header without further spaces yields its token. */
  lemma BearerHeaderAccepted(t: string)
    requires ' ' !in t
    ensures GetGivenAccessToken(Request(None, Some("Bearer " + t))) == Some(t)
  {
    SplitBearer(t);
  }

  /** `getGivenAccessTokenOrThrow`. */
  function GetGivenAccessTokenOrThrow(req: Request): (r: Result<string, ApiError>)
    ensures r.Failure? <==> GetGivenAccessToken(req).None?
    ensures r.Failure? ==> r.error == NoAccessToken
    ensures r.Success? ==> r.value == GetGivenAccessToken(req).value
  {
    match GetGivenAccessToken(req)
    case None => Failure(NoAccessToken)
    case Some(t) => Success(t)
  }

  /** The identity `getIdentity` builds: the user's id and role and the token. */
  datatype Identity = Identity(id: Option<string>, role: string, token: string)

  /**
   * `getIdentity`: token, decoding and user in turn; any API error gives
   * None. `decode` is JWT decoding with the manager's key and algorithms.
   */
  function GetIdentity(req: Request, decode: string -> Result<Payload, ExClass>, users: map<string, User>): (r: Option<Identity>)
    reads users.Values
    ensures r.Some? <==>
              GetGivenAccessToken(req).Some? &&
              decode(GetGivenAccessToken(req).value).Success? &&
              decode(GetGivenAccessToken(req).value).value.sub.Some? &&
              decode(GetGivenAccessToken(req).value).value.sub.value in users &&
              users[decode(GetGivenAccessToken(req).value).value.sub.value].IsAllowed()
    ensures r.Some? ==> r.value.token == GetGivenAccessToken(req).value &&
                        r.value.id == users[decode(r.value.token).value.sub.value].id
  {
    match GetGivenAccessTokenOrThrow(req)
    case Failure(_) => None
    case Success(token) =>
      match DecodeToken(token, decode(token))
      case Failure(_) => None
      case Success(accessToken) =>
        match GetUser(accessToken, users)
        case Failure(_) => None
        case Success(user) => Some(Identity(user.id, user.role, token))
  }

  /**
   * A token issued for an allowed user and presented as the "access_token"
   * query value gives that user's identity, whenever JWT decoding gives
   * back the claims that were encoded.
   */
  lemma IssuedTokenIdentifies(userId: string, scopes: seq<string>, exp: Option<int>, params: Parameters, now: int,
                              encode: Payload -> string, decode: string -> Result<Payload, ExClass>, users: map<string, User>)
    requires decode(encode(IssueToken(userId, scopes, exp, params, now))) == Success(IssueToken(userId, scopes, exp, params, now))
    requires userId in users && users[userId].IsAllowed()
    ensures var token := encode(IssueToken(userId, scopes, exp, params, now));
            DecodeToken(token, decode(token)).Success? &&
            DecodeToken(token, decode(token)).value.UserId() == userId &&
            DecodeToken(token, decode(token)).value.payload.scopes == scopes
    ensures var token := encode(IssueToken(userId, scopes, exp, params, now));
            GetIdentity(Request(Some(token), None), decode, users) == Some(Identity(users[userId].id, users[userId].role, token))
  {
  }
}
