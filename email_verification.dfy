/**
 * The email verification helpers: the settings they read with their
 * defaults, the token they issue for a user, the subject and link of the
 * email, the expiry shown to the user, and the check of a returned token.
 *
 * Two versions of the helper exist: `Current` (under the Emails helpers,
 * with localised templates) and `Legacy` (the older one, with a fixed
 * template). They differ in their defaults, in the subject's separator
 * and in how the link is built.
 */
module EmailVerification {
  import opened Wrappers
  import opened Users
  import opened AccessManager

  datatype Helper = Current | Legacy

  /** The scope of a verification token; its text is defined outside this model. */
  const EMAIL_VERIFICATION_SCOPE := "email-verification"
  /** The token lifetime when none is configured: ten minutes. */
  const DEFAULT_TOKEN_EXPIRATION := 10 * 60
  /** How much earlier than the token's real expiry the email says it expires. */
  const SHOWN_EXPIRY_MARGIN := 60
  /** The claim of the token holding the address being verified. */
  const EMAIL_CLAIM := "email"

  /** The configuration entries read: emails.from, emails.subjectPrefix, redirectUrl, tokenExpiration. */
  datatype Params = Params(from: Option<string>, subjectPrefix: Option<string>, redirectUrl: Option<string>,
                           tokenExpiration: Option<int>)

  datatype Settings = Settings(sender: string, subjectPrefix: string, redirectUrl: string, tokenExpiration: int)

  /** The defaults of each version. */
  function DefaultSettings(h: Helper): Settings {
    match h
    case Current => Settings("noreply@recodex.mff.cuni.cz", "Email Verification Request - ",
                             "https://recodex.mff.cuni.cz", DEFAULT_TOKEN_EXPIRATION)
    case Legacy => Settings("noreply@recodex.cz", "ReCodEx Email Verification Request - ",
                            "https://recodex.cz", DEFAULT_TOKEN_EXPIRATION)
  }

  /** The constructor: each configured value, or the version's default when it is missing. */
  function Configure(h: Helper, p: Params): (s: Settings)
    ensures p.from.Some? ==> s.sender == p.from.value
    ensures p.subjectPrefix.Some? ==> s.subjectPrefix == p.subjectPrefix.value
    ensures p.redirectUrl.Some? ==> s.redirectUrl == p.redirectUrl.value
    ensures p.tokenExpiration.Some? ==> s.tokenExpiration == p.tokenExpiration.value
    ensures p.tokenExpiration.None? ==> s.tokenExpiration == 600
  {
    var d := DefaultSettings(h);
    Settings(p.from.GetOr(d.sender), p.subjectPrefix.GetOr(d.subjectPrefix), p.redirectUrl.GetOr(d.redirectUrl),
             p.tokenExpiration.GetOr(d.tokenExpiration))
  }

  /** With nothing configured, a helper runs on its defaults. */
  lemma ConfigureDefaults(h: Helper)
    ensures Configure(h, Params(None, None, None, None)) == DefaultSettings(h)
  {
  }

  /**
   * `verify`, the same in both versions: a token without the verification
   * scope is forbidden; otherwise the answer is whether the token's user and
   * its email claim are the user's id and current email. The email claim is
   * read only when the ids agree (`&&` stops early); reading a claim the
   * token does not carry raises `absentClaim`, the error of the AccessToken
   * class, which is not part of this model.
   */
  function Verify(user: User, token: AccessToken, absentClaim: ApiError): (r: Result<bool, ApiError>)
    reads user
    ensures r.Failure? <==>
              !token.IsInScope(EMAIL_VERIFICATION_SCOPE) ||
              (user.id == token.payload.sub && token.Claim(EMAIL_CLAIM).None?)
    ensures !token.IsInScope(EMAIL_VERIFICATION_SCOPE) ==> r == Failure(Forbidden)
    ensures token.IsInScope(EMAIL_VERIFICATION_SCOPE) && r.Failure? ==> r.error == absentClaim
    ensures r == Success(true) <==>
              token.IsInScope(EMAIL_VERIFICATION_SCOPE) && user.id == token.payload.sub &&
              token.Claim(EMAIL_CLAIM) == Some(user.email)
  {
    if EMAIL_VERIFICATION_SCOPE !in token.payload.scopes then Failure(Forbidden)
    else if user.id != token.payload.sub then Success(false)
    else if EMAIL_CLAIM !in token.payload.extra then Failure(absentClaim)
    else Success(token.payload.extra[EMAIL_CLAIM] == user.email)
  }

  /** `createSubject`: the prefix then the email, separated by a space only in the legacy version. */
  function Subject(h: Helper, s: Settings, email: string): (r: string)
    ensures |r| == |s.subjectPrefix| + (if h == Legacy then 1 else 0) + |email|
    ensures r[..|s.subjectPrefix|] == s.subjectPrefix && r[|r| - |email|..] == email
    ensures h == Legacy ==> r[|s.subjectPrefix|] == ' '
  {
    match h
    case Current => s.subjectPrefix + email
    case Legacy => s.subjectPrefix + " " + email
  }

  /**
   * The lifetime `createBody` shows: a minute short of the token's. A
   * lifetime under a minute makes the interval negative, which
   * `DateInterval` refuses with an exception: None.
   */
  function ShownExpiry(s: Settings): (seconds: Option<int>)
    ensures seconds.Some? <==> s.tokenExpiration >= SHOWN_EXPIRY_MARGIN
    ensures seconds.Some? ==> seconds.value >= 0 && seconds.value + SHOWN_EXPIRY_MARGIN == s.tokenExpiration
  {
    var exp := s.tokenExpiration - 60;
    if exp < 0 then None else Some(exp)
  }

  /** The legacy link: the redirect URL, "#", and the token. */
  function Link(s: Settings, token: string): (r: string)
    ensures |r| == |s.redirectUrl| + 1 + |token|
    ensures r[..|s.redirectUrl|] == s.redirectUrl && r[|s.redirectUrl|] == '#' && r[|s.redirectUrl| + 1..] == token
  {
    s.redirectUrl + "#" + token
  }

  /** The text after the last "#", or all of it when there is none. */
  function Fragment(link: string): (r: string)
    ensures |r| <= |link| && r == link[|link| - |r|..]
    ensures '#' !in r
  {
    if link == [] || link[|link| - 1] == '#' then []
    else Fragment(link[..|link| - 1]) + [link[|link| - 1]]
  }

  /** The token travels in the link's fragment and comes back out of it unchanged. */
  lemma LinkCarriesToken(s: Settings, token: string)
    requires '#' !in token
    ensures Fragment(Link(s, token)) == token
  {
    FragmentAfterHash(s.redirectUrl, token);
  }

  /** Whatever precedes the last "#", the fragment is the text after it. */
  lemma {:induction false} FragmentAfterHash(a: string, t: string)
    requires '#' !in t
    ensures Fragment(a + "#" + t) == t
  {
    var l := a + "#" + t;
    if t == [] {
      assert l[|l| - 1] == '#';
    } else {
      var shorter := t[..|t| - 1];
      FragmentAfterHash(a, shorter);
      assert l[..|l| - 1] == a + "#" + shorter;
      assert shorter + [t[|t| - 1]] == t;
    }
  }

  /**
   * The claims `process` obtains as written: it passes the email as a
   * fourth argument, but `issueToken` takes three, so the email claim is
   * dropped.
   */
  function AsWrittenProcessPayload(s: Settings, user: User, params: Parameters, now: int): (p: Payload)
    requires user.id.Some?
    reads user
    ensures p == IssueToken(user.id.value, [EMAIL_VERIFICATION_SCOPE], Some(s.tokenExpiration), params, now)
    ensures EMAIL_CLAIM !in p.extra
  {
    IssueToken(user.id.value, [EMAIL_VERIFICATION_SCOPE], Some(s.tokenExpiration), params, now)
  }

  /**
   * As written, no token `process` issues ever verifies: it decodes and
   * has the right scope and user, so `verify` goes on to read the email
   * claim, which the token lacks; it never answers true.
   */
  lemma AsWrittenTokenNeverVerifies(s: Settings, user: User, params: Parameters, now: int, jwt: string, absentClaim: ApiError)
    requires user.id.Some?
    ensures var d := DecodeToken(jwt, Success(AsWrittenProcessPayload(s, user, params, now)));
            d.Success? && Verify(user, d.value, absentClaim) != Success(true) &&
            Verify(user, d.value, absentClaim) == Failure(absentClaim)
  {
    var d := DecodeToken(jwt, Success(AsWrittenProcessPayload(s, user, params, now)));
    assert d.value.IsInScope(EMAIL_VERIFICATION_SCOPE);
  }

  /** The claims `process` means to obtain: the verification scope and lifetime, and the user's email. */
  function ProcessPayload(s: Settings, user: User, params: Parameters, now: int): (p: Payload)
    requires user.id.Some?
    reads user
    ensures p.sub == user.id && p.scopes == [EMAIL_VERIFICATION_SCOPE]
    ensures p.extra == map[EMAIL_CLAIM := user.email]
    ensures p.exp == Some(now + s.tokenExpiration)
  {
    IssueTokenWithPayload(user.id.value, [EMAIL_VERIFICATION_SCOPE], Some(s.tokenExpiration),
                          map[EMAIL_CLAIM := user.email], params, now)
  }

  /**
   * A token issued by `process` verifies for its user while the user's
   * email is unchanged, and fails once the email has changed.
   */
  lemma ProcessedTokenVerifies(s: Settings, user: User, params: Parameters, now: int, jwt: string, email: string,
                               absentClaim: ApiError)
    requires user.id.Some?
    ensures var d := DecodeToken(jwt, Success(ProcessPayload(s, user, params, now)));
            d.Success? && Verify(user, d.value, absentClaim) == Success(true) &&
            (email != user.email ==>
               Verify(user, d.value.(payload := d.value.payload.(extra := map[EMAIL_CLAIM := email])), absentClaim) == Success(false))
  {
    var d := DecodeToken(jwt, Success(ProcessPayload(s, user, params, now)));
    assert d.value.IsInScope(EMAIL_VERIFICATION_SCOPE);
    assert d.value.Claim(EMAIL_CLAIM) == Some(user.email);
  }

  /** The email names a moment a minute before the token issued with it actually expires. */
  lemma ShownExpiryPrecedesToken(s: Settings, user: User, params: Parameters, now: int)
    requires user.id.Some?
    ensures ShownExpiry(s).Some? ==> now + ShownExpiry(s).value + SHOWN_EXPIRY_MARGIN == ProcessPayload(s, user, params, now).exp.value
  {
  }
}
