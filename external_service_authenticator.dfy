/**
 * Login through external authentication services: a registry of services
 * with their JWT secrets, algorithms and token lifetimes, the check of a
 * service's token, the choice of the instance a new user joins, and the
 * order in which a user is found, connected or registered.
 *
 * The repositories are the `Directory` value; JWT verification is the
 * function `jwtDecode` (None when the library throws); the check that
 * wraps token claims into user data is the function `userData`; the clock
 * is `now`.
 */
module ExternalServiceAuthenticators {
  import opened Wrappers
  import opened PhpArray

  const DEFAULT_ALGORITHMS := ["HS256"]
  const DEFAULT_EXPIRATION := 60

  /** One configured service; None marks a key missing from the configuration. */
  datatype AuthConfig = AuthConfig(name: Option<string>, jwtSecret: Option<string>,
                                   jwtAlgorithms: Option<seq<string>>, expiration: Option<int>)

  /** A registered service. */
  datatype AuthEntry = AuthEntry(jwtSecret: string, jwtAlgorithms: seq<string>, expiration: int)

  /** The claims of a decoded token that the authenticator reads. */
  datatype Claims = Claims(iat: Option<int>, instanceId: Option<string>)

  /** The user data carried by a token: external id and email. */
  datatype ExternalUser = ExternalUser(id: string, mail: string)

  /** The repositories: external logins by service and external id, users by email, instances in order. */
  datatype Directory = Directory(externalLogins: map<(string, string), string>, usersByEmail: map<string, string>,
                                 instances: seq<string>)

  datatype AuthError = BadRequest(authName: string) | InvalidExternalToken(token: string) | WrongCredentials(service: string)

  /**
   * How `authenticate` found its user: by the external login, by email
   * (the login is then connected and the local password cleared), or as a
   * new user of an instance (persisted and connected).
   */
  datatype Outcome = ByExternalLogin(user: string) | ByEmail(user: string) | Registered(instance: string, data: ExternalUser)

  /** A configuration entry is registered when its name and secret are non-empty. */
  predicate Registers(c: AuthConfig) {
    !IsEmpty(c.name) && !IsEmpty(c.jwtSecret)
  }

  /** The registered entry: the secret, and the algorithms and lifetime or their defaults. */
  function EntryOf(c: AuthConfig): AuthEntry
    requires Registers(c)
  {
    AuthEntry(c.jwtSecret.value, c.jwtAlgorithms.GetOr(DEFAULT_ALGORITHMS), c.expiration.GetOr(DEFAULT_EXPIRATION))
  }

  /** The registry after the first `n` configuration entries. */
  function Registry(configs: seq<AuthConfig>, n: nat): Dict<string, AuthEntry>
    requires n <= |configs|
  {
    if n == 0 then []
    else if Registers(configs[n - 1]) then Put(Registry(configs, n - 1), configs[n - 1].name.value, EntryOf(configs[n - 1]))
    else Registry(configs, n - 1)
  }

  /** `configs[i]` registers the service `name`. */
  predicate RegistersName(configs: seq<AuthConfig>, i: nat, name: string)
    requires i < |configs|
  {
    Registers(configs[i]) && configs[i].name == Some(name)
  }

  /**
   * A service is registered exactly when some entry with a non-empty
   * name and secret names it, and the last such entry wins.
   */
  lemma {:induction false} RegistryLookup(configs: seq<AuthConfig>, n: nat, name: string)
    requires n <= |configs|
    ensures UniqueKeys(Registry(configs, n))
    ensures Get(Registry(configs, n), name).Some? <==> exists i :: 0 <= i < n && RegistersName(configs, i, name)
    ensures Get(Registry(configs, n), name).Some? ==>
              exists i :: 0 <= i < n && RegistersName(configs, i, name) &&
                          Get(Registry(configs, n), name) == Some(EntryOf(configs[i])) &&
                          forall j :: i < j < n ==> !RegistersName(configs, j, name)
  {
    if n > 0 {
      RegistryLookup(configs, n - 1, name);
      var c := configs[n - 1];
      if Registers(c) {
        PutUnique(Registry(configs, n - 1), c.name.value, EntryOf(c));
        GetPut(Registry(configs, n - 1), c.name.value, EntryOf(c), name);
        if c.name.value == name {
          assert RegistersName(configs, n - 1, name);
        }
      }
    }
  }

  /**
   * `getInstance`: a non-empty instance id in the token overrides the given
   * one; a non-empty id names the instance if it exists; with no id the only
   * instance, if there is exactly one.
   */
  function GetInstance(claims: Claims, instanceId: Option<string>, dir: Directory): (r: Option<string>)
    ensures var id := if !IsEmpty(claims.instanceId) then claims.instanceId else instanceId;
            (!IsEmpty(id) ==> r == if id.value in dir.instances then id else None) &&
            (IsEmpty(id) ==> r == if |dir.instances| == 1 then Some(dir.instances[0]) else None)
  {
    var id := if !IsEmpty(claims.instanceId) then claims.instanceId else instanceId;
    if !IsEmpty(id) then
      if id.value in dir.instances then id else None
    else if |dir.instances| == 1 then Some(dir.instances[0])
    else None
  }

  /** The token names the instance it joins, whatever the caller suggests. */
  lemma TokenInstanceOverrides(claims: Claims, suggested: Option<string>, dir: Directory)
    requires !IsEmpty(claims.instanceId)
    ensures GetInstance(claims, suggested, dir) == GetInstance(claims, None, dir)
  {
  }

  /**
   * An authenticator built from `configs` has a service exactly when some
   * entry with a non-empty name and secret names it.
   */
  lemma HasAuthenticatorIffConfigured(a: ExternalServiceAuthenticator, configs: seq<AuthConfig>, name: string)
    requires a.authenticators == Registry(configs, |configs|)
    ensures a.HasAuthenticator(name) <==> exists i :: 0 <= i < |configs| && RegistersName(configs, i, name)
  {
    RegistryLookup(configs, |configs|, name);
  }

  /** A token issued at `iat` expires `expiration` seconds later; an empty `iat` is expired. */
  predicate Expired(claims: Claims, expiration: int, now: int) {
    claims.iat.None? || claims.iat.value == 0 || claims.iat.value + expiration < now
  }

  class ExternalServiceAuthenticator {
    var authenticators: Dict<string, AuthEntry>

    /** The constructor's registration loop. */
    constructor (configs: seq<AuthConfig>)
      ensures authenticators == Registry(configs, |configs|)
    {
      var registry: Dict<string, AuthEntry> := [];
      for i := 0 to |configs|
        invariant registry == Registry(configs, i)
      {
        var c := configs[i];
        if !IsEmpty(c.name) && !IsEmpty(c.jwtSecret) {
          var algorithms := if c.jwtAlgorithms.Some? then c.jwtAlgorithms.value else DEFAULT_ALGORITHMS;
          var expiration := if c.expiration.Some? then c.expiration.value else DEFAULT_EXPIRATION;
          registry := Put(registry, c.name.value, AuthEntry(c.jwtSecret.value, algorithms, expiration));
        }
      }
      authenticators := registry;
    }

    /** `hasAuthenticator`. */
    predicate HasAuthenticator(name: string)
      reads this
    {
      Get(authenticators, name).Some?
    }

    /**
     * `decodeToken`: an unknown service is a bad request; a token the
     * library rejects, or one that has expired, is an invalid token.
     */
    function DecodeToken(authName: string, token: string, jwtDecode: (string, string, seq<string>) -> Option<Claims>,
                         now: int): (r: Result<Claims, AuthError>)
      reads this
      ensures !HasAuthenticator(authName) ==> r == Failure(BadRequest(authName))
      ensures HasAuthenticator(authName) ==>
                var e := Get(authenticators, authName).value;
                var decoded := jwtDecode(token, e.jwtSecret, e.jwtAlgorithms);
                r == if decoded.None? || Expired(decoded.value, e.expiration, now) then Failure(InvalidExternalToken(token))
                     else Success(decoded.value)
    {
      match Get(authenticators, authName)
      case None => Failure(BadRequest(authName))
      case Some(e) =>
        match jwtDecode(token, e.jwtSecret, e.jwtAlgorithms)
        case None => Failure(InvalidExternalToken(token))
        case Some(claims) =>
          if claims.iat.None? || claims.iat.value == 0 || claims.iat.value + e.expiration < now then
            Failure(InvalidExternalToken(token))
          else Success(claims)
    }

    /**
     * `authenticate`: decode the token, wrap its user data, then look the
     * user up by external login, then by email, then register them in an
     * instance; wrong credentials when all three fail.
     */
    function Authenticate(authName: string, token: string, instanceId: Option<string>, dir: Directory,
                          jwtDecode: (string, string, seq<string>) -> Option<Claims>,
                          userData: Claims -> Option<ExternalUser>, now: int): (r: Result<Outcome, AuthError>)
      reads this
      ensures DecodeToken(authName, token, jwtDecode, now).Failure? ==>
                r == Failure(DecodeToken(authName, token, jwtDecode, now).error)
      ensures r.Success? ==> DecodeToken(authName, token, jwtDecode, now).Success? &&
                             userData(DecodeToken(authName, token, jwtDecode, now).value).Some?
      ensures r.Success? && r.value.ByEmail? ==>
                (authName, userData(DecodeToken(authName, token, jwtDecode, now).value).value.id) !in dir.externalLogins
      ensures r.Success? && r.value.Registered? ==>
                var data := userData(DecodeToken(authName, token, jwtDecode, now).value).value;
                (authName, data.id) !in dir.externalLogins && data.mail !in dir.usersByEmail &&
                r.value.data == data
      ensures r.Failure? && r.error.WrongCredentials? ==>
                GetInstance(DecodeToken(authName, token, jwtDecode, now).value, instanceId, dir).None?
    {
      match DecodeToken(authName, token, jwtDecode, now)
      case Failure(e) => Failure(e)
      case Success(claims) =>
        match userData(claims)
        case None => Failure(InvalidExternalToken(token))
        case Some(data) =>
          if (authName, data.id) in dir.externalLogins then Success(ByExternalLogin(dir.externalLogins[(authName, data.id)]))
          else if data.mail in dir.usersByEmail then Success(ByEmail(dir.usersByEmail[data.mail]))
          else match GetInstance(claims, instanceId, dir)
            case Some(instance) => Success(Registered(instance, data))
            case None => Failure(WrongCredentials(authName))
    }
  }

  /**
   * With a valid token, a known external login always wins; otherwise a
   * matching email; a new user is registered only when neither exists.
   */
  lemma AuthenticateOrder(a: ExternalServiceAuthenticator, authName: string, token: string, instanceId: Option<string>,
                          dir: Directory, jwtDecode: (string, string, seq<string>) -> Option<Claims>,
                          userData: Claims -> Option<ExternalUser>, now: int, claims: Claims, data: ExternalUser)
    requires a.DecodeToken(authName, token, jwtDecode, now) == Success(claims) && userData(claims) == Some(data)
    ensures (authName, data.id) in dir.externalLogins ==>
              a.Authenticate(authName, token, instanceId, dir, jwtDecode, userData, now) ==
              Success(ByExternalLogin(dir.externalLogins[(authName, data.id)]))
    ensures (authName, data.id) !in dir.externalLogins && data.mail in dir.usersByEmail ==>
              a.Authenticate(authName, token, instanceId, dir, jwtDecode, userData, now) ==
              Success(ByEmail(dir.usersByEmail[data.mail]))
    ensures (authName, data.id) !in dir.externalLogins && data.mail !in dir.usersByEmail ==>
              a.Authenticate(authName, token, instanceId, dir, jwtDecode, userData, now) ==
              match GetInstance(claims, instanceId, dir)
              case Some(i) => Success(Registered(i, data))
              case None => Failure(WrongCredentials(authName))
  {
  }
}
