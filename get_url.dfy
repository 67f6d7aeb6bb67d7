/**
 * `getUrl` of the S3 storage provider: a presigned URL for reading an object.
 * It resolves the credentials and the storage configuration, checks that a key
 * was given, optionally checks that the object exists, computes the object key
 * for the access level and target identity, reconciles the requested URL
 * lifetime with the credentials' remaining lifetime, checks that lifetime
 * against a ceiling and asks the signer for the URL.
 *
 * Times are integers: clock readings and credential expirations in
 * milliseconds, URL lifetimes in seconds. The collaborators are fields of
 * `GetUrlCollaborators`; the two readings of `Date.now()` are `ClockReads`.
 * `GetUrl` returns, besides its outcome, the calls it made in order.
 */
module GetUrlApi {
  import opened StorageCommon

  /** The URL lifetime, in seconds, when the caller gives none. */
  const DefaultPresignExpiration: int := 900

  /** The ceiling of the URL lifetime: seven days, written in milliseconds. */
  const MaxUrlExpiration: int := 7 * 24 * 60 * 60 * 1000

  /** The options of a `getUrl` request; an absent `options` object is all `None` and `false`. */
  datatype GetUrlOptions = GetUrlOptions(
    accessLevel: Option<AccessLevel>,
    targetIdentityId: Option<string>,
    expiresIn: Option<int>,
    validateObjectExistence: bool)

  /** The request: the key (possibly missing or empty) and the options. */
  datatype GetUrlRequest = GetUrlRequest(key: Option<string>, options: GetUrlOptions)

  /** AWS credentials; `expiration` is the instant, in milliseconds, at which they lapse. */
  datatype AwsCredentials = AwsCredentials(
    accessKeyId: string,
    secretAccessKey: string,
    sessionToken: Option<string>,
    expiration: Option<int>)

  /** What `resolveCredentials` returns. */
  datatype ResolvedCredentials = ResolvedCredentials(credentials: AwsCredentials, identityId: Option<string>)

  /** What `resolveStorageConfig` returns. */
  datatype StorageConfig = StorageConfig(defaultAccessLevel: AccessLevel, bucket: string, region: string)

  /** The argument of `getKeyWithPrefix`. */
  datatype KeyPrefixInput = KeyPrefixInput(accessLevel: AccessLevel, targetIdentityId: Option<string>, key: string)

  /** The options handed to the signer; `expiration` is in seconds. */
  datatype PresignOptions = PresignOptions(
    accessLevel: AccessLevel,
    credentials: AwsCredentials,
    expiration: int,
    signingRegion: string,
    region: string,
    signingService: string)

  /** The result: the URL and `expiresAt`, a clock value in milliseconds. */
  datatype GetUrlResult = GetUrlResult(url: string, expiresAt: int)

  /** A call `getUrl` makes to a collaborator. */
  datatype GetUrlCall =
    | ResolveCredentials
    | ResolveStorageConfig
    | GetProperties(key: string)
    | GetKeyWithPrefix(input: KeyPrefixInput)
    | GetPresignedGetObjectUrl(options: PresignOptions, params: GetObjectInput)

  /**
   * The collaborators: the outcomes of the two resolvers, the existence check
   * (`None` when the object exists, otherwise what it throws), the key
   * computation (which may throw), the signer, and the S3 service name the signer is given.
   */
  datatype GetUrlCollaborators = GetUrlCollaborators(
    resolveCredentials: Result<ResolvedCredentials, string>,
    resolveStorageConfig: Result<StorageConfig, string>,
    getProperties: string -> Option<string>,
    getKeyWithPrefix: KeyPrefixInput -> Result<string, string>,
    getPresignedGetObjectUrl: (PresignOptions, GetObjectInput) -> Result<string, string>,
    serviceName: string)

  /**
   * The two readings of `Date.now()`, in milliseconds: one while reconciling
   * the lifetime with the credentials, one after signing, for `expiresAt`.
   */
  datatype ClockReads = ClockReads(reconcile: int, expiresAt: int)

  /** The requested lifetime, `expiresIn ?? 900`: an explicit value, even 0, is kept. */
  function RequestedExpiration(options: GetUrlOptions): (seconds: int)
    ensures options.expiresIn.Some? ==> seconds == options.expiresIn.value
    ensures options.expiresIn.None? ==> seconds == DefaultPresignExpiration
  {
    options.expiresIn.GetOr(DefaultPresignExpiration)
  }

  /** Whole seconds left before the credentials lapse, rounded down. */
  function CredentialSecondsRemaining(expirationMs: int, nowMs: int): (seconds: int)
    ensures seconds * 1000 <= expirationMs - nowMs < seconds * 1000 + 1000
  {
    (expirationMs - nowMs) / 1000
  }

  /**
   * The URL lifetime after reconciliation: the smaller of the requested
   * lifetime and the credentials' remaining seconds, when they lapse at all.
   */
  function EffectiveExpiration(requested: int, credentialExpiration: Option<int>, nowMs: int): (seconds: int)
    ensures seconds <= requested
    ensures credentialExpiration.None? ==> seconds == requested
    ensures credentialExpiration.Some? ==>
      var remaining := CredentialSecondsRemaining(credentialExpiration.value, nowMs);
      seconds <= remaining && (seconds == requested || seconds == remaining)
  {
    match credentialExpiration
    case None => requested
    case Some(expiration) =>
      var remaining := CredentialSecondsRemaining(expiration, nowMs);
      if remaining < requested then remaining else requested
  }

  /** The ceiling test as written: a lifetime in seconds against a bound in milliseconds. */
  predicate BelowCeiling(urlExpiration: int) {
    urlExpiration < MaxUrlExpiration
  }

  /** Credentials that have already lapsed give a lifetime of at most zero, which passes the ceiling. */
  lemma ExpiredCredentialsPassCeiling(requested: int, expirationMs: int, nowMs: int)
    requires expirationMs <= nowMs
    ensures EffectiveExpiration(requested, Some(expirationMs), nowMs) <= 0
    ensures BelowCeiling(EffectiveExpiration(requested, Some(expirationMs), nowMs))
  {
  }

  /** Credentials lapsing 200 seconds from now cut a requested hour down to 200 seconds. */
  lemma CredentialsShortenLifetime(nowMs: int)
    ensures EffectiveExpiration(3600, Some(nowMs + 200000), nowMs) == 200
  {
  }

  /** The ceiling lets through a lifetime of eight days in seconds, beyond the seven it names. */
  lemma CeilingAdmitsEightDays(nowMs: int)
    ensures EffectiveExpiration(8 * 24 * 60 * 60, None, nowMs) > 7 * 24 * 60 * 60
    ensures BelowCeiling(EffectiveExpiration(8 * 24 * 60 * 60, None, nowMs))
  {
  }

  /** `!!key`: the key is present and not empty. */
  predicate HasKey(key: Option<string>) {
    key.Some? && key.value != ""
  }

  /** `accessLevel = defaultAccessLevel` in the destructuring: the default applies only when none is given. */
  function AccessLevelFor(options: GetUrlOptions, defaultAccessLevel: AccessLevel): (level: AccessLevel)
    ensures options.accessLevel.Some? ==> level == options.accessLevel.value
    ensures options.accessLevel.None? ==> level == defaultAccessLevel
  {
    options.accessLevel.GetOr(defaultAccessLevel)
  }

  /** The identity whose namespace the key is in: the target identity only for an explicit `protected` level. */
  function TargetIdentityFor(options: GetUrlOptions, identityId: Option<string>): (target: Option<string>)
    ensures options.accessLevel == Some(Protected) ==> target == options.targetIdentityId
    ensures options.accessLevel != Some(Protected) ==> target == identityId
  {
    if options.accessLevel == Some(Protected) then options.targetIdentityId else identityId
  }

  /**
   * The test for the target identity looks at the caller's access level, not
   * the resolved one: with a `protected` default and no level given, the key
   * is at the `protected` level but in the caller's own identity.
   */
  lemma DefaultProtectedKeepsOwnIdentity(options: GetUrlOptions, identityId: Option<string>)
    requires options.accessLevel.None?
    ensures AccessLevelFor(options, Protected) == Protected
    ensures TargetIdentityFor(options, identityId) == identityId
  {
  }

  /** The argument `getUrl` hands to `getKeyWithPrefix`. */
  function KeyPrefixInputFor(req: GetUrlRequest, resolved: ResolvedCredentials, config: StorageConfig): (input: KeyPrefixInput)
    requires HasKey(req.key)
  {
    KeyPrefixInput(AccessLevelFor(req.options, config.defaultAccessLevel),
                   TargetIdentityFor(req.options, resolved.identityId),
                   req.key.value)
  }

  /** The URL lifetime `getUrl` checks and adds to `expiresAt`. */
  function UrlExpirationFor(req: GetUrlRequest, resolved: ResolvedCredentials, clock: ClockReads): (seconds: int) {
    EffectiveExpiration(RequestedExpiration(req.options), resolved.credentials.expiration, clock.reconcile)
  }

  /** Whether a call gets as far as computing the object key. */
  predicate ReachesKeyComputation(req: GetUrlRequest, env: GetUrlCollaborators) {
    env.resolveCredentials.Success? && env.resolveStorageConfig.Success? && HasKey(req.key) &&
    (req.options.validateObjectExistence ==> env.getProperties(req.key.value).None?)
  }

  /** Whether a call gets as far as the ceiling check: the key computation did not throw. */
  predicate ReachesCeilingCheck(req: GetUrlRequest, env: GetUrlCollaborators) {
    ReachesKeyComputation(req, env) &&
    env.getKeyWithPrefix(KeyPrefixInputFor(req, env.resolveCredentials.value, env.resolveStorageConfig.value)).Success?
  }

  /** Whether the signer was called: it is then the last call. */
  predicate SignerInvoked(calls: seq<GetUrlCall>) {
    |calls| > 0 && calls[|calls| - 1].GetPresignedGetObjectUrl?
  }

  /**
   * `getUrl`. Every collaborator failure ends the call with that failure; the
   * signer is called at most once, last, and only once every earlier step has
   * passed, the ceiling check included.
   */
  method GetUrl(req: GetUrlRequest, env: GetUrlCollaborators, clock: ClockReads)
    returns (result: Result<GetUrlResult, StorageError>, calls: seq<GetUrlCall>)
    // Credentials are resolved first, then the storage configuration.
    ensures |calls| >= 1 && calls[0] == ResolveCredentials
    ensures env.resolveCredentials.Failure? ==>
      calls == [ResolveCredentials] && result == Failure(Thrown(env.resolveCredentials.error))
    ensures env.resolveCredentials.Success? ==> |calls| >= 2 && calls[1] == ResolveStorageConfig
    ensures env.resolveCredentials.Success? && env.resolveStorageConfig.Failure? ==>
      |calls| == 2 && result == Failure(Thrown(env.resolveStorageConfig.error))
    // A missing or empty key fails after both resolutions and before anything else.
    ensures env.resolveCredentials.Success? && env.resolveStorageConfig.Success? && !HasKey(req.key) ==>
      calls == [ResolveCredentials, ResolveStorageConfig] && result == Failure(ValidationError(NoKey))
    // The existence check, when asked for, comes next, with the bare key; its failure ends the call.
    ensures env.resolveCredentials.Success? && env.resolveStorageConfig.Success? && HasKey(req.key) ==>
      |calls| >= 3 && (calls[2] == GetProperties(req.key.value) <==> req.options.validateObjectExistence)
    ensures env.resolveCredentials.Success? && env.resolveStorageConfig.Success? && HasKey(req.key) &&
            req.options.validateObjectExistence && env.getProperties(req.key.value).Some? ==>
      |calls| == 3 && result == Failure(Thrown(env.getProperties(req.key.value).value))
    // The signer is called at most once, last, exactly when the call reaches the ceiling check and passes it.
    ensures forall i :: 0 <= i < |calls| - 1 ==> !calls[i].GetPresignedGetObjectUrl?
    ensures SignerInvoked(calls) <==>
      ReachesCeilingCheck(req, env) && BelowCeiling(UrlExpirationFor(req, env.resolveCredentials.value, clock))
    ensures ReachesCeilingCheck(req, env) && !BelowCeiling(UrlExpirationFor(req, env.resolveCredentials.value, clock)) ==>
      result == Failure(ValidationError(UrlExpirationMaxLimitExceed))
    // The key is computed before the ceiling check; the signer gets the bucket, that key and the REQUESTED lifetime.
    ensures ReachesCeilingCheck(req, env) ==>
      var resolved := env.resolveCredentials.value;
      var config := env.resolveStorageConfig.value;
      var keyInput := KeyPrefixInputFor(req, resolved, config);
      var lastBeforeSigning := if SignerInvoked(calls) then |calls| - 2 else |calls| - 1;
      0 <= lastBeforeSigning < |calls| && calls[lastBeforeSigning] == GetKeyWithPrefix(keyInput) &&
      (SignerInvoked(calls) ==>
        calls[|calls| - 1] == GetPresignedGetObjectUrl(
          PresignOptions(keyInput.accessLevel, resolved.credentials, RequestedExpiration(req.options),
                         config.region, config.region, env.serviceName),
          GetObjectInput(config.bucket, env.getKeyWithPrefix(keyInput).value)))
    // A call that reaches the key computation makes each of these calls once, in this order, and no other.
    ensures ReachesKeyComputation(req, env) ==>
      calls == [ResolveCredentials, ResolveStorageConfig] +
               (if req.options.validateObjectExistence then [GetProperties(req.key.value)] else []) +
               [GetKeyWithPrefix(KeyPrefixInputFor(req, env.resolveCredentials.value, env.resolveStorageConfig.value))] +
               (if SignerInvoked(calls) then [calls[|calls| - 1]] else [])
    // The outcome is the signer's; `expiresAt` adds the lifetime in seconds to the second clock reading.
    // A throwing key computation ends the call with its error.
    ensures ReachesKeyComputation(req, env) && !ReachesCeilingCheck(req, env) ==>
      var keyInput := KeyPrefixInputFor(req, env.resolveCredentials.value, env.resolveStorageConfig.value);
      calls[|calls| - 1] == GetKeyWithPrefix(keyInput) && result == Failure(Thrown(env.getKeyWithPrefix(keyInput).error))
    ensures SignerInvoked(calls) ==>
      var signed := env.getPresignedGetObjectUrl(calls[|calls| - 1].options, calls[|calls| - 1].params);
      result == if signed.Success?
                then Success(GetUrlResult(signed.value,
                                          clock.expiresAt + UrlExpirationFor(req, env.resolveCredentials.value, clock)))
                else Failure(Thrown(signed.error))
    ensures result.Success? ==> SignerInvoked(calls)
  {
    calls := [ResolveCredentials];
    if env.resolveCredentials.Failure? {
      return Failure(Thrown(env.resolveCredentials.error)), calls;
    }
    var resolved := env.resolveCredentials.value;
    calls := calls + [ResolveStorageConfig];
    if env.resolveStorageConfig.Failure? {
      return Failure(Thrown(env.resolveStorageConfig.error)), calls;
    }
    var config := env.resolveStorageConfig.value;
    var accessLevel := AccessLevelFor(req.options, config.defaultAccessLevel);
    if !HasKey(req.key) {
      return Failure(ValidationError(NoKey)), calls;
    }
    var key := req.key.value;
    if req.options.validateObjectExistence {
      calls := calls + [GetProperties(key)];
      var thrown := env.getProperties(key);
      if thrown.Some? {
        return Failure(Thrown(thrown.value)), calls;
      }
    }

    var keyInput := KeyPrefixInput(accessLevel, TargetIdentityFor(req.options, resolved.identityId), key);
    calls := calls + [GetKeyWithPrefix(keyInput)];
    var finalKey := env.getKeyWithPrefix(keyInput);
    if finalKey.Failure? {
      return Failure(Thrown(finalKey.error)), calls;
    }
    var getUrlParams := GetObjectInput(config.bucket, finalKey.value);
    var getUrlOptions := PresignOptions(accessLevel, resolved.credentials, RequestedExpiration(req.options),
                                        config.region, config.region, env.serviceName);

    var urlExpiration := RequestedExpiration(req.options);
    if resolved.credentials.expiration.Some? {
      var credentialSeconds := CredentialSecondsRemaining(resolved.credentials.expiration.value, clock.reconcile);
      urlExpiration := if credentialSeconds < urlExpiration then credentialSeconds else urlExpiration;
    }
    if !BelowCeiling(urlExpiration) {
      return Failure(ValidationError(UrlExpirationMaxLimitExceed)), calls;
    }

    calls := calls + [GetPresignedGetObjectUrl(getUrlOptions, getUrlParams)];
    var signed := env.getPresignedGetObjectUrl(getUrlOptions, getUrlParams);
    if signed.Failure? {
      return Failure(Thrown(signed.error)), calls;
    }
    result := Success(GetUrlResult(signed.value, clock.expiresAt + urlExpiration));
  }
}
