/** `AwsCredentialsProvider`: the capability of resolving a credential pair, and the
    static `provide` policy that chooses between a pair given explicitly through two
    suppliers and the default discovery chain. */
module AwsCredentialsProvider {
  import opened Wrappers
  import opened JavaString

  /** `AwsCredentials`: an access key id and a secret access key, both set together. */
  datatype Credentials = Credentials(accessKeyId: string, secretAccessKey: string)

  /** The runtime exception a provider throws when it cannot produce credentials. */
  datatype ResolveError = CredentialsUnavailable

  /** The two kinds of provider `provide` can hand back: the lambda that captures a
      fixed pair, or `DefaultCredentialsProvider.create()`, whose discovery chain
      (environment, profile files, instance metadata) is not part of this model. */
  datatype Provider = Fixed(credentials: Credentials) | Default

  /** `Supplier<String>`: a deferred read that may observe and change the world `S`
      it runs in (a counter, an environment, a log), and yields a possibly null string. */
  type Supplier<!S> = S -> (Option<string>, S)

  /** A supplied value may be used only when it is non-null and not blank. */
  predicate Usable(v: Option<string>) {
    v.Some? && !IsBlank(v.value)
  }

  /** The conditional of `provide`: the short-circuit null/blank test on both raw
      values, then either the default provider or a provider fixed on the raw values.
      All or nothing: a fixed provider is built only from two usable values, and it
      holds them verbatim, untrimmed. */
  function SelectProvider(accessKeyId: Option<string>, secretAccessKey: Option<string>): (p: Provider)
    ensures p.Fixed? <==> Usable(accessKeyId) && Usable(secretAccessKey)
    ensures p.Fixed? ==> p.credentials == Credentials(accessKeyId.value, secretAccessKey.value)
  {
    if accessKeyId.None? || IsBlank(accessKeyId.value)
       || secretAccessKey.None? || IsBlank(secretAccessKey.value)
    then Default
    else Fixed(Credentials(accessKeyId.value, secretAccessKey.value))
  }

  /** `provide(accessKeyIdSupplier, secretAccessKeySupplier)`: read the access key id,
      then the secret access key, each exactly once, then decide. Returns the provider
      and the world as the two reads left it. */
  function Provide<S>(accessKeyIdSupplier: Supplier<S>, secretAccessKeySupplier: Supplier<S>, world: S): (r: (Provider, S))
    ensures var (accessKeyId, afterId) := accessKeyIdSupplier(world);
            var (secretAccessKey, afterSecret) := secretAccessKeySupplier(afterId);
            && (r.0.Fixed? <==> Usable(accessKeyId) && Usable(secretAccessKey))
            && (r.0.Fixed? ==> r.0.credentials == Credentials(accessKeyId.value, secretAccessKey.value))
            && r.1 == afterSecret
  {
    var (accessKeyId, afterId) := accessKeyIdSupplier(world);
    var (secretAccessKey, afterSecret) := secretAccessKeySupplier(afterId);
    (SelectProvider(accessKeyId, secretAccessKey), afterSecret)
  }

  /** `resolveCredentials()` on a provider. A fixed provider returns its captured pair
      and cannot fail; what the default chain finds (or fails to find) on this call is
      given as `discovered`. */
  function Resolve(p: Provider, discovered: Result<Credentials, ResolveError>): (r: Result<Credentials, ResolveError>)
    ensures p.Fixed? ==> r == Success(p.credentials)
    ensures p.Default? ==> r == discovered
  {
    match p
    case Fixed(c) => Success(c)
    case Default => discovered
  }

  /** Successive `resolveCredentials()` calls on one provider; the i-th call sees the
      default chain's i-th outcome, which may change over time. */
  function ResolveEach(p: Provider, discoveries: seq<Result<Credentials, ResolveError>>): (rs: seq<Result<Credentials, ResolveError>>)
    ensures |rs| == |discoveries|
    ensures forall i :: 0 <= i < |rs| ==> rs[i] == Resolve(p, discoveries[i])
  {
    if discoveries == [] then []
    else [Resolve(p, discoveries[0])] + ResolveEach(p, discoveries[1..])
  }

  // ---------------------------------------------------------------------------
  // The selection policy

  /** A null access key id selects the default provider, whatever the secret is. */
  lemma NullAccessKeyIdSelectsDefault(secretAccessKey: Option<string>)
    ensures SelectProvider(None, secretAccessKey) == Default
  {
  }

  /** An empty or whitespace-only access key id selects the default provider. */
  lemma BlankAccessKeyIdSelectsDefault(accessKeyId: string, secretAccessKey: Option<string>)
    requires forall i :: 0 <= i < |accessKeyId| ==> IsWhitespace(accessKeyId[i])
    ensures SelectProvider(Some(accessKeyId), secretAccessKey) == Default
  {
  }

  /** A null or blank secret selects the default provider even next to a valid access
      key id: no provider is ever built from one explicit field. */
  lemma UnusableSecretSelectsDefault(accessKeyId: Option<string>, secretAccessKey: Option<string>)
    requires secretAccessKey.None? || IsBlank(secretAccessKey.value)
    ensures SelectProvider(accessKeyId, secretAccessKey) == Default
  {
  }

  /** Two usable values always give a fixed provider, never the default one. */
  lemma UsablePairSelectsFixed(accessKeyId: string, secretAccessKey: string)
    requires !IsBlank(accessKeyId) && !IsBlank(secretAccessKey)
    ensures SelectProvider(Some(accessKeyId), Some(secretAccessKey))
            == Fixed(Credentials(accessKeyId, secretAccessKey))
  {
  }

  /** Whitespace around a usable value is kept: the blank test does not trim, and the
      pair stored is the raw one, padding included. */
  lemma {:induction false} PaddedValuesStoredVerbatim(pad: string, accessKeyId: string, secretAccessKey: string)
    requires IsBlank(pad)
    requires !IsBlank(accessKeyId) && !IsBlank(secretAccessKey)
    ensures SelectProvider(Some(pad + accessKeyId + pad), Some(secretAccessKey + pad))
            == Fixed(Credentials(pad + accessKeyId + pad, secretAccessKey + pad))
  {
    BlankIgnoresPadding(pad, accessKeyId, pad);
    BlankIgnoresPadding([], secretAccessKey, pad);
    assert [] + secretAccessKey + pad == secretAccessKey + pad;
  }

  // ---------------------------------------------------------------------------
  // Reading the suppliers

  /** Which supplier a read came from. */
  datatype Read = AccessKeyIdRead | SecretAccessKeyRead

  /** A supplier that returns `value` and records that it was called. */
  function Logging(tag: Read, value: Option<string>): Supplier<seq<Read>> {
    log => (value, log + [tag])
  }

  /** `provide` calls each supplier exactly once, the access key id supplier first,
      before deciding and whatever it decides. */
  lemma ProvideReadsEachSupplierOnce(accessKeyId: Option<string>, secretAccessKey: Option<string>, log: seq<Read>)
    ensures Provide(Logging(AccessKeyIdRead, accessKeyId), Logging(SecretAccessKeyRead, secretAccessKey), log)
            == (SelectProvider(accessKeyId, secretAccessKey), log + [AccessKeyIdRead, SecretAccessKeyRead])
  {
    assert log + [AccessKeyIdRead] + [SecretAccessKeyRead] == log + [AccessKeyIdRead, SecretAccessKeyRead];
  }

  // ---------------------------------------------------------------------------
  // Resolving the provider that was selected

  /** Supplying two usable values and resolving gives back exactly those values. */
  lemma ProvideThenResolve<S>(accessKeyIdSupplier: Supplier<S>, secretAccessKeySupplier: Supplier<S>, world: S,
                              discovered: Result<Credentials, ResolveError>)
    requires Usable(accessKeyIdSupplier(world).0)
    requires Usable(secretAccessKeySupplier(accessKeyIdSupplier(world).1).0)
    ensures Resolve(Provide(accessKeyIdSupplier, secretAccessKeySupplier, world).0, discovered)
            == Success(Credentials(accessKeyIdSupplier(world).0.value,
                                   secretAccessKeySupplier(accessKeyIdSupplier(world).1).0.value))
  {
  }

  /** A fixed provider answers every call with the same captured pair and never
      fails, however many times it is asked and whatever the default chain would say. */
  lemma FixedResolvesIdentically(c: Credentials, discoveries: seq<Result<Credentials, ResolveError>>)
    ensures forall i :: 0 <= i < |discoveries| ==> ResolveEach(Fixed(c), discoveries)[i] == Success(c)
  {
  }

  /** The default provider is not evaluated by `provide`: every later call reports
      what the discovery chain finds at that call, failures included. */
  lemma DefaultDefersToDiscovery(discoveries: seq<Result<Credentials, ResolveError>>)
    ensures ResolveEach(Default, discoveries) == discoveries
  {
  }

  /** Unusable values never make `provide` fail, even when the default chain has
      nothing to offer: the failure appears only when the provider is resolved. */
  lemma UnusableValuesDeferFailure(accessKeyId: Option<string>, secretAccessKey: Option<string>)
    requires !Usable(accessKeyId) || !Usable(secretAccessKey)
    ensures Resolve(SelectProvider(accessKeyId, secretAccessKey), Failure(CredentialsUnavailable))
            == Failure(CredentialsUnavailable)
  {
  }

  // ---------------------------------------------------------------------------
  // Worked cases

  lemma ExplicitPairIsResolved()
    ensures Resolve(SelectProvider(Some("AKIA123"), Some("secret456")), Failure(CredentialsUnavailable))
            == Success(Credentials("AKIA123", "secret456"))
  {
  }

  lemma EmptyOrSpacesAccessKeyIdFallsBack()
    ensures SelectProvider(Some(""), Some("secret456")) == Default
    ensures SelectProvider(Some("  "), Some("secret456")) == Default
    ensures SelectProvider(Some("\t\n"), Some("secret456")) == Default
    ensures SelectProvider(None, None) == Default
  {
  }

  /** A no-break space is not Java whitespace, so a value made only of it is not blank. */
  lemma NoBreakSpaceIsNotBlank()
    ensures SelectProvider(Some("\U{00A0}"), Some("secret456"))
            == Fixed(Credentials("\U{00A0}", "secret456"))
  {
  }
}
