# AwsCredentialsProvider selection policy, in Dafny

This project models `AwsCredentialsProvider` from the AWS SDK for Java v2
(`core/auth/.../AwsCredentialsProvider.java`): the single-method capability
`resolveCredentials()` and the static `provide(accessKeyIdSupplier,
secretAccessKeySupplier)` policy. `provide` reads the access key id, then the secret
access key, and returns either `DefaultCredentialsProvider.create()` (when either value
is `null` or blank) or a provider fixed on the two raw values.

Files:

- `wrappers.dfy`: `Option` (a Java reference that may be `null`) and `Result` (a call
  that returns or throws).
- `java_string.dfy`: module `JavaString`, the Java 11 library behaviour the policy
  relies on. It holds `Character.isWhitespace` as a concrete table, and `String.isBlank`
  defined as `indexOfNonWhitespace() == length()`.
- `credentials_provider.dfy`: module `AwsCredentialsProvider`. It holds the
  `Credentials` and `Provider` values, the decision `SelectProvider`, the
  supplier-reading `Provide`, resolution `Resolve` / `ResolveEach`, and the lemmas.

Modelling choices:

- A `Provider` is either `Fixed(credentials)` (the lambda of lines 58-69) or `Default`.
  The default discovery chain is I/O. What it finds on a given call is a parameter of
  `Resolve`: the credentials, or the error `CredentialsUnavailable`.
- A `Supplier<S>` is a function `S -> (Option<string>, S)`. It may observe and change a
  world `S`. This lets "each supplier is called once, access key id first, whatever the
  outcome" be stated with suppliers that log their calls.
- Blankness is Java's `isBlank`: every code point is whitespace. It is not "trim, then
  empty". `String.trim` strips every code point up to U+0020, so the two tests differ.
  For example, `"\u0000"` trims to empty but is not blank, and `"　"` is blank but
  does not trim to empty. The code calls `isBlank`, so the model follows `isBlank`.
- The fallback is always `DefaultCredentialsProvider.create()`. The code takes no
  fallback argument, so neither does the model.

## Model

| member | source | states |
|---|---|---|
| JavaString.WhitespaceByCategory | core/auth/src/main/java/software/amazon/awssdk/auth/credentials/AwsCredentialsProvider.java:55 | a code point is whitespace exactly when it is U+0009–U+000D or U+001C–U+001F, or a space, line or paragraph separator of Unicode 10.0 other than the no-break spaces U+00A0, U+2007 and U+202F |
| JavaString.IndexOfNonWhitespace | core/auth/src/main/java/software/amazon/awssdk/auth/credentials/AwsCredentialsProvider.java:55 | the index `isBlank` compares with the length: every code point before it is whitespace, and the one at it (if any) is not |
| JavaString.IsBlank | core/auth/src/main/java/software/amazon/awssdk/auth/credentials/AwsCredentialsProvider.java:55 | a value is blank exactly when all its code points are whitespace; the empty string is blank, and one non-whitespace code point anywhere makes it non-blank |
| JavaString.BlankIgnoresPadding | core/auth/src/main/java/software/amazon/awssdk/auth/credentials/AwsCredentialsProvider.java:55 | surrounding a value with whitespace never changes whether it is blank |
| AwsCredentialsProvider.SelectProvider | core/auth/src/main/java/software/amazon/awssdk/auth/credentials/AwsCredentialsProvider.java:55-70 | the result is fixed if and only if both values are non-null and non-blank, and is the default provider otherwise; a fixed provider holds exactly the two raw values |
| AwsCredentialsProvider.Provide | core/auth/src/main/java/software/amazon/awssdk/auth/credentials/AwsCredentialsProvider.java:52-71 | the access key id supplier runs first, on the incoming world, and the secret supplier on the world it leaves; the result is fixed if and only if both values read are non-null and non-blank, a fixed result holds exactly those two raw values, and the world returned is the one both reads left |
| AwsCredentialsProvider.Resolve | core/auth/src/main/java/software/amazon/awssdk/auth/credentials/AwsCredentialsProvider.java:58-69 | resolving a fixed provider always succeeds with its captured pair; resolving the default provider yields whatever discovery yields |
| AwsCredentialsProvider.ResolveEach | core/auth/src/main/java/software/amazon/awssdk/auth/credentials/AwsCredentialsProvider.java:58-69 | a run of resolutions of one provider has one answer per call, and the i-th answer is what resolving that provider gives when discovery finds the i-th outcome |
| AwsCredentialsProvider.NullAccessKeyIdSelectsDefault | core/auth/src/main/java/software/amazon/awssdk/auth/credentials/AwsCredentialsProvider.java:55-56 | a null access key id gives the default provider, whatever the secret |
| AwsCredentialsProvider.BlankAccessKeyIdSelectsDefault | core/auth/src/main/java/software/amazon/awssdk/auth/credentials/AwsCredentialsProvider.java:55-56 | an empty or all-whitespace access key id gives the default provider, whatever the secret |
| AwsCredentialsProvider.UnusableSecretSelectsDefault | core/auth/src/main/java/software/amazon/awssdk/auth/credentials/AwsCredentialsProvider.java:55-56 | a null or blank secret gives the default provider, even with a valid access key id; no partial pair is built |
| AwsCredentialsProvider.UsablePairSelectsFixed | core/auth/src/main/java/software/amazon/awssdk/auth/credentials/AwsCredentialsProvider.java:55-58 | two non-null, non-blank values give the fixed provider on exactly those values, never the default one |
| AwsCredentialsProvider.PaddedValuesStoredVerbatim | core/auth/src/main/java/software/amazon/awssdk/auth/credentials/AwsCredentialsProvider.java:53-69 | whitespace around usable values is kept in the stored pair; the values are not trimmed |
| AwsCredentialsProvider.ProvideReadsEachSupplierOnce | core/auth/src/main/java/software/amazon/awssdk/auth/credentials/AwsCredentialsProvider.java:53-55 | with logging suppliers, one call of `provide` records exactly one access key id read followed by one secret read, whatever provider it returns |
| AwsCredentialsProvider.ProvideThenResolve | core/auth/src/main/java/software/amazon/awssdk/auth/credentials/AwsCredentialsProvider.java:52-69 | when both supplied values are usable, resolving the provider `provide` returns gives back exactly the supplied pair |
| AwsCredentialsProvider.FixedResolvesIdentically | core/auth/src/main/java/software/amazon/awssdk/auth/credentials/AwsCredentialsProvider.java:58-69 | any number of resolutions of a fixed provider all succeed with the same captured pair, whatever discovery would report |
| AwsCredentialsProvider.DefaultDefersToDiscovery | core/auth/src/main/java/software/amazon/awssdk/auth/credentials/AwsCredentialsProvider.java:55-56 | the default provider is not evaluated when selected; each later resolution reports what discovery finds at that call |
| AwsCredentialsProvider.UnusableValuesDeferFailure | core/auth/src/main/java/software/amazon/awssdk/auth/credentials/AwsCredentialsProvider.java:55-56 | with an unusable value, selection still succeeds; a discovery failure appears only when the provider is resolved |
| AwsCredentialsProvider.ExplicitPairIsResolved | core/auth/src/main/java/software/amazon/awssdk/auth/credentials/AwsCredentialsProvider.java:58-69 | ("AKIA123", "secret456") resolves to that pair |
| AwsCredentialsProvider.EmptyOrSpacesAccessKeyIdFallsBack | core/auth/src/main/java/software/amazon/awssdk/auth/credentials/AwsCredentialsProvider.java:55-56 | an access key id of "", "  " or "\t\n", or two null values, give the default provider |
| AwsCredentialsProvider.NoBreakSpaceIsNotBlank | core/auth/src/main/java/software/amazon/awssdk/auth/credentials/AwsCredentialsProvider.java:55 | a value made only of U+00A0 is not blank in Java, so it is stored as an access key id |

## Left out

- `DefaultCredentialsProvider` and its discovery chain (environment variables, profile files, container and instance metadata). They are I/O and are not part of this model; their result on each call is a parameter.
- STS-backed and other concrete providers named in the interface's documentation. They are remote services and are not part of this model.
- Exceptions thrown by a supplier. Java propagates them out of `provide`; here a supplier always returns a value.
- Object identity. `provide` allocates a fresh `AwsCredentials` on each resolution; only the values of its two fields are modelled.
- Unpaired UTF-16 surrogates. A Dafny `char` is a Unicode scalar value, so such strings cannot be written. Java treats an unpaired surrogate as a non-whitespace code point.
- `Character.isWhitespace` is taken from Java 11 (Unicode 10.0). Later Unicode versions could change the table.
- The `@FunctionalInterface` and `@SdkPublicApi` annotations, and thread safety. Nothing here is shared or mutable.
