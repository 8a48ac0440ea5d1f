# Token core of spring-oauth-demo, modelled in Dafny

spring-oauth-demo is a three-role OAuth2 deployment: an authorization server, a resource server and a client application. This project models the part of it that holds logic rather than configuration:

- the principal records `AuthUser` and `SecurityUser`: identity by `userId` and `username`, the comparator-ordered authority set, and password erasure;
- `AuthUserAuthenticationConverter`, which turns an authentication into the flat claims map of a token body and back;
- `ClockSkewTokenServices`, which loads the authentication of an access token and treats the token as expired only once its expiration plus a tolerated clock skew (60 s by default) has passed;
- `CheckOAuth2AccessTokenFilter`, the client-side guard that spots a rotated access token and swaps its authentication into the security context;
- `OAuth2ExceptionResolver`, which answers an `OAuth2Exception` with exactly one `sendError`;
- `DefaultJdbcUserDetailsManager`, which maps user rows to `SecurityUser`s and completes them with their authorities.

Java `null` is `Option`, a thrown exception is a `Failure`, and `int`/`long` wrap-around is written out. Objects whose fields the source updates in place are classes. Examples are the security user, the converter, the token store, the token services, the filter, the security context, the event publisher, the request, the chain, the response and the user manager. Each state-changing method is tied by its `ensures` to a pure function over the old state, such as `Load`, `CheckOutcome`, `FilterOutcome`, `ErrorCall`, `RowDetails`, `SortedForm` or `EncodedClaims`. The lemmas prove the source's promises about those functions.

Module layout, one file each:

- `Wrappers`, `JavaLang`, `SpringStrings`: Option/Result, Java integer and string semantics, and Spring's comma lists.
- `AuthUsers`, `AuthorityOrder`, `SecurityUsers`, `Authentications`: the principal records.
- `ClaimsCodec`, `TokenServices`, `TokenFilter`, `ExceptionResolver`, `UserDetailsManager`: one per component.

Two behaviours of the code are easy to misread, and the model follows the code in both:

- The comparator puts every named authority BEFORE every authority whose string is null, although its own comment (SecurityUser.java:88-89) says a custom authority should precede the others. Null-authority entries never compare equal, so none of them is ever deduplicated.
- For a `UserDetails` principal, the claims map keeps the `password` property: `convertUserAuthentication` removes only `authorities` from the bean properties (AuthUserAuthenticationConverter.java:75-78). The password therefore round-trips (`RoundTripUserDetails`).

## Model

| member | source | states |
|---|---|---|
| AuthUsers.AuthUser.Name | spring-oauth-common/src/main/java/com/easycodebox/common/security/AuthUser.java:73-76 | `getName()`, the username, with no contract of its own; `RoundTripNonUserDetails` shows the name surviving a token round trip |
| AuthUsers.Equal | spring-oauth-common/src/main/java/com/easycodebox/common/security/AuthUser.java:16-31 | Lombok's `equals` on `userId` and `username` only, with no contract of its own; `EqualReflexive`, `EqualSymmetric`, `EqualTransitive`, `OtherFieldsIgnored` and `IdentityFieldsMatter` state what it promises |
| AuthUsers.HashCode | spring-oauth-common/src/main/java/com/easycodebox/common/security/AuthUser.java:16-31 | Lombok's `hashCode` is always a Java `int`; `EqualHashCode` ties it to `Equal` |
| AuthUsers.EqualReflexive | spring-oauth-common/src/main/java/com/easycodebox/common/security/AuthUser.java:24-31 | every user equals itself under the two-field equality |
| AuthUsers.EqualSymmetric | spring-oauth-common/src/main/java/com/easycodebox/common/security/AuthUser.java:24-31 | equality on `userId` and `username` is symmetric |
| AuthUsers.EqualTransitive | spring-oauth-common/src/main/java/com/easycodebox/common/security/AuthUser.java:24-31 | equality on `userId` and `username` is transitive |
| AuthUsers.EqualHashCode | spring-oauth-common/src/main/java/com/easycodebox/common/security/AuthUser.java:16 | equal users have equal Lombok hash codes (computed with 32-bit wrap-around, 43 for a null field) |
| AuthUsers.OtherFieldsIgnored | spring-oauth-common/src/main/java/com/easycodebox/common/security/AuthUser.java:36-71 | changing any of the eight other fields keeps the user equal to the original |
| AuthUsers.IdentityFieldsMatter | spring-oauth-common/src/main/java/com/easycodebox/common/security/AuthUser.java:24-31 | changing `userId` or `username` to a different value breaks equality |
| JavaLang.CompareToZero | spring-oauth-common/src/main/java/com/easycodebox/common/security/SecurityUser.java:98 | `compareTo` is 0 exactly for equal strings |
| JavaLang.CompareToAntisymmetric | spring-oauth-common/src/main/java/com/easycodebox/common/security/SecurityUser.java:98 | swapping the arguments of `compareTo` negates the result |
| JavaLang.CompareToTransitive | spring-oauth-common/src/main/java/com/easycodebox/common/security/SecurityUser.java:98 | `compareTo` < 0 is transitive |
| AuthorityOrder.Compare | spring-oauth-common/src/main/java/com/easycodebox/common/security/SecurityUser.java:85-99 | the comparator as written, with no contract of its own; its partner lemmas `NamedBeforeUnnamed`, `UnnamedNeverEqual` and `CompareNamed` fix its answer on every pair |
| AuthorityOrder.NamedBeforeUnnamed | spring-oauth-common/src/main/java/com/easycodebox/common/security/SecurityUser.java:90-96 | compare(named, null-authority) = -1 and compare(null-authority, named) = 1 |
| AuthorityOrder.UnnamedNeverEqual | spring-oauth-common/src/main/java/com/easycodebox/common/security/SecurityUser.java:90-96 | a null-authority entry never compares equal to anything, not even to itself |
| AuthorityOrder.CompareNamed | spring-oauth-common/src/main/java/com/easycodebox/common/security/SecurityUser.java:98 | named authorities compare 0 exactly when equal, and the comparison is antisymmetric |
| AuthorityOrder.Insert | spring-oauth-common/src/main/java/com/easycodebox/common/security/SecurityUser.java:74 | `TreeSet.add` grows the set by at most one element; `InsertChained`, `InsertRoles` and `InsertUnnamed` state where the element lands and when it is dropped |
| AuthorityOrder.InsertChained | spring-oauth-common/src/main/java/com/easycodebox/common/security/SecurityUser.java:74 | adding to the set keeps "named strictly ascending, then null-authority entries" |
| AuthorityOrder.InsertRoles | spring-oauth-common/src/main/java/com/easycodebox/common/security/SecurityUser.java:74 | adding an authority adds exactly its string to the set of named strings |
| AuthorityOrder.InsertUnnamed | spring-oauth-common/src/main/java/com/easycodebox/common/security/SecurityUser.java:74 | a null-authority entry is always added, ahead of the earlier ones |
| AuthorityOrder.SortedFormContents | spring-oauth-common/src/main/java/com/easycodebox/common/security/SecurityUser.java:71-77 | the built set has the input's named strings, the null-authority entries in reverse order, and no more elements than the input |
| AuthorityOrder.SortedForm | spring-oauth-common/src/main/java/com/easycodebox/common/security/SecurityUser.java:68-77 | the set the loop builds, with no contract of its own; `SortedFormSpec` states its order, contents and size |
| AuthorityOrder.SortedFormSpec | spring-oauth-common/src/main/java/com/easycodebox/common/security/SecurityUser.java:68-77 | the built set is ordered (named ascending and distinct, before every null-authority entry), holds exactly the input's elements, and is no larger |
| AuthorityOrder.SortedFormExample | spring-oauth-common/src/main/java/com/easycodebox/common/security/SecurityUser.java:68-75 | {"ROLE_B", "ROLE_A"} is kept as ["ROLE_A", "ROLE_B"] |
| AuthorityOrder.SortedFormMixedExample | spring-oauth-common/src/main/java/com/easycodebox/common/security/SecurityUser.java:85-99 | named entries come first with the duplicate dropped, and the null-authority entries follow in reverse order |
| SecurityUsers.SortAuthorities | spring-oauth-common/src/main/java/com/easycodebox/common/security/SecurityUser.java:63-78 | a null collection or a null element fails with the assertion message; otherwise the result is the sorted set, with exactly the input's elements, ordered, and no larger |
| SecurityUsers.SecurityUser.constructor | spring-oauth-common/src/main/java/com/easycodebox/common/security/SecurityUser.java:22-52 | Lombok's no-argument constructor: a blank `AuthUser` (every field null), null authorities and all four status flags false |
| SecurityUsers.SecurityUser.SetAuthorities | spring-oauth-common/src/main/java/com/easycodebox/common/security/SecurityUser.java:59-61 | on success the field holds the sorted set; on rejection it keeps its old value |
| SecurityUsers.SecurityUser.EraseCredentials | spring-oauth-common/src/main/java/com/easycodebox/common/security/SecurityUser.java:55-57 | the password becomes null and no other field changes |
| SecurityUsers.SecurityUser.Equals | spring-oauth-common/src/main/java/com/easycodebox/common/security/SecurityUser.java:24 | `equals` with `callSuper = true`, with no contract of its own; `EqualsIgnoresOwnFields` states that only the `AuthUser` identity counts |
| SecurityUsers.SecurityUser.HashCode | spring-oauth-common/src/main/java/com/easycodebox/common/security/SecurityUser.java:24 | `hashCode` with `callSuper = true`, with no contract of its own; `EqualsIgnoresOwnFields` states that equal users hash alike |
| SecurityUsers.EqualsIgnoresOwnFields | spring-oauth-common/src/main/java/com/easycodebox/common/security/SecurityUser.java:24 | security users with the same `userId` and `username` are equal with equal hashes, whatever their authorities and flags |
| SpringStrings.SplitJoin | spring-oauth-common/src/main/java/com/easycodebox/common/oauth2/AuthUserAuthenticationConverter.java:113-114 | splitting a comma join of comma-free strings gives the strings back |
| SpringStrings.TokensJoin | spring-oauth-common/src/main/java/com/easycodebox/common/oauth2/AuthUserAuthenticationConverter.java:109-115 | tokenizing a comma join of clean strings (non-empty, comma-free, untrimmable) gives the strings back |
| Authentications.Name | spring-oauth-common/src/main/java/com/easycodebox/common/oauth2/AuthUserAuthenticationConverter.java:80 | `authentication.getName()`, with no contract of its own; `EncodedClaims` binds it to `username` and `RoundTripNonUserDetails` shows it surviving the round trip |
| ClaimsCodec.DetailsProperties | spring-oauth-common/src/main/java/com/easycodebox/common/oauth2/AuthUserAuthenticationConverter.java:75 | the bean properties of a `SecurityUser`, with no contract of its own; `DetailsPropertiesFirst`, `DetailsPropertiesLast` and `EncodedClaimsHoldUser` state that all ten user properties appear unchanged |
| ClaimsCodec.EncodedClaims | spring-oauth-common/src/main/java/com/easycodebox/common/oauth2/AuthUserAuthenticationConverter.java:70-87 | a `UserDetails` principal contributes all its properties except `authorities`, password included; any other principal contributes only `username`, bound to the name; `authorities` is present iff the authorities are non-null and non-empty, and then is a collection of string or null values holding exactly their strings |
| ClaimsCodec.AuthUserAuthenticationConverter.ConvertUserAuthentication | spring-oauth-common/src/main/java/com/easycodebox/common/oauth2/AuthUserAuthenticationConverter.java:70-87 | building the map step by step yields `EncodedClaims` |
| ClaimsCodec.AuthoritySet | spring-oauth-common/src/main/java/com/easycodebox/common/oauth2/AuthUserAuthenticationConverter.java:84 | the claim holds each authority string once, and exactly the strings of the authorities |
| ClaimsCodec.AuthorityList | spring-oauth-common/src/main/java/com/easycodebox/common/oauth2/AuthUserAuthenticationConverter.java:110 | `createAuthorityList` succeeds exactly when every string has text, giving one named authority per string in order; otherwise it fails with the assertion message |
| ClaimsCodec.JoinedRolesParse | spring-oauth-common/src/main/java/com/easycodebox/common/oauth2/AuthUserAuthenticationConverter.java:113-114 | the comma join of clean role strings parses to one authority per string, in order |
| ClaimsCodec.CommaSeparatedAuthorities | spring-oauth-common/src/main/java/com/easycodebox/common/oauth2/AuthUserAuthenticationConverter.java:110 | parsing succeeds exactly when every token has text; every authority it returns is named, is one of the tokens and has text |
| ClaimsCodec.EmSpaceTokens | spring-oauth-common/src/main/java/com/easycodebox/common/oauth2/AuthUserAuthenticationConverter.java:110 | an em space after a comma survives the split and the trim as a token of its own |
| ClaimsCodec.EmSpaceNoText | spring-oauth-common/src/main/java/com/easycodebox/common/oauth2/AuthUserAuthenticationConverter.java:110 | an em space is whitespace to `Character.isWhitespace`, so it has no text |
| ClaimsCodec.NumericAuthority | spring-oauth-common/src/main/java/com/easycodebox/common/oauth2/AuthUserAuthenticationConverter.java:112-114 | a collection claim holding "ROLE_A" and the number 42 gives the authorities ROLE_A and 42, in order |
| ClaimsCodec.BlankRoleRejected | spring-oauth-common/src/main/java/com/easycodebox/common/oauth2/AuthUserAuthenticationConverter.java:109-110 | an `authorities` claim "ROLE_USER,\u2003" is rejected as a whole: the em space passes `trim` but has no text |
| ClaimsCodec.DefaultsAfter | spring-oauth-common/src/main/java/com/easycodebox/common/oauth2/AuthUserAuthenticationConverter.java:63-66 | the default becomes the comma-parsed join of the array; a token without text throws the `SimpleGrantedAuthority` assertion and leaves the default as it was; a null array yields an empty list; an array of clean role strings is kept as it is |
| ClaimsCodec.AuthUserAuthenticationConverter.SetDefaultAuthorities | spring-oauth-common/src/main/java/com/easycodebox/common/oauth2/AuthUserAuthenticationConverter.java:63-66 | the outcome and the new default are those of `DefaultsAfter` on the old default |
| ClaimsCodec.DefaultAuthoritiesParse | spring-oauth-common/src/main/java/com/easycodebox/common/oauth2/AuthUserAuthenticationConverter.java:63-66 | a null array parses to no authorities and a clean array to one authority per string, in order |
| ClaimsCodec.NullArrayTokens | spring-oauth-common/src/main/java/com/easycodebox/common/oauth2/AuthUserAuthenticationConverter.java:63-66 | a null array gives an empty default authority list |
| ClaimsCodec.CleanArrayTokens | spring-oauth-common/src/main/java/com/easycodebox/common/oauth2/AuthUserAuthenticationConverter.java:63-66 | the comma join of an array of clean role strings parses back to one authority per string, in order |
| ClaimsCodec.AuthUserAuthenticationConverter.constructor | spring-oauth-common/src/main/java/com/easycodebox/common/oauth2/AuthUserAuthenticationConverter.java:30-40 | no default authorities (the documented "Default null") and no user-details service |
| ClaimsCodec.AuthUserAuthenticationConverter.SetUserDetailsService | spring-oauth-common/src/main/java/com/easycodebox/common/oauth2/AuthUserAuthenticationConverter.java:52-54 | the service is replaced |
| ClaimsCodec.AuthUserAuthenticationConverter.GetAuthorities | spring-oauth-common/src/main/java/com/easycodebox/common/oauth2/AuthUserAuthenticationConverter.java:104-117 | a missing key gives the default (null unless set); a string is comma-parsed; a collection of any claim values has their `String.valueOf` texts joined and then parsed; a parsed token without text fails with the `SimpleGrantedAuthority` assertion; any other value fails with "must be either a String or a Collection"; every parsed authority is named and has text |
| ClaimsCodec.ToAuthUser | spring-oauth-common/src/main/java/com/easycodebox/common/oauth2/AuthUserAuthenticationConverter.java:92 | a converted user has an `int` gender and the `username` claim as its username |
| ClaimsCodec.AuthUserAuthenticationConverter.ExtractAuthentication | spring-oauth-common/src/main/java/com/easycodebox/common/oauth2/AuthUserAuthenticationConverter.java:90-102 | null iff there is no `username` key; credentials "N/A"; conversion errors come first, then authority errors; without a service the principal is the converted user with the parsed authorities; with one, both principal and authorities come from the service's user; once conversion and authorities succeed, extraction succeeds iff there is no service or the service finds the username, and otherwise fails with `UsernameNotFound` for that username |
| ClaimsCodec.ExtractEmpty | spring-oauth-common/src/main/java/com/easycodebox/common/oauth2/AuthUserAuthenticationConverter.java:91-101 | an empty claims map gives no authentication |
| ClaimsCodec.AuthoritySetClean | spring-oauth-common/src/main/java/com/easycodebox/common/oauth2/AuthUserAuthenticationConverter.java:84 | the claim strings of clean named authorities are present, clean, and each names one of them |
| ClaimsCodec.AuthoritySetMembers | spring-oauth-common/src/main/java/com/easycodebox/common/oauth2/AuthUserAuthenticationConverter.java:84 | the authority list made from those strings has exactly the original authorities as members |
| ClaimsCodec.AuthorityClaimRoundTrip | spring-oauth-common/src/main/java/com/easycodebox/common/oauth2/AuthUserAuthenticationConverter.java:113-115 | parsing the `authorities` claim of clean authorities succeeds and gives back the same authority set |
| ClaimsCodec.RoundTripNonUserDetails | spring-oauth-common/src/main/java/com/easycodebox/common/oauth2/AuthUserAuthenticationConverter.java:79-115 | without a service, extract after convert keeps the name and the authority set (or falls back to the default when there were none), with an `AuthUser` principal holding only the name |
| ClaimsCodec.ToAuthUserOfHeld | spring-oauth-common/src/main/java/com/easycodebox/common/oauth2/AuthUserAuthenticationConverter.java:92 | claims holding the ten properties of a valid user convert back to that same user |
| ClaimsCodec.EncodedClaimsHoldUser | spring-oauth-common/src/main/java/com/easycodebox/common/oauth2/AuthUserAuthenticationConverter.java:73-78 | the claims of a `UserDetails` principal hold all ten of its user's properties |
| ClaimsCodec.RoundTripUserDetails | spring-oauth-common/src/main/java/com/easycodebox/common/oauth2/AuthUserAuthenticationConverter.java:72-99 | without a service, a `SecurityUser` principal comes back as an `AuthUser` with every field, password included, and with the same authority set |
| TokenServices.ExpiredByClockSkew | spring-oauth-common/src/main/java/com/easycodebox/common/oauth2/ClockSkewTokenServices.java:81-87 | the expiry test, with no contract of its own; `ExpiredIff`, `NeverExpiresWithoutExpiration`, `ExpiredLater`, `LargerSkewTolerates` and `OverflowWrapsToExpired` state what it decides |
| TokenServices.ClockSkewTokenServices.IsExpiredByClockSkew | spring-oauth-common/src/main/java/com/easycodebox/common/oauth2/ClockSkewTokenServices.java:81-87 | the expiry test under the configured skew, with no contract of its own; `LoadAuthentication` evicts exactly the tokens it calls expired |
| TokenServices.ExpiredIff | spring-oauth-common/src/main/java/com/easycodebox/common/oauth2/ClockSkewTokenServices.java:81-87 | without overflow, a token with an expiration is expired iff expiration + skew < now (strict) |
| TokenServices.NeverExpiresWithoutExpiration | spring-oauth-common/src/main/java/com/easycodebox/common/oauth2/ClockSkewTokenServices.java:82-84 | a token with no expiration is never expired |
| TokenServices.ClockSkewTokenServices.constructor | spring-oauth-common/src/main/java/com/easycodebox/common/oauth2/ClockSkewTokenServices.java:46 | the skew starts at 60000 ms, with no client registry |
| TokenServices.DefaultSkewBoundary | spring-oauth-common/src/main/java/com/easycodebox/common/oauth2/ClockSkewTokenServices.java:46 | with the default skew a token is still valid 60000 ms after its expiration and expired at 60001 ms |
| TokenServices.ExpiredLater | spring-oauth-common/src/main/java/com/easycodebox/common/oauth2/ClockSkewTokenServices.java:85-86 | an expired token stays expired later on |
| TokenServices.LargerSkewTolerates | spring-oauth-common/src/main/java/com/easycodebox/common/oauth2/ClockSkewTokenServices.java:85-86 | without overflow, a token expired under a larger skew is expired under a smaller one |
| TokenServices.OverflowWrapsToExpired | spring-oauth-common/src/main/java/com/easycodebox/common/oauth2/ClockSkewTokenServices.java:85 | the `long` sum wraps, so an expiration of `Long.MAX_VALUE` counts as expired at time 0 |
| TokenServices.Load | spring-oauth-common/src/main/java/com/easycodebox/common/oauth2/ClockSkewTokenServices.java:49-73 | unknown value: NotFound, store unchanged; expired: Expired and the entry is gone; missing authentication: RaceLost, not evicted; unknown client under a registry: ClientInvalid; success iff none of these, returning the stored authentication with the store unchanged |
| TokenServices.TokenStore.ReadAccessToken | spring-oauth-common/src/main/java/com/easycodebox/common/oauth2/ClockSkewTokenServices.java:51 | a token comes back exactly when one is stored under the value, and it is the stored one |
| TokenServices.TokenStore.RemoveAccessToken | spring-oauth-common/src/main/java/com/easycodebox/common/oauth2/ClockSkewTokenServices.java:55 | exactly that value's entry is removed |
| TokenServices.ClockSkewTokenServices.LoadAuthentication | spring-oauth-common/src/main/java/com/easycodebox/common/oauth2/ClockSkewTokenServices.java:49-73 | the outcome and the store's new contents are those of `Load` under the configured skew and registry |
| TokenServices.ClockSkewTokenServices.SetTokenStore | spring-oauth-common/src/main/java/com/easycodebox/common/oauth2/ClockSkewTokenServices.java:90-93 | the store is replaced |
| TokenServices.ClockSkewTokenServices.SetClientDetailsService | spring-oauth-common/src/main/java/com/easycodebox/common/oauth2/ClockSkewTokenServices.java:96-99 | the client registry is replaced |
| TokenServices.ClockSkewTokenServices.SetMaxClockSkew | spring-oauth-common/src/main/java/com/easycodebox/common/oauth2/ClockSkewTokenServices.java:101-103 | the skew is replaced by any `int` |
| TokenServices.EvictionIsFinal | spring-oauth-common/src/main/java/com/easycodebox/common/oauth2/ClockSkewTokenServices.java:54-56 | after an Expired outcome, loading the same value again reports NotFound and changes nothing |
| TokenServices.LoadKeepsOthers | spring-oauth-common/src/main/java/com/easycodebox/common/oauth2/ClockSkewTokenServices.java:51-72 | loading never touches the entry of another token value |
| TokenServices.LoadWithoutRegistry | spring-oauth-common/src/main/java/com/easycodebox/common/oauth2/ClockSkewTokenServices.java:64-72 | without a registry the client check is skipped: a present, unexpired token with an authentication loads |
| TokenFilter.WithAttribute | spring-oauth-common/src/main/java/com/easycodebox/common/oauth2/CheckOAuth2AccessTokenFilter.java:81-82 | setting an attribute binds it, a null value removes it, and no other attribute changes |
| TokenFilter.CheckOutcome | spring-oauth-common/src/main/java/com/easycodebox/common/oauth2/CheckOAuth2AccessTokenFilter.java:66-95 | fetch failure: one failure event, BadCredentials, context kept; same token value: no load, no event, no change; differing value: one load of it, and on success one success event with the loaded authentication: that authentication itself without a details source, and with one the same authentication with only its details rebuilt from the new attributes; InvalidToken: one failure event, BadCredentials, context kept; other exceptions propagate with no event |
| TokenFilter.FilterOutcome | spring-oauth-common/src/main/java/com/easycodebox/common/oauth2/CheckOAuth2AccessTokenFilter.java:56-64 | without a present, non-anonymous OAuth2 authentication nothing but the chain happens; otherwise the check's outcome; the chain runs exactly once iff nothing was thrown; a failure never replaces the authentication |
| TokenFilter.CheckOAuth2AccessTokenFilter.constructor | spring-oauth-common/src/main/java/com/easycodebox/common/oauth2/CheckOAuth2AccessTokenFilter.java:42-53 | rest template and token services are required; the details source and trust resolver start at the framework defaults, with no publisher |
| TokenFilter.CheckOAuth2AccessTokenFilter.SetAuthenticationDetailsSource | spring-oauth-common/src/main/java/com/easycodebox/common/oauth2/CheckOAuth2AccessTokenFilter.java:111-114 | the details source is replaced, possibly by null |
| TokenFilter.CheckOAuth2AccessTokenFilter.SetTrustResolver | spring-oauth-common/src/main/java/com/easycodebox/common/oauth2/CheckOAuth2AccessTokenFilter.java:116-118 | the trust resolver is replaced |
| TokenFilter.CheckOAuth2AccessTokenFilter.SetEventPublisher | spring-oauth-common/src/main/java/com/easycodebox/common/oauth2/CheckOAuth2AccessTokenFilter.java:120-122 | the publisher is replaced, possibly by null |
| TokenFilter.CheckOAuth2AccessTokenFilter.Publish | spring-oauth-common/src/main/java/com/easycodebox/common/oauth2/CheckOAuth2AccessTokenFilter.java:97-101 | with a publisher, the event is appended to its log; without one, nothing is modified |
| TokenFilter.CheckOAuth2AccessTokenFilter.CheckAccessToken | spring-oauth-common/src/main/java/com/easycodebox/common/oauth2/CheckOAuth2AccessTokenFilter.java:66-95 | result, request attributes, context and event log are those of `CheckOutcome` |
| TokenFilter.CheckOAuth2AccessTokenFilter.DoFilter | spring-oauth-common/src/main/java/com/easycodebox/common/oauth2/CheckOAuth2AccessTokenFilter.java:56-64 | result, request attributes, context, chain count and event log are those of `FilterOutcome` |
| TokenFilter.RotationSettles | spring-oauth-common/src/main/java/com/easycodebox/common/oauth2/CheckOAuth2AccessTokenFilter.java:76-87 | with the default details source and trust resolver, once a rotated token's authentication is in the context, the next run with that token neither loads nor publishes nor changes anything |
| TokenFilter.FailureKeepsContext | spring-oauth-common/src/main/java/com/easycodebox/common/oauth2/CheckOAuth2AccessTokenFilter.java:69-93 | a failed run keeps the context and attributes, never reaches the chain, and publishes at most one event |
| ExceptionResolver.ResolveMessage | spring-oauth-common/src/main/java/com/easycodebox/common/oauth2/OAuth2ExceptionResolver.java:43-44 | the raw message without a message source, and with one the source's message, falling back to the raw message |
| ExceptionResolver.ErrorCall | spring-oauth-common/src/main/java/com/easycodebox/common/oauth2/OAuth2ExceptionResolver.java:38-48 | a call exactly for an `OAuth2Exception`, with its HTTP code; a message exactly when the raw message has length, and then the resolved one |
| ExceptionResolver.OAuth2ExceptionResolver.constructor | spring-oauth-common/src/main/java/com/easycodebox/common/oauth2/OAuth2ExceptionResolver.java:27-28 | the implicit constructor leaves the message source null |
| ExceptionResolver.OAuth2ExceptionResolver.SetMessageSource | spring-oauth-common/src/main/java/com/easycodebox/common/oauth2/OAuth2ExceptionResolver.java:31-33 | the message source is replaced |
| ExceptionResolver.OAuth2ExceptionResolver.ResolveException | spring-oauth-common/src/main/java/com/easycodebox/common/oauth2/OAuth2ExceptionResolver.java:36-55 | the response gets exactly the one call of `ErrorCall`, or none; the empty view iff an OAuth2 exception was sent without an IOException; otherwise null |
| ExceptionResolver.UnknownMessagesKeepRaw | spring-oauth-common/src/main/java/com/easycodebox/common/oauth2/OAuth2ExceptionResolver.java:43-44 | a message source that knows no message sends what no source would |
| ExceptionResolver.NoEmptyMessageSent | spring-oauth-common/src/main/java/com/easycodebox/common/oauth2/OAuth2ExceptionResolver.java:42-45 | when the source never yields an empty message, no empty message is ever sent |
| UserDetailsManager.RowDetails | spring-oauth-server/src/main/java/com/easycodebox/oauth/security/DefaultJdbcUserDetailsManager.java:30-50 | enabled iff status != 2; non-locked iff status != 1; never expired; the user holds exactly the row's ten columns, `id` as `userId` and a gender only from a non-null column; no authorities yet |
| UserDetailsManager.DefaultJdbcUserDetailsManager.MapUserRow | spring-oauth-server/src/main/java/com/easycodebox/oauth/security/DefaultJdbcUserDetailsManager.java:30-50 | a new `SecurityUser` whose state is `RowDetails` of the row |
| UserDetailsManager.DefaultJdbcUserDetailsManager.LoadUsersByUsername | spring-oauth-server/src/main/java/com/easycodebox/oauth/security/DefaultJdbcUserDetailsManager.java:28-52 | one new user per row, in row order, each with the state `RowDetails` gives |
| UserDetailsManager.DefaultJdbcUserDetailsManager.constructor | spring-oauth-server/src/main/java/com/easycodebox/oauth/security/DefaultJdbcUserDetailsManager.java:19-25 | the inherited `usernameBasedPrimaryKey` flag starts true |
| UserDetailsManager.DefaultJdbcUserDetailsManager.SetUsernameBasedPrimaryKey | spring-oauth-server/src/main/java/com/easycodebox/oauth/security/DefaultJdbcUserDetailsManager.java:59 | the library setter of `JdbcDaoImpl` replaces the flag that `createUserDetails` reads |
| UserDetailsManager.DefaultJdbcUserDetailsManager.CreateUserDetails | spring-oauth-server/src/main/java/com/easycodebox/oauth/security/DefaultJdbcUserDetailsManager.java:55-64 | the username is replaced only when usernames are not the primary key (also when the authorities are then rejected); on success the same object comes back with the sorted authorities set; flags unchanged |
| UserDetailsManager.NullStatusIsActive | spring-oauth-server/src/main/java/com/easycodebox/oauth/security/DefaultJdbcUserDetailsManager.java:31 | a NULL status reads as 0: enabled and not locked |
| UserDetailsManager.NeverLockedAndDisabled | spring-oauth-server/src/main/java/com/easycodebox/oauth/security/DefaultJdbcUserDetailsManager.java:46-48 | no status makes an account both locked and disabled |
| UserDetailsManager.RowIdentity | spring-oauth-server/src/main/java/com/easycodebox/oauth/security/DefaultJdbcUserDetailsManager.java:33-34 | mapped users are equal iff their `id` and `username` columns are equal |

## Left out

- JDBC, SQL and the user query itself: `LoadUsersByUsername` takes the rows the query returned.
- Servlet objects, the thread-local `SecurityContextHolder`, and `System.currentTimeMillis`: these are a request object, a context object passed in, and the `now` parameter.
- Logging: the `log.warn` in the resolver is not modelled.
- `MessageSource` locale handling: the source is a function for the current locale.
- The event publisher's listeners: the publisher is only an append-only event log.
- JWT signing and verification, and `JwtTokenStore` (whose `removeAccessToken` does nothing): tokens are opaque values in a map-backed store.
- Concurrency across requests: the race between reading a token and reading its authentication is modelled only as a stored token with no authentication.
- Jackson `convertValue` works by reflection. It is replaced by an explicit projection of the `SecurityUser` bean properties and of the ten `AuthUser` properties.
- ToAuthUser: does not model Jackson's scalar coercions (a number or boolean read into a `String` property, a numeric string into `gender`). Every non-string value is rejected. As a result the `ClassCastException` of the username cast in `extractAuthentication` can never be reached, and it is not modelled.
- EncodedClaims: only `SecurityUser` principals are modelled as `UserDetails`. The bean properties of other `UserDetails` classes are not.
- AuthoritySet: `authorityListToSet` returns a `HashSet` with no defined order. The model lists each string once, in first-occurrence order, and only membership is claimed.
- `AuthorityUtils`, `StringUtils` and `SimpleGrantedAuthority` are Spring library code, modelled from their documented behaviour rather than from their source: join with ",", each element written as `String.valueOf` writes it (a null as "null", a number in decimal, a list as "[a, b]", an object as "{k=v}"); split on ","; trim each piece with `String.trim`; drop empty pieces; and reject, with an `IllegalArgumentException`, a piece made only of `Character.isWhitespace` characters.
- ClaimText: JSON numbers with a fraction or exponent, which Jackson reads as `Double`, are not modelled; a `Num` claim is an integer.
- JavaLang.IsWhitespace: follows the Unicode tables of current Java, where U+180E is not a space separator. Under Java 8, whose tables still counted it as one, a role made only of U+180E characters would also be rejected; the model accepts it.
- Java strings are UTF-16. The model's `char` is a Unicode scalar value, so `compareTo`, `hashCode` and `trim` are not modelled on surrogate pairs.
- `AuthUser.equals` between an `AuthUser` and a `SecurityUser` always answers false, because of Lombok's `canEqual`. The model compares users of the same class only.
- `Collections.unmodifiableSet` is not modelled: nothing in the model mutates the stored sequence.
- ClockSkewTokenServices.constructor: the token store is a constructor argument. The `NullPointerException` of loading before any store is set is not modelled. Client-registry exceptions other than `ClientRegistrationException` are not modelled.
- TokenFilter.CheckOAuth2AccessTokenFilter.CheckAccessToken: `result.setDetails` updates the loaded object in place. The model treats that object as a new value, so aliasing with a token store that hands out shared objects is not captured.
- ExceptionResolver.OAuth2ExceptionResolver.ResolveException: `sendError` is modelled as failing only with `IOException`, which the resolver swallows. Its other exceptions, such as the `IllegalStateException` of a committed response, propagate out of `resolveException` in the source and are not modelled.
- The cause exception wrapped in `BadCredentialsException` is not modelled: `BadCredentials` carries only the message.
- DefaultDetails: `OAuth2AuthenticationDetails` also records the remote address and session id. Only the token value and type are modelled.
- MapUserRow: a `gender` column whose object is not an `Integer` (a `ClassCastException` in the source) is not modelled. The column is an optional integer.
- The delegating and MD5 password encoders, the role-hierarchy mapper, the configuration classes, the controllers and the redirect decorator are outside this model.
