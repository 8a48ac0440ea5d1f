/**
 * `ClockSkewTokenServices`: loads the authentication of an access token from a
 * token store, treating a token as expired only once its expiration plus a
 * tolerated clock skew lies in the past (the leeway section 4.1.4 of RFC 7519
 * allows for the `exp` claim). The clock is the parameter `now`, in
 * milliseconds since the epoch.
 */
module TokenServices {
  import opened Wrappers
  import opened JavaLang
  import opened Authentications

  /** The default tolerated clock skew: 60 seconds, in milliseconds. */
  const DEFAULT_MAX_CLOCK_SKEW: int := 60 * 1000

  /** A stored access token: its optional expiration time and the authentication stored with it. */
  datatype StoredToken = StoredToken(expiration: Option<int>, authentication: Option<OAuth2Authentication>)

  type Tokens = map<string, StoredToken>

  /** The reasons `loadAuthentication` throws `InvalidTokenException`. */
  datatype InvalidToken =
    | NotFound(value: string)         // no token stored under the value
    | Expired(value: string)          // expired even with the skew; the token has been removed
    | RaceLost(value: string)         // the token is there but its authentication is not
    | ClientInvalid(clientId: string) // the client registry does not know the token's client

  /** A `ClientDetailsService`: false when `loadClientByClientId` throws `ClientRegistrationException`. */
  type ClientRegistry = string -> bool

  /**
   * `isExpiredByClockSkew`: a token without expiration never expires; otherwise
   * the `long` sum of expiration and skew must be strictly before `now`.
   */
  predicate ExpiredByClockSkew(expiration: Option<int>, skew: int, now: int) {
    expiration.Some? && ToInt64(expiration.value + skew) < now
  }

  /**
   * `loadAuthentication` over a store's contents: the outcome, and the store's
   * contents afterwards.
   */
  function Load(tokens: Tokens, value: string, now: int, skew: int, clients: Option<ClientRegistry>)
    : (r: (Result<OAuth2Authentication, InvalidToken>, Tokens))
    ensures value !in tokens ==> r == (Failure(NotFound(value)), tokens)
    ensures value in tokens && ExpiredByClockSkew(tokens[value].expiration, skew, now) ==>
      r.0 == Failure(Expired(value)) && r.1 == tokens - {value} && value !in r.1
    ensures value in tokens && !ExpiredByClockSkew(tokens[value].expiration, skew, now) && tokens[value].authentication.None? ==>
      r == (Failure(RaceLost(value)), tokens)
    ensures value in tokens && !ExpiredByClockSkew(tokens[value].expiration, skew, now) && tokens[value].authentication.Some? ==>
      (clients.Some? && !clients.value(tokens[value].authentication.value.kind.clientId) <==>
       r.0 == Failure(ClientInvalid(tokens[value].authentication.value.kind.clientId)))
    ensures r.0.Success? <==>
      && value in tokens
      && !ExpiredByClockSkew(tokens[value].expiration, skew, now)
      && tokens[value].authentication.Some?
      && (clients.None? || clients.value(tokens[value].authentication.value.kind.clientId))
    ensures r.0.Success? ==> r.0.value == tokens[value].authentication.value
    ensures r.0.Success? || !r.0.error.Expired? ==> r.1 == tokens
    ensures r.1 == tokens || r.1 == tokens - {value}
  {
    if value !in tokens then (Failure(NotFound(value)), tokens)
    else if ExpiredByClockSkew(tokens[value].expiration, skew, now) then (Failure(Expired(value)), tokens - {value})
    else match tokens[value].authentication
      case None => (Failure(RaceLost(value)), tokens)
      case Some(result) =>
        if clients.Some? && !clients.value(result.kind.clientId) then (Failure(ClientInvalid(result.kind.clientId)), tokens)
        else (Success(result), tokens)
  }

  class TokenStore {
    var tokens: Tokens

    constructor (tokens: Tokens)
      ensures this.tokens == tokens
    {
      this.tokens := tokens;
    }

    function ReadAccessToken(value: string): (r: Option<StoredToken>)
      reads this
      ensures r.Some? <==> value in tokens
      ensures r.Some? ==> r.value == tokens[value]
    {
      if value in tokens then Some(tokens[value]) else None
    }

    method RemoveAccessToken(value: string)
      modifies this
      ensures tokens == old(tokens) - {value}
    {
      tokens := tokens - {value};
    }
  }

  class ClockSkewTokenServices {
    var tokenStore: TokenStore
    var clientDetailsService: Option<ClientRegistry>
    var maxClockSkew: Int32

    constructor (tokenStore: TokenStore)
      ensures this.tokenStore == tokenStore && clientDetailsService == None
      ensures maxClockSkew as int == DEFAULT_MAX_CLOCK_SKEW
    {
      this.tokenStore := tokenStore;
      clientDetailsService := None;
      maxClockSkew := DEFAULT_MAX_CLOCK_SKEW as Int32;
    }

    method SetTokenStore(tokenStore: TokenStore)
      modifies this`tokenStore
      ensures this.tokenStore == tokenStore
    {
      this.tokenStore := tokenStore;
    }

    method SetClientDetailsService(clientDetailsService: Option<ClientRegistry>)
      modifies this`clientDetailsService
      ensures this.clientDetailsService == clientDetailsService
    {
      this.clientDetailsService := clientDetailsService;
    }

    method SetMaxClockSkew(maxClockSkew: Int32)
      modifies this`maxClockSkew
      ensures this.maxClockSkew == maxClockSkew
    {
      this.maxClockSkew := maxClockSkew;
    }

    predicate IsExpiredByClockSkew(token: StoredToken, now: int)
      reads this
    {
      ExpiredByClockSkew(token.expiration, maxClockSkew as int, now)
    }

    /**
     * `loadAuthentication`: reads the token, evicts it when expired, reads its
     * authentication and checks its client. Only the token store changes, and
     * only by the eviction.
     */
    method LoadAuthentication(accessTokenValue: string, now: int) returns (r: Result<OAuth2Authentication, InvalidToken>)
      modifies tokenStore
      ensures (r, tokenStore.tokens) == Load(old(tokenStore.tokens), accessTokenValue, now, maxClockSkew as int, clientDetailsService)
    {
      var accessToken := tokenStore.ReadAccessToken(accessTokenValue);
      if accessToken.None? {
        return Failure(NotFound(accessTokenValue));
      } else if IsExpiredByClockSkew(accessToken.value, now) {
        tokenStore.RemoveAccessToken(accessTokenValue);
        return Failure(Expired(accessTokenValue));
      }
      var result := accessToken.value.authentication;
      if result.None? {
        return Failure(RaceLost(accessTokenValue));
      }
      if clientDetailsService.Some? {
        var clientId := result.value.kind.clientId;
        if !clientDetailsService.value(clientId) {
          return Failure(ClientInvalid(clientId));
        }
      }
      return Success(result.value);
    }
  }

  // ---- Expiry with clock skew ----

  /** Without `long` overflow, a token is expired exactly when expiration plus skew is strictly before `now`. */
  lemma ExpiredIff(expiration: int, skew: int, now: int)
    requires IsInt64(expiration + skew)
    ensures ExpiredByClockSkew(Some(expiration), skew, now) <==> expiration + skew < now
  {
  }

  /** A token without expiration never expires, whatever the skew and the time. */
  lemma NeverExpiresWithoutExpiration(skew: int, now: int)
    ensures !ExpiredByClockSkew(None, skew, now)
  {
  }

  /** With the default skew a token is still valid a full minute after it expired, and expired one millisecond later. */
  lemma DefaultSkewBoundary(expiration: int)
    requires IsInt64(expiration) && IsInt64(expiration + DEFAULT_MAX_CLOCK_SKEW + 1)
    ensures !ExpiredByClockSkew(Some(expiration), DEFAULT_MAX_CLOCK_SKEW, expiration + 60000)
    ensures ExpiredByClockSkew(Some(expiration), DEFAULT_MAX_CLOCK_SKEW, expiration + 60001)
  {
    ExpiredIff(expiration, DEFAULT_MAX_CLOCK_SKEW, expiration + 60000);
    ExpiredIff(expiration, DEFAULT_MAX_CLOCK_SKEW, expiration + 60001);
  }

  /** Once expired, a token stays expired as time goes on. */
  lemma ExpiredLater(expiration: Option<int>, skew: int, now: int, later: int)
    requires ExpiredByClockSkew(expiration, skew, now) && now <= later
    ensures ExpiredByClockSkew(expiration, skew, later)
  {
  }

  /** Without overflow, a larger skew never makes a valid token expired. */
  lemma LargerSkewTolerates(expiration: int, small: int, large: int, now: int)
    requires small <= large
    requires IsInt64(expiration + small) && IsInt64(expiration + large)
    requires ExpiredByClockSkew(Some(expiration), large, now)
    ensures ExpiredByClockSkew(Some(expiration), small, now)
  {
    ExpiredIff(expiration, small, now);
    ExpiredIff(expiration, large, now);
  }

  /** The `long` sum wraps: a token expiring at `Long.MAX_VALUE` counts as expired at time 0. */
  lemma OverflowWrapsToExpired()
    ensures ExpiredByClockSkew(Some(0x7FFF_FFFF_FFFF_FFFF), DEFAULT_MAX_CLOCK_SKEW, 0)
  {
    assert ToInt64(0x7FFF_FFFF_FFFF_FFFF + 60000) == 0x7FFF_FFFF_FFFF_FFFF + 60000 - TWO_64;
  }

  // ---- Loading ----

  /** An expired token is evicted once: loading it again reports it unknown and changes nothing. */
  lemma EvictionIsFinal(tokens: Tokens, value: string, now: int, later: int, skew: int, clients: Option<ClientRegistry>)
    requires Load(tokens, value, now, skew, clients).0 == Failure(Expired(value))
    ensures var after := Load(tokens, value, now, skew, clients).1;
      Load(after, value, later, skew, clients) == (Failure(NotFound(value)), after)
  {
  }

  /** Loading never changes the entry of any other token value. */
  lemma LoadKeepsOthers(tokens: Tokens, value: string, other: string, now: int, skew: int, clients: Option<ClientRegistry>)
    requires other != value
    ensures var after := Load(tokens, value, now, skew, clients).1;
      (other in after <==> other in tokens) && (other in tokens ==> after[other] == tokens[other])
  {
  }

  /** Without a client registry the client check is skipped: a present, unexpired token with an authentication loads. */
  lemma LoadWithoutRegistry(tokens: Tokens, value: string, now: int, skew: int)
    requires value in tokens && !ExpiredByClockSkew(tokens[value].expiration, skew, now)
    requires tokens[value].authentication.Some?
    ensures Load(tokens, value, now, skew, None) == (Success(tokens[value].authentication.value), tokens)
  {
  }
}
