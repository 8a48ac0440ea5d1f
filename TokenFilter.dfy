/**
 * `CheckOAuth2AccessTokenFilter`: on every request of a client application, asks
 * the OAuth2 client for its current access token and, when its value differs
 * from the one recorded in the session's authentication, loads the
 * authentication of the new token and puts it in the security context. Any
 * failure fails the request and publishes a failure event.
 *
 * The thread-local security context, the servlet request and the filter chain
 * are objects passed in; the rest template's answer and the token services are
 * injected functions.
 */
module TokenFilter {
  import opened Wrappers
  import opened Authentications

  /** The request attribute names `OAuth2AuthenticationDetails` reads. */
  const ACCESS_TOKEN_VALUE: string := "OAuth2AuthenticationDetails.ACCESS_TOKEN_VALUE"
  const ACCESS_TOKEN_TYPE: string := "OAuth2AuthenticationDetails.ACCESS_TOKEN_TYPE"

  const FETCH_FAILED: string := "Could not obtain access token"
  const LOAD_FAILED: string := "Could not obtain user details from token"

  /** An `OAuth2AccessToken`: its value and its (nullable) type. */
  datatype AccessToken = AccessToken(value: string, tokenType: Option<string>)

  /** `restTemplate.getAccessToken()`: a token, an `OAuth2Exception`, or another exception (such as a redirect). */
  datatype FetchResult = Fetched(token: AccessToken) | FetchFailedOAuth2 | FetchFailedOther

  /** `tokenServices.loadAuthentication(value)`: an authentication, `InvalidTokenException`, or another exception. */
  datatype LoadResult = Loaded(authentication: OAuth2Authentication) | LoadInvalidToken | LoadFailedOther

  /** What escapes the filter: the `BadCredentialsException` it throws, or an exception it lets through. */
  datatype FilterFailure = BadCredentials(message: string) | Propagated

  /** `AuthenticationSuccessEvent` and `OAuth2AuthenticationFailureEvent`. */
  datatype Event = AuthenticationSuccess(authentication: Authentication) | AuthenticationFailure(exception: FilterFailure)

  type Attributes = map<string, string>

  /** `setAttribute`: a null value removes the attribute. */
  function WithAttribute(attributes: Attributes, name: string, value: Option<string>): (r: Attributes)
    ensures value.Some? ==> name in r && r[name] == value.value
    ensures value.None? ==> name !in r
    ensures forall k :: k != name ==> (k in r <==> k in attributes) && (k in r ==> r[k] == attributes[k])
  {
    match value
    case None => attributes - {name}
    case Some(v) => attributes[name := v]
  }

  function GetAttribute(attributes: Attributes, name: string): Option<string> {
    if name in attributes then Some(attributes[name]) else None
  }

  /** `OAuth2AuthenticationDetailsSource.buildDetails`: token value and type from the request attributes. */
  function DefaultDetails(attributes: Attributes): AuthDetails {
    OAuth2Details(GetAttribute(attributes, ACCESS_TOKEN_VALUE), GetAttribute(attributes, ACCESS_TOKEN_TYPE))
  }

  /** `AuthenticationTrustResolverImpl.isAnonymous`. */
  predicate IsAnonymousToken(a: Authentication) {
    a.kind.Anonymous?
  }

  /** The collaborators of one filter run. */
  datatype FilterConfig = FilterConfig(
    fetch: FetchResult,
    load: string -> LoadResult,
    source: Option<Attributes -> AuthDetails>,
    isAnonymous: Authentication -> bool)

  /**
   * What one run does: its result, the authentication put in the context (none
   * when the context is left alone), the request attributes afterwards, the
   * events published, the token value handed to the token services (if they
   * were called) and how often the chain was invoked.
   */
  datatype Outcome = Outcome(
    result: Result<(), FilterFailure>,
    replacement: Option<Authentication>,
    attributes: Attributes,
    published: seq<Event>,
    loaded: Option<string>,
    chainCalls: nat)

  /** The check runs on a present, non-anonymous authentication with OAuth2 details. */
  predicate Checks(cfg: FilterConfig, current: Option<Authentication>) {
    current.Some? && !cfg.isAnonymous(current.value) && current.value.details.OAuth2Details?
  }

  /** `checkAccessToken` on the authentication of the context; the chain is not part of it. */
  function CheckOutcome(cfg: FilterConfig, auth: Authentication, attributes: Attributes): (o: Outcome)
    requires auth.details.OAuth2Details?
    ensures o.chainCalls == 0
    ensures cfg.fetch.FetchFailedOAuth2? ==>
      o == Outcome(Failure(BadCredentials(FETCH_FAILED)), None, attributes, [AuthenticationFailure(BadCredentials(FETCH_FAILED))], None, 0)
    ensures cfg.fetch.FetchFailedOther? ==> o == Outcome(Failure(Propagated), None, attributes, [], None, 0)
    ensures cfg.fetch.Fetched? && Some(cfg.fetch.token.value) == auth.details.tokenValue ==>
      o == Outcome(Success(()), None, attributes, [], None, 0)
    ensures o.loaded.Some? <==> cfg.fetch.Fetched? && Some(cfg.fetch.token.value) != auth.details.tokenValue
    ensures o.loaded.Some? ==> o.loaded.value == cfg.fetch.token.value
    ensures o.loaded.Some? && cfg.load(o.loaded.value).Loaded? ==>
      && o.result.Success?
      && o.replacement.Some?
      && o.published == [AuthenticationSuccess(o.replacement.value)]
    ensures o.loaded.Some? && cfg.load(o.loaded.value).Loaded? && cfg.source.None? ==>
      o.replacement == Some(cfg.load(o.loaded.value).authentication) && o.attributes == attributes
    ensures o.loaded.Some? && cfg.load(o.loaded.value).Loaded? && cfg.source.Some? ==>
      && o.attributes == WithAttribute(WithAttribute(attributes, ACCESS_TOKEN_VALUE, o.loaded), ACCESS_TOKEN_TYPE, cfg.fetch.token.tokenType)
      && o.replacement == Some(cfg.load(o.loaded.value).authentication.(details := cfg.source.value(o.attributes)))
    ensures o.loaded.Some? && cfg.load(o.loaded.value).LoadInvalidToken? ==>
      o == Outcome(Failure(BadCredentials(LOAD_FAILED)), None, attributes, [AuthenticationFailure(BadCredentials(LOAD_FAILED))], o.loaded, 0)
    ensures o.loaded.Some? && cfg.load(o.loaded.value).LoadFailedOther? ==>
      o == Outcome(Failure(Propagated), None, attributes, [], o.loaded, 0)
  {
    match cfg.fetch
    case FetchFailedOAuth2 =>
      var bad := BadCredentials(FETCH_FAILED);
      Outcome(Failure(bad), None, attributes, [AuthenticationFailure(bad)], None, 0)
    case FetchFailedOther =>
      Outcome(Failure(Propagated), None, attributes, [], None, 0)
    case Fetched(token) =>
      if Some(token.value) == auth.details.tokenValue then
        Outcome(Success(()), None, attributes, [], None, 0)
      else
        match cfg.load(token.value)
        case LoadInvalidToken =>
          var bad := BadCredentials(LOAD_FAILED);
          Outcome(Failure(bad), None, attributes, [AuthenticationFailure(bad)], Some(token.value), 0)
        case LoadFailedOther =>
          Outcome(Failure(Propagated), None, attributes, [], Some(token.value), 0)
        case Loaded(result) =>
          if cfg.source.Some? then
            var attrs := WithAttribute(WithAttribute(attributes, ACCESS_TOKEN_VALUE, Some(token.value)), ACCESS_TOKEN_TYPE, token.tokenType);
            var updated := result.(details := cfg.source.value(attrs));
            Outcome(Success(()), Some(updated), attrs, [AuthenticationSuccess(updated)], Some(token.value), 0)
          else
            Outcome(Success(()), Some(result), attributes, [AuthenticationSuccess(result)], Some(token.value), 0)
  }

  /**
   * `doFilter`: the check runs only when it applies; the chain is invoked
   * exactly when nothing was thrown.
   */
  function FilterOutcome(cfg: FilterConfig, current: Option<Authentication>, attributes: Attributes): (o: Outcome)
    ensures !Checks(cfg, current) ==> o == Outcome(Success(()), None, attributes, [], None, 1)
    ensures Checks(cfg, current) ==> o == CheckOutcome(cfg, current.value, attributes).(chainCalls := o.chainCalls)
    ensures o.chainCalls == 1 <==> o.result.Success?
    ensures o.chainCalls <= 1
    ensures o.result.Failure? ==> o.replacement == None
  {
    if !Checks(cfg, current) then Outcome(Success(()), None, attributes, [], None, 1)
    else
      var check := CheckOutcome(cfg, current.value, attributes);
      check.(chainCalls := if check.result.Success? then 1 else 0)
  }

  class SecurityContext {
    var authentication: Option<Authentication>

    constructor (authentication: Option<Authentication>)
      ensures this.authentication == authentication
    {
      this.authentication := authentication;
    }

    method SetAuthentication(authentication: Option<Authentication>)
      modifies this
      ensures this.authentication == authentication
    {
      this.authentication := authentication;
    }
  }

  /** An `ApplicationEventPublisher`, seen as the log of what it was given. */
  class EventPublisher {
    var events: seq<Event>

    constructor ()
      ensures events == []
    {
      events := [];
    }

    method PublishEvent(event: Event)
      modifies this
      ensures events == old(events) + [event]
    {
      events := events + [event];
    }
  }

  class Request {
    var attributes: Attributes

    constructor (attributes: Attributes)
      ensures this.attributes == attributes
    {
      this.attributes := attributes;
    }

    method SetAttribute(name: string, value: Option<string>)
      modifies this
      ensures attributes == WithAttribute(old(attributes), name, value)
    {
      attributes := WithAttribute(attributes, name, value);
    }
  }

  class FilterChain {
    var invocations: nat

    constructor ()
      ensures invocations == 0
    {
      invocations := 0;
    }

    method DoFilter()
      modifies this
      ensures invocations == old(invocations) + 1
    {
      invocations := invocations + 1;
    }
  }

  class CheckOAuth2AccessTokenFilter {
    var restTemplate: () -> FetchResult
    var tokenServices: string -> LoadResult
    var authenticationDetailsSource: Option<Attributes -> AuthDetails>
    var trustResolver: Authentication -> bool
    var eventPublisher: EventPublisher?

    /** Rest template and token services are mandatory; the other collaborators start at their defaults. */
    constructor (restTemplate: () -> FetchResult, tokenServices: string -> LoadResult)
      ensures this.restTemplate == restTemplate && this.tokenServices == tokenServices
      ensures authenticationDetailsSource == Some(DefaultDetails)
      ensures trustResolver == IsAnonymousToken
      ensures eventPublisher == null
    {
      this.restTemplate := restTemplate;
      this.tokenServices := tokenServices;
      authenticationDetailsSource := Some(DefaultDetails);
      trustResolver := IsAnonymousToken;
      eventPublisher := null;
    }

    method SetAuthenticationDetailsSource(source: Option<Attributes -> AuthDetails>)
      modifies this`authenticationDetailsSource
      ensures authenticationDetailsSource == source
    {
      authenticationDetailsSource := source;
    }

    method SetTrustResolver(isAnonymous: Authentication -> bool)
      modifies this`trustResolver
      ensures trustResolver == isAnonymous
    {
      trustResolver := isAnonymous;
    }

    method SetEventPublisher(publisher: EventPublisher?)
      modifies this`eventPublisher
      ensures eventPublisher == publisher
    {
      eventPublisher := publisher;
    }

    function Config(): FilterConfig
      reads this
    {
      FilterConfig(restTemplate(), tokenServices, authenticationDetailsSource, trustResolver)
    }

    /** `publish`: hands the event to the publisher, if there is one. */
    method Publish(event: Event)
      modifies eventPublisher
      ensures eventPublisher != null ==> eventPublisher.events == old(eventPublisher.events) + [event]
    {
      if eventPublisher != null {
        eventPublisher.PublishEvent(event);
      }
    }

    method CheckAccessToken(request: Request, context: SecurityContext, authentication: Authentication)
      returns (r: Result<(), FilterFailure>)
      requires authentication.details.OAuth2Details?
      modifies request, context, eventPublisher
      ensures var o := CheckOutcome(Config(), authentication, old(request.attributes));
        && r == o.result
        && request.attributes == o.attributes
        && context.authentication == (if o.replacement.Some? then o.replacement else old(context.authentication))
        && (eventPublisher != null ==> eventPublisher.events == old(eventPublisher.events) + o.published)
    {
      var details := authentication.details;
      var fetched := restTemplate();
      if fetched.FetchFailedOAuth2? {
        var bad := BadCredentials(FETCH_FAILED);
        Publish(AuthenticationFailure(bad));
        return Failure(bad);
      } else if fetched.FetchFailedOther? {
        return Failure(Propagated);
      }
      var accessToken := fetched.token;
      if Some(accessToken.value) != details.tokenValue {
        var loaded := tokenServices(accessToken.value);
        if loaded.LoadInvalidToken? {
          var bad := BadCredentials(LOAD_FAILED);
          Publish(AuthenticationFailure(bad));
          return Failure(bad);
        } else if loaded.LoadFailedOther? {
          return Failure(Propagated);
        }
        var result: Authentication := loaded.authentication;
        if authenticationDetailsSource.Some? {
          request.SetAttribute(ACCESS_TOKEN_VALUE, Some(accessToken.value));
          request.SetAttribute(ACCESS_TOKEN_TYPE, accessToken.tokenType);
          result := result.(details := authenticationDetailsSource.value(request.attributes));
        }
        Publish(AuthenticationSuccess(result));
        context.SetAuthentication(Some(result));
      }
      return Success(());
    }

    method DoFilter(request: Request, context: SecurityContext, chain: FilterChain)
      returns (r: Result<(), FilterFailure>)
      modifies request, context, chain, eventPublisher
      ensures var o := FilterOutcome(Config(), old(context.authentication), old(request.attributes));
        && r == o.result
        && request.attributes == o.attributes
        && context.authentication == (if o.replacement.Some? then o.replacement else old(context.authentication))
        && chain.invocations == old(chain.invocations) + o.chainCalls
        && (eventPublisher != null ==> eventPublisher.events == old(eventPublisher.events) + o.published)
    {
      var authentication := context.authentication;
      r := Success(());
      if authentication.Some? && !trustResolver(authentication.value) && authentication.value.details.OAuth2Details? {
        r := CheckAccessToken(request, context, authentication.value);
        if r.Failure? {
          return;
        }
      }
      chain.DoFilter();
    }
  }

  // ---- Properties across runs ----

  /**
   * With the default details source and trust resolver, a rotation settles:
   * once the new token's authentication is in the context, the next run with the
   * same token neither loads nor publishes nor changes anything.
   */
  lemma RotationSettles(cfg: FilterConfig, current: Option<Authentication>, attributes: Attributes)
    requires cfg.source == Some(DefaultDetails) && cfg.isAnonymous == IsAnonymousToken
    requires var o := FilterOutcome(cfg, current, attributes); o.replacement.Some?
    ensures var o := FilterOutcome(cfg, current, attributes);
      FilterOutcome(cfg, o.replacement, o.attributes) == Outcome(Success(()), None, o.attributes, [], None, 1)
  {
    var o := FilterOutcome(cfg, current, attributes);
    var token := cfg.fetch.token;
    assert o.attributes[ACCESS_TOKEN_VALUE] == token.value;
    assert o.replacement.value.details == DefaultDetails(o.attributes);
    assert Checks(cfg, o.replacement);
  }

  /** A failed run leaves the context's authentication where it was and never reaches the chain. */
  lemma FailureKeepsContext(cfg: FilterConfig, current: Option<Authentication>, attributes: Attributes)
    requires FilterOutcome(cfg, current, attributes).result.Failure?
    ensures var o := FilterOutcome(cfg, current, attributes);
      o.replacement == None && o.chainCalls == 0 && o.attributes == attributes && |o.published| <= 1
  {
  }
}
