/**
 * The Spring Security `Authentication` values the modelled code passes around,
 * reduced to what the code reads: the kind of token object, its principal,
 * credentials, authorities and details.
 */
module Authentications {
  import opened Wrappers
  import opened AuthUsers
  import opened AuthorityOrder
  import opened SecurityUsers

  /** The principal objects that occur here: a `UserDetails`, a plain `AuthUser`, or any other object. */
  datatype Principal =
    | UserDetailsPrincipal(details: Details)
    | AuthUserPrincipal(user: AuthUser)
    | OtherPrincipal(text: string)

  /** `getDetails()`: absent, an `OAuth2AuthenticationDetails`, or anything else. */
  datatype AuthDetails =
    | NoDetails
    | OAuth2Details(tokenValue: Option<string>, tokenType: Option<string>)
    | OtherDetails

  /**
   * The class of the token object: a `UsernamePasswordAuthenticationToken`, an
   * `AnonymousAuthenticationToken`, or an `OAuth2Authentication` bound to the
   * client id of its stored request.
   */
  datatype AuthKind = UsernamePassword | Anonymous | OAuth2(clientId: string)

  datatype Authentication = Authentication(
    kind: AuthKind,
    principal: Principal,
    credentials: Option<string>,
    authorities: Option<seq<Authority>>,
    details: AuthDetails)

  type OAuth2Authentication = a: Authentication | a.kind.OAuth2?
    witness Authentication(OAuth2(""), OtherPrincipal(""), None, None, NoDetails)

  /**
   * `AbstractAuthenticationToken.getName()`: the username of a `UserDetails`, the
   * name of a `java.security.Principal` (for an `AuthUser`, its username), and
   * otherwise the principal's `toString()`.
   */
  function Name(a: Authentication): Option<string> {
    match a.principal
    case UserDetailsPrincipal(d) => d.user.username
    case AuthUserPrincipal(u) => u.Name()
    case OtherPrincipal(text) => Some(text)
  }

  /** An authority collection as the token constructor stores it: null becomes the empty list. */
  function AsList(authorities: Option<seq<Authority>>): seq<Authority> {
    authorities.GetOr([])
  }
}
