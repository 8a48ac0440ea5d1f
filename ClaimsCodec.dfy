/**
 * `AuthUserAuthenticationConverter`: turns a user authentication into the flat
 * claims map of a token body and rebuilds an authentication from such a map.
 *
 * Jackson's `ObjectMapper.convertValue` is modelled as an explicit projection:
 * `DetailsProperties` lists the bean properties of a `SecurityUser` (nulls
 * included, `name` coming from `getName()`), and `ToAuthUser` reads the ten
 * `AuthUser` properties back, ignoring every other key.
 */
module ClaimsCodec {
  import opened Wrappers
  import opened JavaLang
  import opened SpringStrings
  import opened AuthUsers
  import opened AuthorityOrder
  import opened SecurityUsers
  import opened Authentications

  /**
   * A claim value as Jackson reads it: JSON null, a string, an integer, a
   * boolean, an array (an `ArrayList` of claim values) or an object (a
   * `LinkedHashMap`, its entries in order).
   */
  datatype Claim = Null | Str(s: string) | Num(n: int) | Flag(b: bool) | Coll(items: seq<Claim>) | Nested(entries: seq<(string, Claim)>)

  type Claims = map<string, Claim>

  const USERNAME: string := "username"
  const AUTHORITIES: string := "authorities"
  /** The credentials of every extracted authentication. */
  const CREDENTIALS: string := "N/A"

  /** What rebuilding an authentication can throw. */
  datatype ExtractError =
    | Unconvertible(key: string)          // Jackson cannot convert the value of `key` to the `AuthUser` property
    | AuthoritiesNotStringOrCollection    // "Authorities must be either a String or a Collection"
    | UsernameNotFound(username: Option<string>) // thrown by the user-details service
    | Rejected(cause: AssertionError)     // a parsed authority string was rejected by `SimpleGrantedAuthority`

  /** A `UserDetailsService`: `None` when `loadUserByUsername` throws `UsernameNotFoundException`. */
  type UserDirectory = Option<string> -> Option<Details>

  function OptStr(o: Option<string>): Claim {
    match o
    case None => Null
    case Some(s) => Str(s)
  }

  function OptNum(o: Option<int>): Claim {
    match o
    case None => Null
    case Some(n) => Num(n)
  }

  /** The `authorities` bean property: one `{"authority": ...}` object per authority. */
  function AuthorityBeans(auths: Option<seq<Authority>>): Claim {
    match auths
    case None => Null
    case Some(xs) => Coll(seq(|xs|, i requires 0 <= i < |xs| => Nested([("authority", OptStr(xs[i].GetAuthority()))])))
  }

  /**
   * `String.valueOf` of a claim value, the text `collectionToCommaDelimitedString`
   * appends for it: "null", the string itself, the decimal number, "true" or
   * "false", `AbstractCollection.toString` ("[a, b]") or `AbstractMap.toString`
   * ("{k=v, l=w}").
   */
  function ClaimText(c: Claim): string
    decreases c
  {
    match c
    case Null => "null"
    case Str(s) => s
    case Num(n) => DecimalText(n)
    case Flag(b) => if b then "true" else "false"
    case Coll(items) => "[" + Listed(seq(|items|, i requires 0 <= i < |items| => ClaimText(items[i]))) + "]"
    case Nested(entries) =>
      "{" + Listed(seq(|entries|, i requires 0 <= i < |entries| => entries[i].0 + "=" + ClaimText(entries[i].1))) + "}"
  }

  /** Texts separated by ", ", as the `toString` of a Java collection or map writes them. */
  function Listed(texts: seq<string>): string
    decreases |texts|
  {
    if |texts| == 0 then ""
    else if |texts| == 1 then texts[0]
    else texts[0] + ", " + Listed(texts[1..])
  }

  /** The texts of the elements of a collection claim, in order. */
  function ClaimTexts(items: seq<Claim>): (r: seq<string>)
    ensures |r| == |items| && forall i :: 0 <= i < |items| ==> r[i] == ClaimText(items[i])
  {
    seq(|items|, i requires 0 <= i < |items| => ClaimText(items[i]))
  }

  /** The claim values of nullable strings: a string, or null. */
  function Elements(xs: seq<Option<string>>): (r: seq<Claim>)
    ensures |r| == |xs| && forall i :: 0 <= i < |xs| ==> r[i] == OptStr(xs[i])
    ensures forall x :: x in r ==> x.Null? || x.Str?
    ensures forall o :: OptStr(o) in r <==> o in xs
    ensures ClaimTexts(r) == ItemTexts(xs)
  {
    seq(|xs|, i requires 0 <= i < |xs| => OptStr(xs[i]))
  }

  /** The bean properties Jackson reads off a `SecurityUser` principal. */
  function DetailsProperties(d: Details): Claims {
    map[
      "userId" := OptStr(d.user.userId),
      "username" := OptStr(d.user.username),
      "userNo" := OptStr(d.user.userNo),
      "nickname" := OptStr(d.user.nickname),
      "password" := OptStr(d.user.password),
      "realname" := OptStr(d.user.realname),
      "portrait" := OptStr(d.user.portrait),
      "gender" := OptNum(d.user.gender),
      "email" := OptStr(d.user.email),
      "mobile" := OptStr(d.user.mobile),
      "name" := OptStr(d.user.Name()),
      AUTHORITIES := AuthorityBeans(d.authorities),
      "accountNonExpired" := Flag(d.accountNonExpired),
      "accountNonLocked" := Flag(d.accountNonLocked),
      "credentialsNonExpired" := Flag(d.credentialsNonExpired),
      "enabled" := Flag(d.enabled)
    ]
  }

  /** The elements of `s` with repeats dropped, each kept where it first occurs. */
  function Distinct<T(==,!new)>(s: seq<T>): (r: seq<T>)
    ensures forall x :: x in r <==> x in s
    ensures forall i, j :: 0 <= i < j < |r| ==> r[i] != r[j]
    ensures |r| <= |s|
    decreases |s|
  {
    if s == [] then []
    else
      var init, x := s[..|s| - 1], s[|s| - 1];
      assert s == init + [x];
      var d := Distinct(init);
      if x in d then d else d + [x]
  }

  /** `getAuthority()` of every authority, in order. */
  function Names(auths: seq<Authority>): (r: seq<Option<string>>)
    ensures |r| == |auths| && forall i :: 0 <= i < |auths| ==> r[i] == auths[i].GetAuthority()
  {
    seq(|auths|, i requires 0 <= i < |auths| => auths[i].GetAuthority())
  }

  /**
   * `AuthorityUtils.authorityListToSet`: the set of authority strings (a null
   * string included when a custom authority has one). The source's `HashSet` has
   * no defined order; the model lists each string once, in first-occurrence order.
   */
  function AuthoritySet(auths: seq<Authority>): (r: seq<Option<string>>)
    ensures forall x :: x in r <==> x in Names(auths)
    ensures forall i, j :: 0 <= i < j < |r| ==> r[i] != r[j]
  {
    Distinct(Names(auths))
  }

  /** The message of the `IllegalArgumentException` a `SimpleGrantedAuthority` without text throws. */
  const NO_TEXT: string := "A granted authority textual representation is required"

  /** One `SimpleGrantedAuthority` per string, in order. */
  function Granted(roles: seq<string>): (r: seq<Authority>)
    ensures |r| == |roles| && forall i :: 0 <= i < |roles| ==> r[i] == Named(roles[i])
  {
    seq(|roles|, i requires 0 <= i < |roles| => Named(roles[i]))
  }

  /**
   * `AuthorityUtils.createAuthorityList`: one `SimpleGrantedAuthority` per
   * string, in order; the constructor throws at the first string without text
   * (`Assert.hasText`).
   */
  function AuthorityList(roles: seq<string>): (r: Result<seq<Authority>, AssertionError>)
    ensures r.Success? <==> forall i :: 0 <= i < |roles| ==> HasText(roles[i])
    ensures r.Success? ==> r.value == Granted(roles)
    ensures r.Failure? ==> r.error == AssertionError(NO_TEXT)
    decreases |roles|
  {
    if roles == [] then Success([])
    else if !HasText(roles[0]) then Failure(AssertionError(NO_TEXT))
    else
      var rest :- AuthorityList(roles[1..]);
      assert Granted(roles) == [Named(roles[0])] + Granted(roles[1..]);
      Success([Named(roles[0])] + rest)
  }

  /**
   * `commaSeparatedStringToAuthorityList`: the tokens of `s`, each as a named
   * authority, or the rejection of a token without text.
   */
  function CommaSeparatedAuthorities(s: string): (r: Result<seq<Authority>, AssertionError>)
    ensures r.Success? <==> forall i :: 0 <= i < |Tokens(s)| ==> HasText(Tokens(s)[i])
    ensures r.Success? ==> forall x :: x in r.value ==> x.Named? && x.role in Tokens(s) && HasText(x.role)
    ensures r.Failure? ==> r.error == AssertionError(NO_TEXT)
  {
    AuthorityList(Tokens(s))
  }

  /** A parse result as `getAuthorities` returns it. */
  function Parsed(p: Result<seq<Authority>, AssertionError>): Result<Option<seq<Authority>>, ExtractError> {
    match p
    case Success(auths) => Success(Some(auths))
    case Failure(e) => Failure(Rejected(e))
  }

  /** A role string that survives the comma split and the trim unchanged and that `SimpleGrantedAuthority` accepts. */
  predicate CleanRole(t: string) {
    CleanToken(t) && HasText(t)
  }

  /** The authentication carries a non-null, non-empty authority collection. */
  predicate HasAuthorities(a: Authentication) {
    a.authorities.Some? && a.authorities.value != []
  }

  /**
   * The map `convertUserAuthentication` returns. A `UserDetails` principal
   * contributes all of its properties except `authorities` (its password
   * included); any other principal contributes only `username`, bound to the
   * authentication's name. `authorities` is present exactly when the
   * authentication has authorities, and then lists their strings.
   */
  function EncodedClaims(a: Authentication): (m: Claims)
    ensures a.principal.UserDetailsPrincipal? ==>
      var props := DetailsProperties(a.principal.details);
      && (forall k :: k in props && k != AUTHORITIES ==> k in m && m[k] == props[k])
      && m.Keys <= props.Keys
      && "password" in m && m["password"] == OptStr(a.principal.details.user.password)
    ensures !a.principal.UserDetailsPrincipal? ==>
      USERNAME in m && m[USERNAME] == OptStr(Name(a)) && m.Keys <= {USERNAME, AUTHORITIES}
    ensures AUTHORITIES in m <==> HasAuthorities(a)
    ensures HasAuthorities(a) ==>
      && m[AUTHORITIES].Coll?
      && (forall x :: x in m[AUTHORITIES].items ==> x.Null? || x.Str?)
      && (forall o :: OptStr(o) in m[AUTHORITIES].items <==> o in Names(a.authorities.value))
  {
    var base := match a.principal
      case UserDetailsPrincipal(d) => DetailsProperties(d) - {AUTHORITIES}
      case _ => map[USERNAME := OptStr(Name(a))];
    if HasAuthorities(a) then base[AUTHORITIES := Coll(Elements(AuthoritySet(a.authorities.value)))] else base
  }

  /** Jackson's conversion of one `String` property: absent or null gives null. */
  function StringProperty(m: Claims, key: string): Result<Option<string>, ExtractError> {
    if key !in m then Success(None)
    else match m[key]
      case Null => Success(None)
      case Str(s) => Success(Some(s))
      case _ => Failure(Unconvertible(key))
  }

  /** Jackson's conversion of one `Integer` property. */
  function IntegerProperty(m: Claims, key: string): Result<Option<int>, ExtractError> {
    if key !in m then Success(None)
    else match m[key]
      case Null => Success(None)
      case Num(n) => if IsInt32(n) then Success(Some(n)) else Failure(Unconvertible(key))
      case _ => Failure(Unconvertible(key))
  }

  /** `objectMapper.convertValue(map, AuthUser.class)` with unknown properties ignored. */
  function ToAuthUser(m: Claims): (r: Result<AuthUser, ExtractError>)
    ensures r.Success? ==> Valid(r.value)
    ensures r.Success? ==> OptStr(r.value.username) == (if USERNAME in m then m[USERNAME] else Null)
  {
    var userId :- StringProperty(m, "userId");
    var username :- StringProperty(m, "username");
    var userNo :- StringProperty(m, "userNo");
    var nickname :- StringProperty(m, "nickname");
    var password :- StringProperty(m, "password");
    var realname :- StringProperty(m, "realname");
    var portrait :- StringProperty(m, "portrait");
    var gender :- IntegerProperty(m, "gender");
    var email :- StringProperty(m, "email");
    var mobile :- StringProperty(m, "mobile");
    Success(AuthUser(userId, username, userNo, nickname, password, realname, portrait, gender, email, mobile))
  }

  /** `arrayToCommaDelimitedString`: a null array gives the empty string. */
  function DelimitedArray(arr: Option<seq<Option<string>>>): string {
    match arr
    case None => ""
    case Some(xs) => Join(ItemTexts(xs))
  }

  /** An array of non-null role strings that survive the comma split unchanged. */
  predicate CleanArray(xs: seq<Option<string>>) {
    forall i :: 0 <= i < |xs| ==> xs[i].Some? && CleanRole(xs[i].value)
  }

  /** A null array gives no default authorities. */
  lemma NullArrayTokens()
    ensures CommaSeparatedAuthorities(DelimitedArray(None)) == Success([])
  {
    TokensEmpty();
    assert DelimitedArray(None) == "";
    assert Granted([]) == [];
  }

  /** The comma join of clean role strings parses into one authority per string, in order. */
  lemma JoinedRolesParse(roles: seq<string>)
    requires forall i :: 0 <= i < |roles| ==> CleanRole(roles[i])
    ensures CommaSeparatedAuthorities(Join(roles)) == Success(Granted(roles))
  {
    var s := Join(roles);
    assert forall i :: 0 <= i < |roles| ==> CleanToken(roles[i]);
    TokensJoin(roles);
    assert Tokens(s) == roles;
    assert AuthorityList(roles).Success?;
  }

  /** The comma join of a clean array parses back into its own strings. */
  lemma CleanArrayTokens(xs: seq<Option<string>>)
    requires CleanArray(xs)
    ensures CommaSeparatedAuthorities(DelimitedArray(Some(xs))) == Success(Granted(ItemTexts(xs)))
  {
    var texts := ItemTexts(xs);
    forall i | 0 <= i < |texts|
      ensures CleanRole(texts[i])
    {
      assert texts[i] == xs[i].value;
    }
    JoinedRolesParse(texts);
  }

  /** What `setDefaultAuthorities` parses from a null array and from a clean one. */
  lemma DefaultAuthoritiesParse(arr: Option<seq<Option<string>>>)
    ensures arr.None? ==> CommaSeparatedAuthorities(DelimitedArray(arr)) == Success([])
    ensures arr.Some? && CleanArray(arr.value) ==>
      CommaSeparatedAuthorities(DelimitedArray(arr)) == Success(Granted(ItemTexts(arr.value)))
  {
    if arr.None? {
      NullArrayTokens();
    } else if CleanArray(arr.value) {
      CleanArrayTokens(arr.value);
    }
  }

  /**
   * What `setDefaultAuthorities` leaves behind, as the outcome and the new
   * defaults: the array is joined with commas and parsed as a comma list, and
   * when a token has no text the call throws and the defaults stay as they were.
   * A null array gives an empty list and an array of clean role strings is kept
   * as it is.
   */
  function DefaultsAfter(defaults: Option<seq<Authority>>, arr: Option<seq<Option<string>>>)
    : (o: (Result<(), AssertionError>, Option<seq<Authority>>))
    ensures var parsed := CommaSeparatedAuthorities(DelimitedArray(arr));
      && (o.0.Success? <==> parsed.Success?)
      && (parsed.Success? ==> o.1 == Some(parsed.value))
      && (parsed.Failure? ==> o == (Failure(parsed.error), defaults))
    ensures arr.None? ==> o == (Success(()), Some([]))
    ensures arr.Some? && CleanArray(arr.value) ==> o == (Success(()), Some(Granted(ItemTexts(arr.value))))
  {
    DefaultAuthoritiesParse(arr);
    match CommaSeparatedAuthorities(DelimitedArray(arr))
    case Success(auths) => (Success(()), Some(auths))
    case Failure(e) => (Failure(e), defaults)
  }

  class AuthUserAuthenticationConverter {
    var defaultAuthorities: Option<seq<Authority>>
    var userDetailsService: Option<UserDirectory>

    constructor ()
      ensures defaultAuthorities == None && userDetailsService == None
    {
      defaultAuthorities := None;
      userDetailsService := None;
    }

    method SetUserDetailsService(service: Option<UserDirectory>)
      modifies this`userDetailsService
      ensures userDetailsService == service
    {
      userDetailsService := service;
    }

    /** `setDefaultAuthorities`: the outcome and the new defaults are those of `DefaultsAfter`. */
    method SetDefaultAuthorities(arr: Option<seq<Option<string>>>) returns (r: Result<(), AssertionError>)
      modifies this`defaultAuthorities
      ensures (r, defaultAuthorities) == DefaultsAfter(old(defaultAuthorities), arr)
    {
      var outcome := DefaultsAfter(defaultAuthorities, arr);
      r := outcome.0;
      defaultAuthorities := outcome.1;
    }

    /** `convertUserAuthentication`, building the map step by step. */
    method ConvertUserAuthentication(a: Authentication) returns (response: Claims)
      ensures response == EncodedClaims(a)
    {
      response := map[];
      if a.principal.UserDetailsPrincipal? {
        var principalMap := DetailsProperties(a.principal.details);
        principalMap := principalMap - {AUTHORITIES};
        response := response + principalMap;
      } else {
        response := response[USERNAME := OptStr(Name(a))];
      }
      if a.authorities.Some? && a.authorities.value != [] {
        response := response[AUTHORITIES := Coll(Elements(AuthoritySet(a.authorities.value)))];
      }
    }

    /**
     * `getAuthorities`: a missing key gives the configured default (null unless
     * set), a string is parsed as a comma list, a collection has the
     * `String.valueOf` texts of its elements joined with commas and then parsed,
     * and anything else is rejected; parsing rejects a token without text.
     */
    function GetAuthorities(m: Claims): (r: Result<Option<seq<Authority>>, ExtractError>)
      reads this
      ensures AUTHORITIES !in m ==> r == Success(defaultAuthorities)
      ensures AUTHORITIES in m && m[AUTHORITIES].Str? ==> r == Parsed(CommaSeparatedAuthorities(m[AUTHORITIES].s))
      ensures AUTHORITIES in m && m[AUTHORITIES].Coll? ==>
        r == Parsed(CommaSeparatedAuthorities(Join(ClaimTexts(m[AUTHORITIES].items))))
      ensures AUTHORITIES in m && !m[AUTHORITIES].Str? && !m[AUTHORITIES].Coll? ==>
        r == Failure(AuthoritiesNotStringOrCollection)
      ensures r.Failure? ==> AUTHORITIES in m
      ensures r.Failure? ==> r.error == AuthoritiesNotStringOrCollection || r.error == Rejected(AssertionError(NO_TEXT))
      ensures r.Success? && AUTHORITIES in m ==>
        r.value.Some? && forall x :: x in r.value.value ==> x.Named? && HasText(x.role)
    {
      if AUTHORITIES !in m then Success(defaultAuthorities)
      else match m[AUTHORITIES]
        case Str(s) => Parsed(CommaSeparatedAuthorities(s))
        case Coll(items) => Parsed(CommaSeparatedAuthorities(Join(ClaimTexts(items))))
        case _ => Failure(AuthoritiesNotStringOrCollection)
    }

    /**
     * `extractAuthentication`: no `username` key gives null; otherwise the
     * claims are converted to an `AuthUser` and their authorities parsed, and
     * then, when a user-details service is set, both principal and authorities
     * are replaced by the service's user. Credentials are always "N/A".
     */
    function ExtractAuthentication(m: Claims): (r: Result<Option<Authentication>, ExtractError>)
      reads this
      ensures r == Success(None) <==> USERNAME !in m
      ensures USERNAME in m && r.Success? ==>
        && r.value.Some?
        && r.value.value.kind == UsernamePassword
        && r.value.value.credentials == Some(CREDENTIALS)
        && r.value.value.details == NoDetails
      ensures USERNAME in m && ToAuthUser(m).Failure? ==> r == Failure(ToAuthUser(m).error)
      ensures USERNAME in m && ToAuthUser(m).Success? && GetAuthorities(m).Failure? ==> r == Failure(GetAuthorities(m).error)
      ensures USERNAME in m && ToAuthUser(m).Success? && GetAuthorities(m).Success? ==>
        && (r.Success? <==> userDetailsService.None? || userDetailsService.value(ToAuthUser(m).value.username).Some?)
        && (r.Failure? ==> r.error == UsernameNotFound(ToAuthUser(m).value.username))
      ensures USERNAME in m && userDetailsService.None? && r.Success? ==>
        && r.value.value.principal == AuthUserPrincipal(ToAuthUser(m).value)
        && r.value.value.authorities == Some(AsList(GetAuthorities(m).value))
      ensures USERNAME in m && userDetailsService.Some? && r.Success? ==>
        && r.value.value.principal.UserDetailsPrincipal?
        && userDetailsService.value(ToAuthUser(m).value.username) == Some(r.value.value.principal.details)
        && r.value.value.authorities == Some(AsList(r.value.value.principal.details.authorities))
    {
      if USERNAME in m then
        var user :- ToAuthUser(m);
        var authorities :- GetAuthorities(m);
        if userDetailsService.Some? then
          // `(String) map.get(USERNAME)` is the username the conversion above has just read.
          var found := userDetailsService.value(user.username);
          if found.None? then Failure(UsernameNotFound(user.username))
          else Success(Some(Authentication(UsernamePassword, UserDetailsPrincipal(found.value), Some(CREDENTIALS),
                                           Some(AsList(found.value.authorities)), NoDetails)))
        else
          Success(Some(Authentication(UsernamePassword, AuthUserPrincipal(user), Some(CREDENTIALS),
                                      Some(AsList(authorities)), NoDetails)))
      else Success(None)
    }
  }

  // ---- Round trips ----

  /** Named authorities whose role strings survive the comma split unchanged. */
  predicate CleanAuthorities(auths: seq<Authority>) {
    forall x :: x in auths ==> x.Named? && CleanRole(x.role)
  }

  /** Every string in the authority set of clean authorities is present, clean, and names one of them. */
  lemma AuthoritySetClean(auths: seq<Authority>)
    requires CleanAuthorities(auths)
    ensures forall i :: 0 <= i < |AuthoritySet(auths)| ==>
      AuthoritySet(auths)[i].Some? && CleanRole(AuthoritySet(auths)[i].value) && Named(AuthoritySet(auths)[i].value) in auths
  {
    var items := AuthoritySet(auths);
    var names := Names(auths);
    forall i | 0 <= i < |items|
      ensures items[i].Some? && CleanRole(items[i].value) && Named(items[i].value) in auths
    {
      assert items[i] in names;
      var k :| 0 <= k < |names| && names[k] == items[i];
      assert auths[k] in auths;
    }
  }

  /** The authority set of clean authorities, re-parsed, names exactly those authorities. */
  lemma AuthoritySetMembers(auths: seq<Authority>, texts: seq<string>)
    requires CleanAuthorities(auths)
    requires texts == ItemTexts(AuthoritySet(auths))
    ensures forall x :: x in Granted(texts) <==> x in auths
  {
    var items := AuthoritySet(auths);
    AuthoritySetClean(auths);
    var back := Granted(texts);
    forall x
      ensures x in back <==> x in auths
    {
      if x in back {
        var i :| 0 <= i < |back| && back[i] == x;
        assert texts[i] == items[i].value;
      }
      if x in auths {
        var k :| 0 <= k < |auths| && auths[k] == x;
        assert Names(auths)[k] == Some(x.role);
        assert Some(x.role) in items;
        var i :| 0 <= i < |items| && items[i] == Some(x.role);
        assert back[i] == x;
      }
    }
  }

  /** Parsing the `authorities` claim of clean authorities gives back the same authority set. */
  lemma AuthorityClaimRoundTrip(auths: seq<Authority>)
    requires CleanAuthorities(auths)
    ensures var parsed := CommaSeparatedAuthorities(Join(ItemTexts(AuthoritySet(auths))));
      parsed.Success? && forall x :: x in parsed.value <==> x in auths
  {
    var texts := ItemTexts(AuthoritySet(auths));
    AuthoritySetClean(auths);
    assert forall i :: 0 <= i < |texts| ==> CleanRole(texts[i]);
    JoinedRolesParse(texts);
    AuthoritySetMembers(auths, texts);
  }

  /**
   * Round trip for a principal that is not a `UserDetails`, without a
   * user-details service: the rebuilt authentication has the same name, an
   * `AuthUser` principal holding only that name, credentials "N/A", and the same
   * authority set (or the configured default when there were no authorities).
   */
  lemma RoundTripNonUserDetails(c: AuthUserAuthenticationConverter, a: Authentication)
    requires c.userDetailsService.None?
    requires !a.principal.UserDetailsPrincipal?
    requires a.authorities.Some? ==> CleanAuthorities(a.authorities.value)
    ensures var r := c.ExtractAuthentication(EncodedClaims(a));
      && r.Success? && r.value.Some?
      && Name(r.value.value) == Name(a)
      && r.value.value.principal == AuthUserPrincipal(Blank.(username := Name(a)))
      && r.value.value.credentials == Some(CREDENTIALS)
      && (HasAuthorities(a) ==> forall x :: x in AsList(r.value.value.authorities) <==> x in a.authorities.value)
      && (!HasAuthorities(a) ==> r.value.value.authorities == Some(AsList(c.defaultAuthorities)))
  {
    var m := EncodedClaims(a);
    assert ToAuthUser(m) == Success(Blank.(username := Name(a)));
    if HasAuthorities(a) {
      AuthorityClaimRoundTrip(a.authorities.value);
    }
  }

  lemma StringPropertyOf(m: Claims, key: string, o: Option<string>)
    requires key in m && m[key] == OptStr(o)
    ensures StringProperty(m, key) == Success(o)
  {
  }

  /** `m` holds the ten `AuthUser` properties of `u`. */
  predicate HoldsUser(m: Claims, u: AuthUser) {
    && "userId" in m && m["userId"] == OptStr(u.userId)
    && "username" in m && m["username"] == OptStr(u.username)
    && "userNo" in m && m["userNo"] == OptStr(u.userNo)
    && "nickname" in m && m["nickname"] == OptStr(u.nickname)
    && "password" in m && m["password"] == OptStr(u.password)
    && "realname" in m && m["realname"] == OptStr(u.realname)
    && "portrait" in m && m["portrait"] == OptStr(u.portrait)
    && "gender" in m && m["gender"] == OptNum(u.gender)
    && "email" in m && m["email"] == OptStr(u.email)
    && "mobile" in m && m["mobile"] == OptStr(u.mobile)
  }

  /** Claims holding the properties of a valid user read back as that user. */
  lemma ToAuthUserOfHeld(m: Claims, u: AuthUser)
    requires Valid(u) && HoldsUser(m, u)
    ensures ToAuthUser(m) == Success(u)
  {
    StringPropertyOf(m, "userId", u.userId);
    StringPropertyOf(m, "username", u.username);
    StringPropertyOf(m, "userNo", u.userNo);
    StringPropertyOf(m, "nickname", u.nickname);
    StringPropertyOf(m, "password", u.password);
    StringPropertyOf(m, "realname", u.realname);
    StringPropertyOf(m, "portrait", u.portrait);
    assert IntegerProperty(m, "gender") == Success(u.gender);
    StringPropertyOf(m, "email", u.email);
    StringPropertyOf(m, "mobile", u.mobile);
  }

  /** The first five `AuthUser` properties in the projection of a `SecurityUser`. */
  lemma DetailsPropertiesFirst(d: Details)
    ensures var props := DetailsProperties(d);
      && "userId" in props && props["userId"] == OptStr(d.user.userId)
      && "username" in props && props["username"] == OptStr(d.user.username)
      && "userNo" in props && props["userNo"] == OptStr(d.user.userNo)
      && "nickname" in props && props["nickname"] == OptStr(d.user.nickname)
      && "password" in props && props["password"] == OptStr(d.user.password)
  {
  }

  /** The last five `AuthUser` properties in the projection of a `SecurityUser`. */
  lemma DetailsPropertiesLast(d: Details)
    ensures var props := DetailsProperties(d);
      && "realname" in props && props["realname"] == OptStr(d.user.realname)
      && "portrait" in props && props["portrait"] == OptStr(d.user.portrait)
      && "gender" in props && props["gender"] == OptNum(d.user.gender)
      && "email" in props && props["email"] == OptStr(d.user.email)
      && "mobile" in props && props["mobile"] == OptStr(d.user.mobile)
  {
  }

  /** The claims of a `UserDetails` principal hold all of its user's properties. */
  lemma EncodedClaimsHoldUser(a: Authentication)
    requires a.principal.UserDetailsPrincipal?
    ensures HoldsUser(EncodedClaims(a), a.principal.details.user)
  {
    DetailsPropertiesFirst(a.principal.details);
    DetailsPropertiesLast(a.principal.details);
  }

  /**
   * Round trip for a `UserDetails` principal, without a user-details service:
   * every `AuthUser` field comes back, the password included, and so does the
   * authority set.
   */
  lemma RoundTripUserDetails(c: AuthUserAuthenticationConverter, a: Authentication)
    requires c.userDetailsService.None?
    requires a.principal.UserDetailsPrincipal? && Valid(a.principal.details.user)
    requires a.authorities.Some? ==> CleanAuthorities(a.authorities.value)
    ensures var r := c.ExtractAuthentication(EncodedClaims(a));
      && r.Success? && r.value.Some?
      && r.value.value.principal == AuthUserPrincipal(a.principal.details.user)
      && r.value.value.principal.user.password == a.principal.details.user.password
      && Name(r.value.value) == Name(a)
      && (HasAuthorities(a) ==> forall x :: x in AsList(r.value.value.authorities) <==> x in a.authorities.value)
      && (!HasAuthorities(a) ==> r.value.value.authorities == Some(AsList(c.defaultAuthorities)))
  {
    var m := EncodedClaims(a);
    EncodedClaimsHoldUser(a);
    ToAuthUserOfHeld(m, a.principal.details.user);
    assert USERNAME in m;
    if HasAuthorities(a) {
      AuthorityClaimRoundTrip(a.authorities.value);
    }
  }

  /** The tokens of a good role and an em space, which `String.trim` keeps. */
  lemma EmSpaceTokens()
    ensures Tokens("ROLE_USER,\U{2003}") == ["ROLE_USER", "\U{2003}"]
  {
    var roles := ["ROLE_USER", "\U{2003}"];
    assert CleanToken(roles[0]) && CleanToken(roles[1]);
    assert roles[1..] == ["\U{2003}"];
    assert Join(roles) == roles[0] + "," + Join(roles[1..]);
    assert Join(roles) == "ROLE_USER,\U{2003}";
    TokensJoin(roles);
  }

  /**
   * An em space survives `String.trim`, which only removes characters up to the
   * space, but is not text: a claim listing it beside a good role is rejected as
   * a whole.
   */
  lemma BlankRoleRejected(c: AuthUserAuthenticationConverter)
    ensures c.GetAuthorities(map[AUTHORITIES := Str("ROLE_USER,\U{2003}")]) == Failure(Rejected(AssertionError(NO_TEXT)))
  {
    var s := "ROLE_USER,\U{2003}";
    var m := map[AUTHORITIES := Str(s)];
    assert AUTHORITIES in m && m[AUTHORITIES] == Str(s);
    EmSpaceTokens();
    EmSpaceNoText();
    assert !HasText(Tokens(s)[1]);
    assert CommaSeparatedAuthorities(s) == Failure(AssertionError(NO_TEXT));
  }

  /** An em space is whitespace to `Character.isWhitespace`. */
  lemma EmSpaceNoText()
    ensures !HasText("\U{2003}")
  {
    var t := "\U{2003}";
    assert |t| == 1 && t[0] == '\U{2003}';
    assert IsWhitespace(t[0]);
  }

  /**
   * A collection claim need not hold strings: a number in it is written in
   * decimal by `collectionToCommaDelimitedString` and becomes an authority.
   */
  lemma NumericAuthority(c: AuthUserAuthenticationConverter)
    ensures c.GetAuthorities(map[AUTHORITIES := Coll([Str("ROLE_A"), Num(42)])]) == Success(Some([Named("ROLE_A"), Named("42")]))
  {
    var items := [Str("ROLE_A"), Num(42)];
    var m := map[AUTHORITIES := Coll(items)];
    var roles := ["ROLE_A", "42"];
    FortyTwoText();
    assert ClaimTexts(items) == roles;
    assert CleanRole(roles[0]) && CleanRole(roles[1]);
    JoinedRolesParse(roles);
    assert Granted(roles) == [Named("ROLE_A"), Named("42")];
    assert m[AUTHORITIES] == Coll(items);
  }

  /** The number 42 is written "42". */
  lemma FortyTwoText()
    ensures ClaimText(Num(42)) == "42"
  {
    assert Digits(4) == "4";
    assert Digits(42) == Digits(4) + "2";
  }

  /** An empty claims map gives no authentication at all. */
  lemma ExtractEmpty(c: AuthUserAuthenticationConverter)
    ensures c.ExtractAuthentication(map[]) == Success(None)
  {
  }
}
