/**
 * `SecurityUser`: an `AuthUser` that is also a Spring `UserDetails`, with its
 * authority set and four account flags. Its setters update it in place, so it is
 * a class; `Details` is the value a caller observes through its getters.
 */
module SecurityUsers {
  import opened Wrappers
  import opened AuthUsers
  import opened AuthorityOrder

  /** What the getters of a `SecurityUser` return; `authorities` is null until set. */
  datatype Details = Details(
    user: AuthUser,
    authorities: Option<seq<Authority>>,
    accountNonExpired: bool,
    accountNonLocked: bool,
    credentialsNonExpired: bool,
    enabled: bool)

  /** The `IllegalArgumentException` raised by Spring's `Assert.notNull`. */
  datatype AssertionError = AssertionError(message: string)

  const NULL_COLLECTION: string := "Cannot pass a null GrantedAuthority collection"
  const NULL_ELEMENT: string := "GrantedAuthority list cannot contain any null elements"

  predicate NoNulls(xs: seq<Option<Authority>>) {
    forall i :: 0 <= i < |xs| ==> xs[i].Some?
  }

  function Present(xs: seq<Option<Authority>>): (r: seq<Authority>)
    requires NoNulls(xs)
    ensures |r| == |xs| && forall i :: 0 <= i < |xs| ==> r[i] == xs[i].value
  {
    seq(|xs|, i requires 0 <= i < |xs| => xs[i].value)
  }

  /**
   * `sortAuthorities`: reject a null collection or a null element, otherwise add
   * every authority, in order, to a tree set ordered by the comparator.
   */
  method SortAuthorities(authorities: Option<seq<Option<Authority>>>)
    returns (r: Result<seq<Authority>, AssertionError>)
    ensures authorities.None? ==> r == Failure(AssertionError(NULL_COLLECTION))
    ensures authorities.Some? && !NoNulls(authorities.value) ==> r == Failure(AssertionError(NULL_ELEMENT))
    ensures r.Success? <==> authorities.Some? && NoNulls(authorities.value)
    ensures r.Success? ==>
      var xs := Present(authorities.value);
      && r.value == SortedForm(xs)
      && Ordered(r.value)
      && (forall a :: a in r.value <==> a in xs)
      && UnnamedOf(r.value) == Reverse(UnnamedOf(xs))
      && |r.value| <= |xs|
  {
    if authorities.None? {
      return Failure(AssertionError(NULL_COLLECTION));
    }
    var xs := authorities.value;
    var sorted: seq<Authority> := [];
    for i := 0 to |xs|
      invariant NoNulls(xs[..i])
      invariant sorted == SortedForm(Present(xs[..i]))
    {
      if xs[i].None? {
        return Failure(AssertionError(NULL_ELEMENT));
      }
      assert xs[..i + 1] == xs[..i] + [xs[i]];
      assert Present(xs[..i + 1])[..i] == Present(xs[..i]);
      sorted := Insert(sorted, xs[i].value);
    }
    assert xs[..|xs|] == xs;
    SortedFormSpec(Present(xs));
    return Success(sorted);
  }

  class SecurityUser {
    /** The fields inherited from `AuthUser`. */
    var user: AuthUser
    var authorities: Option<seq<Authority>>
    var accountNonExpired: bool
    var accountNonLocked: bool
    var credentialsNonExpired: bool
    var enabled: bool

    /** `new SecurityUser()`: every reference field null, every flag false. */
    constructor ()
      ensures user == Blank && authorities == None
      ensures !accountNonExpired && !accountNonLocked && !credentialsNonExpired && !enabled
    {
      user := Blank;
      authorities := None;
      accountNonExpired, accountNonLocked, credentialsNonExpired, enabled := false, false, false, false;
    }

    function View(): Details
      reads this
    {
      Details(user, authorities, accountNonExpired, accountNonLocked, credentialsNonExpired, enabled)
    }

    /**
     * `setAuthorities`: on success the field holds the sorted set; when the
     * assertion fails the field keeps its old value.
     */
    method SetAuthorities(auths: Option<seq<Option<Authority>>>) returns (r: Result<(), AssertionError>)
      modifies this`authorities
      ensures r.Success? <==> auths.Some? && NoNulls(auths.value)
      ensures r.Success? ==> authorities == Some(SortedForm(Present(auths.value)))
      ensures r.Failure? ==> authorities == old(authorities)
    {
      var sorted := SortAuthorities(auths);
      if sorted.Failure? {
        return Failure(sorted.error);
      }
      authorities := Some(sorted.value);
      return Success(());
    }

    /** `eraseCredentials`: the password becomes null and nothing else changes. */
    method EraseCredentials()
      modifies this`user
      ensures user == old(user).(password := None)
    {
      user := user.(password := None);
    }

    /** Lombok's `equals` with `callSuper = true` and no own fields: the `AuthUser` identity only. */
    predicate Equals(other: SecurityUser)
      reads this, other
    {
      Equal(user, other.user)
    }

    /** Lombok's `hashCode` with `callSuper = true` and no own fields: the `AuthUser` hash. */
    function HashCode(): int
      reads this
    {
      AuthUsers.HashCode(user)
    }
  }

  /** Two security users with the same `userId` and `username` are equal, however their authorities and flags differ. */
  lemma EqualsIgnoresOwnFields(a: SecurityUser, b: SecurityUser)
    requires a.user.userId == b.user.userId && a.user.username == b.user.username
    ensures a.Equals(b) && b.Equals(a) && a.HashCode() == b.HashCode()
  {
  }
}
