/**
 * `DefaultJdbcUserDetailsManager`: maps the rows of the user query to
 * `SecurityUser`s and completes a loaded user with its authorities. The query
 * itself is I/O; its result rows are a parameter.
 */
module UserDetailsManager {
  import opened Wrappers
  import opened AuthUsers
  import opened AuthorityOrder
  import opened SecurityUsers

  /** `status` codes of the user table. */
  const STATUS_LOCKED: int := 1
  const STATUS_DISABLED: int := 2

  /** One row of the user query; every column may be SQL NULL. */
  datatype UserRow = UserRow(
    id: Option<string>,
    username: Option<string>,
    userNo: Option<string>,
    nickname: Option<string>,
    password: Option<string>,
    realname: Option<string>,
    portrait: Option<string>,
    gender: Option<int>,
    email: Option<string>,
    mobile: Option<string>,
    status: Option<int>)

  /** `rs.getInt("status")`: SQL NULL reads as 0. */
  function Status(row: UserRow): int {
    row.status.GetOr(0)
  }

  /**
   * The user the row mapper builds: columns copied into the like-named fields
   * (`id` into `userId`), gender left null for a NULL column, the account locked
   * for status 1, disabled for status 2, and never expired.
   */
  function RowDetails(row: UserRow): (d: Details)
    ensures d.enabled <==> Status(row) != STATUS_DISABLED
    ensures d.accountNonLocked <==> Status(row) != STATUS_LOCKED
    ensures d.accountNonExpired && d.credentialsNonExpired
    ensures d.user == AuthUser(row.id, row.username, row.userNo, row.nickname, row.password, row.realname, row.portrait,
                               row.gender, row.email, row.mobile)
    ensures d.user.Name() == row.username
    ensures d.authorities == None
  {
    var u := AuthUser(row.id, row.username, row.userNo, row.nickname, row.password, row.realname, row.portrait,
                      row.gender, row.email, row.mobile);
    Details(u, None, true, Status(row) != STATUS_LOCKED, true, Status(row) != STATUS_DISABLED)
  }

  class DefaultJdbcUserDetailsManager {
    var usernameBasedPrimaryKey: bool

    constructor ()
      ensures usernameBasedPrimaryKey
    {
      usernameBasedPrimaryKey := true;
    }

    method SetUsernameBasedPrimaryKey(usernameBasedPrimaryKey: bool)
      modifies this`usernameBasedPrimaryKey
      ensures this.usernameBasedPrimaryKey == usernameBasedPrimaryKey
    {
      this.usernameBasedPrimaryKey := usernameBasedPrimaryKey;
    }

    /** The row-mapping lambda: a new `SecurityUser` filled by setter calls. */
    method MapUserRow(row: UserRow) returns (user: SecurityUser)
      ensures fresh(user)
      ensures user.View() == RowDetails(row)
    {
      var status := Status(row);
      user := new SecurityUser();
      user.user := user.user.(userId := row.id);
      user.user := user.user.(username := row.username);
      user.user := user.user.(userNo := row.userNo);
      user.user := user.user.(nickname := row.nickname);
      user.user := user.user.(password := row.password);
      user.user := user.user.(realname := row.realname);
      user.user := user.user.(portrait := row.portrait);
      if row.gender.Some? {
        user.user := user.user.(gender := row.gender);
      }
      user.user := user.user.(email := row.email);
      user.user := user.user.(mobile := row.mobile);
      user.enabled := status != STATUS_DISABLED;
      user.accountNonExpired := true;
      user.accountNonLocked := status != STATUS_LOCKED;
      user.credentialsNonExpired := true;
    }

    /** `loadUsersByUsername` over the rows the query returned: one new user per row, in row order. */
    method LoadUsersByUsername(rows: seq<UserRow>) returns (users: seq<SecurityUser>)
      ensures |users| == |rows|
      ensures forall i :: 0 <= i < |rows| ==> fresh(users[i]) && users[i].View() == RowDetails(rows[i])
    {
      users := [];
      for i := 0 to |rows|
        invariant |users| == i
        invariant forall j :: 0 <= j < i ==> fresh(users[j]) && users[j].View() == RowDetails(rows[j])
      {
        var user := MapUserRow(rows[i]);
        users := users + [user];
      }
    }

    /**
     * `createUserDetails`: the queried user itself, its username replaced by the
     * requested one unless usernames are the primary key, and its authorities set
     * to the sorted form of the combined list. When the list is rejected the
     * username has already been replaced.
     */
    method CreateUserDetails(username: Option<string>, user: SecurityUser, combinedAuthorities: Option<seq<Option<Authority>>>)
      returns (r: Result<SecurityUser, AssertionError>)
      modifies user
      ensures user.user == (if usernameBasedPrimaryKey then old(user.user) else old(user.user).(username := username))
      ensures r.Success? <==> combinedAuthorities.Some? && NoNulls(combinedAuthorities.value)
      ensures r.Success? ==> r.value == user && user.authorities == Some(SortedForm(Present(combinedAuthorities.value)))
      ensures r.Failure? ==> user.authorities == old(user.authorities)
      ensures user.accountNonExpired == old(user.accountNonExpired) && user.accountNonLocked == old(user.accountNonLocked)
      ensures user.credentialsNonExpired == old(user.credentialsNonExpired) && user.enabled == old(user.enabled)
    {
      if !usernameBasedPrimaryKey {
        user.user := user.user.(username := username);
      }
      var outcome := user.SetAuthorities(combinedAuthorities);
      if outcome.Failure? {
        return Failure(outcome.error);
      }
      return Success(user);
    }
  }

  /** A NULL status is an active account: enabled and not locked. */
  lemma NullStatusIsActive(row: UserRow)
    requires row.status.None?
    ensures RowDetails(row).enabled && RowDetails(row).accountNonLocked
  {
  }

  /** No status makes an account both locked and disabled. */
  lemma NeverLockedAndDisabled(row: UserRow)
    ensures RowDetails(row).enabled || RowDetails(row).accountNonLocked
  {
  }

  /** A mapped user is identified by its `id` and `username` columns. */
  lemma RowIdentity(a: UserRow, b: UserRow)
    ensures Equal(RowDetails(a).user, RowDetails(b).user) <==> a.id == b.id && a.username == b.username
  {
  }
}
