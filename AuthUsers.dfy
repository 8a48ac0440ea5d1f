/**
 * `AuthUser`, the principal record carried in tokens: ten nullable fields whose
 * identity (Lombok's `equals`/`hashCode` with `onlyExplicitlyIncluded`) is
 * `userId` and `username` alone. Dafny's `==` on the datatype compares every
 * field; Java's `equals` is `Equal` below.
 */
module AuthUsers {
  import opened Wrappers
  import opened JavaLang

  datatype AuthUser = AuthUser(
    userId: Option<string>,
    username: Option<string>,
    userNo: Option<string>,
    nickname: Option<string>,
    password: Option<string>,
    realname: Option<string>,
    portrait: Option<string>,
    gender: Option<int>,
    email: Option<string>,
    mobile: Option<string>)
  {
    /** `getName()`, the `java.security.Principal` name. */
    function Name(): Option<string> {
      username
    }
  }

  /** A freshly constructed `AuthUser`: every field is null. */
  const Blank: AuthUser := AuthUser(None, None, None, None, None, None, None, None, None, None)

  /** `gender` is a Java `Integer`. */
  predicate Valid(u: AuthUser) {
    u.gender.Some? ==> IsInt32(u.gender.value)
  }

  /** Lombok's `equals`: only the two included fields take part. */
  predicate Equal(a: AuthUser, b: AuthUser) {
    a.userId == b.userId && a.username == b.username
  }

  /** Lombok's `hashCode` term for one included field: 43 for null. */
  function FieldHash(s: Option<string>): (h: int)
    ensures IsInt32(h)
  {
    match s
    case None => 43
    case Some(v) => StringHash(v)
  }

  /** Lombok's `hashCode`: result = 1, then result = result * 59 + field hash per included field. */
  function HashCode(u: AuthUser): (h: int)
    ensures IsInt32(h)
  {
    var afterUserId := ToInt32(1 * 59 + FieldHash(u.userId));
    ToInt32(afterUserId * 59 + FieldHash(u.username))
  }

  lemma EqualReflexive(a: AuthUser)
    ensures Equal(a, a)
  {
  }

  lemma EqualSymmetric(a: AuthUser, b: AuthUser)
    ensures Equal(a, b) <==> Equal(b, a)
  {
  }

  lemma EqualTransitive(a: AuthUser, b: AuthUser, c: AuthUser)
    requires Equal(a, b) && Equal(b, c)
    ensures Equal(a, c)
  {
  }

  /** Equal users have equal hash codes, as the `equals`/`hashCode` contract demands. */
  lemma EqualHashCode(a: AuthUser, b: AuthUser)
    requires Equal(a, b)
    ensures HashCode(a) == HashCode(b)
  {
  }

  /** Changing any field other than `userId` and `username` keeps the user equal to the original. */
  lemma OtherFieldsIgnored(u: AuthUser, userNo: Option<string>, nickname: Option<string>,
                           password: Option<string>, realname: Option<string>, portrait: Option<string>,
                           gender: Option<int>, email: Option<string>, mobile: Option<string>)
    ensures Equal(u, u.(userNo := userNo, nickname := nickname, password := password, realname := realname,
                        portrait := portrait, gender := gender, email := email, mobile := mobile))
  {
  }

  /** Changing `userId` or `username` to a different value breaks equality with the original. */
  lemma IdentityFieldsMatter(u: AuthUser, userId: Option<string>, username: Option<string>)
    requires userId != u.userId || username != u.username
    ensures !Equal(u, u.(userId := userId, username := username))
  {
  }
}
