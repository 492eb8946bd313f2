/**
 * The user account: identity, credentials, display data and the active flag,
 * together with what the security layer reads from it.
 */
module Users {
  import opened Common
  import opened ErrorCodes

  /** The two kinds of account. */
  datatype UserType = Actor | Agency

  /** The enum constant's name, as `type.name()` returns it. */
  function TypeName(t: UserType): string
  {
    match t
    case Actor => "ACTOR"
    case Agency => "AGENCY"
  }

  /** A user's field values at one moment, in the order the entity declares them. */
  datatype UserRow = UserRow(
    id: Uuid, email: string, password: string, name: string,
    userType: UserType, profileImage: Option<string>, isActive: bool)

  /** The account data sent back to a client that logs in (`UserInfo.from`). */
  datatype UserInfo = UserInfo(id: Uuid, email: string, name: string, userType: UserType, profileImage: Option<string>)

  class User {
    const id: Uuid
    const email: string
    var password: string
    var name: string
    const userType: UserType
    var profileImage: Option<string>
    var isActive: bool

    /** The builder with every field given. */
    constructor (id: Uuid, email: string, password: string, name: string,
                 userType: UserType, profileImage: Option<string>, isActive: bool)
      ensures Row() == UserRow(id, email, password, name, userType, profileImage, isActive)
    {
      this.id := id;
      this.email := email;
      this.password := password;
      this.name := name;
      this.userType := userType;
      this.profileImage := profileImage;
      this.isActive := isActive;
    }

    /** The builder without an isActive value: the field defaults to true. */
    constructor WithDefaults(id: Uuid, email: string, password: string, name: string,
                             userType: UserType, profileImage: Option<string>)
      ensures Row() == UserRow(id, email, password, name, userType, profileImage, true)
      ensures IsEnabled()
    {
      this.id := id;
      this.email := email;
      this.password := password;
      this.name := name;
      this.userType := userType;
      this.profileImage := profileImage;
      this.isActive := true;
    }

    function Row(): UserRow
      reads this
    {
      UserRow(id, email, password, name, userType, profileImage, isActive)
    }

    function Info(): (r: UserInfo)
      reads this
      ensures r.id == id && r.email == email && r.name == name
      ensures r.userType == userType && r.profileImage == profileImage
    {
      UserInfo(id, email, name, userType, profileImage)
    }

    // UserDetails

    /** The granted authorities: the single role "ROLE_" followed by the type's name. */
    function Authorities(): (r: seq<string>)
      ensures |r| == 1 && |r[0]| > 5
      ensures r[0][..5] == "ROLE_" && r[0][5..] == TypeName(userType)
    {
      ["ROLE_" + TypeName(userType)]
    }

    /** The login name is the email. */
    function Username(): string
    {
      email
    }

    predicate IsAccountNonExpired()
    {
      true
    }

    predicate IsAccountNonLocked()
    {
      true
    }

    predicate IsCredentialsNonExpired()
    {
      true
    }

    /** An account is enabled exactly while it is active. */
    predicate IsEnabled()
      reads this
    {
      isActive
    }

    // business methods

    method UpdateProfile(name: string, profileImage: Option<string>)
      modifies this
      ensures Row() == old(Row()).(name := name, profileImage := profileImage)
    {
      this.name := name;
      this.profileImage := profileImage;
    }

    method UpdatePassword(encodedPassword: string)
      modifies this
      ensures Row() == old(Row()).(password := encodedPassword)
    {
      password := encodedPassword;
    }

    method Deactivate()
      modifies this
      ensures Row() == old(Row()).(isActive := false)
      ensures !IsEnabled()
    {
      isActive := false;
    }
  }

  /**
   * The role guard the services run before an actor-only or agency-only
   * operation: the account must have the required type, or the call fails
   * with FORBIDDEN.
   */
  function RequireType(u: User, required: UserType): (r: Result<(), ErrorCode>)
    ensures r.Success? <==> u.userType == required
    ensures r.Success? <==> u.Authorities() == ["ROLE_" + TypeName(required)]
    ensures r.Failure? ==> r.error == Forbidden
  {
    if u.userType != required then Failure(Forbidden) else Success(())
  }

  /** Accounts of different types never share an authority. */
  lemma AuthoritiesSeparateTypes(a: User, b: User)
    requires a.userType != b.userType
    ensures a.Authorities()[0] != b.Authorities()[0]
  {
    assert a.Authorities()[0][5..] != b.Authorities()[0][5..];
  }

  /** Whatever the account, the three expiry and lock checks pass; only isActive can disable it. */
  lemma OnlyActivityDisables(u: User)
    ensures u.IsAccountNonExpired() && u.IsAccountNonLocked() && u.IsCredentialsNonExpired()
    ensures u.IsEnabled() <==> u.isActive
    ensures u.Username() == u.email
  {
  }
}
