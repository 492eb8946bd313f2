/**
 * The authentication service: signup, login, refresh-token rotation, logout,
 * password reset and account deactivation over the user store and the
 * refresh-token store.
 *
 * Collaborators the service only calls are fields fixed at construction:
 * the token codec's validity check and subject reader (`tokenValid`,
 * `emailInToken`) and the password encoder (`encode`, `matches`). The
 * authentication manager is the DAO provider over the user store and that
 * encoder, so its decision is `Authenticates`. Tokens the codec issues during
 * a call, and the id the database assigns to a new user, are parameters of
 * that call.
 */
module Auth {
  import opened Common
  import opened ErrorCodes
  import opened Users
  import opened RefreshTokens

  datatype LoginResponse = LoginResponse(accessToken: Token, refreshToken: Token, user: UserInfo)

  datatype SignupResponse = SignupResponse(userId: Uuid, email: string, userType: UserType)

  datatype AuthTokens = AuthTokens(accessToken: Token, refreshToken: Token)

  /** The text of s before the first c (all of s when c does not occur). */
  function BeforeFirst(s: string, c: char): (r: string)
    ensures |r| <= |s| && r == s[..|r|]
    ensures c !in r
    ensures |r| < |s| ==> s[|r|] == c
  {
    if s == [] || s[0] == c then [] else [s[0]] + BeforeFirst(s[1..], c)
  }

  predicate OnlyChar(s: string, c: char)
  {
    forall i :: 0 <= i < |s| ==> s[i] == c
  }

  /**
   * `email.split("@")[0]`. Java's split drops trailing empty fields, so a
   * non-empty string made only of '@' splits into no field at all and the
   * index throws; otherwise the first field is the text before the first '@'.
   */
  function EmailLocalPart(email: string): (r: Option<string>)
    ensures r.None? <==> |email| > 0 && OnlyChar(email, '@')
    ensures r.Some? ==> '@' !in r.value && |r.value| <= |email| && email[..|r.value|] == r.value
    ensures r.Some? && |r.value| < |email| ==> email[|r.value|] == '@'
  {
    if |email| > 0 && OnlyChar(email, '@') then None else Some(BeforeFirst(email, '@'))
  }

  class AuthService {
    /** The user store, by id. */
    var users: map<Uuid, User>
    /** The refresh-token store. */
    var refreshTokens: TokenStore

    /** Whether the token codec accepts a token (signature and expiry). */
    const tokenValid: Token -> bool
    /** The subject (email) the codec reads from a token. */
    const emailInToken: Token -> string
    /** The password encoder's hash. */
    const encode: string -> string
    /** Whether the password encoder matches a raw password against a stored hash. */
    const matches: (string, string) -> bool

    /**
     * Every user sits under its own id, emails are unique (the column is
     * unique), the refresh-token store is consistent, and every stored
     * refresh record carries the 7-day time-to-live.
     */
    predicate Valid()
      reads this
    {
      (forall id :: id in users ==> users[id].id == id) &&
      (forall a, b :: a in users && b in users && users[a].email == users[b].email ==> a == b) &&
      RefreshTokens.Valid(refreshTokens) &&
      UniformTtl(refreshTokens, RefreshTtlSeconds)
    }

    constructor (tokenValid: Token -> bool, emailInToken: Token -> string,
                 encode: string -> string, matches: (string, string) -> bool)
      ensures Valid()
      ensures users == map[] && refreshTokens == EmptyStore
      ensures this.tokenValid == tokenValid && this.emailInToken == emailInToken
      ensures this.encode == encode && this.matches == matches
    {
      users := map[];
      refreshTokens := EmptyStore;
      this.tokenValid := tokenValid;
      this.emailInToken := emailInToken;
      this.encode := encode;
      this.matches := matches;
    }

    /** `existsByEmail`. */
    predicate EmailTaken(email: string)
      reads this
    {
      exists id :: id in users && users[id].email == email
    }

    /** `findByEmail`: the id of the user with that email. */
    function FindByEmail(email: string): (r: Option<Uuid>)
      reads this
      requires Valid()
      ensures r.Some? <==> EmailTaken(email)
      ensures r.Some? ==> r.value in users && users[r.value].email == email
    {
      if EmailTaken(email) then
        var id :| id in users && users[id].email == email;
        Some(id)
      else
        None
    }

    /**
     * The authentication manager's decision: the user loaded by email must
     * exist and be enabled (`isEnabled` is `isActive`), and the raw password
     * must match the stored hash.
     */
    predicate Authenticates(email: string, password: string)
      reads this, users.Values
      requires Valid()
    {
      EmailTaken(email) &&
      var user := users[FindByEmail(email).value];
      user.isActive && matches(password, user.password)
    }

    /** The record `saveRefreshToken` writes for a user. */
    function RecordFor(id: Uuid, email: string, token: Token): (r: RefreshToken)
      ensures r.id == id && r.email == email && r.token == token && r.expiration == RefreshTtlSeconds
    {
      Of(id, email, token, RefreshTtlSeconds)
    }

    /**
     * `login`: the authentication manager loads the user by email and refuses
     * an unknown email, a disabled account or a wrong password, all as
     * unauthorized; then the freshly issued refresh token is stored under the
     * user's id, replacing any earlier record.
     */
    method Login(email: string, password: string, issuedAccess: Token, issuedRefresh: Token)
      returns (r: Result<LoginResponse, ErrorCode>)
      requires Valid()
      modifies this
      ensures Valid()
      ensures users == old(users)
      ensures r.Success? <==> Authenticates(email, password)
      ensures !Authenticates(email, password) ==>
        r == Failure(Unauthorized) && refreshTokens == old(refreshTokens)
      ensures Authenticates(email, password) ==>
        var id := FindByEmail(email).value;
        r == Success(LoginResponse(issuedAccess, issuedRefresh, users[id].Info())) &&
        refreshTokens == Save(old(refreshTokens), RecordFor(id, email, issuedRefresh))
    {
      var found := FindByEmail(email);
      if found.None? {
        return Failure(Unauthorized);
      }
      var user := users[found.value];
      if !user.isActive || !matches(password, user.password) {
        return Failure(Unauthorized);
      }
      SaveRefreshToken(user.id, user.email, issuedRefresh);
      r := Success(LoginResponse(issuedAccess, issuedRefresh, user.Info()));
    }

    /**
     * `signup`: three checks in order (passwords match, email unused, both
     * agreements given), then a new active user named after the email's
     * local part. `newId` is the id the database assigns.
     */
    method Signup(email: string, password: string, passwordConfirm: string, userType: UserType,
                  termsAgreed: bool, privacyAgreed: bool, newId: Uuid)
      returns (r: Result<SignupResponse, ErrorCode>)
      requires Valid()
      requires newId !in users
      modifies this
      ensures Valid()
      ensures refreshTokens == old(refreshTokens)
      ensures r.Failure? ==> users == old(users)
      ensures password != passwordConfirm ==> r == Failure(ValidationError)
      ensures password == passwordConfirm && old(EmailTaken(email)) ==> r == Failure(EmailAlreadyExists)
      ensures password == passwordConfirm && !old(EmailTaken(email)) && !(termsAgreed && privacyAgreed) ==>
        r == Failure(ValidationError)
      ensures password == passwordConfirm && !old(EmailTaken(email)) && termsAgreed && privacyAgreed ==>
        match EmailLocalPart(email)
        case None => r == Failure(InternalServerError)
        case Some(name) =>
          r == Success(SignupResponse(newId, email, userType)) &&
          newId in users && fresh(users[newId]) && users == old(users)[newId := users[newId]] &&
          users[newId].Row() == UserRow(newId, email, encode(password), name, userType, None, true) &&
          forall p :: Authenticates(email, p) <==> matches(p, encode(password))
    {
      if password != passwordConfirm {
        return Failure(ValidationError);
      }
      if EmailTaken(email) {
        return Failure(EmailAlreadyExists);
      }
      if !termsAgreed || !privacyAgreed {
        return Failure(ValidationError);
      }
      var name := EmailLocalPart(email);
      if name.None? {
        return Failure(InternalServerError);
      }
      var user := new User(newId, email, encode(password), name.value, userType, None, true);
      users := users[newId := user];
      forall p ensures Authenticates(email, p) <==> matches(p, encode(password)) {
        AccountAuthenticates(this, newId, p);
      }
      r := Success(SignupResponse(newId, email, userType));
    }

    /** `logout`: delete the refresh record keyed by the user id, if any. */
    method Logout(userId: Uuid)
      requires Valid()
      modifies this
      ensures Valid()
      ensures users == old(users)
      ensures refreshTokens == DeleteById(old(refreshTokens), userId)
    {
      refreshTokens := DeleteById(refreshTokens, userId);
    }

    /**
     * `refreshToken`: check the presented token with the codec, find its
     * record, find the record's user by email, then delete the presented
     * token's record and store the newly issued one under the user's id.
     */
    method Refresh(presented: Token, issuedAccess: Token, issuedRefresh: Token)
      returns (r: Result<AuthTokens, ErrorCode>)
      requires Valid()
      modifies this
      ensures Valid()
      ensures users == old(users)
      ensures !tokenValid(presented) ==> r == Failure(Unauthorized)
      ensures tokenValid(presented) ==>
        match FindByToken(old(refreshTokens), presented)
        case NoRecord => r == Failure(Unauthorized)
        case Ambiguous => r == Failure(InternalServerError)
        case Found(stored) =>
          if !EmailTaken(stored.email) then r == Failure(ResourceNotFound)
          else
            var id := FindByEmail(stored.email).value;
            r == Success(AuthTokens(issuedAccess, issuedRefresh)) &&
            refreshTokens == Rotate(old(refreshTokens), presented, RecordFor(id, stored.email, issuedRefresh))
      ensures r.Failure? ==> refreshTokens == old(refreshTokens)
    {
      if !tokenValid(presented) {
        return Failure(Unauthorized);
      }
      var lookup := FindByToken(refreshTokens, presented);
      if lookup.NoRecord? {
        return Failure(Unauthorized);
      }
      if lookup.Ambiguous? {
        return Failure(InternalServerError);
      }
      var stored := lookup.record;
      var found := FindByEmail(stored.email);
      if found.None? {
        return Failure(ResourceNotFound);
      }
      var user := users[found.value];
      refreshTokens := DeleteByToken(refreshTokens, presented);
      SaveRefreshToken(user.id, user.email, issuedRefresh);
      r := Success(AuthTokens(issuedAccess, issuedRefresh));
    }

    /**
     * `forgotPassword`: only checks that the account exists; the reset token
     * it issues is logged, not stored, so no state changes.
     */
    method ForgotPassword(email: string) returns (r: Result<(), ErrorCode>)
      requires Valid()
      ensures r.Success? <==> EmailTaken(email)
      ensures r.Failure? ==> r.error == ResourceNotFound
    {
      var found := FindByEmail(email);
      if found.None? {
        return Failure(ResourceNotFound);
      }
      r := Success(());
    }

    /**
     * `resetPassword`: passwords must match, then the token must be valid;
     * the user named by the token's subject is saved again with the new hash
     * and every other field as it was.
     */
    method ResetPassword(token: Token, password: string, passwordConfirm: string)
      returns (r: Result<(), ErrorCode>)
      requires Valid()
      modifies this
      ensures Valid()
      ensures refreshTokens == old(refreshTokens)
      ensures r.Failure? ==> users == old(users)
      ensures password != passwordConfirm ==> r == Failure(ValidationError)
      ensures password == passwordConfirm && !tokenValid(token) ==> r == Failure(InvalidToken)
      ensures password == passwordConfirm && tokenValid(token) ==>
        var email := emailInToken(token);
        if !old(EmailTaken(email)) then r == Failure(ResourceNotFound)
        else
          var id := old(FindByEmail(email)).value;
          r == Success(()) && users.Keys == old(users).Keys && fresh(users[id]) &&
          (forall other :: other in users && other != id ==> users[other] == old(users)[other]) &&
          users[id].Row() == old(users[id].Row()).(password := encode(password)) &&
          forall p :: Authenticates(email, p) <==> users[id].isActive && matches(p, encode(password))
    {
      if password != passwordConfirm {
        return Failure(ValidationError);
      }
      if !tokenValid(token) {
        return Failure(InvalidToken);
      }
      var email := emailInToken(token);
      var found := FindByEmail(email);
      if found.None? {
        return Failure(ResourceNotFound);
      }
      var user := users[found.value];
      var updated := new User(user.id, user.email, encode(password), user.name, user.userType,
                              user.profileImage, user.isActive);
      users := users[user.id := updated];
      forall p ensures Authenticates(email, p) <==> updated.isActive && matches(p, encode(password)) {
        AccountAuthenticates(this, user.id, p);
      }
      r := Success(());
    }

    /**
     * `deleteAccount`: deactivate the user (the row stays) and delete the
     * user's refresh record.
     */
    method DeleteAccount(userId: Uuid) returns (r: Result<(), ErrorCode>)
      requires Valid()
      modifies this, if userId in users then {users[userId]} else {}
      ensures Valid()
      ensures users == old(users)
      ensures userId !in users ==> r == Failure(ResourceNotFound) && refreshTokens == old(refreshTokens)
      ensures userId in users ==>
        r == Success(()) &&
        users[userId].Row() == old(users[userId].Row()).(isActive := false) &&
        refreshTokens == DeleteById(old(refreshTokens), userId) &&
        forall p :: !Authenticates(users[userId].email, p)
    {
      if userId !in users {
        return Failure(ResourceNotFound);
      }
      var user := users[userId];
      user.Deactivate();
      refreshTokens := DeleteById(refreshTokens, userId);
      forall p ensures !Authenticates(user.email, p) {
        AccountAuthenticates(this, userId, p);
      }
      r := Success(());
    }

    /** `saveRefreshToken`: store a record with the fixed 7-day TTL under the user id. */
    method SaveRefreshToken(userId: Uuid, email: string, token: Token)
      requires RefreshTokens.Valid(refreshTokens)
      modifies this
      ensures users == old(users)
      ensures refreshTokens == Save(old(refreshTokens), RecordFor(userId, email, token))
    {
      refreshTokens := Save(refreshTokens, RecordFor(userId, email, token));
    }
  }

  /**
   * The authentication manager's decision for an account's own email depends
   * only on that account: it must be active and the password must match its
   * stored hash.
   */
  lemma AccountAuthenticates(s: AuthService, id: Uuid, password: string)
    requires s.Valid() && id in s.users
    ensures s.Authenticates(s.users[id].email, password) <==>
              s.users[id].isActive && s.matches(password, s.users[id].password)
  {
    var found := s.FindByEmail(s.users[id].email);
    assert found.value == id;
  }
}
