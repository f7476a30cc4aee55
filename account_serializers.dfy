/**
 * The account serializers: registration (password confirmation, then the
 * user manager without the confirmation field), and what the login token and
 * login response carry about the user.
 */
module AccountSerializers {

  import opened Wrappers
  import opened Accounts

  /** The fields a registration request carries. */
  datatype Registration = Registration(
    email: string,
    password: string,
    password2: string,
    firstName: string,
    lastName: string,
    role: Option<Role>)

  const PasswordMismatchMessage: string := "Password fields didn't match."

  /** `RegisterSerializer.validate`: errors are keyed by field name. */
  function ValidateRegistration(attrs: Registration): (r: Result<Registration, map<string, string>>)
    ensures r.Ok? <==> attrs.password == attrs.password2
    ensures r.Ok? ==> r.value == attrs
    ensures r.Err? ==> r.error.Keys == {"password"} && r.error["password"] == PasswordMismatchMessage
  {
    if attrs.password != attrs.password2 then Err(map["password" := PasswordMismatchMessage])
    else Ok(attrs)
  }

  /** The keyword arguments `create` passes on once `password2` has been popped. */
  function ManagerArguments(data: Registration): (extra: ExtraFields)
    ensures extra.firstName == data.firstName && extra.lastName == data.lastName && extra.role == data.role
    ensures extra.isStaff.None? && extra.isSuperuser.None? && extra.isActive.None?
  {
    ExtraFields(data.firstName, data.lastName, data.role, None, None, None)
  }

  datatype RegisterError = Invalid(fields: map<string, string>) | Refused(error: ManagerError)

  /**
   * `RegisterView.create`: validation, then `RegisterSerializer.create`. The
   * user is created with the first password; the confirmation is not passed on.
   */
  method Register(db: AccountDb, attrs: Registration) returns (r: Result<User, RegisterError>)
    requires db.Valid()
    modifies db
    ensures db.Valid()
    ensures attrs.password != attrs.password2 ==> r.Err? && r.error.Invalid?
    ensures r.Err? ==> db.users == old(db.users) && db.nextUserId == old(db.nextUserId)
    ensures r.Ok? <==> attrs.password == attrs.password2 && attrs.email != [] && !EmailTaken(old(db.users), attrs.email)
    ensures r.Ok? ==> r.value == NewUser(old(db.nextUserId), attrs.email, Some(attrs.password), ManagerArguments(attrs))
                      && db.users == old(db.users) + [r.value] && db.nextUserId == old(db.nextUserId) + 1
    ensures db.broadcasters == old(db.broadcasters) && db.nextBroadcasterId == old(db.nextBroadcasterId)
  {
    var valid := ValidateRegistration(attrs);
    if valid.Err? {
      return Err(Invalid(valid.error));
    }
    var created := db.CreateUser(attrs.email, Some(attrs.password), ManagerArguments(valid.value));
    match created
    case Ok(u) => r := Ok(u);
    case Err(e) => r := Err(Refused(e));
  }

  /**
   * Registration leaves the role to the request: a registrant who asks for
   * the admin role and confirms the password gets an admin account without
   * staff or superuser flags.
   */
  lemma RegistrationMayChooseAnyRole(id: nat, attrs: Registration, role: Role)
    requires attrs.role == Some(role) && attrs.password == attrs.password2
    ensures ValidateRegistration(attrs).Ok?
    ensures var u := NewUser(id, attrs.email, Some(attrs.password), ManagerArguments(attrs));
            u.role == role && !u.isStaff && !u.isSuperuser && u.password == Some(attrs.password)
  {
  }

  /** A value stored in a token or in the login response's user dictionary. */
  datatype Claim = ClaimText(text: string) | ClaimFlag(flag: bool) | ClaimNumber(number: int)

  /** `CustomTokenObtainPairSerializer.get_token`: the custom claims written over the library's own. */
  function TokenClaims(user: User, base: map<string, Claim>): (r: map<string, Claim>)
    ensures r.Keys == base.Keys + {"email", "role", "is_email_verified"}
    ensures r["email"] == ClaimText(user.email)
    ensures r["role"] == ClaimText(RoleCode(user.role))
    ensures r["is_email_verified"] == ClaimFlag(user.isEmailVerified)
    ensures forall k :: k in base && k !in {"email", "role", "is_email_verified"} ==> r[k] == base[k]
  {
    base["email" := ClaimText(user.email)]["role" := ClaimText(RoleCode(user.role))]
        ["is_email_verified" := ClaimFlag(user.isEmailVerified)]
  }

  /** Two users whose tokens carry the same custom claims agree on email, role and verification. */
  lemma ClaimsDetermineFields(a: User, b: User, base: map<string, Claim>)
    requires TokenClaims(a, base) == TokenClaims(b, base)
    ensures a.email == b.email && a.role == b.role && a.isEmailVerified == b.isEmailVerified
  {
    assert TokenClaims(a, base)["role"] == TokenClaims(b, base)["role"];
  }

  /** The `user` dictionary `CustomTokenObtainPairSerializer.validate` adds to the login response. */
  function LoginUserDict(user: User): (r: map<string, Claim>)
    ensures r.Keys == {"id", "email", "first_name", "last_name", "role", "is_email_verified"}
    ensures r["id"] == ClaimNumber(user.id) && r["email"] == ClaimText(user.email)
    ensures r["first_name"] == ClaimText(user.firstName) && r["last_name"] == ClaimText(user.lastName)
    ensures r["role"] == ClaimText(RoleCode(user.role)) && r["is_email_verified"] == ClaimFlag(user.isEmailVerified)
  {
    map["id" := ClaimNumber(user.id), "email" := ClaimText(user.email),
        "first_name" := ClaimText(user.firstName), "last_name" := ClaimText(user.lastName),
        "role" := ClaimText(RoleCode(user.role)), "is_email_verified" := ClaimFlag(user.isEmailVerified)]
  }
}
