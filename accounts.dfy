/**
 * Accounts: users and their roles, user profiles, broadcaster profiles with
 * their verification status, and the user manager that creates accounts.
 */
module Accounts {

  import opened Wrappers
  import Ranking

  /** `User.Role`. */
  datatype Role = Customer | Broadcaster | Admin

  function RoleCode(r: Role): string {
    match r
    case Customer => "CUSTOMER"
    case Broadcaster => "BROADCASTER"
    case Admin => "ADMIN"
  }

  /** A user account; the password is kept as given (hashing is not modelled). */
  datatype User = User(
    id: nat,
    email: string,
    firstName: string,
    lastName: string,
    role: Role,
    isEmailVerified: bool,
    isStaff: bool,
    isSuperuser: bool,
    isActive: bool,
    password: Option<string>)

  predicate IsCustomer(u: User) { u.role == Customer }
  predicate IsBroadcaster(u: User) { u.role == Broadcaster }
  predicate IsAdmin(u: User) { u.role == Admin }

  /** Who sent a request: an anonymous visitor or a signed-in user. */
  datatype Requester = Anonymous | SignedIn(user: User)

  /** `UserProfile.Language`. */
  datatype ProfileLanguage = En | Ar

  function ProfileLanguageCode(l: ProfileLanguage): string {
    match l
    case En => "en"
    case Ar => "ar"
  }

  /** Reading a stored language code; anything but the two codes is refused. */
  function ParseProfileLanguage(code: string): (r: Option<ProfileLanguage>)
    ensures r.Some? ==> ProfileLanguageCode(r.value) == code
  {
    if code == "en" then Some(En) else if code == "ar" then Some(Ar) else None
  }

  lemma ProfileLanguageRoundTrip(l: ProfileLanguage)
    ensures ParseProfileLanguage(ProfileLanguageCode(l)) == Some(l)
    ensures ProfileLanguageCode(l) in {"en", "ar"}
  {
  }

  /** A user's profile: their preferred language and favourite artists (by id). */
  datatype UserProfile = UserProfile(userId: nat, language: ProfileLanguage, favoriteArtists: seq<nat>)

  /** A fresh profile: English and no favourite artists. */
  function NewProfile(userId: nat): (p: UserProfile)
    ensures p.userId == userId
    ensures ProfileLanguageCode(p.language) == "en" && p.favoriteArtists == []
  {
    UserProfile(userId, En, [])
  }

  /** `Broadcaster.VerificationStatus`. */
  datatype VerificationStatus = Pending | Verified | Rejected

  /** A broadcaster profile, linked one-to-one to a user. */
  datatype BroadcasterProfile = BroadcasterProfile(
    id: nat,
    userId: nat,
    status: VerificationStatus,
    bio: string,
    totalUploads: nat,
    totalPlays: nat)

  predicate IsVerified(b: BroadcasterProfile) { b.status == Verified }

  /** A new broadcaster profile: pending, not verified, no uploads or plays. */
  function NewBroadcaster(id: nat, userId: nat, bio: string): (b: BroadcasterProfile)
    ensures b.id == id && b.userId == userId && b.bio == bio
    ensures b.status == Pending && !IsVerified(b)
    ensures b.totalUploads == 0 && b.totalPlays == 0
  {
    BroadcasterProfile(id, userId, Pending, bio, 0, 0)
  }

  /** `hasattr(user, 'broadcaster_profile')` and the profile it finds. */
  function BroadcasterOf(bs: seq<BroadcasterProfile>, userId: nat): (r: Option<BroadcasterProfile>)
    ensures r.Some? ==> r.value in bs && r.value.userId == userId
    ensures r.None? ==> forall i :: 0 <= i < |bs| ==> bs[i].userId != userId
  {
    match Ranking.IndexWhere(bs, (b: BroadcasterProfile) => b.userId == userId)
    case Some(k) => Some(bs[k])
    case None => None
  }

  /** The keyword arguments the manager accepts besides email and password; `None` when not passed. */
  datatype ExtraFields = ExtraFields(
    firstName: string,
    lastName: string,
    role: Option<Role>,
    isStaff: Option<bool>,
    isSuperuser: Option<bool>,
    isActive: Option<bool>)

  /** The errors the manager raises. */
  datatype ManagerError = EmailRequired | DuplicateEmail | StaffRequired | SuperuserRequired

  /** The model's field defaults applied to the fields passed in. */
  function NewUser(id: nat, email: string, password: Option<string>, extra: ExtraFields): (u: User)
    ensures u.id == id && u.email == email && u.password == password
    ensures u.firstName == extra.firstName && u.lastName == extra.lastName
    ensures extra.role.None? ==> IsCustomer(u)
    ensures extra.role.Some? ==> u.role == extra.role.value
    ensures u.isStaff <==> extra.isStaff == Some(true)
    ensures u.isSuperuser <==> extra.isSuperuser == Some(true)
    ensures u.isActive <==> extra.isActive != Some(false)
    ensures !u.isEmailVerified
  {
    User(id, email, extra.firstName, extra.lastName, OrElse(extra.role, Customer),
         false, OrElse(extra.isStaff, false), OrElse(extra.isSuperuser, false),
         OrElse(extra.isActive, true), password)
  }

  /**
   * The `setdefault` calls and checks of `create_superuser`: staff, superuser
   * and active default to true and the role to admin; an explicit false for
   * staff or superuser is refused.
   */
  function SuperuserFields(extra: ExtraFields): (r: Result<ExtraFields, ManagerError>)
    ensures r.Ok? <==> extra.isStaff != Some(false) && extra.isSuperuser != Some(false)
    ensures r.Err? ==> r.error == (if extra.isStaff == Some(false) then StaffRequired else SuperuserRequired)
    ensures r.Ok? ==> r.value.isStaff == Some(true) && r.value.isSuperuser == Some(true)
    ensures r.Ok? ==> r.value.isActive == Some(extra.isActive != Some(false))
    ensures r.Ok? ==> r.value.role == Some(if extra.role.Some? then extra.role.value else Admin)
    ensures r.Ok? ==> r.value.firstName == extra.firstName && r.value.lastName == extra.lastName
  {
    var filled := extra.(
      isStaff := Some(OrElse(extra.isStaff, true)),
      isSuperuser := Some(OrElse(extra.isSuperuser, true)),
      isActive := Some(OrElse(extra.isActive, true)),
      role := Some(OrElse(extra.role, Admin)));
    assert OrElse(extra.isStaff, true) == (extra.isStaff != Some(false));
    assert OrElse(extra.isSuperuser, true) == (extra.isSuperuser != Some(false));
    assert OrElse(extra.isActive, true) == (extra.isActive != Some(false));
    if filled.isStaff != Some(true) then Err(StaffRequired)
    else if filled.isSuperuser != Some(true) then Err(SuperuserRequired)
    else Ok(filled)
  }

  /** A superuser created with no extra fields is an active staff superuser with the admin role. */
  lemma DefaultSuperuserIsAdmin(id: nat, email: string, password: Option<string>, first: string, last: string)
    ensures var extra := ExtraFields(first, last, None, None, None, None);
            SuperuserFields(extra).Ok?
            && var u := NewUser(id, email, password, SuperuserFields(extra).value);
            IsAdmin(u) && u.isStaff && u.isSuperuser && u.isActive
  {
  }

  predicate EmailTaken(users: seq<User>, email: string) {
    exists i :: 0 <= i < |users| && users[i].email == email
  }

  /** The account tables: users and broadcaster profiles, with the next ids to hand out. */
  class AccountDb {
    var users: seq<User>
    var broadcasters: seq<BroadcasterProfile>
    var nextUserId: nat
    var nextBroadcasterId: nat

    /** Ids are unique and below the counters; emails are unique; one broadcaster profile per user. */
    ghost predicate Valid()
      reads this
    {
      (forall i :: 0 <= i < |users| ==> users[i].id < nextUserId)
      && (forall i, j :: 0 <= i < j < |users| ==> users[i].id != users[j].id && users[i].email != users[j].email)
      && (forall i :: 0 <= i < |broadcasters| ==> broadcasters[i].id < nextBroadcasterId)
      && (forall i, j :: 0 <= i < j < |broadcasters| ==>
            broadcasters[i].id != broadcasters[j].id && broadcasters[i].userId != broadcasters[j].userId)
    }

    constructor ()
      ensures Valid() && users == [] && broadcasters == []
    {
      users := [];
      broadcasters := [];
      nextUserId := 1;
      nextBroadcasterId := 1;
    }

    /** `UserManager.create_user`: an empty or already registered email creates nothing. */
    method CreateUser(email: string, password: Option<string>, extra: ExtraFields) returns (r: Result<User, ManagerError>)
      requires Valid()
      modifies this
      ensures Valid()
      ensures r.Err? <==> email == [] || EmailTaken(old(users), email)
      ensures r.Err? ==> r.error == (if email == [] then EmailRequired else DuplicateEmail)
      ensures r.Err? ==> users == old(users) && nextUserId == old(nextUserId)
      ensures r.Ok? ==> r.value == NewUser(old(nextUserId), email, password, extra)
      ensures r.Ok? ==> users == old(users) + [r.value] && nextUserId == old(nextUserId) + 1
      ensures broadcasters == old(broadcasters) && nextBroadcasterId == old(nextBroadcasterId)
    {
      if email == [] {
        return Err(EmailRequired);
      }
      if exists i :: 0 <= i < |users| && users[i].email == email {
        return Err(DuplicateEmail);
      }
      var u := NewUser(nextUserId, email, password, extra);
      users := users + [u];
      nextUserId := nextUserId + 1;
      r := Ok(u);
    }

    /** `UserManager.create_superuser`: the superuser defaults and checks, then `create_user`. */
    method CreateSuperuser(email: string, password: Option<string>, extra: ExtraFields) returns (r: Result<User, ManagerError>)
      requires Valid()
      modifies this
      ensures Valid()
      ensures SuperuserFields(extra).Err? ==> r == Err(SuperuserFields(extra).error) && users == old(users)
      ensures SuperuserFields(extra).Ok? ==>
                (r.Err? <==> email == [] || EmailTaken(old(users), email))
      ensures r.Ok? ==> r.value == NewUser(old(nextUserId), email, password, SuperuserFields(extra).value)
                        && users == old(users) + [r.value] && nextUserId == old(nextUserId) + 1
      ensures r.Ok? ==> r.value.isStaff && r.value.isSuperuser
      ensures r.Err? ==> users == old(users) && nextUserId == old(nextUserId)
      ensures broadcasters == old(broadcasters) && nextBroadcasterId == old(nextBroadcasterId)
    {
      var fields := SuperuserFields(extra);
      if fields.Err? {
        return Err(fields.error);
      }
      r := CreateUser(email, password, fields.value);
    }
  }
}
