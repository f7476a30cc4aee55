/**
 * The role-based permission checks and the permission lists each view set
 * hands out per action.
 */
module Permissions {

  import opened Wrappers
  import opened Accounts

  /** `IsCustomer.has_permission`. */
  predicate IsCustomerGrant(req: Requester) {
    req.SignedIn? && IsCustomer(req.user)
  }

  /** `IsBroadcaster.has_permission`. */
  predicate IsBroadcasterGrant(req: Requester) {
    req.SignedIn? && IsBroadcaster(req.user)
  }

  /** `IsAdmin.has_permission`. */
  predicate IsAdminGrant(req: Requester) {
    req.SignedIn? && IsAdmin(req.user)
  }

  /** `IsBroadcasterOrAdmin.has_permission`. */
  predicate IsBroadcasterOrAdminGrant(req: Requester) {
    req.SignedIn? && (IsBroadcaster(req.user) || IsAdmin(req.user))
  }

  /** The broadcaster-or-admin check is exactly the disjunction of the two role checks. */
  lemma BroadcasterOrAdminIsDisjunction(req: Requester)
    ensures IsBroadcasterOrAdminGrant(req) <==> IsBroadcasterGrant(req) || IsAdminGrant(req)
  {
  }

  /** At most one of the three role checks holds for any request, and none for an anonymous one. */
  lemma RoleGrantsExclusive(req: Requester)
    ensures !(IsCustomerGrant(req) && IsBroadcasterGrant(req))
    ensures !(IsCustomerGrant(req) && IsAdminGrant(req))
    ensures !(IsBroadcasterGrant(req) && IsAdminGrant(req))
    ensures req.Anonymous? ==> !IsCustomerGrant(req) && !IsBroadcasterGrant(req) && !IsAdminGrant(req)
  {
  }

  /**
   * `IsVerifiedBroadcaster.has_permission`; `profile` is the requester's
   * broadcaster profile, if they have one.
   */
  function IsVerifiedBroadcasterGrant(req: Requester, profile: Option<BroadcasterProfile>): (r: bool)
    ensures req.Anonymous? ==> !r
    ensures req.SignedIn? && IsAdmin(req.user) ==> r
    ensures req.SignedIn? && IsBroadcaster(req.user) ==> (r <==> profile.Some? && IsVerified(profile.value))
    ensures req.SignedIn? && IsCustomer(req.user) ==> !r
  {
    if req.Anonymous? then false
    else if IsAdmin(req.user) then true
    else if IsBroadcaster(req.user) then profile.Some? && IsVerified(profile.value)
    else false
  }

  /**
   * The object a per-object check is asked about: a record with a `user`
   * field, a user record itself, or anything else.
   */
  datatype Target = OwnedBy(owner: nat) | UserRecord(userId: nat) | Unowned

  /** `IsOwnerOrAdmin.has_object_permission`. */
  function IsOwnerOrAdminGrant(user: User, obj: Target): (r: bool)
    ensures IsAdmin(user) ==> r
    ensures !IsAdmin(user) && obj.OwnedBy? ==> (r <==> obj.owner == user.id)
    ensures !IsAdmin(user) && obj.UserRecord? ==> (r <==> obj.userId == user.id)
    ensures obj.Unowned? ==> (r <==> IsAdmin(user))
  {
    if IsAdmin(user) then true
    else match obj
      case OwnedBy(owner) => owner == user.id
      case UserRecord(id) => id == user.id
      case Unowned => false
  }

  /** The permission classes a view set returns from `get_permissions`. */
  datatype Permission =
    | AllowAnyone
    | RequireAuthenticated
    | RequireAdmin
    | RequireBroadcasterOrAdmin
    | RequireVerifiedBroadcaster
    | RequireOwnerOrAdmin

  /** The view-level check of one permission class. */
  predicate HasPermission(p: Permission, req: Requester, profile: Option<BroadcasterProfile>) {
    match p
    case AllowAnyone => true
    case RequireAuthenticated => req.SignedIn?
    case RequireAdmin => IsAdminGrant(req)
    case RequireBroadcasterOrAdmin => IsBroadcasterOrAdminGrant(req)
    case RequireVerifiedBroadcaster => IsVerifiedBroadcasterGrant(req, profile)
    case RequireOwnerOrAdmin => true
  }

  /**
   * The per-object check of one permission class. Only the owner-or-admin
   * class restricts objects; an anonymous requester never gets this far,
   * because every list holding it starts with the authentication check.
   */
  predicate HasObjectPermission(p: Permission, req: Requester, obj: Target) {
    p == RequireOwnerOrAdmin ==> req.SignedIn? && IsOwnerOrAdminGrant(req.user, obj)
  }

  /** A request passes a view when every permission in its list grants it. */
  predicate ViewAllowed(perms: seq<Permission>, req: Requester, profile: Option<BroadcasterProfile>) {
    forall i :: 0 <= i < |perms| ==> HasPermission(perms[i], req, profile)
  }

  /** A request may act on an object when every permission in the list grants it for that object. */
  predicate ObjectAllowed(perms: seq<Permission>, req: Requester, obj: Target) {
    forall i :: 0 <= i < |perms| ==> HasObjectPermission(perms[i], req, obj)
  }

  lemma ViewAllowedPair(a: Permission, b: Permission, req: Requester, profile: Option<BroadcasterProfile>)
    ensures ViewAllowed([a, b], req, profile) <==> HasPermission(a, req, profile) && HasPermission(b, req, profile)
  {
    assert [a, b][0] == a && [a, b][1] == b;
  }

  lemma ObjectAllowedPair(a: Permission, b: Permission, req: Requester, obj: Target)
    ensures ObjectAllowed([a, b], req, obj) <==> HasObjectPermission(a, req, obj) && HasObjectPermission(b, req, obj)
  {
    assert [a, b][0] == a && [a, b][1] == b;
  }

  lemma ViewAllowedSingle(a: Permission, req: Requester, profile: Option<BroadcasterProfile>)
    ensures ViewAllowed([a], req, profile) <==> HasPermission(a, req, profile)
  {
    assert [a][0] == a;
  }

  /** `MusicViewSet.get_permissions`. */
  function MusicPermissions(action: string): seq<Permission> {
    if action == "create" then [RequireAuthenticated, RequireVerifiedBroadcaster]
    else if action in ["update", "partial_update", "destroy"] then [RequireAuthenticated, RequireBroadcasterOrAdmin]
    else if action in ["list", "trending", "discover", "search"] then [AllowAnyone]
    else [RequireAuthenticated]
  }

  /** Who may use each music action. */
  lemma MusicAccess(action: string, req: Requester, profile: Option<BroadcasterProfile>)
    ensures action == "create" ==>
              (ViewAllowed(MusicPermissions(action), req, profile) <==> IsVerifiedBroadcasterGrant(req, profile))
    ensures action in ["update", "partial_update", "destroy"] ==>
              (ViewAllowed(MusicPermissions(action), req, profile) <==> IsBroadcasterOrAdminGrant(req))
    ensures action in ["list", "trending", "discover", "search"] ==> ViewAllowed(MusicPermissions(action), req, profile)
    ensures action !in ["create", "update", "partial_update", "destroy", "list", "trending", "discover", "search"] ==>
              (ViewAllowed(MusicPermissions(action), req, profile) <==> req.SignedIn?)
  {
    if action == "create" {
      ViewAllowedPair(RequireAuthenticated, RequireVerifiedBroadcaster, req, profile);
    } else if action in ["update", "partial_update", "destroy"] {
      ViewAllowedPair(RequireAuthenticated, RequireBroadcasterOrAdmin, req, profile);
    } else if action in ["list", "trending", "discover", "search"] {
      ViewAllowedSingle(AllowAnyone, req, profile);
    } else {
      ViewAllowedSingle(RequireAuthenticated, req, profile);
    }
  }

  /** `BroadcasterViewSet.get_permissions`. */
  function BroadcasterPermissions(action: string): seq<Permission> {
    if action == "create" then [RequireAuthenticated]
    else if action in ["update", "partial_update", "destroy"] then [RequireAuthenticated, RequireOwnerOrAdmin]
    else if action in ["verify", "reject"] then [RequireAuthenticated, RequireAdmin]
    else [RequireAuthenticated]
  }

  /**
   * Who may use each broadcaster action: verify and reject need an admin,
   * changing a profile needs its owner or an admin, everything else a
   * signed-in user.
   */
  lemma BroadcasterAccess(action: string, req: Requester, profile: Option<BroadcasterProfile>, obj: Target)
    ensures action in ["verify", "reject"] ==>
              (ViewAllowed(BroadcasterPermissions(action), req, profile) <==> IsAdminGrant(req))
    ensures action in ["update", "partial_update", "destroy"] ==>
              (ViewAllowed(BroadcasterPermissions(action), req, profile) && ObjectAllowed(BroadcasterPermissions(action), req, obj)
               <==> req.SignedIn? && IsOwnerOrAdminGrant(req.user, obj))
    ensures action !in ["verify", "reject"] ==>
              (ViewAllowed(BroadcasterPermissions(action), req, profile) <==> req.SignedIn?)
  {
    if action == "create" {
      ViewAllowedSingle(RequireAuthenticated, req, profile);
    } else if action in ["update", "partial_update", "destroy"] {
      ViewAllowedPair(RequireAuthenticated, RequireOwnerOrAdmin, req, profile);
      ObjectAllowedPair(RequireAuthenticated, RequireOwnerOrAdmin, req, obj);
    } else if action in ["verify", "reject"] {
      ViewAllowedPair(RequireAuthenticated, RequireAdmin, req, profile);
    } else {
      ViewAllowedSingle(RequireAuthenticated, req, profile);
    }
  }

  /** `AdvertisementViewSet.get_permissions`. */
  function AdPermissions(action: string): seq<Permission> {
    if action in ["list", "retrieve", "track_impression", "track_click"] then [AllowAnyone]
    else [RequireAuthenticated, RequireAdmin]
  }

  /** Ads are listed, read and tracked by anyone; every other ad action is for admins only. */
  lemma AdAccess(action: string, req: Requester, profile: Option<BroadcasterProfile>)
    ensures action in ["list", "retrieve", "track_impression", "track_click"] ==> ViewAllowed(AdPermissions(action), req, profile)
    ensures action !in ["list", "retrieve", "track_impression", "track_click"] ==>
              (ViewAllowed(AdPermissions(action), req, profile) <==> IsAdminGrant(req))
  {
    if action in ["list", "retrieve", "track_impression", "track_click"] {
      ViewAllowedSingle(AllowAnyone, req, profile);
    } else {
      ViewAllowedPair(RequireAuthenticated, RequireAdmin, req, profile);
    }
  }
}
