/** The access decisions of src/middleware/auth.js. Each middleware either passes the request on
    or answers with a status; what it attaches to the request is returned as a value. */
module Auth {
  import opened Common
  import opened UserModel
  import opened HackathonRecord

  datatype Decision = Allow | Deny(status: nat)

  /** `authorize(...roles)`: 401 without an authenticated user, otherwise the user must hold one
      of the listed roles, else 403. */
  function Authorize(user: Option<User>, roles: seq<Role>): (d: Decision)
    ensures user.None? ==> d == Deny(Unauthorized)
    ensures user.Some? ==> (d == Allow <==> exists x :: x in roles && x in user.value.roles)
    ensures user.Some? && d != Allow ==> d == Deny(Forbidden)
  {
    if user.None? then Deny(Unauthorized)
    else if HasAnyRole(user.value.roles, roles) then Allow
    else Deny(Forbidden)
  }

  /** The organizer-or-administrator test the middleware and several handlers share. */
  predicate OrganizerOrAdmin(caller: UserId, u: User, h: Hackathon)
  {
    h.organizer == caller || IsAdmin(u)
  }

  /** `isOrganizer`: 404 for a missing hackathon, then the caller must organize it or be an
      administrator, else 403. */
  function OrganizerCheck(caller: UserId, u: User, h: Option<Hackathon>): (d: Decision)
    ensures h.None? ==> d == Deny(NotFound)
    ensures h.Some? ==> (d == Allow <==> h.value.organizer == caller || Admin in u.roles || SuperAdmin in u.roles)
    ensures h.Some? && d != Allow ==> d == Deny(Forbidden)
  {
    if h.None? then Deny(NotFound)
    else if OrganizerOrAdmin(caller, u, h.value) then Allow
    else Deny(Forbidden)
  }

  /** `isCoordinator`: 404 for a missing hackathon; the organizer, an administrator or an
      accepted coordinator passes and gets the coordinator permissions attached (none for an
      organizer or administrator who is not a coordinator); anyone else gets 403. */
  function CoordinatorCheck(caller: UserId, u: User, hid: HackathonId, h: Option<Hackathon>): (r: Outcome<Option<Permissions>>)
    ensures h.None? ==> r == Err(NotFound)
    ensures h.Some? ==> (r.Ok? <==> h.value.organizer == caller || IsAdmin(u) || IsCoordinatorFor(u, hid))
    ensures h.Some? && r.Err? ==> r.status == Forbidden
    ensures r.Ok? ==> r.value == GetCoordinatorPermissions(u, hid)
    ensures r.Ok? && r.value.None? ==> h.value.organizer == caller || IsAdmin(u)
  {
    if h.None? then Err(NotFound)
    else if !OrganizerOrAdmin(caller, u, h.value) && !IsCoordinatorFor(u, hid) then Err(Forbidden)
    else Ok(GetCoordinatorPermissions(u, hid))
  }

  /** `isJudge`: 404 for a missing hackathon; the organizer, an administrator or an accepted
      judge passes; anyone else gets 403. */
  function JudgeCheck(caller: UserId, u: User, hid: HackathonId, h: Option<Hackathon>): (d: Decision)
    ensures h.None? ==> d == Deny(NotFound)
    ensures h.Some? ==> (d == Allow <==> h.value.organizer == caller || IsAdmin(u) || IsJudgeFor(u, hid))
    ensures h.Some? && d != Allow ==> d == Deny(Forbidden)
  {
    if h.None? then Deny(NotFound)
    else if OrganizerOrAdmin(caller, u, h.value) || IsJudgeFor(u, hid) then Allow
    else Deny(Forbidden)
  }

  /** `checkCoordinatorPermission(p)`, run after `isCoordinator`: the organizer and administrators
      always pass; anyone else needs attached permissions that grant `p`, else 403. */
  function CheckCoordinatorPermission(caller: UserId, u: User, h: Hackathon, attached: Option<Permissions>,
                                      p: Permission): (d: Decision)
    ensures d == Allow <==> OrganizerOrAdmin(caller, u, h) || (attached.Some? && Grants(attached.value, p))
    ensures d != Allow ==> d == Deny(Forbidden)
  {
    if OrganizerOrAdmin(caller, u, h) then Allow
    else if attached.None? || !Grants(attached.value, p) then Deny(Forbidden)
    else Allow
  }

  /** The two middlewares in sequence: a coordinator whose only entry for the hackathon is still
      pending is refused, and an accepted coordinator passes exactly when the first accepted
      entry grants the permission. */
  lemma CoordinatorChainDecision(caller: UserId, u: User, hid: HackathonId, h: Hackathon, p: Permission)
    requires h.organizer != caller && !IsAdmin(u)
    ensures CoordinatorCheck(caller, u, hid, Some(h)).Ok? <==> IsCoordinatorFor(u, hid)
    ensures IsCoordinatorFor(u, hid) ==>
      (CheckCoordinatorPermission(caller, u, h, GetCoordinatorPermissions(u, hid), p) == Allow <==>
       Grants(GetCoordinatorPermissions(u, hid).value, p))
  {
  }

  /** The subscription features a route can require. */
  datatype Feature = MaxHackathons | MaxTeamMembers | CanCreateHackathons | CanInviteJudges | Analytics | CustomBranding

  /** JavaScript truthiness of `features[f]`: a number is truthy unless it is 0. */
  predicate FeatureEnabled(fs: Features, f: Feature)
  {
    match f
    case MaxHackathons => fs.maxHackathons != 0
    case MaxTeamMembers => fs.maxTeamMembers != 0
    case CanCreateHackathons => fs.canCreateHackathons
    case CanInviteJudges => fs.canInviteJudges
    case Analytics => fs.analytics
    case CustomBranding => fs.customBranding
  }

  /** `checkSubscriptionFeature(f)`: the snapshot must be active and enable `f`, else 403. */
  function CheckSubscriptionFeature(u: User, f: Feature): (d: Decision)
    ensures d == Allow <==> u.subscription.status == PlanActive && FeatureEnabled(u.subscription.features, f)
    ensures d != Allow ==> d == Deny(Forbidden)
  {
    if u.subscription.status != PlanActive || !FeatureEnabled(u.subscription.features, f) then Deny(Forbidden)
    else Allow
  }

  /** A user with the default snapshot can use no boolean feature. */
  lemma DefaultSnapshotLocksFeatures(u: User, f: Feature)
    requires u.subscription == DefaultSubscription
    ensures CheckSubscriptionFeature(u, f) == Deny(Forbidden)
  {
  }
}
