/** The User document (src/models/User.js): roles, coordinator permissions, coordinator and
    judge invitations, and the subscription snapshot kept on the user. */
module UserModel {
  import opened Common

  datatype Role = Student | Coordinator | Judge | Admin | SuperAdmin

  datatype InvitationStatus = InvitationPending | InvitationAccepted | InvitationDeclined

  // ------------------------------------------------------------ permissions

  /** The keys of a coordinator's permission object. */
  datatype Permission =
    CanViewTeams | CanEditTeams | CanCheckIn | CanAssignTables | CanViewSubmissions | CanEliminateTeams | CanCommunicate

  datatype Permissions = Permissions(
    canViewTeams: bool,
    canEditTeams: bool,
    canCheckIn: bool,
    canAssignTables: bool,
    canViewSubmissions: bool,
    canEliminateTeams: bool,
    canCommunicate: bool)

  /** `permissions[key]`. */
  function Grants(p: Permissions, k: Permission): bool
  {
    match k
    case CanViewTeams => p.canViewTeams
    case CanEditTeams => p.canEditTeams
    case CanCheckIn => p.canCheckIn
    case CanAssignTables => p.canAssignTables
    case CanViewSubmissions => p.canViewSubmissions
    case CanEliminateTeams => p.canEliminateTeams
    case CanCommunicate => p.canCommunicate
  }

  /** The schema default of each key: everything but editing and eliminating teams. */
  predicate DefaultGrant(k: Permission)
  {
    k != CanEditTeams && k != CanEliminateTeams
  }

  /** The permission object Mongoose stores for a partial one: given keys win, the others take
      their schema default. */
  function WithDefaults(given: map<Permission, bool>): (r: Permissions)
    ensures forall k :: Grants(r, k) == (if k in given then given[k] else DefaultGrant(k))
  {
    Permissions(
      if CanViewTeams in given then given[CanViewTeams] else true,
      if CanEditTeams in given then given[CanEditTeams] else false,
      if CanCheckIn in given then given[CanCheckIn] else true,
      if CanAssignTables in given then given[CanAssignTables] else true,
      if CanViewSubmissions in given then given[CanViewSubmissions] else true,
      if CanEliminateTeams in given then given[CanEliminateTeams] else false,
      if CanCommunicate in given then given[CanCommunicate] else true)
  }

  /** A permission object is determined by what it grants. */
  lemma GrantsDetermine(p: Permissions, q: Permissions)
    requires forall k :: Grants(p, k) == Grants(q, k)
    ensures p == q
  {
    assert Grants(p, CanViewTeams) == Grants(q, CanViewTeams);
    assert Grants(p, CanEditTeams) == Grants(q, CanEditTeams);
    assert Grants(p, CanCheckIn) == Grants(q, CanCheckIn);
    assert Grants(p, CanAssignTables) == Grants(q, CanAssignTables);
    assert Grants(p, CanViewSubmissions) == Grants(q, CanViewSubmissions);
    assert Grants(p, CanEliminateTeams) == Grants(q, CanEliminateTeams);
    assert Grants(p, CanCommunicate) == Grants(q, CanCommunicate);
  }

  /** The defaults: view, check-in, tables, submissions and communication on; editing and eliminating off. */
  lemma DefaultPermissions()
    ensures WithDefaults(map[]) == Permissions(true, false, true, true, true, false, true)
  {
  }

  /** The value a key takes after an override: the update's when it names the key, else the old one. */
  function Pick(upd: map<Permission, bool>, k: Permission, previous: bool): bool
  {
    if k in upd then upd[k] else previous
  }

  /** `{ ...p, ...upd }`: a shallow, key-by-key override. */
  function Merge(p: Permissions, upd: map<Permission, bool>): (r: Permissions)
    ensures forall k :: Grants(r, k) == Pick(upd, k, Grants(p, k))
  {
    var r := Permissions(
      Pick(upd, CanViewTeams, p.canViewTeams),
      Pick(upd, CanEditTeams, p.canEditTeams),
      Pick(upd, CanCheckIn, p.canCheckIn),
      Pick(upd, CanAssignTables, p.canAssignTables),
      Pick(upd, CanViewSubmissions, p.canViewSubmissions),
      Pick(upd, CanEliminateTeams, p.canEliminateTeams),
      Pick(upd, CanCommunicate, p.canCommunicate));
    r
  }

  /** Merging nothing changes nothing, merging twice is merging once, and a later update wins
      over an earlier one key by key. */
  lemma MergeLaws(p: Permissions, u: map<Permission, bool>, v: map<Permission, bool>)
    ensures Merge(p, map[]) == p
    ensures Merge(Merge(p, u), u) == Merge(p, u)
    ensures Merge(Merge(p, u), v) == Merge(p, u + v)
  {
    GrantsDetermine(Merge(p, map[]), p);
    GrantsDetermine(Merge(Merge(p, u), u), Merge(p, u));
    forall k ensures Grants(Merge(Merge(p, u), v), k) == Grants(Merge(p, u + v), k) {
      assert Pick(u + v, k, Grants(p, k)) == Pick(v, k, Pick(u, k, Grants(p, k)));
    }
    GrantsDetermine(Merge(Merge(p, u), v), Merge(p, u + v));
  }

  // ------------------------------------------------------------ invitations

  datatype CoordinatorEntry = CoordinatorEntry(
    hackathon: HackathonId,
    permissions: Permissions,
    invitedBy: Option<UserId>,
    invitedAt: Option<Time>,
    acceptedAt: Option<Time>,
    status: InvitationStatus)

  datatype JudgeEntry = JudgeEntry(
    hackathon: HackathonId,
    invitedBy: Option<UserId>,
    invitedAt: Option<Time>,
    acceptedAt: Option<Time>,
    status: InvitationStatus)

  // ---------------------------------------------------- subscription snapshot

  datatype UserPlan = Free | Basic | Premium | Enterprise

  /** The user's copy of the subscription status. Its enum has four values only. */
  datatype PlanStatus = PlanActive | PlanInactive | PlanExpired | PlanCancelled

  datatype Features = Features(
    maxHackathons: int,
    maxTeamMembers: int,
    canCreateHackathons: bool,
    canInviteJudges: bool,
    analytics: bool,
    customBranding: bool)

  datatype UserSubscription = UserSubscription(
    plan: UserPlan,
    status: PlanStatus,
    startDate: Option<Time>,
    endDate: Option<Time>,
    razorpaySubscriptionId: Option<string>,
    razorpayCustomerId: Option<string>,
    features: Features)

  /** The snapshot a new user starts with. */
  const DefaultSubscription: UserSubscription :=
    UserSubscription(Free, PlanInactive, None, None, None, None, Features(1, 4, false, false, false, false))

  /** The snapshot defaults: the free plan, inactive, and no permission to create hackathons. */
  lemma DefaultSubscriptionValues()
    ensures DefaultSubscription.plan == Free && DefaultSubscription.status == PlanInactive
    ensures !DefaultSubscription.features.canCreateHackathons
    ensures DefaultSubscription.features.maxHackathons == 1 && DefaultSubscription.features.maxTeamMembers == 4
  {
  }

  // ------------------------------------------------------------------- user

  /** A user. The password, its hashing and the profile are not part of this model. */
  datatype User = User(
    username: string,
    email: string,
    fullName: string,
    roles: seq<Role>,
    subscription: UserSubscription,
    coordinatorFor: seq<CoordinatorEntry>,
    judgeFor: seq<JudgeEntry>,
    isActive: bool)

  /** `hasRole`. */
  predicate HasRole(u: User, role: Role)
  {
    role in u.roles
  }

  /** `hasRole(r)` and the middleware's `hasAnyRole([r])` agree: one check with a single role. */
  lemma HasRoleIsSingleAnyRole(u: User, role: Role)
    ensures HasRole(u, role) <==> HasAnyRole(u.roles, [role])
  {
  }

  /** `hasAnyRole`: `wanted.some(role => roles.includes(role))`. */
  function HasAnyRole(roles: seq<Role>, wanted: seq<Role>): (r: bool)
    ensures r <==> exists x :: x in wanted && x in roles
    ensures wanted == [] ==> !r
  {
    if wanted == [] then false
    else if wanted[0] in roles then true
    else
      var found := HasAnyRole(roles, wanted[1..]);
      assert forall x :: x in wanted && x != wanted[0] ==> x in wanted[1..];
      found
  }

  /** Administrators: `hasAnyRole(['admin', 'super_admin'])`, that is, holding either role. */
  function IsAdmin(u: User): (r: bool)
    ensures r <==> Admin in u.roles || SuperAdmin in u.roles
  {
    HasAnyRole(u.roles, [Admin, SuperAdmin])
  }

  /** The entry grants the coordinator role for `h`: it names `h` and was accepted. */
  predicate AcceptedCoordination(c: CoordinatorEntry, h: HackathonId)
  {
    c.hackathon == h && c.status == InvitationAccepted
  }

  /** `isCoordinatorFor`: some accepted entry for the hackathon; pending and declined ones grant nothing. */
  function IsCoordinatorFor(u: User, h: HackathonId): (r: bool)
    ensures r <==> exists i :: 0 <= i < |u.coordinatorFor| && AcceptedCoordination(u.coordinatorFor[i], h)
  {
    FindIndex(u.coordinatorFor, (c: CoordinatorEntry) => AcceptedCoordination(c, h)).Some?
  }

  /** `isJudgeFor`: some accepted judge entry for the hackathon. */
  function IsJudgeFor(u: User, h: HackathonId): (r: bool)
    ensures r <==> exists i :: 0 <= i < |u.judgeFor| && u.judgeFor[i].hackathon == h && u.judgeFor[i].status == InvitationAccepted
  {
    FindIndex(u.judgeFor, (j: JudgeEntry) => j.hackathon == h && j.status == InvitationAccepted).Some?
  }

  /** `getCoordinatorPermissions`: the permissions of the first accepted entry for `h`, or null. */
  function GetCoordinatorPermissions(u: User, h: HackathonId): (r: Option<Permissions>)
    ensures r.None? <==> !IsCoordinatorFor(u, h)
    ensures r.Some? ==>
              exists i :: 0 <= i < |u.coordinatorFor| && AcceptedCoordination(u.coordinatorFor[i], h) &&
                r.value == u.coordinatorFor[i].permissions &&
                forall j :: 0 <= j < i ==> !AcceptedCoordination(u.coordinatorFor[j], h)
  {
    var i := FindIndex(u.coordinatorFor, (c: CoordinatorEntry) => AcceptedCoordination(c, h));
    if i.Some? then Some(u.coordinatorFor[i.value].permissions) else None
  }

  /** Only an accepted entry yields permissions: a user whose entries for `h` are all pending or
      declined has none, whatever those entries hold. */
  lemma PendingGrantsNothing(u: User, h: HackathonId)
    requires forall i :: 0 <= i < |u.coordinatorFor| && u.coordinatorFor[i].hackathon == h ==>
      u.coordinatorFor[i].status != InvitationAccepted
    ensures GetCoordinatorPermissions(u, h) == None
  {
  }
}
