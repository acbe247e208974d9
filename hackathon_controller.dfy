/** The hackathon handlers of src/controllers/hackathon.controller.js: creation behind the
    subscription gate, organizer-only update and deletion, and the coordinator and judge
    invitation lifecycles (invite as pending, accept, re-grant permissions). */
module HackathonController {
  import opened Common
  import opened UserModel
  import opened HackathonRecord
  import opened Auth
  import opened DocumentStore

  // ------------------------------------------------------------ lifecycle

  /** The gate of `createHackathon`: administrators and the bypass switch pass; anyone else needs
      an active subscription snapshot that allows creating hackathons. */
  predicate MayCreateHackathon(u: User, bypass: bool)
  {
    IsAdmin(u) || bypass || (u.subscription.features.canCreateHackathons && u.subscription.status == PlanActive)
  }

  /** `createHackathon`: the document from the request body, with the caller as organizer, is
      stored under the next id. `bypass` is the environment switch. */
  method CreateHackathon(db: Db, caller: UserId, bypass: bool, doc: Hackathon) returns (r: Outcome<HackathonId>)
    requires db.Valid() && caller in db.users
    modifies db
    ensures db.Valid()
    ensures r.Ok? <==> MayCreateHackathon(old(db.users[caller]), bypass)
    ensures r.Err? ==> r.status == Forbidden && db.State() == old(db.State())
    ensures r.Ok? ==>
              r.value == old(db.nextHackathonId) && r.value !in old(db.hackathons) &&
              db.State() == old(db.State()).(hackathons := old(db.hackathons)[r.value := doc.(organizer := caller)],
                                             nextHackathonId := old(db.nextHackathonId) + 1)
    ensures r.Ok? ==> db.hackathons[r.value].organizer == caller
  {
    if !MayCreateHackathon(db.users[caller], bypass) {
      return Err(Forbidden);
    }
    var id := db.nextHackathonId;
    db.hackathons := db.hackathons[id := doc.(organizer := caller)];
    db.nextHackathonId := id + 1;
    return Ok(id);
  }

  /** `updateHackathon`: the organizer or an administrator replaces the document; `doc` is the
      document the update produces. */
  method UpdateHackathon(db: Db, caller: UserId, hid: HackathonId, doc: Hackathon) returns (r: Outcome<()>)
    requires db.Valid() && caller in db.users
    modifies db
    ensures db.Valid()
    ensures r.Err? ==> db.State() == old(db.State())
    ensures hid !in old(db.hackathons) ==> r == Err(NotFound)
    ensures hid in old(db.hackathons) ==>
              if !OrganizerOrAdmin(caller, old(db.users[caller]), old(db.hackathons[hid])) then r == Err(Forbidden)
              else r == Ok(()) && db.State() == old(db.State()).(hackathons := old(db.hackathons)[hid := doc])
  {
    if hid !in db.hackathons {
      return Err(NotFound);
    }
    if !OrganizerOrAdmin(caller, db.users[caller], db.hackathons[hid]) {
      return Err(Forbidden);
    }
    db.hackathons := db.hackathons[hid := doc];
    return Ok(());
  }

  /** `deleteHackathon`: the organizer or an administrator removes the document. Teams and
      requests that name it stay behind. */
  method DeleteHackathon(db: Db, caller: UserId, hid: HackathonId) returns (r: Outcome<()>)
    requires db.Valid() && caller in db.users
    modifies db
    ensures db.Valid()
    ensures r.Err? ==> db.State() == old(db.State())
    ensures hid !in old(db.hackathons) ==> r == Err(NotFound)
    ensures hid in old(db.hackathons) ==>
              if !OrganizerOrAdmin(caller, old(db.users[caller]), old(db.hackathons[hid])) then r == Err(Forbidden)
              else r == Ok(()) && db.State() == old(db.State()).(hackathons := old(db.hackathons) - {hid})
    ensures r.Ok? ==> hid !in db.hackathons
  {
    if hid !in db.hackathons {
      return Err(NotFound);
    }
    if !OrganizerOrAdmin(caller, db.users[caller], db.hackathons[hid]) {
      return Err(Forbidden);
    }
    db.hackathons := db.hackathons - {hid};
    return Ok(());
  }

  // -------------------------------------------------------- coordinations

  /** The projection `getMyCoordinations` returns for each entry. */
  datatype Coordination = Coordination(hackathon: HackathonId, permissions: Permissions,
                                       invitedAt: Option<Time>, acceptedAt: Option<Time>)

  /** `coordinatorFor.filter(c => c.status === 'accepted')`. */
  function AcceptedEntries(cs: seq<CoordinatorEntry>): (r: seq<CoordinatorEntry>)
    ensures |r| <= |cs|
    ensures forall e :: multiset(r)[e] == if e.status == InvitationAccepted then multiset(cs)[e] else 0
  {
    if cs == [] then []
    else
      var rest := AcceptedEntries(cs[1..]);
      assert cs == [cs[0]] + cs[1..];
      (if cs[0].status == InvitationAccepted then [cs[0]] else []) + rest
  }

  /** `getMyCoordinations`: one line per accepted entry, in order. */
  function MyCoordinations(u: User): (r: seq<Coordination>)
    ensures |r| == |AcceptedEntries(u.coordinatorFor)|
    ensures forall i :: 0 <= i < |r| ==>
              var e := AcceptedEntries(u.coordinatorFor)[i];
              r[i] == Coordination(e.hackathon, e.permissions, e.invitedAt, e.acceptedAt)
  {
    var es := AcceptedEntries(u.coordinatorFor);
    seq(|es|, i requires 0 <= i < |es| => Coordination(es[i].hackathon, es[i].permissions, es[i].invitedAt, es[i].acceptedAt))
  }

  /** Only accepted entries are listed, and every accepted entry is. */
  lemma MyCoordinationsExactlyAccepted(u: User, e: CoordinatorEntry)
    ensures e in AcceptedEntries(u.coordinatorFor) <==> e in u.coordinatorFor && e.status == InvitationAccepted
  {
    assert e in AcceptedEntries(u.coordinatorFor) <==> e in multiset(AcceptedEntries(u.coordinatorFor));
  }

  /** `findOne({$or: [{email: key}, {username: key}]})` matches this user. */
  predicate Matches(u: User, key: string)
  {
    u.email == key || u.username == key
  }

  /** `roles.includes(r) ? roles : roles.concat([r])`. */
  function WithRole(roles: seq<Role>, role: Role): (out: seq<Role>)
    ensures role in out && (role in roles ==> out == roles)
    ensures forall x :: x in out <==> x in roles || x == role
    ensures UniqueRoles(roles) ==> UniqueRoles(out)
  {
    if role in roles then roles else roles + [role]
  }

  /** No role is listed twice. */
  predicate UniqueRoles(roles: seq<Role>)
  {
    forall i, j :: 0 <= i < j < |roles| ==> roles[i] != roles[j]
  }

  /** Some coordinator entry, whatever its status, names the hackathon. */
  predicate HasCoordinationFor(cs: seq<CoordinatorEntry>, h: HackathonId)
  {
    exists i :: 0 <= i < |cs| && cs[i].hackathon == h
  }

  /** The entry `inviteCoordinator` appends: the permissions sent, completed by the defaults. */
  function CoordinatorInvitation(h: HackathonId, given: map<Permission, bool>, inviter: UserId, now: Time): (e: CoordinatorEntry)
    ensures e.hackathon == h && e.status == InvitationPending && e.invitedBy == Some(inviter)
    ensures e.invitedAt == Some(now) && e.acceptedAt == None
    ensures forall k :: Grants(e.permissions, k) == if k in given then given[k] else DefaultGrant(k)
  {
    CoordinatorEntry(h, WithDefaults(given), Some(inviter), Some(now), None, InvitationPending)
  }

  /** `inviteCoordinator`: the user found by e-mail or user name gets one pending entry, unless
      some entry for the hackathon, in any status, already exists. The invited user is returned. */
  method InviteCoordinator(db: Db, caller: UserId, hid: HackathonId, key: string, given: map<Permission, bool>, now: Time)
    returns (r: Outcome<UserId>)
    requires db.Valid()
    modifies db
    ensures db.Valid()
    ensures r.Err? ==> db.State() == old(db.State())
    ensures hid !in old(db.hackathons) ==> r == Err(NotFound)
    ensures hid in old(db.hackathons) && (forall t :: t in old(db.users) ==> !Matches(old(db.users[t]), key)) ==>
              r == Err(NotFound)
    ensures r.Err? && hid in old(db.hackathons) && (exists t :: t in old(db.users) && Matches(old(db.users[t]), key)) ==>
              r == Err(BadRequest) &&
              exists t :: t in old(db.users) && Matches(old(db.users[t]), key) &&
                HasCoordinationFor(old(db.users[t]).coordinatorFor, hid)
    ensures r.Ok? ==>
              var t := r.value;
              hid in old(db.hackathons) && t in old(db.users) && Matches(old(db.users[t]), key) &&
              !HasCoordinationFor(old(db.users[t]).coordinatorFor, hid) &&
              db.State() == old(db.State()).(users := old(db.users)[t := old(db.users[t]).(
                coordinatorFor := old(db.users[t]).coordinatorFor + [CoordinatorInvitation(hid, given, caller, now)])])
    ensures r.Ok? ==> !IsCoordinatorFor(db.users[r.value], hid)
  {
    if hid !in db.hackathons {
      return Err(NotFound);
    }
    if !exists t :: t in db.users && Matches(db.users[t], key) {
      return Err(NotFound);
    }
    var target :| target in db.users && Matches(db.users[target], key);
    var u := db.users[target];
    if HasCoordinationFor(u.coordinatorFor, hid) {
      return Err(BadRequest);
    }
    var cs := u.coordinatorFor + [CoordinatorInvitation(hid, given, caller, now)];
    assert forall i :: 0 <= i < |cs| ==> cs[i].hackathon != hid || cs[i].status == InvitationPending;
    db.users := db.users[target := u.(coordinatorFor := cs)];
    return Ok(target);
  }

  /** The first pending coordinator entry for the hackathon. */
  function FirstPendingCoordination(cs: seq<CoordinatorEntry>, h: HackathonId): Option<nat>
  {
    FindIndex(cs, (c: CoordinatorEntry) => c.hackathon == h && c.status == InvitationPending)
  }

  /** The user after accepting entry `i`: the entry is accepted now, and the role is added if missing. */
  function AcceptedCoordinator(u: User, i: nat, now: Time): (v: User)
    requires i < |u.coordinatorFor|
    ensures v.coordinatorFor == u.coordinatorFor[i := u.coordinatorFor[i].(status := InvitationAccepted, acceptedAt := Some(now))]
    ensures v.roles == WithRole(u.roles, Coordinator)
    ensures v.(coordinatorFor := u.coordinatorFor, roles := u.roles) == u
  {
    u.(coordinatorFor := u.coordinatorFor[i := u.coordinatorFor[i].(status := InvitationAccepted, acceptedAt := Some(now))],
       roles := WithRole(u.roles, Coordinator))
  }

  /** `acceptCoordinatorInvitation`: the caller's first pending entry for the hackathon is
      accepted and the user saved; then the hackathon lists the new coordinator with the entry's
      permissions. A missing hackathon fails only after the user was saved. */
  method AcceptCoordinatorInvitation(db: Db, caller: UserId, hid: HackathonId, now: Time) returns (r: Outcome<()>)
    requires db.Valid() && caller in db.users
    modifies db
    ensures db.Valid()
    ensures FirstPendingCoordination(old(db.users[caller]).coordinatorFor, hid).None? ==>
              r == Err(NotFound) && db.State() == old(db.State())
    ensures FirstPendingCoordination(old(db.users[caller]).coordinatorFor, hid).Some? ==>
              var u := old(db.users[caller]);
              var i := FirstPendingCoordination(u.coordinatorFor, hid).value;
              db.users == old(db.users)[caller := AcceptedCoordinator(u, i, now)] &&
              if hid !in old(db.hackathons) then
                r == Err(ServerError) && db.State() == old(db.State()).(users := db.users)
              else
                var hk := old(db.hackathons[hid]);
                r == Ok(()) &&
                db.State() == old(db.State()).(users := db.users, hackathons := old(db.hackathons)[hid := hk.(
                  coordinators := hk.coordinators + [CoordinatorAssignment(caller, u.coordinatorFor[i].permissions, now)])])
    ensures r.Ok? ==> IsCoordinatorFor(db.users[caller], hid) && Coordinator in db.users[caller].roles
    ensures UniqueRoles(old(db.users[caller]).roles) ==> UniqueRoles(db.users[caller].roles)
  {
    var u := db.users[caller];
    var found := FirstPendingCoordination(u.coordinatorFor, hid);
    if found.None? {
      return Err(NotFound);
    }
    var i := found.value;
    var e := u.coordinatorFor[i];
    var v := AcceptedCoordinator(u, i, now);
    assert AcceptedCoordination(v.coordinatorFor[i], hid);
    db.users := db.users[caller := v];
    // `Hackathon.findById` returns null and the push throws.
    if hid !in db.hackathons {
      return Err(ServerError);
    }
    var hk := db.hackathons[hid];
    db.hackathons := db.hackathons[hid := hk.(coordinators := hk.coordinators + [CoordinatorAssignment(caller, e.permissions, now)])];
    return Ok(());
  }

  /** The first coordinator of the hackathon that names the user. */
  function FirstAssignment(cs: seq<CoordinatorAssignment>, user: UserId): Option<nat>
  {
    FindIndex(cs, (c: CoordinatorAssignment) => c.user == user)
  }

  /** The first coordinator entry of the user for the hackathon, whatever its status. */
  function FirstCoordinationFor(cs: seq<CoordinatorEntry>, h: HackathonId): Option<nat>
  {
    FindIndex(cs, (c: CoordinatorEntry) => c.hackathon == h)
  }

  /** `updateCoordinatorPermissions`: the hackathon's entry for `target` gets its permissions
      overridden key by key by `upd` and is saved; the same permissions are then copied into the
      user's first entry for the hackathon, if there is one. A missing user fails after the
      hackathon was saved. The merged permissions are returned. */
  method UpdateCoordinatorPermissions(db: Db, hid: HackathonId, target: UserId, upd: map<Permission, bool>)
    returns (r: Outcome<Permissions>)
    requires db.Valid()
    modifies db
    ensures db.Valid()
    ensures hid !in old(db.hackathons) ==> r == Err(NotFound) && db.State() == old(db.State())
    ensures hid in old(db.hackathons) && FirstAssignment(old(db.hackathons[hid]).coordinators, target).None? ==>
              r == Err(NotFound) && db.State() == old(db.State())
    ensures hid in old(db.hackathons) && FirstAssignment(old(db.hackathons[hid]).coordinators, target).Some? ==>
              var hk := old(db.hackathons[hid]);
              var j := FirstAssignment(hk.coordinators, target).value;
              var merged := Merge(hk.coordinators[j].permissions, upd);
              db.hackathons == old(db.hackathons)[hid := hk.(coordinators := hk.coordinators[j := hk.coordinators[j].(permissions := merged)])] &&
              if target !in old(db.users) then
                r == Err(ServerError) && db.State() == old(db.State()).(hackathons := db.hackathons)
              else
                var u := old(db.users[target]);
                r == Ok(merged) &&
                db.State() == old(db.State()).(hackathons := db.hackathons, users :=
                  if FirstCoordinationFor(u.coordinatorFor, hid).None? then old(db.users)
                  else
                    var i := FirstCoordinationFor(u.coordinatorFor, hid).value;
                    old(db.users)[target := u.(coordinatorFor := u.coordinatorFor[i := u.coordinatorFor[i].(permissions := merged)])])
    ensures r.Ok? ==>
              var cs := old(db.hackathons[hid]).coordinators;
              var before := cs[FirstAssignment(cs, target).value].permissions;
              forall k :: Grants(r.value, k) == (if k in upd then upd[k] else Grants(before, k))
  {
    if hid !in db.hackathons {
      return Err(NotFound);
    }
    var hk := db.hackathons[hid];
    var found := FirstAssignment(hk.coordinators, target);
    if found.None? {
      return Err(NotFound);
    }
    var j := found.value;
    var merged := Merge(hk.coordinators[j].permissions, upd);
    db.hackathons := db.hackathons[hid := hk.(coordinators := hk.coordinators[j := hk.coordinators[j].(permissions := merged)])];
    // `User.findById` returns null and reading its entries throws.
    if target !in db.users {
      return Err(ServerError);
    }
    var u := db.users[target];
    var i := FirstCoordinationFor(u.coordinatorFor, hid);
    if i.Some? {
      db.users := db.users[target := u.(coordinatorFor := u.coordinatorFor[i.value := u.coordinatorFor[i.value].(permissions := merged)])];
    }
    return Ok(merged);
  }

  // ---------------------------------------------------------------- judges

  /** Some judge entry, whatever its status, names the hackathon. */
  predicate HasJudgingFor(js: seq<JudgeEntry>, h: HackathonId)
  {
    exists i :: 0 <= i < |js| && js[i].hackathon == h
  }

  /** `inviteJudge`: the coordinator flow with `judgeFor` and without permissions. */
  method InviteJudge(db: Db, caller: UserId, hid: HackathonId, key: string, now: Time) returns (r: Outcome<UserId>)
    requires db.Valid()
    modifies db
    ensures db.Valid()
    ensures r.Err? ==> db.State() == old(db.State())
    ensures hid !in old(db.hackathons) ==> r == Err(NotFound)
    ensures hid in old(db.hackathons) && (forall t :: t in old(db.users) ==> !Matches(old(db.users[t]), key)) ==>
              r == Err(NotFound)
    ensures r.Err? && hid in old(db.hackathons) && (exists t :: t in old(db.users) && Matches(old(db.users[t]), key)) ==>
              r == Err(BadRequest) &&
              exists t :: t in old(db.users) && Matches(old(db.users[t]), key) && HasJudgingFor(old(db.users[t]).judgeFor, hid)
    ensures r.Ok? ==>
              var t := r.value;
              hid in old(db.hackathons) && t in old(db.users) && Matches(old(db.users[t]), key) &&
              !HasJudgingFor(old(db.users[t]).judgeFor, hid) &&
              db.State() == old(db.State()).(users := old(db.users)[t := old(db.users[t]).(
                judgeFor := old(db.users[t]).judgeFor + [JudgeEntry(hid, Some(caller), Some(now), None, InvitationPending)])])
    ensures r.Ok? ==> !IsJudgeFor(db.users[r.value], hid)
  {
    if hid !in db.hackathons {
      return Err(NotFound);
    }
    if !exists t :: t in db.users && Matches(db.users[t], key) {
      return Err(NotFound);
    }
    var target :| target in db.users && Matches(db.users[target], key);
    var u := db.users[target];
    if HasJudgingFor(u.judgeFor, hid) {
      return Err(BadRequest);
    }
    var js := u.judgeFor + [JudgeEntry(hid, Some(caller), Some(now), None, InvitationPending)];
    assert forall i :: 0 <= i < |js| ==> js[i].hackathon != hid || js[i].status == InvitationPending;
    db.users := db.users[target := u.(judgeFor := js)];
    return Ok(target);
  }

  /** The first pending judge entry for the hackathon. */
  function FirstPendingJudging(js: seq<JudgeEntry>, h: HackathonId): Option<nat>
  {
    FindIndex(js, (j: JudgeEntry) => j.hackathon == h && j.status == InvitationPending)
  }

  /** The user after accepting judge entry `i`. */
  function AcceptedJudge(u: User, i: nat, now: Time): (v: User)
    requires i < |u.judgeFor|
    ensures v.judgeFor == u.judgeFor[i := u.judgeFor[i].(status := InvitationAccepted, acceptedAt := Some(now))]
    ensures v.roles == WithRole(u.roles, Judge)
    ensures v.(judgeFor := u.judgeFor, roles := u.roles) == u
  {
    u.(judgeFor := u.judgeFor[i := u.judgeFor[i].(status := InvitationAccepted, acceptedAt := Some(now))],
       roles := WithRole(u.roles, Judge))
  }

  /** `acceptJudgeInvitation`: the coordinator flow with `judgeFor`, the judge role, and a judge
      line carrying the user's full name. */
  method AcceptJudgeInvitation(db: Db, caller: UserId, hid: HackathonId, now: Time) returns (r: Outcome<()>)
    requires db.Valid() && caller in db.users
    modifies db
    ensures db.Valid()
    ensures FirstPendingJudging(old(db.users[caller]).judgeFor, hid).None? ==>
              r == Err(NotFound) && db.State() == old(db.State())
    ensures FirstPendingJudging(old(db.users[caller]).judgeFor, hid).Some? ==>
              var u := old(db.users[caller]);
              var i := FirstPendingJudging(u.judgeFor, hid).value;
              db.users == old(db.users)[caller := AcceptedJudge(u, i, now)] &&
              if hid !in old(db.hackathons) then
                r == Err(ServerError) && db.State() == old(db.State()).(users := db.users)
              else
                var hk := old(db.hackathons[hid]);
                r == Ok(()) &&
                db.State() == old(db.State()).(users := db.users, hackathons := old(db.hackathons)[hid := hk.(
                  judges := hk.judges + [JudgeAssignment(caller, u.fullName)])])
    ensures r.Ok? ==> IsJudgeFor(db.users[caller], hid) && Judge in db.users[caller].roles
    ensures UniqueRoles(old(db.users[caller]).roles) ==> UniqueRoles(db.users[caller].roles)
  {
    var u := db.users[caller];
    var found := FirstPendingJudging(u.judgeFor, hid);
    if found.None? {
      return Err(NotFound);
    }
    var i := found.value;
    var v := AcceptedJudge(u, i, now);
    assert v.judgeFor[i].hackathon == hid && v.judgeFor[i].status == InvitationAccepted;
    db.users := db.users[caller := v];
    if hid !in db.hackathons {
      return Err(ServerError);
    }
    var hk := db.hackathons[hid];
    db.hackathons := db.hackathons[hid := hk.(judges := hk.judges + [JudgeAssignment(caller, u.fullName)])];
    return Ok(());
  }
}
