/** The team workflows of src/controllers/team.controller.js as handlers over the shared store.
    Each handler either refuses with a status and leaves the store as it was, or performs the
    documented writes. The caller is the authenticated user `protect` attached; the clock is the
    parameter `now`. */
module TeamController {
  import opened Common
  import opened TeamModel
  import opened JoinRequestModel
  import opened UserModel
  import opened HackathonRecord
  import opened TeamRules
  import opened DocumentStore

  // ------------------------------------------------------------ registration

  /** `members ? members : []`: an absent list registers the leader alone. */
  function Listed(members: Option<seq<UserId>>): seq<UserId>
  {
    if members.Some? then members.value else []
  }

  /** The guards of `registerTeam` between the hackathon lookup and `Team.create`. */
  predicate RegistrationAdmissible(teams: seq<Team>, hid: HackathonId, hk: Hackathon, caller: UserId,
                                   callerUser: User, listed: seq<UserId>)
  {
    !RegisteredFor(teams, hid, caller) &&
    !IsCoordinatorFor(callerUser, hid) &&
    hk.teamConfig.minMembers <= |listed| + 1 <= hk.teamConfig.maxMembers &&
    hk.currentRegistrations < hk.maxTeams &&
    forall i :: 0 <= i < |listed| ==> !InTeamFor(teams, hid, listed[i])
  }

  /** The unique index on (hackathon, teamName): a team other than `except` already has the name. */
  predicate NameTaken(teams: seq<Team>, h: HackathonId, name: string, except: int)
  {
    exists k :: 0 <= k < |teams| && k != except && teams[k].hackathon == h && teams[k].teamName == name
  }

  /** The loop over the listed members: it stops at the first one already in a team of the
      hackathon, and otherwise builds the member list, leader first. */
  method ValidateListedMembers(teams: seq<Team>, hid: HackathonId, caller: UserId, listed: seq<UserId>, now: Time)
    returns (busy: bool, entries: seq<TeamMember>)
    ensures busy <==> exists i :: 0 <= i < |listed| && InTeamFor(teams, hid, listed[i])
    ensures !busy ==> entries == RegistrationEntries(caller, listed, now)
  {
    entries := [NewEntry(caller, Leader, now)];
    var i := 0;
    while i < |listed|
      invariant 0 <= i <= |listed|
      invariant forall j :: 0 <= j < i ==> !InTeamFor(teams, hid, listed[j])
      invariant |entries| == i + 1 && entries[0] == NewEntry(caller, Leader, now)
      invariant forall j :: 0 <= j < i ==> entries[j + 1] == NewEntry(listed[j], Member, now)
    {
      if InTeamFor(teams, hid, listed[i]) {
        return true, entries;
      }
      entries := entries + [NewEntry(listed[i], Member, now)];
      i := i + 1;
    }
    busy := false;
    var expected := RegistrationEntries(caller, listed, now);
    assert forall j :: 1 <= j < |entries| ==> entries[j] == expected[j] by {
      forall j | 1 <= j < |entries| ensures entries[j] == expected[j] {
        assert entries[(j - 1) + 1] == NewEntry(listed[j - 1], Member, now);
      }
    }
  }

  /** `registerTeam` (hackathon `hid`; `registrationOpen` is `hackathon.isRegistrationOpen()`).
      The new team's id is returned; the hackathon counts one more registration. */
  method RegisterTeam(db: Db, caller: UserId, hid: HackathonId, registrationOpen: bool, teamName: Option<string>,
                      members: Option<seq<UserId>>, projectTitle: Option<string>,
                      projectDescription: Option<string>, now: Time)
    returns (r: Outcome<TeamId>)
    requires db.Valid() && caller in db.users
    modifies db
    ensures db.Valid()
    ensures r.Err? ==> db.State() == old(db.State())
    ensures hid !in old(db.hackathons) ==> r == Err(NotFound)
    ensures hid in old(db.hackathons) && !registrationOpen ==> r == Err(BadRequest)
    ensures hid in old(db.hackathons) && registrationOpen &&
            !RegistrationAdmissible(old(db.teams), hid, old(db.hackathons[hid]), caller, old(db.users[caller]),
                                    Listed(members))
            ==> r == Err(BadRequest)
    ensures r.Ok? <==>
              hid in old(db.hackathons) && registrationOpen &&
              RegistrationAdmissible(old(db.teams), hid, old(db.hackathons[hid]), caller, old(db.users[caller]),
                                     Listed(members)) &&
              Truthy(teamName) && !NameTaken(old(db.teams), hid, teamName.value, -1)
    ensures r.Err? && hid in old(db.hackathons) && registrationOpen &&
            RegistrationAdmissible(old(db.teams), hid, old(db.hackathons[hid]), caller, old(db.users[caller]),
                                   Listed(members))
            ==> r == Err(ServerError)
    ensures r.Ok? ==>
              var hk := old(db.hackathons[hid]);
              r.value == |old(db.teams)| &&
              db.State() == old(db.State()).(
                teams := old(db.teams) + [Saved(NewTeam(hid, hk, caller, teamName.value, Listed(members),
                                                        projectTitle, projectDescription, now))],
                hackathons := old(db.hackathons)[hid := hk.(currentRegistrations := hk.currentRegistrations + 1)])
    ensures r.Ok? && ActiveMembershipUnique(old(db.teams)) && Distinct([caller] + Listed(members)) ==>
              ActiveMembershipUnique(db.teams)
  {
    if hid !in db.hackathons {
      return Err(NotFound);
    }
    var hk := db.hackathons[hid];
    if !registrationOpen {
      return Err(BadRequest);
    }
    if RegisteredFor(db.teams, hid, caller) {
      return Err(BadRequest);
    }
    if IsCoordinatorFor(db.users[caller], hid) {
      return Err(BadRequest);
    }
    var listed := Listed(members);
    var total := |listed| + 1;
    if total < hk.teamConfig.minMembers || total > hk.teamConfig.maxMembers {
      return Err(BadRequest);
    }
    if hk.currentRegistrations >= hk.maxTeams {
      return Err(BadRequest);
    }
    var busy, entries := ValidateListedMembers(db.teams, hid, caller, listed, now);
    if busy {
      return Err(BadRequest);
    }
    // `Team.create`: the required name and the unique index are checked before anything is written.
    if !Truthy(teamName) || NameTaken(db.teams, hid, teamName.value, -1) {
      return Err(ServerError);
    }
    var t := NewTeam(hid, hk, caller, teamName.value, listed, projectTitle, projectDescription, now);
    assert t.members == entries;
    ghost var before := db.teams;
    var k := db.CreateTeam(t);
    db.hackathons := db.hackathons[hid := hk.(currentRegistrations := hk.currentRegistrations + 1)];
    if ActiveMembershipUnique(before) && Distinct([caller] + listed) {
      RegisteringKeepsUnique(before, Saved(t), caller, listed, now);
    }
    return Ok(k);
  }

  // ----------------------------------------------------------- join requests

  /** The invitation text: the leader's full name, then the team name in double quotes. */
  function InviteMessage(fullName: string, teamName: string): (m: string)
    ensures |m| == |fullName| + |teamName| + 38
    ensures m[..|fullName|] == fullName
    ensures m[|m| - |teamName| - 1..|m| - 1] == teamName && m[|m| - 1] == '"'
  {
    fullName + " has invited you to join their team \"" + teamName + "\""
  }

  /** Some pending request of `u` to team `k` exists. */
  predicate PendingInvitation(reqs: seq<JoinRequest>, k: TeamId, u: UserId)
  {
    exists i :: 0 <= i < |reqs| && reqs[i].team == k && reqs[i].user == u && reqs[i].status == RequestPending
  }

  /** `sendJoinRequest`: the team's leader invites `user`; the new request's id is returned. */
  method SendJoinRequest(db: Db, caller: UserId, teamId: TeamId, user: UserId, now: Time)
    returns (r: Outcome<RequestId>)
    requires db.Valid() && caller in db.users
    modifies db
    ensures db.Valid()
    ensures r.Err? ==> db.State() == old(db.State())
    ensures teamId >= |old(db.teams)| ==> r == Err(NotFound)
    ensures teamId < |old(db.teams)| && old(db.teams[teamId].leader) != caller ==> r == Err(Forbidden)
    ensures teamId < |old(db.teams)| && old(db.teams[teamId].leader) == caller ==>
              var t := old(db.teams[teamId]);
              if t.hackathon !in old(db.hackathons) then r == Err(ServerError)
              else if |t.members| >= old(db.hackathons[t.hackathon]).teamConfig.maxMembers then r == Err(BadRequest)
              else if user !in old(db.users) then r == Err(NotFound)
              else if InTeamFor(old(db.teams), t.hackathon, user) then r == Err(BadRequest)
              else if PendingInvitation(old(db.joinRequests), teamId, user) then r == Err(BadRequest)
              else
                r == Ok(|old(db.joinRequests)|) &&
                db.State() == old(db.State()).(joinRequests := old(db.joinRequests) + [
                  NewJoinRequest(teamId, user, caller, t.hackathon,
                                 InviteMessage(old(db.users[caller]).fullName, t.teamName), now)])
  {
    if teamId >= |db.teams| {
      return Err(NotFound);
    }
    var t := db.teams[teamId];
    if !IsLeader(t, caller) {
      return Err(Forbidden);
    }
    // `team.hackathon` was populated; a dangling reference makes the capacity check throw.
    if t.hackathon !in db.hackathons {
      return Err(ServerError);
    }
    if |t.members| >= db.hackathons[t.hackathon].teamConfig.maxMembers {
      return Err(BadRequest);
    }
    if user !in db.users {
      return Err(NotFound);
    }
    if InTeamFor(db.teams, t.hackathon, user) {
      return Err(BadRequest);
    }
    if PendingInvitation(db.joinRequests, teamId, user) {
      return Err(BadRequest);
    }
    var req := NewJoinRequest(teamId, user, caller, t.hackathon, InviteMessage(db.users[caller].fullName, t.teamName), now);
    r := Ok(|db.joinRequests|);
    db.joinRequests := db.joinRequests + [req];
  }

  /** The request with a response: the new status and `respondedAt`; nothing else changes. */
  function Responded(q: JoinRequest, s: RequestStatus, now: Time): (r: JoinRequest)
    ensures r.status == s && r.respondedAt == Some(now)
    ensures r.(status := q.status, respondedAt := q.respondedAt) == q
  {
    q.(status := s, respondedAt := Some(now))
  }

  /** The filter of the cascade: a pending request of user `u` in hackathon `h`. */
  predicate Displaced(q: JoinRequest, u: UserId, h: HackathonId)
  {
    q.user == u && q.hackathon == h && q.status == RequestPending
  }

  /** The `updateMany` after an acceptance: every pending request of `u` in hackathon `h` other
      than `keep` is rejected at `now`; all other requests stay as they are. */
  method RejectDisplaced(reqs: seq<JoinRequest>, u: UserId, h: HackathonId, keep: nat, now: Time)
    returns (out: seq<JoinRequest>)
    ensures |out| == |reqs|
    ensures forall k :: 0 <= k < |reqs| ==>
              out[k] == (if k != keep && Displaced(reqs[k], u, h) then Responded(reqs[k], RequestRejected, now)
                         else reqs[k])
    ensures forall k :: 0 <= k < |out| && k != keep ==> !Displaced(out[k], u, h)
    ensures forall k :: 0 <= k < |out| ==> out[k].team == reqs[k].team && out[k].hackathon == reqs[k].hackathon
  {
    out := [];
    var i := 0;
    while i < |reqs|
      invariant 0 <= i <= |reqs| && |out| == i
      invariant forall k :: 0 <= k < i ==>
                  out[k] == (if k != keep && Displaced(reqs[k], u, h) then Responded(reqs[k], RequestRejected, now)
                             else reqs[k])
    {
      var q := reqs[i];
      if i != keep && Displaced(q, u, h) {
        q := Responded(q, RequestRejected, now);
      }
      out := out + [q];
      i := i + 1;
    }
  }

  /** The request `requestId` exists, is for team `teamId` and user `u`, and is pending. */
  predicate OpenInvitation(reqs: seq<JoinRequest>, requestId: RequestId, teamId: TeamId, u: UserId)
  {
    requestId < |reqs| && reqs[requestId].team == teamId && reqs[requestId].user == u &&
    reqs[requestId].status == RequestPending
  }

  /** `acceptJoinRequest`: the invited caller joins the team. The request becomes accepted, and
      every other pending request of the caller in that hackathon becomes rejected. */
  method AcceptJoinRequest(db: Db, caller: UserId, teamId: TeamId, requestId: RequestId, now: Time)
    returns (r: Outcome<()>)
    requires db.Valid() && caller in db.users
    modifies db
    ensures db.Valid()
    ensures r.Err? ==> db.State() == old(db.State())
    ensures !OpenInvitation(old(db.joinRequests), requestId, teamId, caller) ==> r == Err(NotFound)
    ensures OpenInvitation(old(db.joinRequests), requestId, teamId, caller) ==>
              var h := old(db.joinRequests[requestId]).hackathon;
              if h !in old(db.hackathons) then r == Err(ServerError)
              else if InTeamFor(old(db.teams), h, caller) then r == Err(BadRequest)
              else if |old(db.teams[teamId]).members| >= old(db.hackathons[h]).teamConfig.maxMembers then
                r == Err(BadRequest)
              else r.Ok?
    ensures r.Ok? ==>
              var h := old(db.joinRequests[requestId]).hackathon;
              var old_reqs := old(db.joinRequests);
              teamId < |old(db.teams)| &&
              db.teams == old(db.teams)[teamId := Saved(Joined(old(db.teams[teamId]), caller, now))] &&
              |db.joinRequests| == |old_reqs| &&
              db.joinRequests[requestId] == Responded(old_reqs[requestId], RequestAccepted, now) &&
              (forall k :: 0 <= k < |old_reqs| && k != requestId ==>
                 db.joinRequests[k] == (if Displaced(old_reqs[k], caller, h) then Responded(old_reqs[k], RequestRejected, now)
                                        else old_reqs[k])) &&
              db.State() == old(db.State()).(teams := db.teams, joinRequests := db.joinRequests)
    ensures r.Ok? ==> forall k :: 0 <= k < |db.joinRequests| ==>
                        !Displaced(db.joinRequests[k], caller, old(db.joinRequests[requestId]).hackathon)
    ensures r.Ok? && ActiveMembershipUnique(old(db.teams)) ==> ActiveMembershipUnique(db.teams)
  {
    if !OpenInvitation(db.joinRequests, requestId, teamId, caller) {
      return Err(NotFound);
    }
    var q := db.joinRequests[requestId];
    var h := q.hackathon;
    // `joinRequest.hackathon` was populated; a dangling reference makes the query throw.
    if h !in db.hackathons {
      return Err(ServerError);
    }
    if InTeamFor(db.teams, h, caller) {
      return Err(BadRequest);
    }
    // The request names a stored team of the same hackathon, so `Team.findById` finds it.
    var t := db.teams[teamId];
    if |t.members| >= db.hackathons[h].teamConfig.maxMembers {
      return Err(BadRequest);
    }
    ghost var before := db.teams;
    db.SaveTeam(teamId, Joined(t, caller, now));
    if ActiveMembershipUnique(before) {
      JoiningKeepsUnique(before, teamId, caller, now, Saved(Joined(t, caller, now)));
    }
    var accepted := db.joinRequests[requestId := Responded(q, RequestAccepted, now)];
    var cascaded := RejectDisplaced(accepted, caller, h, requestId, now);
    db.joinRequests := cascaded;
    return Ok(());
  }

  /** `rejectJoinRequest`: the invited caller declines. */
  method RejectJoinRequest(db: Db, caller: UserId, teamId: TeamId, requestId: RequestId, now: Time)
    returns (r: Outcome<()>)
    requires db.Valid() && caller in db.users
    modifies db
    ensures db.Valid()
    ensures r.Ok? <==> OpenInvitation(old(db.joinRequests), requestId, teamId, caller)
    ensures r.Err? ==> r.status == NotFound && db.State() == old(db.State())
    ensures r.Ok? ==>
              db.State() == old(db.State()).(joinRequests := old(db.joinRequests)[requestId :=
                Responded(old(db.joinRequests[requestId]), RequestRejected, now)])
  {
    if !OpenInvitation(db.joinRequests, requestId, teamId, caller) {
      return Err(NotFound);
    }
    db.joinRequests := db.joinRequests[requestId := Responded(db.joinRequests[requestId], RequestRejected, now)];
    return Ok(());
  }

  /** `cancelJoinRequest`: the leader of team `teamId` or the request's sender withdraws a pending
      request. The request is looked up by id alone, so it need not belong to `teamId`. */
  method CancelJoinRequest(db: Db, caller: UserId, teamId: TeamId, requestId: RequestId, now: Time)
    returns (r: Outcome<()>)
    requires db.Valid() && caller in db.users
    modifies db
    ensures db.Valid()
    ensures r.Err? ==> db.State() == old(db.State())
    ensures teamId >= |old(db.teams)| || requestId >= |old(db.joinRequests)| ==> r == Err(NotFound)
    ensures teamId < |old(db.teams)| && requestId < |old(db.joinRequests)| ==>
              var q := old(db.joinRequests[requestId]);
              if old(db.teams[teamId]).leader != caller && q.sender != caller then r == Err(Forbidden)
              else if q.status != RequestPending then r == Err(BadRequest)
              else r == Ok(()) &&
                   db.State() == old(db.State()).(joinRequests := old(db.joinRequests)[requestId :=
                     Responded(q, RequestCancelled, now)])
  {
    if teamId >= |db.teams| {
      return Err(NotFound);
    }
    if requestId >= |db.joinRequests| {
      return Err(NotFound);
    }
    var q := db.joinRequests[requestId];
    if !IsLeader(db.teams[teamId], caller) && q.sender != caller {
      return Err(Forbidden);
    }
    if q.status != RequestPending {
      return Err(BadRequest);
    }
    db.joinRequests := db.joinRequests[requestId := Responded(q, RequestCancelled, now)];
    return Ok(());
  }

  // ------------------------------------------------------------- review

  /** The organizer of the team's hackathon or an administrator. */
  predicate MayReview(caller: UserId, u: User, hk: Hackathon)
  {
    hk.organizer == caller || IsAdmin(u)
  }

  /** The team `approveTeam` saves. */
  function ApprovedBy(t: Team, caller: UserId, now: Time): (r: Team)
    ensures r.registrationStatus == Approved && r.approvedAt == Some(now) && r.approvedBy == Some(caller)
    ensures r.(registrationStatus := t.registrationStatus, approvedAt := t.approvedAt, approvedBy := t.approvedBy) == t
  {
    t.(registrationStatus := Approved, approvedAt := Some(now), approvedBy := Some(caller))
  }

  /** The team `rejectTeam` saves: rejected, with a public note carrying a non-empty reason. */
  function RejectedTeam(t: Team, caller: UserId, reason: Option<string>, now: Time): (r: Team)
    ensures r.registrationStatus == Rejected
    ensures Truthy(reason) ==> r.notes == t.notes + [Note(caller, "Rejection reason: " + reason.value, now, true)]
    ensures !Truthy(reason) ==> r.notes == t.notes
    ensures r.(registrationStatus := t.registrationStatus, notes := t.notes) == t
  {
    var notes := if Truthy(reason) then t.notes + [Note(caller, "Rejection reason: " + reason.value, now, true)]
                 else t.notes;
    t.(registrationStatus := Rejected, notes := notes)
  }

  /** `approveTeam`. */
  method ApproveTeam(db: Db, caller: UserId, teamId: TeamId, now: Time) returns (r: Outcome<()>)
    requires db.Valid() && caller in db.users
    modifies db
    ensures db.Valid()
    ensures r.Err? ==> db.State() == old(db.State())
    ensures teamId >= |old(db.teams)| ==> r == Err(NotFound)
    ensures teamId < |old(db.teams)| ==>
              var t := old(db.teams[teamId]);
              if t.hackathon !in old(db.hackathons) then r == Err(ServerError)
              else if !MayReview(caller, old(db.users[caller]), old(db.hackathons[t.hackathon])) then r == Err(Forbidden)
              else r == Ok(()) &&
                   db.State() == old(db.State()).(teams := old(db.teams)[teamId := Saved(ApprovedBy(t, caller, now))])
  {
    if teamId >= |db.teams| {
      return Err(NotFound);
    }
    var t := db.teams[teamId];
    if t.hackathon !in db.hackathons {
      return Err(ServerError);
    }
    if !MayReview(caller, db.users[caller], db.hackathons[t.hackathon]) {
      return Err(Forbidden);
    }
    db.SaveTeam(teamId, ApprovedBy(t, caller, now));
    return Ok(());
  }

  /** `rejectTeam`. */
  method RejectTeam(db: Db, caller: UserId, teamId: TeamId, reason: Option<string>, now: Time) returns (r: Outcome<()>)
    requires db.Valid() && caller in db.users
    modifies db
    ensures db.Valid()
    ensures r.Err? ==> db.State() == old(db.State())
    ensures teamId >= |old(db.teams)| ==> r == Err(NotFound)
    ensures teamId < |old(db.teams)| ==>
              var t := old(db.teams[teamId]);
              if t.hackathon !in old(db.hackathons) then r == Err(ServerError)
              else if !MayReview(caller, old(db.users[caller]), old(db.hackathons[t.hackathon])) then r == Err(Forbidden)
              else r == Ok(()) &&
                   db.State() == old(db.State()).(teams := old(db.teams)[teamId := Saved(RejectedTeam(t, caller, reason, now))])
  {
    if teamId >= |db.teams| {
      return Err(NotFound);
    }
    var t := db.teams[teamId];
    if t.hackathon !in db.hackathons {
      return Err(ServerError);
    }
    if !MayReview(caller, db.users[caller], db.hackathons[t.hackathon]) {
      return Err(Forbidden);
    }
    db.SaveTeam(teamId, RejectedTeam(t, caller, reason, now));
    return Ok(());
  }

  // ------------------------------------------------------------- details

  /** The fields `updateTeam` assigns: non-empty strings, and a tech stack whenever one is sent. */
  function Updated(t: Team, teamName: Option<string>, projectTitle: Option<string>, projectDescription: Option<string>,
                   techStack: Option<seq<string>>): (r: Team)
    ensures r.teamName == (if Truthy(teamName) then teamName.value else t.teamName)
    ensures r.projectTitle == (if Truthy(projectTitle) then projectTitle else t.projectTitle)
    ensures r.projectDescription == (if Truthy(projectDescription) then projectDescription else t.projectDescription)
    ensures r.techStack == (if techStack.Some? then techStack.value else t.techStack)
    ensures r.(teamName := t.teamName, projectTitle := t.projectTitle, projectDescription := t.projectDescription,
               techStack := t.techStack) == t
  {
    t.(teamName := if Truthy(teamName) then teamName.value else t.teamName,
       projectTitle := if Truthy(projectTitle) then projectTitle else t.projectTitle,
       projectDescription := if Truthy(projectDescription) then projectDescription else t.projectDescription,
       techStack := if techStack.Some? then techStack.value else t.techStack)
  }

  /** `updateTeam`: only the leader may edit, and a new name needs the hackathon's permission. */
  method UpdateTeam(db: Db, caller: UserId, teamId: TeamId, teamName: Option<string>, projectTitle: Option<string>,
                    projectDescription: Option<string>, techStack: Option<seq<string>>)
    returns (r: Outcome<()>)
    requires db.Valid() && caller in db.users
    modifies db
    ensures db.Valid()
    ensures r.Err? ==> db.State() == old(db.State())
    ensures teamId >= |old(db.teams)| ==> r == Err(NotFound)
    ensures teamId < |old(db.teams)| && old(db.teams[teamId]).leader != caller ==> r == Err(Forbidden)
    ensures teamId < |old(db.teams)| && old(db.teams[teamId]).leader == caller ==>
              var t := old(db.teams[teamId]);
              var u := Updated(t, teamName, projectTitle, projectDescription, techStack);
              if Truthy(teamName) && t.hackathon !in old(db.hackathons) then r == Err(ServerError)
              else if Truthy(teamName) && !old(db.hackathons[t.hackathon]).settings.allowTeamNameChange then
                r == Err(BadRequest)
              else if NameTaken(old(db.teams), t.hackathon, u.teamName, teamId) then r == Err(ServerError)
              else r == Ok(()) && db.State() == old(db.State()).(teams := old(db.teams)[teamId := Saved(u)])
  {
    if teamId >= |db.teams| {
      return Err(NotFound);
    }
    var t := db.teams[teamId];
    if !IsLeader(t, caller) {
      return Err(Forbidden);
    }
    if Truthy(teamName) {
      if t.hackathon !in db.hackathons {
        return Err(ServerError);
      }
      if !db.hackathons[t.hackathon].settings.allowTeamNameChange {
        return Err(BadRequest);
      }
    }
    var u := Updated(t, teamName, projectTitle, projectDescription, techStack);
    // `team.save()` fails on the unique (hackathon, teamName) index.
    if NameTaken(db.teams, t.hackathon, u.teamName, teamId) {
      return Err(ServerError);
    }
    db.SaveTeam(teamId, u);
    return Ok(());
  }

  /** `checkInMember`: the first entry naming user `member`, whatever its status, is checked in;
      once every entry is checked in, the team is marked as fully checked in. */
  method CheckInMember(db: Db, staff: UserId, teamId: TeamId, member: UserId, now: Time) returns (r: Outcome<()>)
    requires db.Valid()
    modifies db
    ensures db.Valid()
    ensures r.Err? ==> r.status == NotFound && db.State() == old(db.State())
    ensures r.Err? <==> teamId >= |old(db.teams)| ||
                        forall i :: 0 <= i < |old(db.teams[teamId]).members| ==> old(db.teams[teamId]).members[i].user != member
    ensures r.Ok? ==>
              var t := old(db.teams[teamId]);
              exists i :: 0 <= i < |t.members| && t.members[i].user == member &&
                (forall j :: 0 <= j < i ==> t.members[j].user != member) &&
                var ms := t.members[i := CheckedInEntry(t.members[i], staff, now)];
                db.State() == old(db.State()).(teams := old(db.teams)[teamId := Saved(t.(
                  members := ms,
                  checkIn := t.checkIn.(allMembersCheckedIn := t.checkIn.allMembersCheckedIn || AllCheckedIn(ms))))])
    ensures r.Ok? && ActiveMembershipUnique(old(db.teams)) ==> ActiveMembershipUnique(db.teams)
  {
    if teamId >= |db.teams| {
      return Err(NotFound);
    }
    var t := db.teams[teamId];
    var found := FindIndex(t.members, (m: TeamMember) => m.user == member);
    if found.None? {
      return Err(NotFound);
    }
    var i := found.value;
    var ms := t.members[i := CheckedInEntry(t.members[i], staff, now)];
    var checkIn := t.checkIn;
    if AllCheckedIn(ms) {
      checkIn := checkIn.(allMembersCheckedIn := true);
    }
    ghost var before := db.teams;
    var saved := t.(members := ms, checkIn := checkIn);
    db.SaveTeam(teamId, saved);
    if ActiveMembershipUnique(before) {
      CheckInKeepsUnique(before, teamId, i, staff, now, Saved(saved));
    }
    return Ok(());
  }

  // ------------------------------------------------- submissions and scores

  /** `submitProject`: an active member submits once per round. */
  method SubmitProject(db: Db, caller: UserId, teamId: TeamId, round: RoundId, details: SubmissionDetails, now: Time)
    returns (r: Outcome<()>)
    requires db.Valid() && caller in db.users
    modifies db
    ensures db.Valid()
    ensures r.Err? ==> db.State() == old(db.State())
    ensures teamId >= |old(db.teams)| ==> r == Err(NotFound)
    ensures teamId < |old(db.teams)| ==>
              var t := old(db.teams[teamId]);
              if !IsMember(t, caller) then r == Err(Forbidden)
              else if HasSubmittedForRound(t.submissions, round) then r == Err(BadRequest)
              else r == Ok(()) &&
                   db.State() == old(db.State()).(teams := old(db.teams)[teamId := Saved(t.(
                     submissions := t.submissions + [Submission(round, now, caller, details, Submitted)]))])
    ensures r.Ok? && OneSubmissionPerRound(old(db.teams[teamId]).submissions) ==>
              OneSubmissionPerRound(db.teams[teamId].submissions)
  {
    if teamId >= |db.teams| {
      return Err(NotFound);
    }
    var t := db.teams[teamId];
    if !IsMember(t, caller) {
      return Err(Forbidden);
    }
    if HasSubmittedForRound(t.submissions, round) {
      return Err(BadRequest);
    }
    var s := Submission(round, now, caller, details, Submitted);
    if OneSubmissionPerRound(t.submissions) {
      SubmittingKeepsOnePerRound(t.submissions, s);
    }
    db.SaveTeam(teamId, t.(submissions := t.submissions + [s]));
    return Ok(());
  }

  /** `scoreTeam`: a judge scores a team once per round; the saved overall score is recomputed. */
  method ScoreTeam(db: Db, judge: UserId, teamId: TeamId, round: RoundId, criteria: seq<Criterion>,
                   remarks: Option<string>, feedback: Option<string>, now: Time)
    returns (r: Outcome<()>)
    requires db.Valid()
    modifies db
    ensures db.Valid()
    ensures r.Err? ==> db.State() == old(db.State())
    ensures teamId >= |old(db.teams)| ==> r == Err(NotFound)
    ensures teamId < |old(db.teams)| ==>
              var t := old(db.teams[teamId]);
              if HasScoreBy(t.scores, round, judge) then r == Err(BadRequest)
              else r == Ok(()) &&
                   db.State() == old(db.State()).(teams := old(db.teams)[teamId := Saved(t.(
                     scores := t.scores + [JudgeScore(round, judge, criteria, remarks, feedback, now)]))])
    ensures r.Ok? && OneScorePerJudge(old(db.teams[teamId]).scores) ==> OneScorePerJudge(db.teams[teamId].scores)
    ensures r.Ok? && ScoresWithinBounds(old(db.teams[teamId]).scores) && CriteriaWithinBounds(criteria) ==>
              0.0 <= db.teams[teamId].overallScore <= 100.0
  {
    if teamId >= |db.teams| {
      return Err(NotFound);
    }
    var t := db.teams[teamId];
    if HasScoreBy(t.scores, round, judge) {
      return Err(BadRequest);
    }
    var s := JudgeScore(round, judge, criteria, remarks, feedback, now);
    if OneScorePerJudge(t.scores) {
      ScoringKeepsOnePerJudge(t.scores, s);
    }
    if ScoresWithinBounds(t.scores) && CriteriaWithinBounds(criteria) {
      JudgeScoreKeepsPercentage(t.scores, round, judge, criteria, remarks, feedback, now);
    }
    db.SaveTeam(teamId, t.(scores := t.scores + [s]));
    return Ok(());
  }

  /** `eliminateTeam`: the elimination fields are set; round and reason are stored as sent. */
  method EliminateTeam(db: Db, caller: UserId, teamId: TeamId, round: Option<RoundId>, reason: Option<string>, now: Time)
    returns (r: Outcome<()>)
    requires db.Valid()
    modifies db
    ensures db.Valid()
    ensures r.Err? <==> teamId >= |old(db.teams)|
    ensures r.Err? ==> r.status == NotFound && db.State() == old(db.State())
    ensures r.Ok? ==>
              var t := old(db.teams[teamId]);
              db.State() == old(db.State()).(teams := old(db.teams)[teamId := Saved(t.(
                isEliminated := true, eliminatedAt := Some(now), eliminatedInRound := round,
                eliminatedBy := Some(caller), eliminationReason := reason))])
  {
    if teamId >= |db.teams| {
      return Err(NotFound);
    }
    var t := db.teams[teamId];
    db.SaveTeam(teamId, t.(isEliminated := true, eliminatedAt := Some(now), eliminatedInRound := round,
                           eliminatedBy := Some(caller), eliminationReason := reason));
    return Ok(());
  }

  // ------------------------------------------------------ leaving and removal

  /** The search of `leaveTeam`: the first entry of `u` that is active, if any; there is none
      exactly when `u` is no member. */
  function ActiveEntryOf(t: Team, u: UserId): (r: Option<nat>)
    ensures r.None? <==> !IsMember(t, u)
    ensures r.Some? ==>
              r.value < |t.members| && t.members[r.value].user == u && t.members[r.value].status == Active &&
              forall j :: 0 <= j < r.value ==> !(t.members[j].user == u && t.members[j].status == Active)
  {
    FindIndex(t.members, (m: TeamMember) => m.user == u && m.status == Active)
  }

  /** `leaveTeam`: a member other than the leader leaves; the first active entry naming the caller
      becomes `left`. The entry stays in the list. */
  method LeaveTeam(db: Db, caller: UserId, teamId: TeamId) returns (r: Outcome<()>)
    requires db.Valid() && caller in db.users
    modifies db
    ensures db.Valid()
    ensures r.Err? ==> db.State() == old(db.State())
    ensures teamId >= |old(db.teams)| ==> r == Err(NotFound)
    ensures teamId < |old(db.teams)| && old(db.teams[teamId]).leader == caller ==> r == Err(BadRequest)
    ensures teamId < |old(db.teams)| && old(db.teams[teamId]).leader != caller && !IsMember(old(db.teams[teamId]), caller) ==>
              r == Err(NotFound)
    ensures teamId < |old(db.teams)| && old(db.teams[teamId]).leader != caller ==>
              var t := old(db.teams[teamId]);
              var found := ActiveEntryOf(t, caller);
              if found.None? then r == Err(NotFound)
              else r == Ok(()) && db.State() == old(db.State()).(teams := old(db.teams)[teamId := Saved(WithMemberStatus(t, found.value, Left))])
    ensures r.Ok? ==>
              var t := old(db.teams[teamId]);
              t.leader != caller &&
              exists i :: 0 <= i < |t.members| && t.members[i].user == caller && t.members[i].status == Active &&
                (forall j :: 0 <= j < i ==> !(t.members[j].user == caller && t.members[j].status == Active)) &&
                db.State() == old(db.State()).(teams := old(db.teams)[teamId := Saved(WithMemberStatus(t, i, Left))])
    ensures r.Ok? && ActiveMembershipUnique(old(db.teams)) ==>
              ActiveMembershipUnique(db.teams) && !IsMember(db.teams[teamId], caller)
  {
    if teamId >= |db.teams| {
      return Err(NotFound);
    }
    var t := db.teams[teamId];
    if IsLeader(t, caller) {
      return Err(BadRequest);
    }
    var found := ActiveEntryOf(t, caller);
    if found.None? {
      return Err(NotFound);
    }
    var i := found.value;
    LeavingKeepsUnique(db.teams, teamId, i);
    db.SaveTeam(teamId, WithMemberStatus(t, i, Left));
    return Ok(());
  }

  /** Leaving keeps one active membership per user and hackathon, and ends the leaver's membership. */
  lemma LeavingKeepsUnique(teams: seq<Team>, k: nat, i: nat)
    requires k < |teams| && i < |teams[k].members| && teams[k].members[i].status == Active
    ensures ActiveMembershipUnique(teams) ==>
              ActiveMembershipUnique(teams[k := Saved(WithMemberStatus(teams[k], i, Left))]) &&
              !IsMember(Saved(WithMemberStatus(teams[k], i, Left)), teams[k].members[i].user)
  {
    if ActiveMembershipUnique(teams) {
      EndingMembershipKeepsUnique(teams, k, i, Left, Saved(WithMemberStatus(teams[k], i, Left)));
      LeavingEndsMembership(teams, k, i, Left);
    }
  }

  /** Under the invariant, ending the one active entry of a user ends that user's membership. */
  lemma LeavingEndsMembership(teams: seq<Team>, k: nat, i: nat, s: MemberStatus)
    requires k < |teams| && i < |teams[k].members| && s != Active && teams[k].members[i].status == Active
    requires ActiveMembershipUnique(teams)
    ensures !IsMember(Saved(WithMemberStatus(teams[k], i, s)), teams[k].members[i].user)
  {
    var after := Saved(WithMemberStatus(teams[k], i, s));
    var u := teams[k].members[i].user;
    forall j | 0 <= j < |after.members| && after.members[j].user == u
      ensures after.members[j].status != Active
    {
      if j != i && after.members[j].status == Active {
        assert ActiveIn(teams, k, j) && ActiveIn(teams, k, i);
      }
    }
  }

  /** `removeMember`: the leader removes the active entry `memberId` (entries are identified by
      their position); the leader's own entry cannot be removed. */
  method RemoveMember(db: Db, caller: UserId, teamId: TeamId, memberId: nat) returns (r: Outcome<()>)
    requires db.Valid() && caller in db.users
    modifies db
    ensures db.Valid()
    ensures r.Err? ==> db.State() == old(db.State())
    ensures teamId >= |old(db.teams)| ==> r == Err(NotFound)
    ensures teamId < |old(db.teams)| ==>
              var t := old(db.teams[teamId]);
              if t.leader != caller then r == Err(Forbidden)
              else if !(memberId < |t.members| && t.members[memberId].status == Active) then r == Err(NotFound)
              else if t.members[memberId].role == Leader then r == Err(BadRequest)
              else r == Ok(()) &&
                   db.State() == old(db.State()).(teams := old(db.teams)[teamId := Saved(WithMemberStatus(t, memberId, Removed))])
    ensures r.Ok? && ActiveMembershipUnique(old(db.teams)) ==> ActiveMembershipUnique(db.teams)
  {
    if teamId >= |db.teams| {
      return Err(NotFound);
    }
    var t := db.teams[teamId];
    if !IsLeader(t, caller) {
      return Err(Forbidden);
    }
    if !(memberId < |t.members| && t.members[memberId].status == Active) {
      return Err(NotFound);
    }
    if t.members[memberId].role == Leader {
      return Err(BadRequest);
    }
    ghost var before := db.teams;
    db.SaveTeam(teamId, WithMemberStatus(t, memberId, Removed));
    if ActiveMembershipUnique(before) {
      EndingMembershipKeepsUnique(before, teamId, memberId, Removed, Saved(WithMemberStatus(t, memberId, Removed)));
    }
    return Ok(());
  }
}
