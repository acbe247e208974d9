/** The pure rules behind the team handlers of src/controllers/team.controller.js: the
    "already in a team" queries, the records the handlers build, and the invariants those
    records keep (one active membership per user and hackathon, one submission per round,
    one score per round and judge). */
module TeamRules {
  import opened Common
  import opened TeamModel
  import opened HackathonRecord

  // ------------------------------------------------------------ team queries

  /** The filter `{'members.user': u, 'members.status': 'active'}` on one team. Without
      `$elemMatch` the two conditions may be met by different entries: some entry names `u`,
      and some entry, possibly another one, is active. */
  predicate LooseActiveMatch(t: Team, u: UserId)
  {
    (exists a :: 0 <= a < |t.members| && t.members[a].user == u) &&
    (exists b :: 0 <= b < |t.members| && t.members[b].status == Active)
  }

  /** `Team.findOne({hackathon: h, 'members.user': u, 'members.status': 'active'})` finds a team. */
  predicate InTeamFor(teams: seq<Team>, h: HackathonId, u: UserId)
  {
    exists k :: 0 <= k < |teams| && teams[k].hackathon == h && LooseActiveMatch(teams[k], u)
  }

  /** The registration query: a team of `h` that `u` leads or loosely matches. */
  predicate RegisteredFor(teams: seq<Team>, h: HackathonId, u: UserId)
  {
    exists k :: 0 <= k < |teams| && teams[k].hackathon == h && (teams[k].leader == u || LooseActiveMatch(teams[k], u))
  }

  /** The loose query over-approximates membership: every active member matches it. */
  lemma MemberMatchesLoosely(t: Team, u: UserId)
    ensures IsMember(t, u) ==> LooseActiveMatch(t, u)
  {
  }

  /** A user who left a team (or was removed from it) stays blocked by the loose query while any
      entry of the team, the leader's for instance, is still active, although the team no longer
      counts the user as a member. */
  lemma LeftMemberStaysBlocked(t: Team, u: UserId)
    requires exists b :: 0 <= b < |t.members| && t.members[b].status == Active
    requires exists a :: 0 <= a < |t.members| && t.members[a].user == u
    requires forall a :: 0 <= a < |t.members| && t.members[a].user == u ==> t.members[a].status != Active
    ensures LooseActiveMatch(t, u) && !IsMember(t, u)
  {
  }

  // ------------------------------------------------ one active membership

  /** Entry `a` of team `k` exists and is active. */
  ghost predicate ActiveIn(teams: seq<Team>, k: int, a: int)
  {
    0 <= k < |teams| && 0 <= a < |teams[k].members| && teams[k].members[a].status == Active
  }

  /** Within a hackathon, a user has at most one active entry, in at most one team. */
  ghost predicate ActiveMembershipUnique(teams: seq<Team>)
  {
    forall k1, a1, k2, a2 ::
      ActiveIn(teams, k1, a1) && ActiveIn(teams, k2, a2) &&
      teams[k1].hackathon == teams[k2].hackathon &&
      teams[k1].members[a1].user == teams[k2].members[a2].user
      ==> k1 == k2 && a1 == a2
  }

  /** The user has no active entry in any team of the hackathon. */
  ghost predicate NoActiveEntry(teams: seq<Team>, h: HackathonId, u: UserId)
  {
    forall k, a :: ActiveIn(teams, k, a) && teams[k].hackathon == h ==> teams[k].members[a].user != u
  }

  /** Passing the loose query, in either of its forms, rules out an active entry. */
  lemma FreeUserHasNoActiveEntry(teams: seq<Team>, h: HackathonId, u: UserId)
    requires !InTeamFor(teams, h, u) || !RegisteredFor(teams, h, u)
    ensures NoActiveEntry(teams, h, u)
  {
    forall k, a | ActiveIn(teams, k, a) && teams[k].hackathon == h
      ensures teams[k].members[a].user != u
    {
      if teams[k].members[a].user == u {
        assert LooseActiveMatch(teams[k], u);
        assert false;
      }
    }
  }

  /** Any change that keeps teams, hackathons and users in place and only ends memberships
      keeps the invariant. */
  lemma UniqueUnderShrink(before: seq<Team>, after: seq<Team>)
    requires |after| == |before|
    requires forall k :: 0 <= k < |after| ==> after[k].hackathon == before[k].hackathon
    requires forall k, a :: ActiveIn(after, k, a) ==>
      ActiveIn(before, k, a) && after[k].members[a].user == before[k].members[a].user
    requires ActiveMembershipUnique(before)
    ensures ActiveMembershipUnique(after)
  {
  }

  // ------------------------------------------------------- member entries

  /** A new entry with the schema defaults: active, joined now, not checked in. */
  function NewEntry(u: UserId, role: MemberRole, now: Time): (m: TeamMember)
    ensures m.user == u && m.role == role && m.status == Active && !m.checkIn.isCheckedIn
  {
    TeamMember(u, role, now, Active, NotCheckedIn)
  }

  /** The member list `registerTeam` stores: the caller as leader, then each listed id as a member. */
  function RegistrationEntries(caller: UserId, listed: seq<UserId>, now: Time): (ms: seq<TeamMember>)
    ensures |ms| == |listed| + 1
    ensures ms[0] == NewEntry(caller, Leader, now)
    ensures forall i :: 0 <= i < |listed| ==> ms[i + 1] == NewEntry(listed[i], Member, now)
  {
    [NewEntry(caller, Leader, now)] + seq(|listed|, i requires 0 <= i < |listed| => NewEntry(listed[i], Member, now))
  }

  /** The `registerTeam` document, before the pre-save hook. */
  function NewTeam(h: HackathonId, hk: Hackathon, caller: UserId, teamName: string, listed: seq<UserId>,
                   projectTitle: Option<string>, projectDescription: Option<string>, now: Time): (t: Team)
    ensures t.hackathon == h && t.leader == caller && t.teamName == teamName
    ensures t.members == RegistrationEntries(caller, listed, now)
    ensures t.registrationStatus == (if hk.settings.autoAcceptTeams then Approved else Pending)
    ensures t.payment.status == (if hk.registrationFee.amount > 0.0 then PaymentPending else PaymentCompleted)
    ensures t.payment.amount == hk.registrationFee.amount && t.payment.currency == hk.registrationFee.currency
    ensures t.scores == [] && t.submissions == [] && !t.isEliminated
  {
    Team(
      hackathon := h,
      teamName := teamName,
      teamNumber := None,
      tableNumber := None,
      members := RegistrationEntries(caller, listed, now),
      leader := caller,
      projectTitle := projectTitle,
      projectDescription := projectDescription,
      techStack := [],
      registrationStatus := if hk.settings.autoAcceptTeams then Approved else Pending,
      registeredAt := now,
      approvedAt := None,
      approvedBy := None,
      payment := TeamPayment(
        if hk.registrationFee.amount > 0.0 then PaymentPending else PaymentCompleted,
        hk.registrationFee.amount, hk.registrationFee.currency, None, None, None, None, None),
      submissions := [],
      scores := [],
      overallScore := 0.0,
      isEliminated := false,
      eliminatedAt := None,
      eliminatedInRound := None,
      eliminatedBy := None,
      eliminationReason := None,
      checkIn := TeamCheckIn(false, None, None, false),
      notes := [])
  }

  /** No two positions of the sequence hold the same id. */
  predicate Distinct(us: seq<UserId>)
  {
    forall i, j :: 0 <= i < |us| && 0 <= j < |us| && us[i] == us[j] ==> i == j
  }

  /** No active entry of a team of `t`'s hackathon names a user of one of `t`'s entries. */
  ghost predicate DisjointFrom(teams: seq<Team>, t: Team)
  {
    forall k, a, b :: ActiveIn(teams, k, a) && teams[k].hackathon == t.hackathon && 0 <= b < |t.members| ==>
      teams[k].members[a].user != t.members[b].user
  }

  /** No two entries of the member list name the same user. */
  ghost predicate DistinctEntries(ms: seq<TeamMember>)
  {
    forall a1, a2 :: 0 <= a1 < |ms| && 0 <= a2 < |ms| && ms[a1].user == ms[a2].user ==> a1 == a2
  }

  /** Adding a team whose users are pairwise different and free in its hackathon keeps the invariant. */
  lemma AppendingDisjointKeepsUnique(teams: seq<Team>, t: Team)
    requires ActiveMembershipUnique(teams) && DisjointFrom(teams, t) && DistinctEntries(t.members)
    ensures ActiveMembershipUnique(teams + [t])
  {
    var all := teams + [t];
    forall k1, a1, k2, a2 |
      ActiveIn(all, k1, a1) && ActiveIn(all, k2, a2) &&
      all[k1].hackathon == all[k2].hackathon &&
      all[k1].members[a1].user == all[k2].members[a2].user
      ensures k1 == k2 && a1 == a2
    {
      if k1 < |teams| && k2 < |teams| {
        assert ActiveIn(teams, k1, a1) && ActiveIn(teams, k2, a2);
      }
    }
  }

  /** Registering keeps one active membership per user, provided the leader and the listed
      members are all free and pairwise different. The handler itself checks only the first. */
  lemma RegisteringKeepsUnique(teams: seq<Team>, t: Team, caller: UserId, listed: seq<UserId>, now: Time)
    requires ActiveMembershipUnique(teams)
    requires t.members == RegistrationEntries(caller, listed, now)
    requires !RegisteredFor(teams, t.hackathon, caller)
    requires forall i :: 0 <= i < |listed| ==> !InTeamFor(teams, t.hackathon, listed[i])
    requires Distinct([caller] + listed)
    ensures ActiveMembershipUnique(teams + [t])
  {
    RegistrationEntriesDistinct(caller, listed, now);
    RegistrationEntriesFree(teams, t, caller, listed, now);
    AppendingDisjointKeepsUnique(teams, t);
  }

  /** Distinct ids give distinct entries. */
  lemma RegistrationEntriesDistinct(caller: UserId, listed: seq<UserId>, now: Time)
    requires Distinct([caller] + listed)
    ensures DistinctEntries(RegistrationEntries(caller, listed, now))
  {
    var ms := RegistrationEntries(caller, listed, now);
    var ids := [caller] + listed;
    assert forall a :: 0 <= a < |ms| ==> ms[a].user == ids[a];
  }

  /** Entries for users free in the hackathon clash with no active entry there. */
  lemma RegistrationEntriesFree(teams: seq<Team>, t: Team, caller: UserId, listed: seq<UserId>, now: Time)
    requires t.members == RegistrationEntries(caller, listed, now)
    requires !RegisteredFor(teams, t.hackathon, caller)
    requires forall i :: 0 <= i < |listed| ==> !InTeamFor(teams, t.hackathon, listed[i])
    ensures DisjointFrom(teams, t)
  {
    forall b | 0 <= b < |t.members| ensures NoActiveEntry(teams, t.hackathon, t.members[b].user) {
      if b == 0 {
        FreeUserHasNoActiveEntry(teams, t.hackathon, caller);
      } else {
        assert t.members[b].user == listed[b - 1];
        FreeUserHasNoActiveEntry(teams, t.hackathon, listed[b - 1]);
      }
    }
  }

  /** Without the distinctness proviso the invariant fails: listing the same free user twice
      registers a team holding two active entries for that user. */
  lemma DuplicateListedMemberBreaksUniqueness(h: HackathonId, hk: Hackathon, caller: UserId, u: UserId, now: Time)
    ensures !ActiveMembershipUnique([NewTeam(h, hk, caller, "t", [u, u], None, None, now)])
  {
    var t := NewTeam(h, hk, caller, "t", [u, u], None, None, now);
    assert t.members[1] == NewEntry(u, Member, now) && t.members[2] == NewEntry(u, Member, now);
    assert ActiveIn([t], 0, 1) && ActiveIn([t], 0, 2);
  }

  /** The entry `acceptJoinRequest` pushes. */
  function Joined(t: Team, u: UserId, now: Time): (r: Team)
    ensures r.members == t.members + [NewEntry(u, Member, now)]
    ensures r.(members := t.members) == t
  {
    t.(members := t.members + [NewEntry(u, Member, now)])
  }

  /** Joining keeps one active membership per user when the joining user has none in the hackathon. */
  lemma JoiningKeepsUnique(teams: seq<Team>, k: nat, u: UserId, now: Time, saved: Team)
    requires k < |teams| && ActiveMembershipUnique(teams)
    requires !InTeamFor(teams, teams[k].hackathon, u)
    requires saved.members == Joined(teams[k], u, now).members && saved.hackathon == teams[k].hackathon
    ensures ActiveMembershipUnique(teams[k := saved])
  {
    var after := teams[k := saved];
    FreeUserHasNoActiveEntry(teams, teams[k].hackathon, u);
    var n := |teams[k].members|;
    forall k1, a1, k2, a2 |
      ActiveIn(after, k1, a1) && ActiveIn(after, k2, a2) &&
      after[k1].hackathon == after[k2].hackathon &&
      after[k1].members[a1].user == after[k2].members[a2].user
      ensures k1 == k2 && a1 == a2
    {
      var new1 := k1 == k && a1 == n;
      var new2 := k2 == k && a2 == n;
      if !new1 && !new2 {
        assert ActiveIn(teams, k1, a1) && ActiveIn(teams, k2, a2);
      }
    }
  }

  /** Entry `i` with a new status; nothing else in the team changes. */
  function WithMemberStatus(t: Team, i: nat, s: MemberStatus): (r: Team)
    requires i < |t.members|
    ensures |r.members| == |t.members| && r.members[i].status == s
    ensures r.members[i].(status := t.members[i].status) == t.members[i]
    ensures forall j :: 0 <= j < |t.members| && j != i ==> r.members[j] == t.members[j]
    ensures r.(members := t.members) == t
  {
    t.(members := t.members[i := t.members[i].(status := s)])
  }

  /** Ending a membership (leaving or removal) keeps one active membership per user. */
  lemma EndingMembershipKeepsUnique(teams: seq<Team>, k: nat, i: nat, s: MemberStatus, saved: Team)
    requires k < |teams| && i < |teams[k].members| && s != Active
    requires ActiveMembershipUnique(teams)
    requires saved.members == WithMemberStatus(teams[k], i, s).members && saved.hackathon == teams[k].hackathon
    ensures ActiveMembershipUnique(teams[k := saved])
  {
    UniqueUnderShrink(teams, teams[k := saved]);
  }

  // ------------------------------------------------------------ check-in

  /** `members.every(m => m.checkIn.isCheckedIn)`. */
  predicate AllCheckedIn(ms: seq<TeamMember>)
  {
    forall i :: 0 <= i < |ms| ==> ms[i].checkIn.isCheckedIn
  }

  /** The member-check-in update of entry `i`. */
  function CheckedInEntry(m: TeamMember, staff: UserId, now: Time): (r: TeamMember)
    ensures r.checkIn == MemberCheckIn(true, Some(now), Some(staff))
    ensures r.(checkIn := m.checkIn) == m
  {
    m.(checkIn := MemberCheckIn(true, Some(now), Some(staff)))
  }

  /** Checking in never changes who is an active member. */
  lemma CheckInKeepsUnique(teams: seq<Team>, k: nat, i: nat, staff: UserId, now: Time, saved: Team)
    requires k < |teams| && i < |teams[k].members| && ActiveMembershipUnique(teams)
    requires saved.members == teams[k].members[i := CheckedInEntry(teams[k].members[i], staff, now)]
    requires saved.hackathon == teams[k].hackathon
    ensures ActiveMembershipUnique(teams[k := saved])
  {
    UniqueUnderShrink(teams, teams[k := saved]);
  }

  // ------------------------------------------------- submissions and scores

  /** At most one submission per round. */
  ghost predicate OneSubmissionPerRound(subs: seq<Submission>)
  {
    forall i, j :: 0 <= i < |subs| && 0 <= j < |subs| && subs[i].round == subs[j].round ==> i == j
  }

  /** The guard of `submitProject` keeps one submission per round. */
  lemma SubmittingKeepsOnePerRound(subs: seq<Submission>, s: Submission)
    requires OneSubmissionPerRound(subs) && !HasSubmittedForRound(subs, s.round)
    ensures OneSubmissionPerRound(subs + [s])
  {
    var all := subs + [s];
    assert forall i :: 0 <= i < |subs| ==> all[i] == subs[i] && subs[i].round != s.round;
  }

  /** `scores.find(s => s.round == round && s.judge == judge)` finds one. */
  predicate HasScoreBy(scores: seq<Score>, round: RoundId, judge: UserId)
  {
    exists i :: 0 <= i < |scores| && scores[i].round == round && scores[i].judge == judge
  }

  /** At most one score per round and judge. */
  ghost predicate OneScorePerJudge(scores: seq<Score>)
  {
    forall i, j ::
      (0 <= i < |scores| && 0 <= j < |scores| &&
       scores[i].round == scores[j].round && scores[i].judge == scores[j].judge) ==> i == j
  }

  /** The guard of `scoreTeam` keeps one score per round and judge. */
  lemma ScoringKeepsOnePerJudge(scores: seq<Score>, s: Score)
    requires OneScorePerJudge(scores) && !HasScoreBy(scores, s.round, s.judge)
    ensures OneScorePerJudge(scores + [s])
  {
    var all := scores + [s];
    assert forall i :: 0 <= i < |scores| ==> all[i] == scores[i];
  }

  /** `criteriaScores.reduce((sum, c) => sum + c.score, 0)`. */
  function CriteriaTotal(cs: seq<Criterion>): real
  {
    if cs == [] then 0.0 else CriteriaTotal(cs[..|cs| - 1]) + cs[|cs| - 1].score
  }

  /** `criteriaScores.reduce((sum, c) => sum + c.maxScore, 0)`. */
  function CriteriaPossible(cs: seq<Criterion>): real
  {
    if cs == [] then 0.0 else CriteriaPossible(cs[..|cs| - 1]) + cs[|cs| - 1].maxScore
  }

  /** Each criterion scores between 0 and its maximum. */
  predicate CriteriaWithinBounds(cs: seq<Criterion>)
  {
    forall i :: 0 <= i < |cs| ==> 0.0 <= cs[i].score <= cs[i].maxScore
  }

  /** Criteria within their bounds add up to a total within the possible total. */
  lemma {:induction false} CriteriaTotalsBounded(cs: seq<Criterion>)
    requires CriteriaWithinBounds(cs)
    ensures 0.0 <= CriteriaTotal(cs) <= CriteriaPossible(cs)
  {
    if cs != [] {
      var prefix := cs[..|cs| - 1];
      assert forall i :: 0 <= i < |prefix| ==> prefix[i] == cs[i];
      CriteriaTotalsBounded(prefix);
    }
  }

  /** The score `scoreTeam` pushes: the sums of the criteria, finalized at once. */
  function JudgeScore(round: RoundId, judge: UserId, cs: seq<Criterion>, remarks: Option<string>,
                      feedback: Option<string>, now: Time): (s: Score)
    ensures s.round == round && s.judge == judge && s.criteriaScores == cs && s.isFinalized
    ensures s.totalScore == CriteriaTotal(cs) && s.maxPossibleScore == CriteriaPossible(cs)
  {
    Score(round, judge, cs, CriteriaTotal(cs), CriteriaPossible(cs), remarks, feedback, now, true)
  }

  /** A judge's score built from criteria within their bounds keeps every finalized score within
      its maximum, and so keeps the overall score a percentage. */
  lemma JudgeScoreKeepsPercentage(scores: seq<Score>, round: RoundId, judge: UserId, cs: seq<Criterion>,
                                  remarks: Option<string>, feedback: Option<string>, now: Time)
    requires ScoresWithinBounds(scores) && CriteriaWithinBounds(cs)
    ensures ScoresWithinBounds(scores + [JudgeScore(round, judge, cs, remarks, feedback, now)])
    ensures 0.0 <= OverallScore(scores + [JudgeScore(round, judge, cs, remarks, feedback, now)]) <= 100.0
  {
    CriteriaTotalsBounded(cs);
    var all := scores + [JudgeScore(round, judge, cs, remarks, feedback, now)];
    assert forall i :: 0 <= i < |scores| ==> all[i] == scores[i];
    OverallScoreWithinPercent(all);
  }
}
