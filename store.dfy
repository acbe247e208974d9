/** The document store the handlers share: one collection per model. Teams and join requests
    are never deleted by the handlers in this model, so their ids are their positions. */
module DocumentStore {
  import opened Common
  import opened TeamModel
  import opened JoinRequestModel
  import opened UserModel
  import opened SubscriptionModel
  import opened HackathonRecord

  /** A snapshot of every collection, so that a handler can state its whole effect at once. */
  datatype StoreState = StoreState(
    teams: seq<Team>,
    joinRequests: seq<JoinRequest>,
    users: map<UserId, User>,
    hackathons: map<HackathonId, Hackathon>,
    nextHackathonId: HackathonId,
    plans: seq<SubscriptionPlan>,
    subscriptions: map<string, Subscription>,
    payments: seq<Payment>)

  class Db {
    var teams: seq<Team>
    var joinRequests: seq<JoinRequest>
    var users: map<UserId, User>
    var hackathons: map<HackathonId, Hackathon>
    /** The id the next created hackathon receives. */
    var nextHackathonId: HackathonId
    var plans: seq<SubscriptionPlan>
    /** Subscriptions under their unique gateway id. */
    var subscriptions: map<string, Subscription>
    /** The payment ledger in insertion order, the order `findOneAndUpdate` scans. */
    var payments: seq<Payment>

    /** What every stored state satisfies:
        - each team's `overallScore` is the one the pre-save hook computed from its scores;
        - hackathon ids lie below the next id to hand out;
        - each join request names a stored team and that team's hackathon. */
    ghost predicate Valid()
      reads this
    {
      (forall k :: 0 <= k < |teams| ==> teams[k].overallScore == OverallScore(teams[k].scores)) &&
      (forall h :: h in hackathons ==> h < nextHackathonId) &&
      (forall k :: 0 <= k < |joinRequests| ==>
        joinRequests[k].team < |teams| && joinRequests[k].hackathon == teams[joinRequests[k].team].hackathon)
    }

    /** The current contents of the store. */
    function State(): StoreState
      reads this
    {
      StoreState(teams, joinRequests, users, hackathons, nextHackathonId, plans, subscriptions, payments)
    }

    /** An empty store. */
    constructor ()
      ensures Valid()
      ensures teams == [] && joinRequests == [] && users == map[] && hackathons == map[]
      ensures plans == [] && subscriptions == map[] && payments == []
    {
      teams := [];
      joinRequests := [];
      users := map[];
      hackathons := map[];
      nextHackathonId := 0;
      plans := [];
      subscriptions := map[];
      payments := [];
    }

    /** `team.save()`: the pre-save hook recomputes the overall score, then the document replaces
        the stored one. A team never moves to another hackathon. */
    method SaveTeam(k: TeamId, t: Team)
      requires Valid() && k < |teams| && t.hackathon == teams[k].hackathon
      modifies this
      ensures Valid()
      ensures State() == old(State()).(teams := old(teams)[k := Saved(t)])
    {
      teams := teams[k := Saved(t)];
    }

    /** `Team.create(...)`: the hook runs, and the team gets the next position. */
    method CreateTeam(t: Team) returns (k: TeamId)
      requires Valid()
      modifies this
      ensures Valid()
      ensures k == |old(teams)| && State() == old(State()).(teams := old(teams) + [Saved(t)])
    {
      k := |teams|;
      teams := teams + [Saved(t)];
    }
  }
}
