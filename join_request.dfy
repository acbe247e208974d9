/** The JoinRequest document (src/models/JoinRequest.js): an invitation from a team leader
    to a user, its status, and its seven-day expiry. */
module JoinRequestModel {
  import opened Common

  datatype RequestStatus = RequestPending | RequestAccepted | RequestRejected | RequestCancelled

  /** `team`, `user`, `sender` and `hackathon` are required references, so they are plain
      ids here; `respondedAt` is optional. */
  datatype JoinRequest = JoinRequest(
    team: TeamId,
    user: UserId,
    sender: UserId,
    hackathon: HackathonId,
    message: string,
    status: RequestStatus,
    respondedAt: Option<Time>,
    createdAt: Time,
    expiresAt: Time)

  /** Seven days in milliseconds. */
  const ExpiryMillis: nat := 7 * 24 * 60 * 60 * 1000

  /** A request as the schema defaults complete it at creation time `now`. */
  function NewJoinRequest(team: TeamId, user: UserId, sender: UserId, hackathon: HackathonId,
                          message: string, now: Time): (r: JoinRequest)
    ensures r.status == RequestPending && r.respondedAt == None
    ensures r.expiresAt == now + 604800000 && r.createdAt == now
    ensures r.team == team && r.user == user && r.sender == sender && r.hackathon == hackathon
    ensures r.message == message
  {
    JoinRequest(team, user, sender, hackathon, message, RequestPending, None, now, now + ExpiryMillis)
  }

  /** `isExpired`: strictly after `expiresAt`; the request is still valid at that very instant. */
  predicate IsExpired(r: JoinRequest, now: Time)
  {
    now > r.expiresAt
  }

  /** Expiry is strict and monotone in time: not expired at `expiresAt`, expired just after it,
      and once expired a request stays expired. */
  lemma ExpiryBoundary(r: JoinRequest, now: Time, later: Time)
    requires now <= later
    ensures !IsExpired(r, r.expiresAt) && IsExpired(r, r.expiresAt + 1)
    ensures IsExpired(r, now) ==> IsExpired(r, later)
  {
  }

  /** A fresh request is not expired at any instant of its first seven days, including the
      moment it is created, and is expired one millisecond after that. */
  lemma {:induction false} FreshRequestNotExpired(team: TeamId, user: UserId, sender: UserId,
                                                  hackathon: HackathonId, message: string, now: Time, t: Time)
    requires now <= t <= now + 604800000
    ensures !IsExpired(NewJoinRequest(team, user, sender, hackathon, message, now), t)
    ensures IsExpired(NewJoinRequest(team, user, sender, hackathon, message, now), now + 604800001)
  {
  }
}
