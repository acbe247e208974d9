# eventos-backend core, modelled in Dafny

This project models the core of the eventos-backend hackathon platform. Teams register for a
hackathon, and leaders invite users through join requests. Staff approve, check in, score and
eliminate teams, and the leaderboard ranks them. Organizers invite coordinators and judges.
Registration fees and subscriptions are paid through the Razorpay gateway.

The store is one `DocumentStore.Db` object. It holds a field per collection:

- teams;
- join requests;
- users;
- hackathons;
- subscription plans;
- subscriptions;
- the payment ledger.

Every handler is a method that changes it in place. A handler answers an `Outcome`: `Ok(value)`
or `Err(status)`, where the status is the HTTP code it sends. A 400, 403 or 404 leaves the store
unchanged. A 500 is modelled wherever the JavaScript code would throw: a dangling reference, a
unique-index or enum-validation error. Some of these throws happen after a document has already
been saved, and the contract then states that partial write.

Every handler keeps the store's invariant `Db.Valid()`:

- each saved team's `overallScore` is the pre-save hook's value;
- hackathon ids lie below the next id to hand out;
- join requests point at a stored team of the same hackathon.

Several rules are proved to be preserved by the handlers that change teams:

- at most one active membership per user and hackathon;
- one submission per round;
- one score per round and judge.

The modules follow the source files:

| module | models |
|---|---|
| `Common` | ids, `Option`, `Outcome`, JavaScript truthiness and `findIndex` |
| `TeamModel` | src/models/Team.js |
| `JoinRequestModel` | src/models/JoinRequest.js |
| `UserModel` | src/models/User.js |
| `SubscriptionModel` | src/models/Subscription.js |
| `HackathonRecord` | the Hackathon fields the controllers use |
| `Auth` | the decisions of src/middleware/auth.js |
| `DocumentStore` | the collections and `team.save()` |
| `TeamRules` | the pure rules of the team handlers |
| `TeamController` | the team handlers |
| `Leaderboard` | the pure part of getLeaderboard |
| `HackathonController` | the hackathon handlers |
| `PaymentController` | the payment handlers |

Some behaviours of the code as written are modelled as they are, and are worth knowing:

- The "already in a team" queries use dotted array paths without `$elemMatch`. They match a
  team where some entry names the user and some possibly different entry is active.
  `TeamRules.LeftMemberStaysBlocked` shows that a user none of whose entries is active still
  matches them, and stays blocked, as long as any entry of the team (the leader's, say) is active.
- registerTeam does not reject repeated member ids. `TeamRules.DuplicateListedMemberBreaksUniqueness`
  shows that a repeated id breaks one-active-membership. `TeamRules.RegisteringKeepsUnique`
  proves the rule only for distinct ids.
- The user document's subscription status enum has no `created` and no `paused`
  (`PaymentController.CreatedAndPausedHaveNoSnapshot`). As a result:
  - subscribe writes the Subscription and then fails on the user save, so it never succeeds
    (`PaymentController.Subscribe` ensures `r.Err?`);
  - the paused webhook pauses the Subscription and then answers 500.

## Model

| member | source | states |
|---|---|---|
| Common.FindIndex | src/controllers/team.controller.js:1194-1197 | the first position satisfying the predicate, or none exactly when no position does |
| TeamModel.HasActiveEntry | src/models/Team.js:255-259 | true iff some entry names the user and is active |
| TeamModel.IsMember | src/models/Team.js:255-259 | isMember holds iff the user has an active entry; left and removed entries never count |
| TeamModel.IsLeader | src/models/Team.js:261-263 | isLeader holds exactly for the user named in the leader field |
| TeamModel.ActiveMembers | src/models/Team.js:265-267 | getActiveMembers keeps exactly the active entries, each as often as it occurs |
| TeamModel.ActiveMembersKeepsOrder | src/models/Team.js:265-267 | the filter distributes over concatenation, so the original order is kept |
| TeamModel.OverallScoreIsPercentage | src/models/Team.js:269-281 | overall score is 100 × finalized total / finalized possible, and 0 with no scores or nothing possible |
| TeamModel.OverallScore | src/models/Team.js:269-281 | whenever the finalized total lies between 0 and the finalized possible points, the overall score lies in [0, 100] |
| TeamModel.DraftScoreKeepsOverall | src/models/Team.js:272-278 | appending a non-finalized score leaves the overall score unchanged |
| TeamModel.FinalizedSumsBounded | src/models/Team.js:272-278 | scores within their maxima give 0 ≤ finalized total ≤ finalized possible |
| TeamModel.OverallScoreWithinPercent | src/models/Team.js:272-280 | with every finalized score within its maximum, the overall score lies in [0, 100] |
| TeamModel.OverallScoreExample | src/models/Team.js:269-281 | finalized 40/50 and 30/50 give 70 |
| TeamModel.RoundScores | src/models/Team.js:290-292 | the round filter keeps only finalized scores of the round and never grows |
| TeamModel.RoundScoresComplete | src/models/Team.js:290-292 | the filter keeps every finalized score of the round with its multiplicity, and nothing else |
| TeamModel.ScoreForRoundWithoutScores | src/models/Team.js:294 | no finalized score for the round gives a round score of 0 |
| TeamModel.ScoreForRoundIgnoresOthers | src/models/Team.js:289-298 | another round's score or a draft never changes the round score |
| TeamModel.RoundFilterAgrees | src/models/Team.js:289-298 | filtering the round's finalized scores and summing them agrees with a one-pass sum and count over all scores |
| TeamModel.ScoreForRound | src/models/Team.js:289-298 | the round score is the round's finalized points over their number (one-pass sum and count), and 0 when there are none |
| TeamModel.SumTotalsBounded | src/models/Team.js:296 | n values within [lo, hi] sum within [n·lo, n·hi] |
| TeamModel.ScoreForRoundWithinBounds | src/models/Team.js:289-298 | the round score lies between the lowest and highest finalized score of the round |
| TeamModel.RoundScoresWithin | src/models/Team.js:290-292 | every kept score lies within the bounds of the round's finalized scores |
| TeamModel.RoundScoresNonEmpty | src/models/Team.js:290-294 | a finalized score of the round makes the filtered list non-empty |
| TeamModel.MeanBetween | src/models/Team.js:296-297 | a sum of n values within [lo, hi], divided by n, stays in [lo, hi] |
| TeamModel.HasSubmittedForRound | src/models/Team.js:283-287 | true iff some submission is for the round |
| TeamModel.Saved | src/models/Team.js:301-304 | a saved team's overallScore is calculateOverallScore of its scores; nothing else changes |
| JoinRequestModel.NewJoinRequest | src/models/JoinRequest.js:4-40 | a new request is pending, unanswered and expires 604800000 ms after creation; references as given |
| JoinRequestModel.ExpiryBoundary | src/models/JoinRequest.js:52-54 | not expired at expiresAt, expired one ms later, and once expired always expired |
| JoinRequestModel.IsExpired | src/models/JoinRequest.js:52-54 | a request is expired strictly after its expiresAt instant |
| JoinRequestModel.FreshRequestNotExpired | src/models/JoinRequest.js:34-40 | a fresh request is not expired during its first seven days, inclusive, and expired right after |
| UserModel.WithDefaults | src/models/User.js:81-89 | a stored permission object grants each given key as given and every other key its schema default |
| UserModel.GrantsDetermine | src/models/User.js:81-89 | two permission objects that grant the same keys are equal |
| UserModel.DefaultPermissions | src/models/User.js:81-89 | the defaults grant view, check-in, tables, submissions and communication, and deny editing and eliminating |
| UserModel.Merge | src/controllers/hackathon.controller.js:402 | the spread merge grants the update's value for each key the update names and the old value for every other key |
| UserModel.MergeLaws | src/controllers/hackathon.controller.js:402 | merging nothing is the identity, merging is idempotent, and successive merges equal one merge with the later update winning |
| UserModel.DefaultSubscriptionValues | src/models/User.js:52-74 | a new user's snapshot is the free plan, inactive, unable to create hackathons, 1 hackathon, 4 members |
| UserModel.HasAnyRole | src/models/User.js:156-158 | true iff the wanted roles and the user's roles intersect; false for no wanted roles |
| UserModel.HasRole | src/models/User.js:151-153 | hasRole holds exactly when the role is among the user's roles |
| UserModel.HasRoleIsSingleAnyRole | src/models/User.js:151-158 | hasRole(r) agrees with hasAnyRole([r]) |
| UserModel.IsAdmin | src/middleware/auth.js:131 | administrator means holding admin or super_admin |
| UserModel.IsCoordinatorFor | src/models/User.js:161-166 | true iff some coordinatorFor entry names the hackathon and is accepted |
| UserModel.IsJudgeFor | src/models/User.js:169-174 | true iff some judgeFor entry names the hackathon and is accepted |
| UserModel.GetCoordinatorPermissions | src/models/User.js:177-183 | null iff not a coordinator for the hackathon, else the permissions of the first accepted entry for it |
| UserModel.PendingGrantsNothing | src/models/User.js:161-183 | entries that are all pending or declined yield no permissions |
| SubscriptionModel.MonthsPerCycle | src/models/Subscription.js:204-215 | each billing cycle covers at least one month |
| SubscriptionModel.PricePerMonth | src/models/Subscription.js:204-215 | the monthly price times the months of the cycle is the plan's amount, and lies in [0, amount] |
| SubscriptionModel.NewSubscription | src/models/Subscription.js:91-112 | a created subscription has paidCount 0, no charges, not started or cancelled, with the given status and ids |
| SubscriptionModel.Cancel | src/models/Subscription.js:197-201 | cancel sets status cancelled and stamps cancelledAt, touching no other field; the result is not active |
| SubscriptionModel.IsActive | src/models/Subscription.js:193-195 | isActive holds exactly for the active status; a cancelled subscription is never active |
| SubscriptionModel.MinorUnitsRoundTrip | src/services/razorpay.service.js:16 | ×100 to the gateway and /100 back are mutually inverse |
| Auth.Authorize | src/middleware/auth.js:59-78 | 401 without a user; passes iff the user holds a listed role; 403 otherwise |
| Auth.OrganizerCheck | src/middleware/auth.js:82-110 | 404 for a missing hackathon; passes iff organizer, admin or super_admin; 403 otherwise |
| Auth.CoordinatorCheck | src/middleware/auth.js:115-148 | 404 missing; passes iff organizer, admin or accepted coordinator; attaches getCoordinatorPermissions, null only for organizer or admin |
| Auth.JudgeCheck | src/middleware/auth.js:153-185 | 404 missing; passes iff organizer, admin or accepted judge; 403 otherwise |
| Auth.CheckCoordinatorPermission | src/middleware/auth.js:190-207 | passes iff organizer or admin, or the attached permissions exist and grant the key; 403 otherwise |
| Auth.CoordinatorChainDecision | src/middleware/auth.js:115-207 | for a non-organizer, non-admin user, isCoordinator passes iff coordinator, and the chain passes iff the first accepted entry grants the key |
| Auth.CheckSubscriptionFeature | src/middleware/auth.js:211-223 | passes iff the snapshot is active and the feature is truthy; 403 otherwise |
| Auth.DefaultSnapshotLocksFeatures | src/middleware/auth.js:211-223 | the default snapshot unlocks no boolean feature |
| DocumentStore.Db.SaveTeam | src/models/Team.js:301-304 | team.save stores the document with its recomputed overall score, keeps the invariant and changes nothing else |
| DocumentStore.Db.CreateTeam | src/controllers/team.controller.js:106-119 | Team.create appends the saved document at the next position and changes nothing else |
| TeamRules.MemberMatchesLoosely | src/controllers/team.controller.js:84-88 | every active member matches the loose member query |
| TeamRules.LeftMemberStaysBlocked | src/controllers/team.controller.js:481-485 | in any team with some active entry, a user who has entries but no active one matches the query yet is no member |
| TeamRules.FreeUserHasNoActiveEntry | src/controllers/team.controller.js:31-37 | passing the registration or member query rules out any active entry of the user in the hackathon |
| TeamRules.UniqueUnderShrink | src/controllers/team.controller.js:1204 | a change that only ends active entries keeps one active membership per user and hackathon |
| TeamRules.NewEntry | src/controllers/team.controller.js:73-101 | a new entry is active, not checked in, with the given user and role |
| TeamRules.RegistrationEntries | src/controllers/team.controller.js:73-101 | the member list is the caller as leader followed by each listed id as a member, in order |
| TeamRules.NewTeam | src/controllers/team.controller.js:106-119 | a new team is approved iff autoAcceptTeams, its payment pending iff the fee is positive, with the fee's amount and no scores |
| TeamRules.RegisteringKeepsUnique | src/controllers/team.controller.js:82-106 | with distinct, unregistered caller and listed ids, adding the team keeps one active membership per user |
| TeamRules.DuplicateListedMemberBreaksUniqueness | src/controllers/team.controller.js:82-102 | listing the same free user twice gives two active entries |
| TeamRules.Joined | src/controllers/team.controller.js:505-510 | accepting appends exactly one active member entry and changes nothing else in the team |
| TeamRules.JoiningKeepsUnique | src/controllers/team.controller.js:481-512 | joining a user with no active entry in the hackathon keeps one active membership per user |
| TeamRules.WithMemberStatus | src/controllers/team.controller.js:1204 | one entry gets the new status; every other entry and field is unchanged; the list never shrinks |
| TeamRules.EndingMembershipKeepsUnique | src/controllers/team.controller.js:1204-1265 | leaving or removal keeps one active membership per user |
| TeamRules.CheckedInEntry | src/controllers/team.controller.js:870-872 | the entry is checked in now by the staff member; nothing else changes |
| TeamRules.CheckInKeepsUnique | src/controllers/team.controller.js:870-880 | checking in keeps one active membership per user |
| TeamRules.SubmittingKeepsOnePerRound | src/controllers/team.controller.js:953-978 | behind the guard, submitting keeps one submission per round |
| TeamRules.ScoringKeepsOnePerJudge | src/controllers/team.controller.js:1010-1037 | behind the guard, scoring keeps one score per round and judge |
| TeamRules.CriteriaTotalsBounded | src/controllers/team.controller.js:1023-1024 | criteria within their maxima total between 0 and the possible total |
| TeamRules.JudgeScore | src/controllers/team.controller.js:1023-1035 | the pushed score carries totalScore = Σ score, maxPossibleScore = Σ maxScore, and is finalized |
| TeamRules.JudgeScoreKeepsPercentage | src/controllers/team.controller.js:1023-1037 | a judge score from bounded criteria keeps the overall score in [0, 100] |
| TeamController.ValidateListedMembers | src/controllers/team.controller.js:82-102 | the loop refuses iff some listed id matches the member query; otherwise it builds exactly the registration entries |
| TeamController.RegisterTeam | src/controllers/team.controller.js:10-153 | 404, closed, already registered, coordinator, size, capacity and busy-member refusals change nothing; otherwise one team is added and currentRegistrations grows by 1, keeping unique memberships for distinct ids |
| TeamController.InviteMessage | src/controllers/team.controller.js:366 | the message starts with the inviter's name and quotes the team name, 38 characters longer than both |
| TeamController.SendJoinRequest | src/controllers/team.controller.js:295-388 | 404, non-leader 403, full team (all entries) 400, 404 user, busy user 400 and pending duplicate 400 change nothing; otherwise exactly one pending request is appended |
| TeamController.Responded | src/controllers/team.controller.js:515-531 | the request takes the new status and response time; nothing else changes |
| TeamController.RejectDisplaced | src/controllers/team.controller.js:520-531 | every other pending request of the user in the hackathon becomes rejected; every other request is unchanged |
| TeamController.AcceptJoinRequest | src/controllers/team.controller.js:462-544 | needs the caller's pending request for the team; re-checks freedom and capacity; appends one member, accepts the request, cascades the rejections and keeps unique memberships |
| TeamController.RejectJoinRequest | src/controllers/team.controller.js:549-581 | only the caller's own pending request for the team becomes rejected; otherwise 404 and no change |
| TeamController.CancelJoinRequest | src/controllers/team.controller.js:1328-1381 | only the leader or the sender may cancel, and only a pending request; every other case changes nothing |
| TeamController.ApprovedBy | src/controllers/team.controller.js:607-610 | the team becomes approved now by the caller; nothing else changes |
| TeamController.RejectedTeam | src/controllers/team.controller.js:660-668 | the team becomes rejected, with one public note exactly when a reason is given |
| TeamController.ApproveTeam | src/controllers/team.controller.js:586-632 | 404 / 403 unless organizer or admin; otherwise the approved team is saved |
| TeamController.RejectTeam | src/controllers/team.controller.js:637-690 | 404 / 403 unless organizer or admin; otherwise the rejected team is saved |
| TeamController.Updated | src/controllers/team.controller.js:792-795 | each truthy field replaces the stored one; the others are kept |
| TeamController.UpdateTeam | src/controllers/team.controller.js:763-810 | 404 / 403 for a non-leader / 400 for a name change the hackathon forbids / 500 for a taken name; otherwise the updated team is saved |
| TeamController.CheckInMember | src/controllers/team.controller.js:848-893 | the first entry of the member is checked in; allMembersCheckedIn becomes true once all are; 404 changes nothing |
| TeamController.SubmitProject | src/controllers/team.controller.js:931-991 | only a member may submit, once per round; one submission is appended |
| TeamController.ScoreTeam | src/controllers/team.controller.js:996-1050 | a second score by the same judge for the round is refused; otherwise one finalized score is appended and the overall score stays in [0, 100] |
| TeamController.EliminateTeam | src/controllers/team.controller.js:1055-1087 | the team is marked eliminated with round, time, staff and reason; 404 changes nothing |
| TeamController.ActiveEntryOf | src/controllers/team.controller.js:1192-1194 | the first active entry naming the user; there is none exactly when the user is no member |
| TeamController.LeaveTeam | src/controllers/team.controller.js:1171-1219 | 404 for a missing team, 400 for the leader, 404 for a non-member; every other (active, non-leader) member succeeds, the first active entry becomes left, and nothing else changes |
| TeamController.LeavingKeepsUnique | src/controllers/team.controller.js:1203-1206 | leaving keeps one active membership per user and hackathon and ends the leaver's membership |
| TeamController.LeavingEndsMembership | src/controllers/team.controller.js:1190-1206 | under unique memberships, ending the user's active entry ends their membership |
| TeamController.RemoveMember | src/controllers/team.controller.js:1224-1280 | only the leader may remove, only an active entry, never the leader entry; the entry becomes removed |
| Leaderboard.EligibleRows | src/controllers/team.controller.js:1097-1103 | every row is an approved, non-eliminated team of the hackathon, carrying its stored overall score, in store order; completeness is EligibleRowsOnce |
| Leaderboard.EligibleRowsOnce | src/controllers/team.controller.js:1097-1103 | each eligible team appears exactly once, and no other team appears |
| Leaderboard.InsertPermutes | src/controllers/team.controller.js:1107 | inserting keeps the multiset of rows |
| Leaderboard.InsertSorted | src/controllers/team.controller.js:1107 | inserting into a descending list keeps it descending |
| Leaderboard.SortDescCorrect | src/controllers/team.controller.js:1107-1117 | the sort returns a descending permutation of its input |
| Leaderboard.WithRoundScores | src/controllers/team.controller.js:1111-1116 | each row gets its team's round score, nothing else changes |
| Leaderboard.Ranked | src/controllers/team.controller.js:1121-1124 | the row at position i gets rank i + 1 |
| Leaderboard.Board | src/controllers/team.controller.js:1092-1137 | as many lines as eligible teams, carrying ranks 1..n by position |
| Leaderboard.ByOverallFacts | src/controllers/team.controller.js:1097-1124 | before ranking, the overall ordering lists each eligible team once, with its stored overall score, by overall score descending |
| Leaderboard.ByRoundFacts | src/controllers/team.controller.js:1109-1124 | before ranking, re-ordering by round keeps each eligible team once, every row carries its round score, and the rows are descending by it |
| Leaderboard.BoardSpec | src/controllers/team.controller.js:1092-1137 | the leaderboard lists exactly the eligible teams, ranked by position, ordered by the chosen key |
| Leaderboard.TiedTeamsRankByPosition | src/controllers/team.controller.js:1121-1124 | tied teams get distinct consecutive ranks by position |
| HackathonController.CreateHackathon | src/controllers/hackathon.controller.js:10-50 | allowed iff admin, bypass, or an active snapshot with canCreateHackathons; stored under a fresh id with the caller as organizer |
| HackathonController.UpdateHackathon | src/controllers/hackathon.controller.js:131-168 | 404 / 403 unless organizer or admin; otherwise the document is replaced |
| HackathonController.DeleteHackathon | src/controllers/hackathon.controller.js:173-205 | 404 / 403 unless organizer or admin; otherwise the hackathon is removed |
| HackathonController.AcceptedEntries | src/controllers/hackathon.controller.js:239-246 | the filter keeps exactly the accepted entries, with their multiplicity |
| HackathonController.MyCoordinations | src/controllers/hackathon.controller.js:231-259 | one coordination per accepted entry, in order |
| HackathonController.MyCoordinationsExactlyAccepted | src/controllers/hackathon.controller.js:239-246 | getMyCoordinations returns exactly the accepted coordinatorFor entries |
| HackathonController.WithRole | src/controllers/hackathon.controller.js:349-351 | the role is present afterwards and added only when absent, so roles stay duplicate-free |
| HackathonController.CoordinatorInvitation | src/controllers/hackathon.controller.js:302-307 | a pending entry whose permissions are the given keys over the schema defaults |
| HackathonController.InviteCoordinator | src/controllers/hackathon.controller.js:264-324 | 404 hackathon / 404 user / 400 when an entry for the hackathon exists, whatever its status; otherwise one pending entry is appended |
| HackathonController.AcceptedCoordinator | src/controllers/hackathon.controller.js:345-351 | the entry becomes accepted and the role is added if absent |
| HackathonController.AcceptCoordinatorInvitation | src/controllers/hackathon.controller.js:329-374 | needs a pending entry; the user becomes a coordinator with the role once, and the hackathon gains one coordinator |
| HackathonController.UpdateCoordinatorPermissions | src/controllers/hackathon.controller.js:379-426 | the hackathon's permissions become the key-by-key override, and the same object is copied into the user's entry |
| HackathonController.InviteJudge | src/controllers/hackathon.controller.js:431-490 | 404 / 404 / 400 when a judge entry exists; otherwise one pending judge entry is appended |
| HackathonController.AcceptedJudge | src/controllers/hackathon.controller.js:511-517 | the judge entry becomes accepted and the role is added if absent |
| HackathonController.AcceptJudgeInvitation | src/controllers/hackathon.controller.js:495-542 | needs a pending entry; the user becomes a judge with the role once, and the hackathon gains one judge |
| PaymentController.ParseCycle | src/models/Subscription.js:24-28 | the enum accepts exactly monthly, quarterly and yearly, and a parsed cycle has that name |
| PaymentController.CycleNameRoundTrip | src/models/Subscription.js:24-28 | every cycle's name parses back to it |
| PaymentController.PlanPeriod | src/controllers/payment.controller.js:197-198 | monthly → (monthly, 1), quarterly → (monthly, 3), anything else → (yearly, 1) |
| PaymentController.PlanPeriodSpansCycle | src/controllers/payment.controller.js:197-198 | for every cycle, interval × period months equals the cycle's months |
| PaymentController.TotalCount | src/controllers/payment.controller.js:291 | 12 billings for monthly, 4 for quarterly, 1 otherwise |
| PaymentController.SubscriptionCoversOneYear | src/controllers/payment.controller.js:291 | the billings of a subscription cover twelve months, whatever the cycle |
| PaymentController.SnapshotStatus | src/models/User.js:58-62 | a subscription status has a snapshot value iff it is active, cancelled or expired |
| PaymentController.CreatedAndPausedHaveNoSnapshot | src/controllers/payment.controller.js:323-327 | the statuses written by subscribe and the paused webhook are not in the snapshot enum |
| PaymentController.WithPlanStatus | src/controllers/payment.controller.js:508-510 | the snapshot takes the new status; nothing else of the user changes |
| PaymentController.CreateHackathonOrder | src/controllers/payment.controller.js:11-89 | 404 / 403 non-member / 400 once paid / 500 on gateway failure change nothing; otherwise one created payment is recorded and the team stores the order id |
| PaymentController.PaidTeam | src/controllers/payment.controller.js:121-136 | payment completed by the caller now; pending → approved iff autoAcceptTeams, else status unchanged |
| PaymentController.UpdateAt | src/controllers/payment.controller.js:139-143 | findOneAndUpdate changes only the matched payment, or nothing |
| PaymentController.VerifyHackathonPayment | src/controllers/payment.controller.js:94-166 | an invalid signature is 400 before any write; otherwise the team is paid (and maybe approved) and the order's payment captured |
| PaymentController.CreateSubscriptionPlan | src/controllers/payment.controller.js:192-239 | succeeds iff the gateway plan exists, the cycle is in the enum, name, displayName and gateway id are non-empty (the schema's required validators), and name and gateway id are unused; appends one active plan; every failure is a 500 with no write |
| PaymentController.Subscribe | src/controllers/payment.controller.js:244-342 | 404 / 400 with a current subscription, otherwise always 500; a gateway failure or an empty gateway id (the required validator) changes nothing; when the gateway steps succeed, the subscription is stored before the failing user save |
| PaymentController.CancelSubscription | src/controllers/payment.controller.js:347-393 | needs an active subscription of the caller; only after gateway success is it cancelled and the snapshot cancelled |
| PaymentController.Activated | src/controllers/payment.controller.js:459-478 | unknown id: no change; else the subscription becomes active now, then the user snapshot; 500 for a missing user or plan |
| PaymentController.Charged | src/controllers/payment.controller.js:480-496 | unknown id: no change; else one captured charge of amount / 100 is appended and paidCount grows by 1 |
| PaymentController.StatusChanged | src/controllers/payment.controller.js:498-543 | unknown id: no change; else the subscription status changes, then the snapshot when the enum has the value; otherwise 500 |
| PaymentController.PaymentEvent | src/controllers/payment.controller.js:545-560 | the first payment with the gateway id becomes captured, or failed with the reason; no match changes nothing |
| PaymentController.HandleWebhook | src/controllers/payment.controller.js:398-456 | invalid signature 400 and no handler; unknown event 200 and no change; no event touches teams, requests, hackathons or plans, subscription events leave payments alone and payment events leave subscriptions and users alone; every subscription and payment event gives the whole new state and the result |

## Left out

- Authentication: the JWT check of `protect`, and bcrypt password hashing and comparison. Handlers take the authenticated caller as a parameter that must name a stored user.
- Route wiring. The middleware decisions are modelled in `Auth` but are not composed into the handlers; the handlers carry only the checks their own bodies make.
- isOrganizer, isCoordinator and isJudge read the hackathon id from `req.params.hackathonId` or `req.body.hackathon`, while the routes name the parameter `:id`. That lookup is not modelled; the decisions take the hackathon directly.
- E-mail: every send is a no-op. Sending failures are swallowed, except the subscription confirmation, whose template reads the plan; a missing plan is modelled as a 500.
- The Razorpay gateway and HMAC signature checks are foreign network and crypto calls. Gateway calls are parameters (`None` is a failed call), and signature checks are booleans.
- Webhook payloads are assumed well formed. A payload missing the entity a handler reads would throw, and that is not modelled.
- `hackathon.isRegistrationOpen()`: src/models/Hackathon.js is not part of this model, so it is a parameter. So are Hackathon's own validators; updateHackathon's request body is modelled as the resulting document.
- MongoDB specifics:
  - populate;
  - the TTL index that deletes expired join requests;
  - cast errors for malformed ids;
  - string trimming;
  - pagination;
  - stored ids are the store's keys or positions.
- Sorting: the database sort on overallScore is assumed to keep store order among equal scores.
- Time: dates are an abstract millisecond clock passed in as `now`.
- Floating point: scores, prices and minor-unit conversions use exact `real` arithmetic, so JavaScript double rounding is not captured.
- Concurrency: races between concurrent requests are out of scope; the model is sequential.
- SubscriptionModel.PricePerMonth: the `default` branch of getPricePerMonth cannot be reached, because the schema's enum admits only the three cycles.
- TeamController.AcceptJoinRequest: the null-team branch cannot be reached, because every stored join request names a stored team.
- The queries that look up a user by e-mail or username may match several users, and cancelSubscription's `findOne({user, status: 'active'})` may match several active subscriptions of the caller (cancel, subscribe again, then a resumed webhook on the old one). The model lets the handler pick any one of them rather than the first in natural order.
- Mongoose subdocument spreading in updateCoordinatorPermissions is idealised as a key-by-key merge of the permission object.
- checkInTeam and assignTableAndTeamNumber: these assign a few team fields and are not modelled.
- Read-only handlers are not modelled: getTeam, getMyTeams, getTeamsByHackathon, getUserTeamForHackathon, searchUsersForTeam, getJoinRequests, getMyJoinRequests, getPendingMembers, getHackathons, getHackathon, getMyHackathons and getSubscriptionPlans.
- submitProject and scoreTeam are modelled only for a request that supplies a round and criteria. The paths without them are not modelled.
- The seeding script and the plan catalogue are data, not logic.
