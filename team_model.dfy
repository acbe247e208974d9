/** The Team document (src/models/Team.js): member, submission and score sub-records,
    the membership queries, the two score formulas and the pre-save hook. */
module TeamModel {
  import opened Common

  // ---------------------------------------------------------------- members

  datatype MemberRole = Leader | Member
  datatype MemberStatus = Active | Left | Removed

  datatype MemberCheckIn = MemberCheckIn(isCheckedIn: bool, checkedInAt: Option<Time>, checkedInBy: Option<UserId>)

  const NotCheckedIn: MemberCheckIn := MemberCheckIn(false, None, None)

  /** A member entry. Its subdocument id is its index in `members`: entries are
      appended and re-flagged, never removed or reordered. */
  datatype TeamMember = TeamMember(
    user: UserId,
    role: MemberRole,
    joinedAt: Time,
    status: MemberStatus,
    checkIn: MemberCheckIn)

  // ------------------------------------------------- registration and payment

  datatype RegistrationStatus = Pending | Approved | Rejected | Withdrawn

  datatype TeamPaymentStatus = PaymentPending | PaymentCompleted | PaymentFailed | PaymentRefunded

  datatype TeamPayment = TeamPayment(
    status: TeamPaymentStatus,
    amount: real,
    currency: string,
    orderId: Option<string>,
    paymentId: Option<string>,
    signature: Option<string>,
    paidAt: Option<Time>,
    paidBy: Option<UserId>)

  // --------------------------------------------------- submissions and scores

  datatype SubmissionStatus = Submitted | UnderReview | Reviewed | Selected | SubmissionRejected

  /** The links and description a team hands in; stored, never interpreted. */
  datatype SubmissionDetails = SubmissionDetails(
    projectLink: Option<string>,
    demoLink: Option<string>,
    videoLink: Option<string>,
    presentationLink: Option<string>,
    githubRepo: Option<string>,
    description: Option<string>,
    techStack: Option<seq<string>>)

  datatype Submission = Submission(
    round: RoundId,
    submittedAt: Time,
    submittedBy: UserId,
    details: SubmissionDetails,
    status: SubmissionStatus)

  datatype Criterion = Criterion(criteriaName: string, score: real, maxScore: real)

  datatype Score = Score(
    round: RoundId,
    judge: UserId,
    criteriaScores: seq<Criterion>,
    totalScore: real,
    maxPossibleScore: real,
    remarks: Option<string>,
    feedback: Option<string>,
    submittedAt: Time,
    isFinalized: bool)

  // ------------------------------------------------------------------ team

  datatype TeamCheckIn = TeamCheckIn(
    isCheckedIn: bool,
    checkedInAt: Option<Time>,
    checkedInBy: Option<UserId>,
    allMembersCheckedIn: bool)

  datatype Note = Note(author: UserId, content: string, createdAt: Time, isPublic: bool)

  datatype Team = Team(
    hackathon: HackathonId,
    teamName: string,
    teamNumber: Option<string>,
    tableNumber: Option<string>,
    members: seq<TeamMember>,
    leader: UserId,
    projectTitle: Option<string>,
    projectDescription: Option<string>,
    techStack: seq<string>,
    registrationStatus: RegistrationStatus,
    registeredAt: Time,
    approvedAt: Option<Time>,
    approvedBy: Option<UserId>,
    payment: TeamPayment,
    submissions: seq<Submission>,
    scores: seq<Score>,
    overallScore: real,
    isEliminated: bool,
    eliminatedAt: Option<Time>,
    eliminatedInRound: Option<RoundId>,
    eliminatedBy: Option<UserId>,
    eliminationReason: Option<string>,
    checkIn: TeamCheckIn,
    notes: seq<Note>)

  // ------------------------------------------------------ membership queries

  /** `members.some(m => m.user == u && m.status == 'active')`. */
  function HasActiveEntry(ms: seq<TeamMember>, u: UserId): (r: bool)
    ensures r <==> exists i :: 0 <= i < |ms| && ms[i].user == u && ms[i].status == Active
  {
    if ms == [] then false
    else if ms[0].user == u && ms[0].status == Active then true
    else
      var found := HasActiveEntry(ms[1..], u);
      assert found ==> exists i :: 0 <= i < |ms[1..]| && ms[1..][i].user == u && ms[1..][i].status == Active;
      assert (exists i :: 0 <= i < |ms| && ms[i].user == u && ms[i].status == Active) ==>
        exists i :: 0 <= i < |ms[1..]| && ms[1..][i].user == u && ms[1..][i].status == Active;
      found
  }

  /** `isMember`: the user has an active entry; left and removed entries never count. */
  function IsMember(t: Team, u: UserId): (r: bool)
    ensures r <==> exists i :: 0 <= i < |t.members| && t.members[i].user == u && t.members[i].status == Active
  {
    HasActiveEntry(t.members, u)
  }

  /** `isLeader`: the team's leader field names the user. */
  predicate IsLeader(t: Team, u: UserId)
  {
    t.leader == u
  }

  /** `getActiveMembers`: `members.filter(m => m.status == 'active')`. */
  function ActiveMembers(ms: seq<TeamMember>): (r: seq<TeamMember>)
    ensures forall i :: 0 <= i < |r| ==> r[i].status == Active
    ensures forall m :: multiset(r)[m] == if m.status == Active then multiset(ms)[m] else 0
  {
    if ms == [] then []
    else
      var rest := ActiveMembers(ms[1..]);
      assert ms == [ms[0]] + ms[1..];
      (if ms[0].status == Active then [ms[0]] else []) + rest
  }

  /** The filter keeps the original order: it distributes over concatenation. */
  lemma {:induction false} ActiveMembersKeepsOrder(a: seq<TeamMember>, b: seq<TeamMember>)
    ensures ActiveMembers(a + b) == ActiveMembers(a) + ActiveMembers(b)
  {
    if a == [] {
      assert a + b == b;
    } else {
      assert (a + b)[1..] == a[1..] + b;
      ActiveMembersKeepsOrder(a[1..], b);
    }
  }

  // ----------------------------------------------------------------- scoring

  /** `scores.reduce((sum, s) => s.isFinalized ? sum + s.totalScore : sum, 0)`, a left fold. */
  function FinalizedTotal(scores: seq<Score>): real
  {
    if scores == [] then 0.0
    else
      var last := scores[|scores| - 1];
      FinalizedTotal(scores[..|scores| - 1]) + (if last.isFinalized then last.totalScore else 0.0)
  }

  /** The same fold over `maxPossibleScore`. */
  function FinalizedPossible(scores: seq<Score>): real
  {
    if scores == [] then 0.0
    else
      var last := scores[|scores| - 1];
      FinalizedPossible(scores[..|scores| - 1]) + (if last.isFinalized then last.maxPossibleScore else 0.0)
  }

  /** `calculateOverallScore`: the percentage of the possible points won, over finalized scores only. */
  function OverallScore(scores: seq<Score>): (r: real)
    ensures 0.0 <= FinalizedTotal(scores) <= FinalizedPossible(scores) ==> 0.0 <= r <= 100.0
  {
    if |scores| == 0 then 0.0
    else
      var total := FinalizedTotal(scores);
      var possible := FinalizedPossible(scores);
      if possible > 0.0 then
        RatioWithinUnit(total, possible);
        (total / possible) * 100.0
      else 0.0
  }

  /** The early return for an empty score list is subsumed: the overall score is the
      percentage whenever finalized scores offer a positive number of points, and 0 otherwise. */
  lemma OverallScoreIsPercentage(scores: seq<Score>)
    ensures FinalizedPossible(scores) > 0.0 ==>
      OverallScore(scores) == 100.0 * FinalizedTotal(scores) / FinalizedPossible(scores)
    ensures FinalizedPossible(scores) <= 0.0 ==> OverallScore(scores) == 0.0
    ensures scores == [] ==> OverallScore(scores) == 0.0
  {
    if scores != [] {
      var total, possible := FinalizedTotal(scores), FinalizedPossible(scores);
      if possible > 0.0 {
        assert OverallScore(scores) == (total / possible) * 100.0;
        PercentOf(total, possible);
      } else {
        assert OverallScore(scores) == 0.0;
      }
    }
  }

  /** A ratio scaled to a hundred is the hundredfold part over the whole. */
  lemma PercentOf(part: real, whole: real)
    requires whole > 0.0
    ensures (part / whole) * 100.0 == 100.0 * part / whole
  {
  }

  /** Appending a score that is not finalized never moves the overall score. */
  lemma DraftScoreKeepsOverall(scores: seq<Score>, s: Score)
    requires !s.isFinalized
    ensures OverallScore(scores + [s]) == OverallScore(scores)
  {
    assert (scores + [s])[..|scores|] == scores;
  }

  /** Each finalized score's points lie within its maximum. */
  predicate ScoresWithinBounds(scores: seq<Score>)
  {
    forall i :: 0 <= i < |scores| && scores[i].isFinalized ==>
      0.0 <= scores[i].totalScore <= scores[i].maxPossibleScore
  }

  lemma {:induction false} FinalizedSumsBounded(scores: seq<Score>)
    requires ScoresWithinBounds(scores)
    ensures 0.0 <= FinalizedTotal(scores) <= FinalizedPossible(scores)
  {
    if scores != [] {
      var prefix := scores[..|scores| - 1];
      assert ScoresWithinBounds(prefix) by {
        forall i | 0 <= i < |prefix| && prefix[i].isFinalized
          ensures 0.0 <= prefix[i].totalScore <= prefix[i].maxPossibleScore
        {
          assert prefix[i] == scores[i];
        }
      }
      FinalizedSumsBounded(prefix);
    }
  }

  /** With every finalized score within its maximum, the overall score is a percentage in [0, 100]. */
  lemma OverallScoreWithinPercent(scores: seq<Score>)
    requires ScoresWithinBounds(scores)
    ensures 0.0 <= OverallScore(scores) <= 100.0
  {
    FinalizedSumsBounded(scores);
    var total, possible := FinalizedTotal(scores), FinalizedPossible(scores);
    if |scores| > 0 && possible > 0.0 {
      RatioWithinUnit(total, possible);
    }
  }

  /** A part of a positive whole is a fraction between 0 and 1. */
  lemma RatioWithinUnit(part: real, whole: real)
    requires whole > 0.0
    ensures 0.0 <= part <= whole ==> 0.0 <= part / whole <= 1.0
  {
    assert part / whole * whole == part;
  }

  /** The worked example: finalized scores 40/50 and 30/50 give an overall score of 70. */
  lemma OverallScoreExample(a: Score, b: Score)
    requires a.isFinalized && a.totalScore == 40.0 && a.maxPossibleScore == 50.0
    requires b.isFinalized && b.totalScore == 30.0 && b.maxPossibleScore == 50.0
    ensures OverallScore([a, b]) == 70.0
  {
    assert [a, b][..1] == [a];
    assert [a][..0] == [];
    assert FinalizedTotal([a]) == 40.0 && FinalizedPossible([a]) == 50.0;
    assert FinalizedTotal([a, b]) == 70.0 && FinalizedPossible([a, b]) == 100.0;
  }

  /** `scores.filter(s => s.round == round && s.isFinalized)`, kept in order. */
  function RoundScores(scores: seq<Score>, round: RoundId): (r: seq<Score>)
    ensures forall i :: 0 <= i < |r| ==> r[i].round == round && r[i].isFinalized
    ensures |r| <= |scores|
  {
    if scores == [] then []
    else
      var last := scores[|scores| - 1];
      RoundScores(scores[..|scores| - 1], round) + (if last.round == round && last.isFinalized then [last] else [])
  }

  /** The round filter keeps every finalized score of the round, as often as it occurs, and nothing else. */
  lemma {:induction false} RoundScoresComplete(scores: seq<Score>, round: RoundId)
    ensures forall x ::
              multiset(RoundScores(scores, round))[x] ==
              (if x.round == round && x.isFinalized then multiset(scores)[x] else 0)
  {
    if scores != [] {
      var last := scores[|scores| - 1];
      var prefix := scores[..|scores| - 1];
      assert scores == prefix + [last];
      RoundScoresComplete(prefix, round);
    }
  }

  /** Plain sum of `totalScore`. */
  function SumTotals(ss: seq<Score>): real
  {
    if ss == [] then 0.0 else SumTotals(ss[..|ss| - 1]) + ss[|ss| - 1].totalScore
  }

  /** The points of the round's finalized scores, summed in one pass over all scores. */
  function RoundTotal(scores: seq<Score>, round: RoundId): real
  {
    if scores == [] then 0.0
    else
      var last := scores[|scores| - 1];
      RoundTotal(scores[..|scores| - 1], round) + (if last.round == round && last.isFinalized then last.totalScore else 0.0)
  }

  /** The number of the round's finalized scores, counted in one pass over all scores. */
  function RoundCount(scores: seq<Score>, round: RoundId): nat
  {
    if scores == [] then 0
    else
      var last := scores[|scores| - 1];
      RoundCount(scores[..|scores| - 1], round) + (if last.round == round && last.isFinalized then 1 else 0)
  }

  /** Filtering and then summing agrees with the one-pass sum and count. */
  lemma {:induction false} RoundFilterAgrees(scores: seq<Score>, round: RoundId)
    ensures SumTotals(RoundScores(scores, round)) == RoundTotal(scores, round)
    ensures |RoundScores(scores, round)| == RoundCount(scores, round)
  {
    if scores != [] {
      var last := scores[|scores| - 1];
      var prefix := scores[..|scores| - 1];
      RoundFilterAgrees(prefix, round);
      var rs := RoundScores(prefix, round);
      if last.round == round && last.isFinalized {
        assert (rs + [last])[..|rs|] == rs;
      } else {
        assert rs + [] == rs;
      }
    }
  }

  /** `getScoreForRound`: the arithmetic mean of the finalized scores of that round, 0 when there are none. */
  function ScoreForRound(scores: seq<Score>, round: RoundId): (r: real)
    ensures RoundCount(scores, round) == 0 ==> r == 0.0
    ensures RoundCount(scores, round) > 0 ==> r == RoundTotal(scores, round) / (RoundCount(scores, round) as real)
  {
    var rs := RoundScores(scores, round);
    RoundFilterAgrees(scores, round);
    if |rs| == 0 then 0.0 else SumTotals(rs) / (|rs| as real)
  }

  /** No finalized score for the round means a round score of 0. */
  lemma ScoreForRoundWithoutScores(scores: seq<Score>, round: RoundId)
    requires forall i :: 0 <= i < |scores| ==> !(scores[i].round == round && scores[i].isFinalized)
    ensures ScoreForRound(scores, round) == 0.0
  {
    RoundScoresComplete(scores, round);
    var rs := RoundScores(scores, round);
    assert forall x :: multiset(rs)[x] == 0;
    assert multiset(rs) == multiset{};
  }

  /** A score for another round, or a draft, leaves the round score as it was. */
  lemma ScoreForRoundIgnoresOthers(scores: seq<Score>, s: Score, round: RoundId)
    requires s.round != round || !s.isFinalized
    ensures ScoreForRound(scores + [s], round) == ScoreForRound(scores, round)
  {
    var t := scores + [s];
    assert t[..|t| - 1] == scores;
    assert RoundScores(t, round) == RoundScores(scores, round);
  }

  lemma {:induction false} SumTotalsBounded(ss: seq<Score>, lo: real, hi: real)
    requires forall i :: 0 <= i < |ss| ==> lo <= ss[i].totalScore <= hi
    ensures (|ss| as real) * lo <= SumTotals(ss) <= (|ss| as real) * hi
  {
    if ss != [] {
      var prefix := ss[..|ss| - 1];
      assert forall i :: 0 <= i < |prefix| ==> prefix[i] == ss[i];
      SumTotalsBounded(prefix, lo, hi);
    }
  }

  /** The round score is a mean: it lies between the lowest and highest finalized score of the round. */
  lemma ScoreForRoundWithinBounds(scores: seq<Score>, round: RoundId, lo: real, hi: real)
    requires exists i :: 0 <= i < |scores| && scores[i].round == round && scores[i].isFinalized
    requires forall i :: 0 <= i < |scores| && scores[i].round == round && scores[i].isFinalized ==>
      lo <= scores[i].totalScore <= hi
    ensures lo <= ScoreForRound(scores, round) <= hi
  {
    var rs := RoundScores(scores, round);
    RoundScoresWithin(scores, round, lo, hi);
    RoundScoresNonEmpty(scores, round);
    MeanOfBounded(rs, lo, hi);
  }

  /** The mean of a non-empty run of totals within [lo, hi] lies within [lo, hi]. */
  lemma MeanOfBounded(rs: seq<Score>, lo: real, hi: real)
    requires |rs| > 0
    requires forall k :: 0 <= k < |rs| ==> lo <= rs[k].totalScore <= hi
    ensures lo <= SumTotals(rs) / (|rs| as real) <= hi
  {
    SumTotalsBounded(rs, lo, hi);
    MeanBetween(SumTotals(rs), |rs| as real, lo, hi);
  }

  /** Every score the round filter keeps lies between the bounds of the round's finalized scores. */
  lemma {:induction false} RoundScoresWithin(scores: seq<Score>, round: RoundId, lo: real, hi: real)
    requires forall i :: 0 <= i < |scores| && scores[i].round == round && scores[i].isFinalized ==>
      lo <= scores[i].totalScore <= hi
    ensures forall k :: 0 <= k < |RoundScores(scores, round)| ==> lo <= RoundScores(scores, round)[k].totalScore <= hi
  {
    if scores != [] {
      var prefix := scores[..|scores| - 1];
      assert forall i :: 0 <= i < |prefix| ==> prefix[i] == scores[i];
      RoundScoresWithin(prefix, round, lo, hi);
    }
  }

  /** A finalized score of the round makes the filtered list non-empty. */
  lemma {:induction false} RoundScoresNonEmpty(scores: seq<Score>, round: RoundId)
    requires exists i :: 0 <= i < |scores| && scores[i].round == round && scores[i].isFinalized
    ensures |RoundScores(scores, round)| > 0
  {
    var last := scores[|scores| - 1];
    if !(last.round == round && last.isFinalized) {
      var prefix := scores[..|scores| - 1];
      var i :| 0 <= i < |scores| && scores[i].round == round && scores[i].isFinalized;
      assert i < |prefix| && prefix[i] == scores[i];
      RoundScoresNonEmpty(prefix, round);
    }
  }

  /** A sum of `n` values between `lo` and `hi`, divided by `n`, stays between them. */
  lemma MeanBetween(sum: real, n: real, lo: real, hi: real)
    requires n > 0.0 && n * lo <= sum <= n * hi
    ensures lo <= sum / n <= hi
  {
    assert sum / n * n == sum;
  }

  /** `hasSubmittedForRound`: `submissions.some(s => s.round == round)`. */
  function HasSubmittedForRound(subs: seq<Submission>, round: RoundId): (r: bool)
    ensures r <==> exists i :: 0 <= i < |subs| && subs[i].round == round
  {
    if subs == [] then false
    else if subs[0].round == round then true
    else
      var found := HasSubmittedForRound(subs[1..], round);
      assert (exists i :: 0 <= i < |subs| && subs[i].round == round) ==>
        exists i :: 0 <= i < |subs[1..]| && subs[1..][i].round == round;
      found
  }

  // ------------------------------------------------------------- persisting

  /** The pre('save') hook: persisting a team recomputes `overallScore` from the scores being
      saved and changes nothing else. Every write of a team in the model goes through it. */
  function Saved(t: Team): (r: Team)
    ensures r.overallScore == OverallScore(r.scores)
    ensures r.(overallScore := t.overallScore) == t
  {
    t.(overallScore := OverallScore(t.scores))
  }
}
