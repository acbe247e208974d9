/** `getLeaderboard` of src/controllers/team.controller.js: the approved, non-eliminated teams of
    a hackathon ordered by overall score, optionally re-ordered by one round's mean score, and
    ranked by position. */
module Leaderboard {
  import opened Common
  import opened TeamModel

  /** One leaderboard line. `rank` is 0 until the positions are assigned. */
  datatype Standing = Standing(team: TeamId, teamName: string, overallScore: real, roundScore: Option<real>, rank: nat)

  /** The query `{hackathon: h, registrationStatus: 'approved', isEliminated: false}`. */
  predicate Eligible(t: Team, h: HackathonId)
  {
    t.hackathon == h && t.registrationStatus == Approved && !t.isEliminated
  }

  /** The lines of the eligible teams among the first `n`, in store order. */
  function EligibleRows(teams: seq<Team>, h: HackathonId, n: nat): (rows: seq<Standing>)
    requires n <= |teams|
    ensures forall i :: 0 <= i < |rows| ==>
              rows[i].team < n && Eligible(teams[rows[i].team], h) &&
              rows[i].overallScore == teams[rows[i].team].overallScore && rows[i].roundScore == None
  {
    if n == 0 then []
    else
      var t := teams[n - 1];
      EligibleRows(teams, h, n - 1) +
        (if Eligible(t, h) then [Standing(n - 1, t.teamName, t.overallScore, None, 0)] else [])
  }

  /** The team ids of the lines, in order. */
  function TeamIds(rows: seq<Standing>): (ids: seq<TeamId>)
    ensures |ids| == |rows| && forall i :: 0 <= i < |rows| ==> ids[i] == rows[i].team
  {
    seq(|rows|, i requires 0 <= i < |rows| => rows[i].team)
  }

  /** The team ids of two runs of lines follow each other. */
  lemma TeamIdsAppend(a: seq<Standing>, b: seq<Standing>)
    ensures TeamIds(a + b) == TeamIds(a) + TeamIds(b)
  {
  }

  /** Each eligible team among the first `n` has exactly one line, and no other team has one. */
  lemma {:induction false} EligibleRowsOnce(teams: seq<Team>, h: HackathonId, n: nat, k: TeamId)
    requires n <= |teams|
    ensures multiset(TeamIds(EligibleRows(teams, h, n)))[k] == if k < n && Eligible(teams[k], h) then 1 else 0
  {
    if n > 0 {
      EligibleRowsOnce(teams, h, n - 1, k);
      var t := teams[n - 1];
      var prefix := EligibleRows(teams, h, n - 1);
      var extra := if Eligible(t, h) then [Standing(n - 1, t.teamName, t.overallScore, None, 0)] else [];
      assert TeamIds(prefix + extra) == TeamIds(prefix) + TeamIds(extra);
    }
  }

  // ------------------------------------------------------------- sorting

  /** The sort key: the round score once it has been attached, the overall score before. */
  function Key(s: Standing, byRound: bool): real
  {
    if byRound then (if s.roundScore.Some? then s.roundScore.value else 0.0) else s.overallScore
  }

  predicate SortedDesc(s: seq<Standing>, byRound: bool)
  {
    forall i, j :: 0 <= i < j < |s| ==> Key(s[i], byRound) >= Key(s[j], byRound)
  }

  /** Places `x` after every line whose key is at least its own. */
  function Insert(x: Standing, s: seq<Standing>, byRound: bool): seq<Standing>
  {
    if s == [] then [x]
    else if Key(s[0], byRound) < Key(x, byRound) then [x] + s
    else [s[0]] + Insert(x, s[1..], byRound)
  }

  /** A stable sort by descending key: each line is inserted, from the last, behind the lines
      that came before it with an equal key, as the stable `Array.prototype.sort` keeps them. */
  function SortDesc(s: seq<Standing>, byRound: bool): seq<Standing>
  {
    if s == [] then [] else Insert(s[|s| - 1], SortDesc(s[..|s| - 1], byRound), byRound)
  }

  lemma {:induction false} InsertPermutes(x: Standing, s: seq<Standing>, byRound: bool)
    ensures multiset(Insert(x, s, byRound)) == multiset(s) + multiset{x}
    ensures multiset(TeamIds(Insert(x, s, byRound))) == multiset(TeamIds(s)) + multiset{x.team}
  {
    if s != [] && Key(s[0], byRound) >= Key(x, byRound) {
      InsertPermutes(x, s[1..], byRound);
      assert s == [s[0]] + s[1..];
      TeamIdsAppend([s[0]], Insert(x, s[1..], byRound));
      TeamIdsAppend([s[0]], s[1..]);
    } else {
      TeamIdsAppend([x], s);
    }
  }

  lemma {:induction false} InsertSorted(x: Standing, s: seq<Standing>, byRound: bool)
    requires SortedDesc(s, byRound)
    ensures SortedDesc(Insert(x, s, byRound), byRound)
  {
    if s != [] && Key(s[0], byRound) >= Key(x, byRound) {
      InsertSorted(x, s[1..], byRound);
      InsertPermutes(x, s[1..], byRound);
      var rest := Insert(x, s[1..], byRound);
      forall j | 0 <= j < |rest| ensures Key(s[0], byRound) >= Key(rest[j], byRound) {
        assert rest[j] in multiset(s[1..]) + multiset{x};
      }
    }
  }

  /** Sorting yields a descending permutation of its input. */
  lemma {:induction false} SortDescCorrect(s: seq<Standing>, byRound: bool)
    ensures SortedDesc(SortDesc(s, byRound), byRound)
    ensures multiset(SortDesc(s, byRound)) == multiset(s)
    ensures multiset(TeamIds(SortDesc(s, byRound))) == multiset(TeamIds(s))
  {
    if s != [] {
      var init := s[..|s| - 1];
      SortDescCorrect(init, byRound);
      InsertSorted(s[|s| - 1], SortDesc(init, byRound), byRound);
      InsertPermutes(s[|s| - 1], SortDesc(init, byRound), byRound);
      assert s == init + [s[|s| - 1]];
      assert TeamIds(s) == TeamIds(init) + [s[|s| - 1].team];
    }
  }

  // ------------------------------------------------------------ the board

  /** The map that attaches `getScoreForRound(round)` to every line. */
  function WithRoundScores(rows: seq<Standing>, teams: seq<Team>, round: RoundId): (r: seq<Standing>)
    requires forall i :: 0 <= i < |rows| ==> rows[i].team < |teams|
    ensures |r| == |rows| && TeamIds(r) == TeamIds(rows)
    ensures forall i :: 0 <= i < |r| ==>
              r[i] == rows[i].(roundScore := Some(ScoreForRound(teams[rows[i].team].scores, round)))
  {
    seq(|rows|, i requires 0 <= i < |rows| => rows[i].(roundScore := Some(ScoreForRound(teams[rows[i].team].scores, round))))
  }

  /** `rank: index + 1`. */
  function Ranked(rows: seq<Standing>): (r: seq<Standing>)
    ensures |r| == |rows| && TeamIds(r) == TeamIds(rows)
    ensures forall i :: 0 <= i < |r| ==> r[i] == rows[i].(rank := i + 1)
  {
    seq(|rows|, i requires 0 <= i < |rows| => rows[i].(rank := i + 1))
  }

  /** The leaderboard of hackathon `h`, by overall score, or by the mean score of `round` when given. */
  function Board(teams: seq<Team>, h: HackathonId, round: Option<RoundId>): (r: seq<Standing>)
    ensures |r| == |EligibleRows(teams, h, |teams|)|
    ensures forall i :: 0 <= i < |r| ==> r[i].rank == i + 1
  {
    var rows := EligibleRows(teams, h, |teams|);
    SortDescCorrect(rows, false);
    var byOverall := SortDesc(rows, false);
    assert |multiset(byOverall)| == |multiset(rows)|;
    if round.None? then Ranked(byOverall)
    else
      ByOverallFacts(teams, h);
      var scored := WithRoundScores(byOverall, teams, round.value);
      SortDescCorrect(scored, true);
      assert |multiset(SortDesc(scored, true))| == |multiset(scored)|;
      Ranked(SortDesc(scored, true))
  }

  /** Every line is the line of an eligible team, carrying that team's overall score. */
  predicate LinesOfEligible(rows: seq<Standing>, teams: seq<Team>, h: HackathonId)
  {
    forall i :: 0 <= i < |rows| ==>
      rows[i].team < |teams| && Eligible(teams[rows[i].team], h) && rows[i].overallScore == teams[rows[i].team].overallScore
  }

  /** Each eligible team has exactly one line, and no other team has one. */
  ghost predicate EachEligibleOnce(ids: seq<TeamId>, teams: seq<Team>, h: HackathonId)
  {
    forall k: TeamId :: multiset(ids)[k] == if k < |teams| && Eligible(teams[k], h) then 1 else 0
  }

  /** Every line carries the mean score of `round` of its team. */
  predicate ScoredFor(rows: seq<Standing>, teams: seq<Team>, round: RoundId)
  {
    forall i :: 0 <= i < |rows| ==>
      rows[i].team < |teams| && rows[i].roundScore == Some(ScoreForRound(teams[rows[i].team].scores, round))
  }

  /** The board before the round re-ordering: sorted by overall score, one line per eligible team. */
  lemma ByOverallFacts(teams: seq<Team>, h: HackathonId)
    ensures var byOverall := SortDesc(EligibleRows(teams, h, |teams|), false);
      SortedDesc(byOverall, false) && LinesOfEligible(byOverall, teams, h) && EachEligibleOnce(TeamIds(byOverall), teams, h)
  {
    var rows := EligibleRows(teams, h, |teams|);
    var byOverall := SortDesc(rows, false);
    SortDescCorrect(rows, false);
    forall k: TeamId ensures multiset(TeamIds(rows))[k] == if k < |teams| && Eligible(teams[k], h) then 1 else 0 {
      EligibleRowsOnce(teams, h, |teams|, k);
    }
    assert forall i :: 0 <= i < |byOverall| ==> byOverall[i] in multiset(rows);
  }

  /** Re-ordering by round score keeps the lines and their round scores. */
  lemma ByRoundFacts(rows: seq<Standing>, teams: seq<Team>, h: HackathonId, round: RoundId)
    requires LinesOfEligible(rows, teams, h) && EachEligibleOnce(TeamIds(rows), teams, h)
    ensures var byRound := SortDesc(WithRoundScores(rows, teams, round), true);
      SortedDesc(byRound, true) && LinesOfEligible(byRound, teams, h) &&
      EachEligibleOnce(TeamIds(byRound), teams, h) && ScoredFor(byRound, teams, round)
  {
    var scored := WithRoundScores(rows, teams, round);
    var byRound := SortDesc(scored, true);
    SortDescCorrect(scored, true);
    assert LinesOfEligible(scored, teams, h) && ScoredFor(scored, teams, round);
    assert forall i :: 0 <= i < |byRound| ==> byRound[i] in multiset(scored);
  }

  /** What the leaderboard promises: ranks run 1..n by position; exactly the approved,
      non-eliminated teams of the hackathon appear, each once, with their stored overall score;
      the order is by descending overall score, or, given a round, every line carries that
      round's mean score and the order is by descending round score. */
  lemma BoardSpec(teams: seq<Team>, h: HackathonId, round: Option<RoundId>)
    ensures var r := Board(teams, h, round);
      (forall i :: 0 <= i < |r| ==> r[i].rank == i + 1) &&
      LinesOfEligible(r, teams, h) && EachEligibleOnce(TeamIds(r), teams, h) &&
      (round.None? ==> forall i, j :: 0 <= i < j < |r| ==> r[i].overallScore >= r[j].overallScore) &&
      (round.Some? ==>
         ScoredFor(r, teams, round.value) &&
         forall i, j :: 0 <= i < j < |r| ==> r[i].roundScore.value >= r[j].roundScore.value)
  {
    var byOverall := SortDesc(EligibleRows(teams, h, |teams|), false);
    ByOverallFacts(teams, h);
    if round.Some? {
      ByRoundFacts(byOverall, teams, h, round.value);
    }
  }

  /** Two teams tied on 80 and one on 60: the tie keeps store order and ranks run 1, 2, 3. */
  lemma TiedTeamsRankByPosition(a: Team, b: Team, c: Team, h: HackathonId)
    requires Eligible(a, h) && Eligible(b, h) && Eligible(c, h)
    requires a.overallScore == 80.0 && b.overallScore == 80.0 && c.overallScore == 60.0
    ensures var r := Board([a, b, c], h, None);
      |r| == 3 && r[0].team == 0 && r[1].team == 1 && r[2].team == 2 &&
      r[0].rank == 1 && r[1].rank == 2 && r[2].rank == 3
  {
    var teams := [a, b, c];
    var rows := EligibleRows(teams, h, 3);
    assert EligibleRows(teams, h, 1) == [Standing(0, a.teamName, 80.0, None, 0)];
    assert EligibleRows(teams, h, 2) == EligibleRows(teams, h, 1) + [Standing(1, b.teamName, 80.0, None, 0)];
    assert rows == EligibleRows(teams, h, 2) + [Standing(2, c.teamName, 60.0, None, 0)];
    var s0 := Standing(0, a.teamName, 80.0, None, 0);
    var s1 := Standing(1, b.teamName, 80.0, None, 0);
    var s2 := Standing(2, c.teamName, 60.0, None, 0);
    assert rows == [s0, s1, s2];
    assert [s0, s1, s2][..2] == [s0, s1];
    assert [s0, s1][..1] == [s0];
    assert SortDesc([s0], false) == Insert(s0, [], false) == [s0];
    assert SortDesc([s0, s1], false) == Insert(s1, SortDesc([s0], false), false);
    assert Insert(s1, [s0], false) == [s0] + Insert(s1, [], false) == [s0, s1];
    assert SortDesc([s0, s1, s2], false) == Insert(s2, SortDesc([s0, s1], false), false);
    assert Insert(s2, [s1], false) == [s1] + Insert(s2, [], false) == [s1, s2];
    assert Insert(s2, [s0, s1], false) == [s0] + Insert(s2, [s1], false) == [s0, s1, s2];
  }
}
