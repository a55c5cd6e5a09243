/**
 * The scoreboard of the penalty session: two teams, five dots per team,
 * a running score per team and an attempt counter (updateUI, main.js:68-78).
 *
 * `Record` is what one call of updateUI does to the scoreboard; `Replay`
 * is the scoreboard after a whole history of outcomes. The lemmas relate
 * `Replay` to reference definitions that do not mention updateUI at all:
 * which team takes attempt k, how many goals each team has, and which dot
 * classes have been added.
 */
module Ledger {

  datatype Team = Team1 | Team2 {
    function Other(): (t: Team)
      ensures t != this
    {
      if this == Team1 then Team2 else Team1
    }
  }

  /**
   * One class added to one dot by `classList.add`: the team row, the dot's
   * index in that row, and whether the class was 'scored' or 'missed'.
   * Classes accumulate, so a dot marked twice carries both marks.
   */
  datatype DotMark = DotMark(team: Team, dot: nat, scored: bool)

  // Each team's row has five dots (main.js:58, main.js:62); the literal 5
  // below is that count, and 10 is one round of both rows.

  /** The scoreboard state: score.team1, score.team2, currentTeam, attempts, dot classes. */
  datatype Tally = Tally(score1: nat, score2: nat, team: Team, attempts: nat, marks: set<DotMark>) {
    function Score(t: Team): nat {
      if t == Team1 then score1 else score2
    }
  }

  /** The scoreboard at page load (main.js:8-10, main.js:56-63). */
  const Initial: Tally := Tally(0, 0, Team1, 0, {})

  /**
   * updateUI(success): mark dot `attempts % 5` of the current team, add a
   * goal to the current team on success, hand over to the other team after
   * every fifth attempt, and count the attempt.
   */
  function Record(l: Tally, success: bool): (r: Tally)
    ensures r.attempts == l.attempts + 1
    ensures r.Score(l.team) == l.Score(l.team) + (if success then 1 else 0)
    ensures r.Score(l.team.Other()) == l.Score(l.team.Other())
    ensures r.team != l.team <==> (l.attempts + 1) % 5 == 0
    ensures r.marks == l.marks + {DotMark(l.team, l.attempts % 5, success)}
  {
    var mark := DotMark(l.team, l.attempts % 5, success);
    var s1 := if success && l.team == Team1 then l.score1 + 1 else l.score1;
    var s2 := if success && l.team == Team2 then l.score2 + 1 else l.score2;
    var next := if (l.attempts + 1) % 5 == 0 then l.team.Other() else l.team;
    Tally(s1, s2, next, l.attempts + 1, l.marks + {mark})
  }

  /** The scoreboard after updateUI has been called once per outcome, in order. */
  function Replay(outcomes: seq<bool>): Tally
    decreases |outcomes|
  {
    if outcomes == [] then Initial
    else Record(Replay(outcomes[..|outcomes| - 1]), outcomes[|outcomes| - 1])
  }

  /** Replaying one more outcome is one more call of updateUI. */
  lemma ReplaySnoc(outcomes: seq<bool>, success: bool)
    ensures Replay(outcomes + [success]) == Record(Replay(outcomes), success)
  {
    assert (outcomes + [success])[..|outcomes|] == outcomes;
  }

  /**
   * What a scoreboard reached by the outcomes so far satisfies: it is their
   * replay, and the two scores together never exceed the attempts.
   */
  ghost predicate Consistent(l: Tally, outcomes: seq<bool>) {
    l == Replay(outcomes) &&
    l.score1 + l.score2 <= l.attempts
  }

  /** updateUI keeps the scoreboard consistent with the history it extends. */
  lemma RecordConsistent(l: Tally, outcomes: seq<bool>, success: bool)
    requires Consistent(l, outcomes)
    ensures Consistent(Record(l, success), outcomes + [success])
  {
    ReplaySnoc(outcomes, success);
  }

  // ---------------------------------------------------------------------
  // Reference definitions, independent of updateUI
  // ---------------------------------------------------------------------

  /** The team that takes attempt number k (counting from 0): blocks of five, alternating. */
  function TeamOf(k: nat): Team {
    if (k / 5) % 2 == 0 then Team1 else Team2
  }

  /** How many of the first n attempts team t takes. */
  function Turns(n: nat, t: Team): nat {
    if n == 0 then 0
    else Turns(n - 1, t) + (if TeamOf(n - 1) == t then 1 else 0)
  }

  /** How many of the outcomes were goals taken by team t. */
  function Goals(outcomes: seq<bool>, t: Team): nat
    decreases |outcomes|
  {
    if outcomes == [] then 0
    else
      var k := |outcomes| - 1;
      Goals(outcomes[..k], t) + (if outcomes[k] && TeamOf(k) == t then 1 else 0)
  }

  /** Every dot class added by the history: attempt k marks dot k % 5 of TeamOf(k). */
  function MarksOf(outcomes: seq<bool>): set<DotMark> {
    set k | 0 <= k < |outcomes| :: DotMark(TeamOf(k), k % 5, outcomes[k])
  }

  // ---------------------------------------------------------------------
  // Lemmas
  // ---------------------------------------------------------------------

  /** The turn passes to the other team exactly when the attempt just taken was a fifth one. */
  lemma TeamStep(k: nat)
    ensures TeamOf(k + 1) == if (k + 1) % 5 == 0 then TeamOf(k).Other() else TeamOf(k)
  {
    var q, r := k / 5, k % 5;
    assert k == 5 * q + r;
    if r == 4 {
      assert k + 1 == 5 * (q + 1);
      assert (k + 1) / 5 == q + 1 && (k + 1) % 5 == 0;
    } else {
      assert k + 1 == 5 * q + (r + 1);
      assert (k + 1) / 5 == q && (k + 1) % 5 == r + 1;
    }
  }

  lemma MarksOfSnoc(outcomes: seq<bool>)
    requires outcomes != []
    ensures var k := |outcomes| - 1;
            MarksOf(outcomes) == MarksOf(outcomes[..k]) + {DotMark(TeamOf(k), k % 5, outcomes[k])}
  {
    var k := |outcomes| - 1;
    var prefix := outcomes[..k];
    forall m | m in MarksOf(outcomes)
      ensures m in MarksOf(prefix) + {DotMark(TeamOf(k), k % 5, outcomes[k])}
    {
      var j :| 0 <= j < |outcomes| && m == DotMark(TeamOf(j), j % 5, outcomes[j]);
      if j < k {
        assert prefix[j] == outcomes[j];
      }
    }
    forall m | m in MarksOf(prefix)
      ensures m in MarksOf(outcomes)
    {
      var j :| 0 <= j < |prefix| && m == DotMark(TeamOf(j), j % 5, prefix[j]);
      assert prefix[j] == outcomes[j];
    }
  }

  /**
   * The scoreboard after any history of outcomes is the one the reference
   * definitions describe: one attempt per outcome, the turn given by TeamOf,
   * each team's score its own goals, and the marks of every attempt.
   */
  lemma {:induction false} ReplayMatches(outcomes: seq<bool>)
    ensures Replay(outcomes).attempts == |outcomes|
    ensures Replay(outcomes).team == TeamOf(|outcomes|)
    ensures Replay(outcomes).score1 == Goals(outcomes, Team1)
    ensures Replay(outcomes).score2 == Goals(outcomes, Team2)
    ensures Replay(outcomes).marks == MarksOf(outcomes)
    decreases |outcomes|
  {
    if outcomes != [] {
      var k := |outcomes| - 1;
      ReplayMatches(outcomes[..k]);
      TeamStep(k);
      MarksOfSnoc(outcomes);
    } else {
      assert MarksOf(outcomes) == {};
    }
  }

  /** Every attempt belongs to exactly one of the two teams. */
  lemma {:induction false} TurnsSplit(n: nat)
    ensures Turns(n, Team1) + Turns(n, Team2) == n
  {
    if n > 0 {
      TurnsSplit(n - 1);
    }
  }

  /** A team never has more goals than it has taken attempts. */
  lemma {:induction false} GoalsWithinTurns(outcomes: seq<bool>, t: Team)
    ensures Goals(outcomes, t) <= Turns(|outcomes|, t)
    decreases |outcomes|
  {
    if outcomes != [] {
      GoalsWithinTurns(outcomes[..|outcomes| - 1], t);
    }
  }

  /** The invariant score.team1 + score.team2 <= attempts, and each score is bounded by its team's own turns. */
  lemma ScoresWithinAttempts(outcomes: seq<bool>)
    ensures Replay(outcomes).score1 <= Turns(|outcomes|, Team1)
    ensures Replay(outcomes).score2 <= Turns(|outcomes|, Team2)
    ensures Replay(outcomes).score1 + Replay(outcomes).score2 <= Replay(outcomes).attempts
  {
    ReplayMatches(outcomes);
    GoalsWithinTurns(outcomes, Team1);
    GoalsWithinTurns(outcomes, Team2);
    TurnsSplit(|outcomes|);
  }

  /** Within every block of ten attempts, attempts 0-4 go to team1 and 5-9 to team2. */
  lemma TeamInRound(m: nat, j: nat)
    requires j < 10
    ensures TeamOf(10 * m + j) == if j < 5 then Team1 else Team2
  {
    var k := 10 * m + j;
    if j < 5 {
      assert k == 5 * (2 * m) + j;
      assert k / 5 == 2 * m;
    } else {
      assert k == 5 * (2 * m + 1) + (j - 5);
      assert k / 5 == 2 * m + 1;
    }
  }

  lemma {:induction false} TurnsInRound(m: nat, j: nat, t: Team)
    requires j <= 10
    ensures Turns(10 * m + j, t) ==
            Turns(10 * m, t) + (if t == Team1 then (if j < 5 then j else 5)
                                      else (if j < 5 then 0 else j - 5))
  {
    if j > 0 {
      TurnsInRound(m, j - 1, t);
      TeamInRound(m, j - 1);
    }
  }

  /** After 10*m attempts each team has taken exactly 5*m of them. */
  lemma {:induction false} TurnsBalanced(m: nat)
    ensures Turns(10 * m, Team1) == 5 * m
    ensures Turns(10 * m, Team2) == 5 * m
  {
    if m > 0 {
      TurnsBalanced(m - 1);
      TurnsInRound(m - 1, 10, Team1);
      TurnsInRound(m - 1, 10, Team2);
      assert 10 * (m - 1) + 10 == 10 * m;
    }
  }

  /** The marks of one team's row of dots, dot i carrying the outcome row[i]. */
  function RowMarks(t: Team, row: seq<bool>): set<DotMark> {
    set i | 0 <= i < |row| :: DotMark(t, i, row[i])
  }

  lemma FirstRoundCovered(outcomes: seq<bool>)
    requires |outcomes| == 10
    ensures MarksOf(outcomes) <= RowMarks(Team1, outcomes[..5]) + RowMarks(Team2, outcomes[5..])
  {
    var first, second := outcomes[..5], outcomes[5..];
    forall m | m in MarksOf(outcomes)
      ensures m in RowMarks(Team1, first) + RowMarks(Team2, second)
    {
      var k :| 0 <= k < |outcomes| && m == DotMark(TeamOf(k), k % 5, outcomes[k]);
      TeamInRound(0, k);
      if k < 5 {
        assert first[k] == outcomes[k];
        assert m == DotMark(Team1, k, first[k]);
      } else {
        assert second[k - 5] == outcomes[k];
        assert m == DotMark(Team2, k - 5, second[k - 5]);
      }
    }
  }

  lemma FirstRoundMarked(outcomes: seq<bool>)
    requires |outcomes| == 10
    ensures RowMarks(Team1, outcomes[..5]) + RowMarks(Team2, outcomes[5..]) <= MarksOf(outcomes)
  {
    var first, second := outcomes[..5], outcomes[5..];
    forall i | 0 <= i < 5
      ensures DotMark(Team1, i, first[i]) in MarksOf(outcomes)
    {
      TeamInRound(0, i);
      assert DotMark(Team1, i, first[i]) == DotMark(TeamOf(i), i % 5, outcomes[i]);
    }
    forall i | 0 <= i < 5
      ensures DotMark(Team2, i, second[i]) in MarksOf(outcomes)
    {
      TeamInRound(0, 5 + i);
      assert DotMark(Team2, i, second[i]) == DotMark(TeamOf(5 + i), (5 + i) % 5, outcomes[5 + i]);
    }
  }

  /**
   * After the first ten attempts team1's five dots carry the outcomes of
   * attempts 0-4, team2's five dots those of attempts 5-9, each dot exactly
   * one mark, and the turn is back with team1.
   */
  lemma FirstRound(outcomes: seq<bool>)
    requires |outcomes| == 10
    ensures Replay(outcomes).team == Team1
    ensures Replay(outcomes).marks == RowMarks(Team1, outcomes[..5]) + RowMarks(Team2, outcomes[5..])
  {
    ReplayMatches(outcomes);
    TeamInRound(1, 0);
    FirstRoundCovered(outcomes);
    FirstRoundMarked(outcomes);
  }
}
