/** The community challenges list: join and leave counters and the leaderboard dialog. */
module Challenges {
  import opened Wrappers

  /** A challenge; `isJoined` is absent until the user first joins or leaves. */
  datatype Challenge = Challenge(
    id: string, title: string, description: string,
    participants: int, daysLeft: int, isJoined: Option<bool>)

  const MockChallenges: seq<Challenge> := [
    Challenge("1", "7-Day HRV Challenge", "Increase your heart rate variability by 15%", 342, 4, Some(true)),
    Challenge("2", "Morning Walk", "10,000 steps before 10am for 7 days", 1205, 2, None),
    Challenge("3", "Zen Meditation", "30 min of conscious breathing daily", 856, 6, None)
  ]

  /** handleJoinChallenge: the matching challenges are joined with one more participant. */
  function Joined(challenges: seq<Challenge>, id: string): (r: seq<Challenge>)
    ensures |r| == |challenges|
    ensures forall i :: 0 <= i < |r| && challenges[i].id != id ==> r[i] == challenges[i]
    ensures forall i :: 0 <= i < |r| && challenges[i].id == id ==>
      && r[i].isJoined == Some(true) && r[i].participants == challenges[i].participants + 1
      && r[i].(participants := challenges[i].participants, isJoined := challenges[i].isJoined) == challenges[i]
  {
    seq(|challenges|, i requires 0 <= i < |challenges| =>
      var c := challenges[i];
      if c.id == id then c.(isJoined := Some(true), participants := c.participants + 1) else c)
  }

  /** handleLeaveChallenge: the matching challenges are left with one participant fewer, never below 0. */
  function Left(challenges: seq<Challenge>, id: string): (r: seq<Challenge>)
    ensures |r| == |challenges|
    ensures forall i :: 0 <= i < |r| && challenges[i].id != id ==> r[i] == challenges[i]
    ensures forall i :: 0 <= i < |r| && challenges[i].id == id ==>
      && r[i].isJoined == Some(false) && r[i].participants >= 0
      && r[i].participants == (if challenges[i].participants >= 1 then challenges[i].participants - 1 else 0)
      && r[i].(participants := challenges[i].participants, isJoined := challenges[i].isJoined) == challenges[i]
  {
    seq(|challenges|, i requires 0 <= i < |challenges| =>
      var c := challenges[i];
      if c.id == id then c.(isJoined := Some(false), participants := if c.participants - 1 > 0 then c.participants - 1 else 0) else c)
  }

  predicate NonNegativeCounts(challenges: seq<Challenge>) {
    forall i :: 0 <= i < |challenges| ==> challenges[i].participants >= 0
  }

  /** Joining and leaving keep every participant count non-negative. */
  lemma CountsStayNonNegative(challenges: seq<Challenge>, id: string)
    requires NonNegativeCounts(challenges)
    ensures NonNegativeCounts(Joined(challenges, id))
    ensures NonNegativeCounts(Left(challenges, id))
  {
  }

  /** Joining then leaving restores every count that was not negative; only isJoined differs. */
  lemma JoinThenLeave(challenges: seq<Challenge>, id: string)
    requires NonNegativeCounts(challenges)
    ensures var r := Left(Joined(challenges, id), id);
      && |r| == |challenges|
      && forall i :: 0 <= i < |r| ==>
        r[i].(isJoined := challenges[i].isJoined) == challenges[i]
        && (challenges[i].id == id ==> r[i].isJoined == Some(false))
  {
    var j := Joined(challenges, id);
    var r := Left(j, id);
    forall i | 0 <= i < |r|
      ensures r[i].(isJoined := challenges[i].isJoined) == challenges[i]
    {
      if challenges[i].id == id {
        assert j[i].participants == challenges[i].participants + 1;
        assert r[i].participants == challenges[i].participants;
      }
    }
  }

  /** Joining is not idempotent: joining twice counts the user twice. */
  lemma JoinTwice(challenges: seq<Challenge>, id: string)
    ensures var r := Joined(Joined(challenges, id), id);
      forall i :: 0 <= i < |r| && challenges[i].id == id ==> r[i].participants == challenges[i].participants + 2
  {
    var j := Joined(challenges, id);
    assert forall i :: 0 <= i < |j| ==> j[i].id == challenges[i].id;
  }

  class ChallengeBoard {
    var challenges: seq<Challenge>
    var leaderboardOpen: bool
    var selectedChallenge: Option<Challenge>

    constructor()
      ensures challenges == MockChallenges && !leaderboardOpen && selectedChallenge.None?
    {
      challenges := MockChallenges;
      leaderboardOpen := false;
      selectedChallenge := None;
    }

    method JoinChallenge(challengeId: string)
      modifies this
      ensures challenges == Joined(old(challenges), challengeId)
      ensures leaderboardOpen == old(leaderboardOpen) && selectedChallenge == old(selectedChallenge)
    {
      challenges := Joined(challenges, challengeId);
    }

    method LeaveChallenge(challengeId: string)
      modifies this
      ensures challenges == Left(old(challenges), challengeId)
      ensures leaderboardOpen == old(leaderboardOpen) && selectedChallenge == old(selectedChallenge)
    {
      challenges := Left(challenges, challengeId);
    }

    /** handleShowLeaderboard: remember the challenge and open its leaderboard. */
    method ShowLeaderboard(challenge: Challenge)
      modifies this
      ensures selectedChallenge == Some(challenge) && leaderboardOpen && challenges == old(challenges)
    {
      selectedChallenge := Some(challenge);
      leaderboardOpen := true;
    }
  }
}
