/** Match-prediction reconciliation (`DataConsistency.ensure_match_prediction_consistency`). */
module MatchConsistency {
  import opened Records

  /** Two probabilities scaled to sum to one; a total that is not positive
      falls back to an even split. */
  function Normalized(p1: real, p2: real): (r: (real, real))
    ensures r.0 + r.1 == 1.0
    ensures p1 + p2 > 0.0 ==> r.0 * p2 == r.1 * p1
    ensures p1 + p2 <= 0.0 ==> r == (0.5, 0.5)
    ensures p1 >= 0.0 && p2 >= 0.0 ==> 0.0 <= r.0 <= 1.0 && 0.0 <= r.1 <= 1.0
  {
    var total := p1 + p2;
    if total > 0.0 then
      assert p1 / total * p2 == p2 / total * p1;
      (p1 / total, p2 / total)
    else (0.5, 0.5)
  }

  /** The winner's probability after normalisation: the larger of the two,
      so never below one half. */
  function WinProbability(p1: real, p2: real): (w: real)
    ensures var n := Normalized(p1, p2); w >= n.0 && w >= n.1 && (w == n.0 || w == n.1)
    ensures w >= 0.5
  {
    var n := Normalized(p1, p2);
    Max(n.0, n.1)
  }

  /** The probability entries after the routine: normalised when there are
      exactly two, untouched otherwise. */
  function NormalizedProbabilities(probs: seq<Entry>): (r: seq<Entry>)
    ensures |r| == |probs|
    ensures forall i :: 0 <= i < |r| ==> r[i].team == probs[i].team
    ensures |probs| == 2 ==> r[0].value + r[1].value == 1.0
    ensures |probs| != 2 ==> r == probs
  {
    if |probs| == 2 then
      var n := Normalized(probs[0].value, probs[1].value);
      [Entry(probs[0].team, n.0), Entry(probs[1].team, n.1)]
    else probs
  }

  /** The realistic band of innings scores for a format, if it has one. */
  function ScoreBand(f: Format): Option<(real, real)>
  {
    match f
    case T20I => Some((120.0, 220.0))
    case ODI => Some((200.0, 350.0))
    case Other => None
  }

  predicate InBand(score: real, f: Format)
  {
    ScoreBand(f).Some? ==> ScoreBand(f).value.0 <= score <= ScoreBand(f).value.1
  }

  /** A score moved to the nearest point of the format's band. */
  function ClampScore(score: real, f: Format): (r: real)
    ensures InBand(r, f)
    ensures InBand(score, f) ==> r == score
    ensures ScoreBand(f).Some? && score < ScoreBand(f).value.0 ==> r == ScoreBand(f).value.0
    ensures ScoreBand(f).Some? && score > ScoreBand(f).value.1 ==> r == ScoreBand(f).value.1
  {
    match f
    case T20I => Max(120.0, Min(score, 220.0))
    case ODI => Max(200.0, Min(score, 350.0))
    case Other => score
  }

  function ClampedScores(scores: seq<Entry>, f: Format): (r: seq<Entry>)
    ensures |r| == |scores|
    ensures forall i :: 0 <= i < |r| ==> r[i].team == scores[i].team && InBand(r[i].value, f)
  {
    seq(|scores|, i requires 0 <= i < |scores| => scores[i].(value := ClampScore(scores[i].value, f)))
  }

  /** Normalising twice is normalising once. */
  lemma NormalizationIdempotent(p1: real, p2: real)
    ensures var n := Normalized(p1, p2); Normalized(n.0, n.1) == n
  {
    var n := Normalized(p1, p2);
    var total := n.0 + n.1;
    assert total == 1.0;
    assert n.0 / total == n.0 && n.1 / total == n.1;
    assert Normalized(n.0, n.1) == (n.0 / total, n.1 / total);
  }

  /** Clamping twice is clamping once, and it keeps the order of scores. */
  lemma ClampIdempotentAndMonotone(s: real, t: real, f: Format)
    ensures ClampScore(ClampScore(s, f), f) == ClampScore(s, f)
    ensures s <= t ==> ClampScore(s, f) <= ClampScore(t, f)
  {
  }

  /** Three to one normalises to 0.75 and 0.25, and 0.75 wins. */
  lemma ThreeToOne()
    ensures Normalized(3.0, 1.0) == (0.75, 0.25) && WinProbability(3.0, 1.0) == 0.75
  {
  }

  class MatchPrediction {
    var teamProbabilities: seq<Entry>
    var winProbability: Option<real>
    var expectedScores: seq<Entry>

    /** Both tables are dictionaries keyed by team name: no team twice. */
    ghost predicate Valid()
      reads this
    {
      DistinctTeams(teamProbabilities) && DistinctTeams(expectedScores)
    }

    constructor (teamProbabilities: seq<Entry>, winProbability: Option<real>, expectedScores: seq<Entry>)
      requires DistinctTeams(teamProbabilities) && DistinctTeams(expectedScores)
      ensures Valid()
      ensures this.teamProbabilities == teamProbabilities
      ensures this.winProbability == winProbability
      ensures this.expectedScores == expectedScores
    {
      this.teamProbabilities := teamProbabilities;
      this.winProbability := winProbability;
      this.expectedScores := expectedScores;
    }

    /** Normalises a two-team probability table and sets the win probability,
        then clamps every expected score into the format's band, in place. */
    method EnsureMatchPredictionConsistency(f: Format)
      requires Valid()
      modifies this
      ensures Valid()
      ensures teamProbabilities == NormalizedProbabilities(old(teamProbabilities))
      ensures winProbability ==
        if |old(teamProbabilities)| == 2
        then Some(WinProbability(old(teamProbabilities)[0].value, old(teamProbabilities)[1].value))
        else old(winProbability)
      ensures expectedScores == ClampedScores(old(expectedScores), f)
    {
      if |teamProbabilities| == 2 {
        var team1, team2 := teamProbabilities[0].team, teamProbabilities[1].team;
        var prob1, prob2 := teamProbabilities[0].value, teamProbabilities[1].value;
        var totalProb := prob1 + prob2;
        if totalProb > 0.0 {
          prob1 := prob1 / totalProb;
          prob2 := prob2 / totalProb;
        } else {
          prob1 := 0.5;
          prob2 := 0.5;
        }
        teamProbabilities := [Entry(team1, prob1), Entry(team2, prob2)];
        winProbability := Some(Max(prob1, prob2));
      }

      var i := 0;
      while i < |expectedScores|
        invariant 0 <= i <= |expectedScores| == |old(expectedScores)|
        invariant forall j :: 0 <= j < i ==>
          expectedScores[j] == old(expectedScores)[j].(value := ClampScore(old(expectedScores)[j].value, f))
        invariant forall j :: i <= j < |expectedScores| ==> expectedScores[j] == old(expectedScores)[j]
        invariant teamProbabilities == NormalizedProbabilities(old(teamProbabilities))
        invariant winProbability ==
          if |old(teamProbabilities)| == 2
          then Some(WinProbability(old(teamProbabilities)[0].value, old(teamProbabilities)[1].value))
          else old(winProbability)
      {
        var score := expectedScores[i].value;
        if f == T20I {
          expectedScores := expectedScores[i := expectedScores[i].(value := Max(120.0, Min(score, 220.0)))];
        } else if f == ODI {
          expectedScores := expectedScores[i := expectedScores[i].(value := Max(200.0, Min(score, 350.0)))];
        }
        i := i + 1;
      }
      assert expectedScores == ClampedScores(old(expectedScores), f);
    }
  }
}
