/** Fantasy-team reconciliation (`DataConsistency.ensure_fantasy_team_consistency`). */
module TeamConsistency {
  import opened Records
  import BattingConsistency
  import BowlingConsistency

  /** What the routine reports on its diagnostic channel. */
  datatype Warning =
    | RosterSize(count: nat)
    | CaptainReplaced(captain: string)
    | ViceCaptainReplaced(viceCaptain: string)

  predicate IsMember(players: seq<Player>, name: string)
  {
    exists i :: 0 <= i < |players| && players[i].name == name
  }

  /** The scan `any(p.name == name for p in players)`, stopping at the first hit. */
  method AnyPlayerNamed(players: seq<Player>, name: string) returns (found: bool)
    ensures found <==> IsMember(players, name)
  {
    found := false;
    var i := 0;
    while i < |players| && !found
      invariant 0 <= i <= |players|
      invariant found <==> exists j :: 0 <= j < i && players[j].name == name
    {
      found := players[i].name == name;
      i := i + 1;
    }
  }

  /** A captain outside a non-empty team is replaced by the first player. */
  function RepairedCaptain(players: seq<Player>, captain: string): (c: string)
    ensures players != [] ==> IsMember(players, c)
    ensures IsMember(players, captain) || players == [] ==> c == captain
    ensures !IsMember(players, captain) && players != [] ==> c == players[0].name
  {
    if !IsMember(players, captain) && players != [] then players[0].name else captain
  }

  /** A vice-captain outside a team of two or more is replaced by the second player. */
  function RepairedViceCaptain(players: seq<Player>, viceCaptain: string): (v: string)
    ensures |players| >= 2 ==> IsMember(players, v)
    ensures IsMember(players, viceCaptain) || |players| < 2 ==> v == viceCaptain
    ensures !IsMember(players, viceCaptain) && |players| >= 2 ==> v == players[1].name
  {
    if !IsMember(players, viceCaptain) && |players| > 1 then players[1].name else viceCaptain
  }

  /** Each present sub-record replaced by its reconciler's output. */
  function ReconciledPerformance(p: Performance, f: Format): (r: Performance)
    ensures r.batting.Some? == p.batting.Some? && r.bowling.Some? == p.bowling.Some?
    ensures r.batting.Some? ==> r.batting.value.runs >= 0.0 && r.batting.value.balls >= 1.0
    ensures r.bowling.Some? ==> BowlingConsistency.WithinOverLimit(r.bowling.value.overs, f)
  {
    Performance(
      match p.batting
      case None => None
      case Some(b) => Some(BattingConsistency.ReconciledBatting(b)),
      match p.bowling
      case None => None
      case Some(b) => Some(BowlingConsistency.ReconciledBowling(b, f)))
  }

  function ReconciledPlayer(p: Player, f: Format): Player
  {
    p.(performance := ReconciledPerformance(p.performance, f))
  }

  /** The roster after every player's performance is reconciled: same length,
      same order, same names. */
  function ReconciledPlayers(players: seq<Player>, f: Format): (r: seq<Player>)
    ensures |r| == |players|
    ensures forall i :: 0 <= i < |r| ==> r[i].name == players[i].name
  {
    seq(|players|, i requires 0 <= i < |players| => ReconciledPlayer(players[i], f))
  }

  /** The warnings the routine logs, in order. */
  ghost function TeamWarnings(players: seq<Player>, captain: string, viceCaptain: string): seq<Warning>
  {
    (if |players| != 11 then [RosterSize(|players|)] else [])
    + (if !IsMember(players, captain) && players != [] then [CaptainReplaced(captain)] else [])
    + (if !IsMember(players, viceCaptain) && |players| > 1 then [ViceCaptainReplaced(viceCaptain)] else [])
  }

  /** Membership depends only on the names, which reconciliation keeps. */
  lemma {:induction false} ReconciliationKeepsMembership(players: seq<Player>, f: Format, name: string)
    ensures IsMember(ReconciledPlayers(players, f), name) <==> IsMember(players, name)
  {
    var r := ReconciledPlayers(players, f);
    if IsMember(players, name) {
      var i :| 0 <= i < |players| && players[i].name == name;
      assert r[i].name == name;
    }
    if IsMember(r, name) {
      var i :| 0 <= i < |r| && r[i].name == name;
      assert players[i].name == name;
    }
  }

  /** A second pass keeps the captain and vice-captain the first pass chose. */
  lemma RepairIdempotent(players: seq<Player>, f: Format, captain: string, viceCaptain: string)
    ensures var c := RepairedCaptain(players, captain);
      RepairedCaptain(ReconciledPlayers(players, f), c) == c
    ensures var v := RepairedViceCaptain(players, viceCaptain);
      RepairedViceCaptain(ReconciledPlayers(players, f), v) == v
  {
    ReconciliationKeepsMembership(players, f, RepairedCaptain(players, captain));
    ReconciliationKeepsMembership(players, f, RepairedViceCaptain(players, viceCaptain));
  }

  /** The repair does not keep captain and vice-captain apart: with players A
      and B, an unknown captain and vice-captain A, both roles go to A. */
  lemma CaptainAndViceCaptainMayCoincide(a: Performance, b: Performance)
    ensures var players := [Player("A", a), Player("B", b)];
      RepairedCaptain(players, "Z") == "A" && RepairedViceCaptain(players, "A") == "A"
  {
    var players := [Player("A", a), Player("B", b)];
    assert players[0].name == "A";
    assert !IsMember(players, "Z") by {
      forall i | 0 <= i < |players| ensures players[i].name != "Z" {
        assert i == 0 || i == 1;
      }
    }
  }

  /** The body of the per-player loop: each present sub-record goes through its reconciler. */
  method ReconcilePerformance(p: Performance, f: Format) returns (r: Performance)
    ensures r == ReconciledPerformance(p, f)
  {
    var batting, bowling := p.batting, p.bowling;
    if batting.Some? {
      var b := BattingConsistency.EnsureBattingConsistency(batting.value);
      batting := Some(b);
    }
    if bowling.Some? {
      var b := BowlingConsistency.EnsureBowlingConsistency(bowling.value, f);
      bowling := Some(b);
    }
    r := Performance(batting, bowling);
  }

  class FantasyTeam {
    var players: seq<Player>
    var captain: string
    var viceCaptain: string

    constructor (players: seq<Player>, captain: string, viceCaptain: string)
      ensures this.players == players && this.captain == captain && this.viceCaptain == viceCaptain
    {
      this.players := players;
      this.captain := captain;
      this.viceCaptain := viceCaptain;
    }

    /** Repairs the captaincy, then reconciles every player's batting and
        bowling in place; returns the warnings it would log. */
    method EnsureFantasyTeamConsistency(f: Format) returns (ghost warnings: seq<Warning>)
      modifies this
      ensures captain == RepairedCaptain(old(players), old(captain))
      ensures viceCaptain == RepairedViceCaptain(old(players), old(viceCaptain))
      ensures players == ReconciledPlayers(old(players), f)
      ensures warnings == TeamWarnings(old(players), old(captain), old(viceCaptain))
    {
      warnings := if |players| != 11 then [RosterSize(|players|)] else [];

      var captainInTeam := AnyPlayerNamed(players, captain);
      var viceCaptainInTeam := AnyPlayerNamed(players, viceCaptain);

      if !captainInTeam && players != [] {
        warnings := warnings + [CaptainReplaced(captain)];
        captain := players[0].name;
      }
      if !viceCaptainInTeam && |players| > 1 {
        warnings := warnings + [ViceCaptainReplaced(viceCaptain)];
        viceCaptain := players[1].name;
      }

      var i := 0;
      while i < |players|
        invariant 0 <= i <= |players| == |old(players)|
        invariant forall j :: 0 <= j < i ==> players[j] == ReconciledPlayer(old(players)[j], f)
        invariant forall j :: i <= j < |players| ==> players[j] == old(players)[j]
        invariant captain == RepairedCaptain(old(players), old(captain))
        invariant viceCaptain == RepairedViceCaptain(old(players), old(viceCaptain))
      {
        var performance := ReconcilePerformance(players[i].performance, f);
        players := players[i := players[i].(performance := performance)];
        i := i + 1;
      }
      assert players == ReconciledPlayers(old(players), f);
    }
  }
}
