/** Role adjustment (`DataConsistency.ensure_player_role_consistency`): a
    player's declared role nudges the expected runs and wickets. */
module RoleConsistency {
  import opened Text
  import opened Records

  datatype RoleClass = Batsman | Bowler | AllRounder | Unclassified

  /** The role string, lower-cased, is searched for "batsman", then "bowler",
      then "all-rounder" or "all rounder"; the first hit decides. */
  function Classify(role: string): (c: RoleClass)
    ensures c == Batsman <==> Contains(Lower(role), "batsman")
    ensures c == Bowler <==> !Contains(Lower(role), "batsman") && Contains(Lower(role), "bowler")
    ensures c == AllRounder <==>
      && !Contains(Lower(role), "batsman") && !Contains(Lower(role), "bowler")
      && (Contains(Lower(role), "all-rounder") || Contains(Lower(role), "all rounder"))
  {
    var r := Lower(role);
    if Contains(r, "batsman") then Batsman
    else if Contains(r, "bowler") then Bowler
    else if Contains(r, "all-rounder") || Contains(r, "all rounder") then AllRounder
    else Unclassified
  }

  /** One entry of the policy table: raise to at least, or lower to at most. */
  datatype Bound = AtLeast(limit: real) | AtMost(limit: real)

  function ApplyBound(bound: Option<Bound>, x: real): real
  {
    match bound
    case None => x
    case Some(AtLeast(v)) => Max(x, v)
    case Some(AtMost(v)) => Min(x, v)
  }

  /** The policy table for batting.expected_runs. */
  function RunsBound(c: RoleClass): Option<Bound>
  {
    match c
    case Batsman => Some(AtLeast(20.0))
    case Bowler => Some(AtMost(15.0))
    case AllRounder => Some(AtLeast(15.0))
    case Unclassified => None
  }

  /** The policy table for bowling.expected_wickets. */
  function WicketsBound(c: RoleClass): Option<Bound>
  {
    match c
    case Batsman => Some(AtMost(0.5))
    case Bowler => Some(AtLeast(1.0))
    case AllRounder => Some(AtLeast(0.5))
    case Unclassified => None
  }

  /** The prediction after the policy table for the role's class is applied to
      whichever sub-records are present. */
  function AdjustedForRole(role: string, p: Performance): (r: Performance)
    ensures r.batting.Some? == p.batting.Some? && r.bowling.Some? == p.bowling.Some?
    ensures r.batting.Some? ==> r.batting.value == p.batting.value.(runs := r.batting.value.runs)
    ensures r.bowling.Some? ==> r.bowling.value == p.bowling.value.(wickets := r.bowling.value.wickets)
  {
    var c := Classify(role);
    Performance(
      match p.batting
      case None => None
      case Some(bt) => Some(bt.(runs := ApplyBound(RunsBound(c), bt.runs))),
      match p.bowling
      case None => None
      case Some(bw) => Some(bw.(wickets := ApplyBound(WicketsBound(c), bw.wickets))))
  }

  /** The routine as the source writes it: a first-match chain of role tests,
      each touching the expected runs and wickets only when out of range. */
  method EnsurePlayerRoleConsistency(role: string, prediction: Performance) returns (r: Performance)
    ensures r == AdjustedForRole(role, prediction)
  {
    var lowered := Lower(role);
    var batting, bowling := prediction.batting, prediction.bowling;
    if Contains(lowered, "batsman") {
      if batting.Some? {
        var runs := batting.value.runs;
        if runs < 20.0 {
          batting := Some(batting.value.(runs := Max(runs, 20.0)));
        }
      }
      if bowling.Some? {
        var wickets := bowling.value.wickets;
        if wickets > 0.5 {
          bowling := Some(bowling.value.(wickets := Min(wickets, 0.5)));
        }
      }
    } else if Contains(lowered, "bowler") {
      if batting.Some? {
        var runs := batting.value.runs;
        if runs > 15.0 {
          batting := Some(batting.value.(runs := Min(runs, 15.0)));
        }
      }
      if bowling.Some? {
        var wickets := bowling.value.wickets;
        if wickets < 1.0 {
          bowling := Some(bowling.value.(wickets := Max(wickets, 1.0)));
        }
      }
    } else if Contains(lowered, "all-rounder") || Contains(lowered, "all rounder") {
      if batting.Some? {
        var runs := batting.value.runs;
        if runs < 15.0 {
          batting := Some(batting.value.(runs := Max(runs, 15.0)));
        }
      }
      if bowling.Some? {
        var wickets := bowling.value.wickets;
        if wickets < 0.5 {
          bowling := Some(bowling.value.(wickets := Max(wickets, 0.5)));
        }
      }
    }
    r := Performance(batting, bowling);
  }

  /** What each role guarantees about the present sub-records, and that values
      already in range are kept. */
  lemma RolePolicy(role: string, p: Performance)
    ensures var r := AdjustedForRole(role, p);
      && (Classify(role) == Batsman ==>
            && (r.batting.Some? ==> r.batting.value.runs == Max(p.batting.value.runs, 20.0))
            && (r.bowling.Some? ==> r.bowling.value.wickets == Min(p.bowling.value.wickets, 0.5)))
      && (Classify(role) == Bowler ==>
            && (r.batting.Some? ==> r.batting.value.runs == Min(p.batting.value.runs, 15.0))
            && (r.bowling.Some? ==> r.bowling.value.wickets == Max(p.bowling.value.wickets, 1.0)))
      && (Classify(role) == AllRounder ==>
            && (r.batting.Some? ==> r.batting.value.runs == Max(p.batting.value.runs, 15.0))
            && (r.bowling.Some? ==> r.bowling.value.wickets == Max(p.bowling.value.wickets, 0.5)))
      && (Classify(role) == Unclassified ==> r == p)
  {
  }

  /** Applying the policy a second time changes nothing. */
  lemma AdjustmentIdempotent(role: string, p: Performance)
    ensures AdjustedForRole(role, AdjustedForRole(role, p)) == AdjustedForRole(role, p)
  {
  }

  /** A role naming both "bowler" and "batsman" is a batsman: the batsman test comes first. */
  lemma BatsmanTestComesFirst()
    ensures Classify("Bowler/Batsman") == Batsman
  {
    var r := Lower("Bowler/Batsman");
    assert r == "bowler/batsman";
    ContainsIffOccurs(r, "batsman");
    assert OccursAt(r, "batsman", 7);
  }

  /** "All-Rounder" has no "batsman" nor "bowler", so the all-rounder row applies. */
  lemma AllRounderRecognised()
    ensures Classify("All-Rounder") == AllRounder
  {
    assert Lower("All-Rounder") == "all-rounder";
    MissingFirstCharNotContained("all-rounder", "batsman");
    MissingFirstCharNotContained("all-rounder", "bowler");
    assert Contains("all-rounder", "all-rounder");
  }
}
