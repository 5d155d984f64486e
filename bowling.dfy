/** Bowling reconciliation (`DataConsistency.ensure_bowling_consistency`). */
module BowlingConsistency {
  import opened Records

  /** The most overs one bowler may bowl in a format, if the format has a limit. */
  function OverLimit(f: Format): Option<real>
  {
    match f
    case T20I => Some(4.0)
    case ODI => Some(10.0)
    case Other => None
  }

  predicate WithinOverLimit(overs: real, f: Format)
  {
    OverLimit(f).Some? ==> overs <= OverLimit(f).value
  }

  /** The invariants a reconciled bowling record is meant to satisfy. */
  predicate Consistent(b: Bowling, f: Format)
  {
    && b.overs >= 0.0 && b.economy >= 0.0 && b.wickets >= 0.0 && b.runsConceded >= 0.0
    && WithinOverLimit(b.overs, f)
    && (b.overs > 0.0 ==> b.runsConceded == b.economy * b.overs)
  }

  /** Step 1: economy and overs decide the runs conceded; failing an economy,
      runs conceded and overs decide it. */
  function EconomyStep(b: Bowling): Bowling
  {
    if b.overs > 0.0 && b.economy > 0.0 then b.(runsConceded := b.economy * b.overs)
    else if b.runsConceded > 0.0 && b.overs > 0.0 then b.(economy := b.runsConceded / b.overs)
    else b
  }

  /** Step 2: the format's over limit, if any. */
  function CapOvers(overs: real, f: Format): real
  {
    match f
    case T20I => Min(overs, 4.0)
    case ODI => Min(overs, 10.0)
    case Other => overs
  }

  /** The reconciled record, before rounding to one decimal. */
  function ReconciledBowling(b: Bowling, f: Format): (r: Bowling)
    ensures r.overs >= 0.0 && r.economy >= 0.0 && r.wickets >= 0.0 && r.runsConceded >= 0.0
    ensures WithinOverLimit(r.overs, f)
    ensures f == Other ==> r.overs == Max(0.0, b.overs)
    ensures b.overs >= 0.0 && WithinOverLimit(b.overs, f) ==> r.overs == b.overs
    ensures OverLimit(f).Some? && b.overs > OverLimit(f).value ==> r.overs == OverLimit(f).value
    ensures b.overs < 0.0 ==> r.overs == 0.0
    ensures r.wickets == Max(0.0, b.wickets)
  {
    var rated := EconomyStep(b);
    Bowling(Max(0.0, CapOvers(rated.overs, f)), Max(0.0, rated.economy),
            Max(0.0, rated.wickets), Max(0.0, rated.runsConceded))
  }

  /** The routine as the source writes it, on local variables. */
  method EnsureBowlingConsistency(b: Bowling, f: Format) returns (r: Bowling)
    ensures r == ReconciledBowling(b, f)
  {
    var overs, economy, wickets, runsConceded := b.overs, b.economy, b.wickets, b.runsConceded;

    if overs > 0.0 && economy > 0.0 {
      runsConceded := economy * overs;
    } else if runsConceded > 0.0 && overs > 0.0 {
      economy := runsConceded / overs;
    }
    assert Bowling(overs, economy, wickets, runsConceded) == EconomyStep(b);

    if f == T20I {
      overs := Min(overs, 4.0);
    } else if f == ODI {
      overs := Min(overs, 10.0);
    }

    overs := Max(0.0, overs);
    economy := Max(0.0, economy);
    wickets := Max(0.0, wickets);
    runsConceded := Max(0.0, runsConceded);

    r := Bowling(overs, economy, wickets, runsConceded);
  }

  /** With overs and a positive economy, runs conceded is economy times the
      overs as given, before the over limit applies. */
  lemma RunsConcededFromEconomy(b: Bowling, f: Format)
    requires b.overs > 0.0 && b.economy > 0.0
    ensures ReconciledBowling(b, f).runsConceded == b.economy * b.overs
    ensures ReconciledBowling(b, f).economy == b.economy
  {
    assert b.economy * b.overs > 0.0;
  }

  /** Without a positive economy, positive runs conceded over positive overs
      decide the economy. */
  lemma EconomyFromRunsConceded(b: Bowling, f: Format)
    requires b.overs > 0.0 && b.economy <= 0.0 && b.runsConceded > 0.0
    ensures ReconciledBowling(b, f).economy == b.runsConceded / b.overs
    ensures ReconciledBowling(b, f).runsConceded == b.runsConceded
  {
    assert b.runsConceded / b.overs > 0.0;
  }

  /** When neither rate is recomputed, economy and runs conceded are only
      floored at 0. */
  lemma NoRateRecomputed(b: Bowling, f: Format)
    requires !(b.overs > 0.0 && b.economy > 0.0) && !(b.runsConceded > 0.0 && b.overs > 0.0)
    ensures ReconciledBowling(b, f).economy == Max(0.0, b.economy)
    ensures ReconciledBowling(b, f).runsConceded == Max(0.0, b.runsConceded)
  {
  }

  /** Runs conceded is computed from the overs before the limit: six overs at
      five an over in a T20I give 30 runs conceded over 4 overs. */
  lemma RunsConcededUsesOversBeforeLimit()
    ensures var r := ReconciledBowling(Bowling(6.0, 5.0, 1.0, 0.0), T20I);
      r.overs == 4.0 && r.runsConceded == 30.0 && r.runsConceded != r.economy * r.overs
  {
  }

  /** A record that already satisfies the invariants comes back unchanged. */
  lemma ConsistentIsFixedPoint(b: Bowling, f: Format)
    requires Consistent(b, f)
    ensures ReconciledBowling(b, f) == b
  {
    if b.overs > 0.0 && b.economy <= 0.0 {
      assert b.runsConceded == 0.0;
    }
  }

  /** Overs within the limit reconcile to a consistent record, whatever the
      signs of the fields (the floors repair them), so a second pass changes
      nothing. */
  lemma ReconciliationEstablishesConsistency(b: Bowling, f: Format)
    requires WithinOverLimit(b.overs, f)
    ensures Consistent(ReconciledBowling(b, f), f)
    ensures ReconciledBowling(ReconciledBowling(b, f), f) == ReconciledBowling(b, f)
  {
    var r := ReconciledBowling(b, f);
    if b.overs > 0.0 {
      assert r.overs == b.overs;
      if b.economy > 0.0 {
        RunsConcededFromEconomy(b, f);
      } else if b.runsConceded > 0.0 {
        EconomyFromRunsConceded(b, f);
        assert r.economy * r.overs == b.runsConceded / b.overs * b.overs;
      } else {
        assert r.economy == 0.0 && r.runsConceded == 0.0;
      }
    } else {
      assert r.overs == 0.0;
    }
    ConsistentIsFixedPoint(r, f);
  }
}
