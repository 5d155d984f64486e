/** Batting reconciliation (`DataConsistency.ensure_batting_consistency`). */
module BattingConsistency {
  import opened Records

  function BoundaryRuns(fours: real, sixes: real): real
  {
    fours * 4.0 + sixes * 6.0
  }

  /** The invariants a reconciled batting record is meant to satisfy. */
  predicate Consistent(b: Batting)
  {
    && b.runs >= 0.0 && b.balls >= 1.0 && b.strikeRate >= 0.0
    && b.fours >= 0.0 && b.sixes >= 0.0
    && b.strikeRate == b.runs / b.balls * 100.0
    && BoundaryRuns(b.fours, b.sixes) <= b.runs
  }

  /** Step 1: runs and balls decide the strike rate; failing a ball count, the
      strike rate decides the balls. */
  function StrikeRateStep(b: Batting): Batting
  {
    if b.balls > 0.0 then b.(strikeRate := b.runs / b.balls * 100.0)
    else if b.strikeRate > 0.0 then b.(balls := b.runs / b.strikeRate * 100.0)
    else b
  }

  /** Step 2 on the counts alone: when boundaries account for more than the
      runs, fours and sixes shrink by one common factor. */
  function ShrunkCounts(runs: real, fours: real, sixes: real): (real, real)
  {
    var boundary := BoundaryRuns(fours, sixes);
    if boundary > runs then
      var scale := runs / Max(1.0, boundary);
      (fours * scale, sixes * scale)
    else (fours, sixes)
  }

  function BoundaryStep(b: Batting): Batting
  {
    var counts := ShrunkCounts(b.runs, b.fours, b.sixes);
    b.(fours := counts.0, sixes := counts.1)
  }

  /** Step 3: no field below 0, balls not below 1. */
  function FloorStep(b: Batting): Batting
  {
    Batting(Max(0.0, b.runs), Max(1.0, b.balls), Max(0.0, b.strikeRate),
            Max(0.0, b.fours), Max(0.0, b.sixes))
  }

  /** The reconciled record, before rounding to one decimal. */
  function ReconciledBatting(b: Batting): (r: Batting)
    ensures r.runs >= 0.0 && r.balls >= 1.0 && r.strikeRate >= 0.0
    ensures r.fours >= 0.0 && r.sixes >= 0.0
    ensures r.runs == Max(0.0, b.runs)
  {
    FloorStep(BoundaryStep(StrikeRateStep(b)))
  }

  /** The routine as the source writes it: local variables reassigned step by
      step, then written back as one record. */
  method EnsureBattingConsistency(b: Batting) returns (r: Batting)
    ensures r == ReconciledBatting(b)
  {
    var runs, balls, strikeRate := b.runs, b.balls, b.strikeRate;
    var fours, sixes := b.fours, b.sixes;

    if balls > 0.0 {
      strikeRate := runs / balls * 100.0;
    } else if strikeRate > 0.0 {
      balls := runs / strikeRate * 100.0;
    }
    ghost var rated := Batting(runs, balls, strikeRate, fours, sixes);
    assert rated == StrikeRateStep(b);

    var boundaryRuns := fours * 4.0 + sixes * 6.0;
    if boundaryRuns > runs {
      var scaleFactor := runs / Max(1.0, boundaryRuns);
      fours := fours * scaleFactor;
      sixes := sixes * scaleFactor;
    }
    assert Batting(runs, balls, strikeRate, fours, sixes) == BoundaryStep(rated);

    runs := Max(0.0, runs);
    balls := Max(1.0, balls);
    strikeRate := Max(0.0, strikeRate);
    fours := Max(0.0, fours);
    sixes := Max(0.0, sixes);

    r := Batting(runs, balls, strikeRate, fours, sixes);
  }

  /** A known ball count overrides the strike rate; below one ball the count
      becomes 1, from one ball up it is kept and the strike rate agrees with
      the output record. */
  lemma StrikeRateFromBalls(b: Batting)
    requires b.balls > 0.0
    ensures ReconciledBatting(b).strikeRate == Max(0.0, b.runs / b.balls * 100.0)
    ensures b.balls < 1.0 ==> ReconciledBatting(b).balls == 1.0
    ensures b.balls >= 1.0 ==>
      var r := ReconciledBatting(b);
      r.balls == b.balls && r.strikeRate == r.runs / r.balls * 100.0
  {
    var r := ReconciledBatting(b);
    if b.balls >= 1.0 && b.runs < 0.0 {
      assert b.runs / b.balls < 0.0;
    }
  }

  /** Without a ball count, a positive strike rate is kept and decides the balls. */
  lemma BallsFromStrikeRate(b: Batting)
    requires b.balls <= 0.0 && b.strikeRate > 0.0
    ensures ReconciledBatting(b).balls == Max(1.0, b.runs / b.strikeRate * 100.0)
    ensures ReconciledBatting(b).strikeRate == b.strikeRate
  {
  }

  /** With neither a ball count nor a strike rate, balls becomes 1 and the strike rate 0. */
  lemma NoBallsNoStrikeRate(b: Batting)
    requires b.balls <= 0.0 && b.strikeRate <= 0.0
    ensures ReconciledBatting(b).balls == 1.0 && ReconciledBatting(b).strikeRate == 0.0
  {
  }

  lemma ProductNonNegative(x: real, y: real)
    requires x >= 0.0 && y >= 0.0
    ensures x * y >= 0.0
  {
  }

  lemma ProductNonPositive(x: real, y: real)
    requires x >= 0.0 && y <= 0.0
    ensures x * y <= 0.0
  {
  }

  /** The shrink factor is not negative for non-negative runs, and scales the
      boundary runs down to at most the runs. */
  lemma ShrinkFactorFits(runs: real, boundary: real)
    requires 0.0 <= runs < boundary
    ensures var k := runs / Max(1.0, boundary); k >= 0.0 && k * boundary <= runs
  {
    if boundary >= 1.0 {
      assert Max(1.0, boundary) == boundary;
    } else {
      assert Max(1.0, boundary) == 1.0;
      assert runs * boundary <= runs * 1.0;
    }
  }

  /** Counts scaled by a non-negative factor that fits stay within the runs. */
  lemma ScaledCountsFit(runs: real, fours: real, sixes: real, k: real)
    requires fours >= 0.0 && sixes >= 0.0 && k >= 0.0
    requires k * BoundaryRuns(fours, sixes) <= runs
    ensures BoundaryRuns(Max(0.0, fours * k), Max(0.0, sixes * k)) <= Max(0.0, runs)
  {
    ProductNonNegative(fours, k);
    ProductNonNegative(sixes, k);
    assert BoundaryRuns(fours * k, sixes * k) == k * BoundaryRuns(fours, sixes);
  }

  /** Counts scaled by a non-positive factor are floored away entirely. */
  lemma ScaledCountsVanish(fours: real, sixes: real, k: real)
    requires fours >= 0.0 && sixes >= 0.0 && k <= 0.0
    ensures BoundaryRuns(Max(0.0, fours * k), Max(0.0, sixes * k)) == 0.0
  {
    ProductNonPositive(fours, k);
    ProductNonPositive(sixes, k);
  }

  /** The shrunk counts, floored at 0, fit within the floored runs, for
      non-negative counts of fours and sixes. */
  lemma ShrinkFits(runs: real, fours: real, sixes: real)
    requires fours >= 0.0 && sixes >= 0.0
    ensures var counts := ShrunkCounts(runs, fours, sixes);
      BoundaryRuns(Max(0.0, counts.0), Max(0.0, counts.1)) <= Max(0.0, runs)
  {
    var boundary := BoundaryRuns(fours, sixes);
    if boundary > runs {
      var k := runs / Max(1.0, boundary);
      assert ShrunkCounts(runs, fours, sixes).0 == fours * k;
      assert ShrunkCounts(runs, fours, sixes).1 == sixes * k;
      if runs < 0.0 {
        assert k <= 0.0;
        ScaledCountsVanish(fours, sixes, k);
      } else {
        ShrinkFactorFits(runs, boundary);
        ScaledCountsFit(runs, fours, sixes, k);
      }
    }
  }

  /** Boundary runs never exceed the runs after reconciliation, provided the
      input counts of fours and sixes are not negative. */
  lemma BoundaryWithinRuns(b: Batting)
    requires b.fours >= 0.0 && b.sixes >= 0.0
    ensures var r := ReconciledBatting(b); BoundaryRuns(r.fours, r.sixes) <= r.runs
  {
    ReconciledCounts(b);
    ShrinkFits(b.runs, b.fours, b.sixes);
  }

  /** The counts of fours and sixes after reconciliation are the shrunk counts,
      floored at 0; ball count and strike rate play no part. */
  lemma ReconciledCounts(b: Batting)
    ensures var r := ReconciledBatting(b);
      var counts := ShrunkCounts(b.runs, b.fours, b.sixes);
      r.fours == Max(0.0, counts.0) && r.sixes == Max(0.0, counts.1)
  {
    var rated := StrikeRateStep(b);
    assert rated.runs == b.runs && rated.fours == b.fours && rated.sixes == b.sixes;
  }

  /** The shrink multiplies fours and sixes by one common factor, so their ratio
      is kept; boundaries that already fit are left as they are. */
  lemma ShrinkScalesBoth(runs: real, fours: real, sixes: real)
    ensures var counts := ShrunkCounts(runs, fours, sixes);
      var boundary := BoundaryRuns(fours, sixes);
      var k := runs / Max(1.0, boundary);
      && (boundary > runs ==> counts.0 == fours * k && counts.1 == sixes * k)
      && (boundary <= runs ==> counts.0 == fours && counts.1 == sixes)
      && counts.0 * sixes == counts.1 * fours
  {
    var boundary := BoundaryRuns(fours, sixes);
    var k := runs / Max(1.0, boundary);
    if boundary > runs {
      assert ShrunkCounts(runs, fours, sixes).0 == fours * k;
      assert ShrunkCounts(runs, fours, sixes).1 == sixes * k;
      ScaledRatio(fours, sixes, k);
    }
  }

  lemma ScaledRatio(fours: real, sixes: real, k: real)
    ensures (fours * k) * sixes == (sixes * k) * fours
  {
  }

  /** Non-negative runs, fours and sixes shrink to non-negative counts, which the
      floor then keeps: the reconciled counts are the shrunk ones. */
  lemma ShrinkNeedsNoFloor(b: Batting)
    requires b.fours >= 0.0 && b.sixes >= 0.0 && b.runs >= 0.0
    ensures var counts := ShrunkCounts(b.runs, b.fours, b.sixes);
      ReconciledBatting(b).fours == counts.0 && ReconciledBatting(b).sixes == counts.1
  {
    ReconciledCounts(b);
    var boundary := BoundaryRuns(b.fours, b.sixes);
    if boundary > b.runs {
      var k := b.runs / Max(1.0, boundary);
      assert k >= 0.0;
      ProductNonNegative(b.fours, k);
      ProductNonNegative(b.sixes, k);
    }
  }

  /** The boundary invariant needs non-negative inputs: a negative count of fours
      lets the boundaries pass the check, and the floor afterwards breaks it. */
  lemma NegativeFoursBreakBoundaryInvariant()
    ensures var r := ReconciledBatting(Batting(20.0, 10.0, 0.0, -10.0, 10.0));
      r.fours == 0.0 && r.sixes == 10.0 && BoundaryRuns(r.fours, r.sixes) > r.runs
  {
  }

  /** With no positive runs the strike rate identity still holds, unless the
      ball count had to be derived from a positive strike rate. */
  lemma {:induction false} NonPositiveRunsKeepStrikeRate(b: Batting)
    requires b.runs <= 0.0 && (b.balls > 0.0 || b.strikeRate <= 0.0)
    ensures var r := ReconciledBatting(b); r.strikeRate == r.runs / r.balls * 100.0
  {
    if b.balls > 0.0 {
      assert b.runs / b.balls <= 0.0;
    }
  }

  /** No runs, no balls and a strike rate of 50: the derived ball count 0 is
      floored to 1 while the strike rate is kept, so the output breaks the
      strike rate identity. */
  lemma ZeroRunsKeptStrikeRate()
    ensures var r := ReconciledBatting(Batting(0.0, 0.0, 50.0, 0.0, 0.0));
      r.runs == 0.0 && r.balls == 1.0 && r.strikeRate == 50.0 && !Consistent(r)
  {
  }

  /** Ten runs with four fours and a six: 22 boundary runs shrink by 10/22. */
  lemma TenRunsFourFoursOneSix()
    ensures var r := ReconciledBatting(Batting(10.0, 0.0, 0.0, 4.0, 1.0));
      r.fours == 20.0 / 11.0 && r.sixes == 5.0 / 11.0 && BoundaryRuns(r.fours, r.sixes) == 10.0
  {
    ShrinkNeedsNoFloor(Batting(10.0, 0.0, 0.0, 4.0, 1.0));
  }

  /** A record that already satisfies the invariants comes back unchanged. */
  lemma ConsistentIsFixedPoint(b: Batting)
    requires Consistent(b)
    ensures ReconciledBatting(b) == b
  {
  }

  /** From a usable ball count, or a strike rate that implies at least one ball,
      and non-negative boundary counts, reconciliation yields a consistent record. */
  lemma ReconciliationEstablishesConsistency(b: Batting)
    requires b.fours >= 0.0 && b.sixes >= 0.0
    requires b.balls >= 1.0 || (b.balls <= 0.0 && b.strikeRate > 0.0 && b.runs / b.strikeRate * 100.0 >= 1.0)
    ensures Consistent(ReconciledBatting(b))
  {
    var r := ReconciledBatting(b);
    BoundaryWithinRuns(b);
    if b.balls >= 1.0 {
      StrikeRateFromBalls(b);
    } else {
      var balls := b.runs / b.strikeRate * 100.0;
      assert b.runs > 0.0;
      assert r.balls == balls;
      assert r.runs / balls * 100.0 == b.strikeRate;
    }
  }

  /** Under the same conditions a second pass changes nothing. */
  lemma ReconciliationIdempotent(b: Batting)
    requires b.fours >= 0.0 && b.sixes >= 0.0
    requires b.balls >= 1.0 || (b.balls <= 0.0 && b.strikeRate > 0.0 && b.runs / b.strikeRate * 100.0 >= 1.0)
    ensures ReconciledBatting(ReconciledBatting(b)) == ReconciledBatting(b)
  {
    ReconciliationEstablishesConsistency(b);
    ConsistentIsFixedPoint(ReconciledBatting(b));
  }
}
