# Cricket prediction consistency enforcer, in Dafny

This project models `DataConsistency`, the reconciliation layer of a cricket
prediction system. The layer sits between the statistical predictors and the API.
It repairs predictions that contradict themselves. Its five routines are:

- **Batting reconciler.** Runs and balls decide the strike rate. Without a ball
  count, the strike rate decides the balls. Fours and sixes shrink in proportion
  when boundary runs exceed the runs. No field goes below 0, and balls does not
  go below 1.
- **Bowling reconciler.** Economy times overs decides the runs conceded. Without
  an economy, runs conceded over overs decides the economy. Overs are capped at
  4 in a T20I and at 10 in an ODI. No field goes below 0.
- **Role adjuster.** The lower-cased role string is searched for "batsman",
  then "bowler", then "all-rounder" / "all rounder". The first hit picks a row
  of a policy table of floors and caps on expected runs and wickets.
- **Team aggregator.** A captain who is not in the team is replaced by the first
  player. A vice-captain who is not in the team is replaced by the second player.
  Then every player's batting and bowling sub-records are reconciled in place.
- **Match aggregator.** A table of exactly two win probabilities is normalised
  to sum to 1, falling back to 0.5 / 0.5. The win probability becomes the larger
  of the two. Every expected score is clamped into the format's band: T20I
  [120, 220], ODI [200, 350].

Layout, one module per routine:

- `text.dfy` (`Text`): ASCII case folding and Python's `sub in s`.
- `records.dfy` (`Records`): the records, `Option`, `Format`, and case-insensitive
  format parsing.
- `batting.dfy`, `bowling.dfy`, `role.dfy`: each routine is a specification
  function plus a method. The function composes the routine's steps (for the role
  adjuster, it applies a policy table). The method reassigns local variables in
  the order the source does. Each method is proved equal to its function, and the
  lemmas state what the function guarantees.
- `team.dfy` (`TeamConsistency`): a class `FantasyTeam`. Its method repairs the
  captaincy and reconciles the roster in a loop, in place.
- `match.dfy` (`MatchConsistency`): a class `MatchPrediction`. Its method
  normalises the probabilities and clamps the scores in a loop, in place.

The arithmetic is over `real`, so every property holds before the source rounds
to one or three decimals. Dictionaries keyed by team name are sequences of
entries, in insertion order. A sub-record that may be missing is an `Option`.
Missing numeric fields are already 0 when a record is built.

Where the code and the invariants a reader would expect part ways, the model follows the code:

- The routines change their inputs in place rather than returning fresh records.
  So the team and match routines are methods on objects.
- The invariant `fours*4 + sixes*6 <= runs` is stated for every reconciled
  record. The code only ensures it when the input fours and sixes are not
  negative (see `BattingConsistency.NegativeFoursBreakBoundaryInvariant`).
- "strike rate = runs / balls * 100" holds for the output when the input ball
  count is at least 1, when a derived ball count is at least 1, or when the runs
  are not positive and either the input ball count is positive or the input
  strike rate is not. Otherwise it can fail: balls is floored at 1 after the
  strike rate is computed, and a positive strike rate is kept beside zero runs
  when no ball count was given (see `BattingConsistency.ZeroRunsKeptStrikeRate`).
- Runs conceded comes from the overs before the over limit. So a capped record
  can still violate "runs conceded = economy * overs".

## Model

| member | source | states |
|---|---|---|
| `Text.ContainsIffOccurs` | src/utils/helpers/data_consistency.py:136-160 | the role search `sub in role` holds exactly when some window of the role string equals `sub` |
| `Records.ParseFormat` | src/utils/helpers/data_consistency.py:99-102 | a format string selects T20I or ODI exactly when its upper-cased form is "T20I" or "ODI" |
| `Records.ParseFormatIgnoresCase` | src/utils/helpers/data_consistency.py:99-102 | lower-casing a format string does not change the format it selects |
| `BattingConsistency.ReconciledBatting` | src/utils/helpers/data_consistency.py:54-59 | after reconciliation runs, strike rate, fours and sixes are at least 0 and balls at least 1; runs only lose a negative value |
| `BattingConsistency.EnsureBattingConsistency` | src/utils/helpers/data_consistency.py:31-68 | the step-by-step routine yields exactly the specified reconciled record |
| `BattingConsistency.StrikeRateFromBalls` | src/utils/helpers/data_consistency.py:41-42 | a positive ball count overrides the strike rate with runs/balls*100 (floored at 0); below one ball the output balls are exactly 1; from one ball up, the balls are kept and the output strike rate equals output runs / output balls * 100 |
| `BattingConsistency.BallsFromStrikeRate` | src/utils/helpers/data_consistency.py:43-44 | without a ball count, a positive strike rate is kept and the balls become max(1, runs/strike rate*100) |
| `BattingConsistency.NoBallsNoStrikeRate` | src/utils/helpers/data_consistency.py:41-57 | with neither a ball count nor a positive strike rate, balls become 1 and the strike rate 0 |
| `BattingConsistency.ShrinkFits` | src/utils/helpers/data_consistency.py:47-59 | for non-negative fours and sixes, the shrunk and floored boundary runs fit within the floored runs |
| `BattingConsistency.BoundaryWithinRuns` | src/utils/helpers/data_consistency.py:47-59 | for non-negative input fours and sixes, the reconciled record has fours*4 + sixes*6 <= runs |
| `BattingConsistency.ReconciledCounts` | src/utils/helpers/data_consistency.py:47-59 | the reconciled fours and sixes depend only on runs, fours and sixes: the shrunk counts floored at 0 |
| `BattingConsistency.ShrinkScalesBoth` | src/utils/helpers/data_consistency.py:47-52 | when boundary runs exceed the runs, fours and sixes are both multiplied by runs/max(1, boundary); otherwise both are kept; either way the fours:sixes ratio is kept |
| `BattingConsistency.ShrinkNeedsNoFloor` | src/utils/helpers/data_consistency.py:50-59 | for non-negative runs, fours and sixes, the floor leaves the shrunk counts as they are |
| `BattingConsistency.TenRunsFourFoursOneSix` | src/utils/helpers/data_consistency.py:47-52 | 10 runs with 4 fours and 1 six give 20/11 fours and 5/11 sixes, exactly 10 boundary runs |
| `BattingConsistency.NegativeFoursBreakBoundaryInvariant` | src/utils/helpers/data_consistency.py:47-59 | runs 20, fours -10, sixes 10 pass the boundary check and then the floor makes boundary runs 60 > 20 |
| `BattingConsistency.NonPositiveRunsKeepStrikeRate` | src/utils/helpers/data_consistency.py:41-57 | with runs at most 0, and either a positive input ball count or no positive strike rate, the output strike rate equals output runs / output balls * 100 |
| `BattingConsistency.ZeroRunsKeptStrikeRate` | src/utils/helpers/data_consistency.py:41-57 | 0 runs, 0 balls and strike rate 50 give runs 0, balls 1 and strike rate 50, which breaks the strike rate identity |
| `BattingConsistency.ConsistentIsFixedPoint` | src/utils/helpers/data_consistency.py:41-59 | a record already satisfying every batting invariant is returned unchanged |
| `BattingConsistency.ReconciliationEstablishesConsistency` | src/utils/helpers/data_consistency.py:41-59 | from a ball count of at least 1 (or a strike rate implying at least one ball) and non-negative fours and sixes, the output satisfies every batting invariant |
| `BattingConsistency.ReconciliationIdempotent` | src/utils/helpers/data_consistency.py:21-70 | under the same conditions, reconciling the output again changes nothing |
| `BowlingConsistency.ReconciledBowling` | src/utils/helpers/data_consistency.py:98-108 | all four fields are at least 0; overs are at most 4 in a T20I and 10 in an ODI, overs above the limit become exactly the limit and negative overs become 0; other formats only floor overs; overs already in range are kept; wickets only lose a negative value |
| `BowlingConsistency.EnsureBowlingConsistency` | src/utils/helpers/data_consistency.py:85-116 | the step-by-step routine yields exactly the specified reconciled record |
| `BowlingConsistency.RunsConcededFromEconomy` | src/utils/helpers/data_consistency.py:93-94 | with positive overs and economy, runs conceded becomes economy * overs (the overs before the limit) and economy is kept |
| `BowlingConsistency.EconomyFromRunsConceded` | src/utils/helpers/data_consistency.py:95-96 | with positive overs, no positive economy and positive runs conceded, economy becomes runs conceded / overs and runs conceded is kept |
| `BowlingConsistency.NoRateRecomputed` | src/utils/helpers/data_consistency.py:93-108 | when overs are not positive, or neither economy nor runs conceded is positive, economy and runs conceded are only floored at 0 |
| `BowlingConsistency.RunsConcededUsesOversBeforeLimit` | src/utils/helpers/data_consistency.py:93-102 | 6 overs at economy 5 in a T20I give 4 overs but 30 runs conceded, not economy * overs |
| `BowlingConsistency.ConsistentIsFixedPoint` | src/utils/helpers/data_consistency.py:93-108 | a record already satisfying every bowling invariant for the format is returned unchanged |
| `BowlingConsistency.ReconciliationEstablishesConsistency` | src/utils/helpers/data_consistency.py:93-108 | from overs within the limit (any signs, which the floors repair), the output satisfies every bowling invariant, and a second pass changes nothing |
| `RoleConsistency.Classify` | src/utils/helpers/data_consistency.py:133-160 | first match wins: batsman when the lower-cased role contains "batsman"; bowler when it contains "bowler" but not "batsman"; all-rounder when it contains neither but has "all-rounder" or "all rounder" |
| `RoleConsistency.AdjustedForRole` | src/utils/helpers/data_consistency.py:135-170 | present sub-records stay present, absent ones absent; only batting runs and bowling wickets may change |
| `RoleConsistency.EnsurePlayerRoleConsistency` | src/utils/helpers/data_consistency.py:133-172 | the source's if-chain computes exactly the policy-table adjustment |
| `RoleConsistency.RolePolicy` | src/utils/helpers/data_consistency.py:136-170 | batsman: runs raised to 20 and wickets capped at 0.5; bowler: runs capped at 15 and wickets raised to 1; all-rounder: runs raised to 15 and wickets to 0.5; no match: unchanged |
| `RoleConsistency.AdjustmentIdempotent` | src/utils/helpers/data_consistency.py:136-170 | applying the role policy twice is applying it once |
| `RoleConsistency.BatsmanTestComesFirst` | src/utils/helpers/data_consistency.py:136-148 | a role naming both bowler and batsman is treated as a batsman |
| `RoleConsistency.AllRounderRecognised` | src/utils/helpers/data_consistency.py:160 | "All-Rounder" falls to the all-rounder row |
| `TeamConsistency.AnyPlayerNamed` | src/utils/helpers/data_consistency.py:195-196 | the membership scan returns true exactly when some player has the name |
| `TeamConsistency.RepairedCaptain` | src/utils/helpers/data_consistency.py:198-200 | in a non-empty team the captain ends up a member; a member captain is kept; otherwise the first player becomes captain; an empty team keeps the captain |
| `TeamConsistency.RepairedViceCaptain` | src/utils/helpers/data_consistency.py:202-204 | in a team of two or more the vice-captain ends up a member; a member is kept; otherwise the second player takes the role; smaller teams keep the vice-captain |
| `TeamConsistency.ReconciledPerformance` | src/utils/helpers/data_consistency.py:208-216 | sub-records stay present or absent; a present batting record has runs >= 0 and balls >= 1; a present bowling record is within the format's over limit |
| `TeamConsistency.ReconciledPlayers` | src/utils/helpers/data_consistency.py:207-216 | the roster keeps its length, order and names |
| `TeamConsistency.ReconciliationKeepsMembership` | src/utils/helpers/data_consistency.py:195-216 | reconciling the roster does not change who is a member |
| `TeamConsistency.RepairIdempotent` | src/utils/helpers/data_consistency.py:195-216 | a second pass over the repaired team keeps the captain and vice-captain it chose |
| `TeamConsistency.CaptainAndViceCaptainMayCoincide` | src/utils/helpers/data_consistency.py:198-204 | with players A and B, an unknown captain and vice-captain A, both roles go to A |
| `TeamConsistency.ReconcilePerformance` | src/utils/helpers/data_consistency.py:208-216 | the per-player loop body yields exactly the specified reconciled performance |
| `TeamConsistency.FantasyTeam.EnsureFantasyTeamConsistency` | src/utils/helpers/data_consistency.py:186-218 | the new captain and vice-captain are the repaired ones; the roster is replaced in place by its reconciled version; the warnings are roster size, captain and vice-captain replacement, in that order |
| `MatchConsistency.Normalized` | src/utils/helpers/data_consistency.py:242-248 | the two new probabilities sum to 1; for a positive total they keep the input ratio; otherwise both are 0.5; non-negative inputs give values in [0, 1] |
| `MatchConsistency.WinProbability` | src/utils/helpers/data_consistency.py:255 | the win probability is the larger normalised probability, hence at least 0.5 |
| `MatchConsistency.NormalizedProbabilities` | src/utils/helpers/data_consistency.py:233-252 | team names and count are kept; exactly two entries end up summing to 1; any other count is left untouched |
| `MatchConsistency.ClampScore` | src/utils/helpers/data_consistency.py:258-266 | the score ends in the format's band, scores in the band are kept, scores outside move to the nearer bound, and other formats keep the score |
| `MatchConsistency.ClampedScores` | src/utils/helpers/data_consistency.py:258-266 | every team keeps its place and gets a score in the band |
| `MatchConsistency.NormalizationIdempotent` | src/utils/helpers/data_consistency.py:242-248 | normalising normalised probabilities changes nothing |
| `MatchConsistency.ClampIdempotentAndMonotone` | src/utils/helpers/data_consistency.py:261-266 | clamping twice is clamping once, and clamping keeps the order of scores |
| `MatchConsistency.ThreeToOne` | src/utils/helpers/data_consistency.py:242-255 | probabilities 3 and 1 become 0.75 and 0.25, and the win probability is 0.75 |
| `MatchConsistency.MatchPrediction.EnsureMatchPredictionConsistency` | src/utils/helpers/data_consistency.py:232-268 | team names stay distinct; the probability table becomes its normalised version; with two entries the win probability is set, otherwise left alone; the scores become their clamped version, in place |

## Left out

- Rounding: `round(x, 1)` and `round(x, 3)` are not modelled, so every property holds before rounding. Rounding can overshoot by a little: 1.8 fours and 0.5 sixes make 10.2 boundary runs against 10 runs.
- Floating point: Python floats are modelled as exact reals.
- Logging: `logging.basicConfig` and the logger are not modelled. The team routine's three warnings come back as a ghost sequence.
- Case folding: `Lower` and `Upper` fold ASCII letters only. Python folds all of Unicode. For example, `"t20ı".upper()` is `"T20I"`, so that string selects T20I in the source but `Other` here.
- Format parameter: the routines take a `Format` value made by `ParseFormat`. The source's default argument `'T20I'` is up to the caller.
- Dictionary mechanics: a missing key, a value of the wrong type and `None` are not modelled. Records are built with defaults already filled in.
- Aliasing: batting and bowling records are values. The model does not capture that the source mutates the caller's dictionary and returns the same object.
- BattingConsistency.BoundaryWithinRuns: requires non-negative input fours and sixes, because the code does not keep `fours*4 + sixes*6 <= runs` for negative counts (see `NegativeFoursBreakBoundaryInvariant`).
- BattingConsistency.ReconciliationIdempotent: requires non-negative fours and sixes and a ball count of at least 1 (or a strike rate that implies one), because the code is not idempotent outside these conditions.
- run_api_server.py is not part of this model. It only reads environment variables and starts the HTTP server.
