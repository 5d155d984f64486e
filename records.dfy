/** The records the reconciler reads and writes. Missing dictionary fields are
    already defaulted (0 for numbers, "" for strings) when a record is built;
    a sub-record that may be absent is an Option. */
module Records {
  import opened Text

  datatype Option<T> = None | Some(value: T)

  function Max(a: real, b: real): real { if a >= b then a else b }
  function Min(a: real, b: real): real { if a <= b then a else b }

  /** The match format, after the caller's string has been upper-cased. */
  datatype Format = T20I | ODI | Other

  /** The format a caller's format string names, compared case-insensitively. */
  function ParseFormat(s: string): (f: Format)
    ensures f == T20I <==> Upper(s) == "T20I"
    ensures f == ODI <==> Upper(s) == "ODI"
  {
    var u := Upper(s);
    if u == "T20I" then T20I else if u == "ODI" then ODI else Other
  }

  /** "t20i", "T20i" and "T20I" name the same format. */
  lemma ParseFormatIgnoresCase(s: string)
    ensures ParseFormat(Lower(s)) == ParseFormat(s)
  {
    UpperOfLower(s);
  }

  /** Expected batting output of one player. */
  datatype Batting = Batting(runs: real, balls: real, strikeRate: real, fours: real, sixes: real)

  /** Expected bowling output of one player. */
  datatype Bowling = Bowling(overs: real, economy: real, wickets: real, runsConceded: real)

  /** A player's prediction: either sub-record may be absent. */
  datatype Performance = Performance(batting: Option<Batting>, bowling: Option<Bowling>)

  /** A member of a fantasy team. */
  datatype Player = Player(name: string, performance: Performance)

  /** One entry of a dictionary keyed by team name. */
  datatype Entry = Entry(team: string, value: real)

  /** Dictionary keys are unique. */
  predicate DistinctTeams(es: seq<Entry>)
  {
    forall i, j :: 0 <= i < j < |es| ==> es[i].team != es[j].team
  }
}
