/**
 The records that flow through `Model.run_model`: a sportsbook prop row as the
 odds feed delivers it, the same row once `implied_odds` is attached, a row of the
 per-player table `threes_over_unders`, a prop row after the left merge, and a
 ranked bet carrying the derived betting columns.
 */
module Props {
  import opened Wrappers

  const PlayerThrees: string := "player_threes"

  /** One row of the odds feed. Every cell may be missing (NaN). */
  datatype PropRow = PropRow(
    playerName: Option<string>,
    propType: Option<string>,
    defensiveMatchup: Option<string>,
    points: Option<real>,           // the betting line
    price: Option<int>,             // American odds
    others: seq<Option<string>>)    // the feed's remaining columns (over/under label, bookmaker, ...)

  /** A feed row with the `implied_odds` column attached. */
  datatype PricedRow = PricedRow(prop: PropRow, impliedOdds: Option<real>)

  /** A row of `threes_over_unders`: one player, the first matchup and line seen for
      that player, and the simulated probabilities once they have been written. */
  datatype PlayerLine = PlayerLine(
    playerName: string,
    defensiveMatchup: Option<string>,
    points: Option<real>,
    pOver: Option<real>,
    pUnder: Option<real>)

  /** A prop row after the left merge with `threes_over_unders`. */
  datatype MergedRow = MergedRow(priced: PricedRow, pOver: Option<real>, pUnder: Option<real>)

  /** A surviving row with `edge`, `ev` and `suggested_kelly` attached. */
  datatype RankedBet = RankedBet(merged: MergedRow, edge: real, ev: real, suggestedKelly: real)

  /** The betting-math helpers, whose formulas are not part of this model: the implied
      probability of a price, and three row functions. Each later one sees the
      columns added before it: `ev` sees `edge`, `suggested_kelly` sees both. */
  datatype BettingMath = BettingMath(
    impliedProbability: int -> real,
    edgeForOverUnder: MergedRow -> real,
    expectedValue: (MergedRow, real) -> real,
    suggestedKelly: (MergedRow, real, real) -> real)

  function MatchupOf(p: PropRow): Option<string> { p.defensiveMatchup }

  function PointsOf(p: PropRow): Option<real> { p.points }

  function EvOf(b: RankedBet): real { b.ev }

  /** The row filter of the pipeline: the prop type is `player_threes`. */
  predicate IsThrees(x: PricedRow) {
    x.prop.propType == Some(PlayerThrees)
  }

  /** A prop row joins a player line when all three merge keys agree. As in a pandas
      merge, a missing key matches a missing key. */
  predicate KeyMatches(x: PricedRow, g: PlayerLine) {
    && x.prop.playerName == Some(g.playerName)
    && x.prop.defensiveMatchup == g.defensiveMatchup
    && x.prop.points == g.points
  }

  /** No cell of the priced prop row is missing. */
  predicate RowComplete(x: PricedRow) {
    && x.prop.playerName.Some?
    && x.prop.propType.Some?
    && x.prop.defensiveMatchup.Some?
    && x.prop.points.Some?
    && x.prop.price.Some?
    && (forall i :: 0 <= i < |x.prop.others| ==> x.prop.others[i].Some?)
    && x.impliedOdds.Some?
  }

  /** No cell of the merged row is missing: what `dropna` keeps. */
  predicate Complete(m: MergedRow) {
    RowComplete(m.priced) && m.pOver.Some? && m.pUnder.Some?
  }

  /** No two lines of the per-player table belong to the same player. */
  ghost predicate UniqueNames(lines: seq<PlayerLine>) {
    forall i, j :: 0 <= i < j < |lines| ==> lines[i].playerName != lines[j].playerName
  }
}
