/**
 Grouping the filtered props by player name: one row per player, carrying the
 first matchup and the first line that player has in the filtered props. As pandas' `first`
 does, each column takes its first value that is not missing, column by column,
 and rows without a player name form no group.
 */
module Grouping {
  import opened Wrappers
  import opened Props

  /** The distinct player names of `rows`, each once. */
  function DistinctNames(rows: seq<PricedRow>): (names: seq<string>)
    ensures forall i, j :: 0 <= i < j < |names| ==> names[i] != names[j]
    ensures forall n :: n in names <==> exists k :: 0 <= k < |rows| && rows[k].prop.playerName == Some(n)
  {
    if rows == [] then []
    else
      var init := rows[..|rows| - 1];
      var names := DistinctNames(init);
      assert forall k :: 0 <= k < |init| ==> init[k] == rows[k];
      match rows[|rows| - 1].prop.playerName
      case None => names
      case Some(n) => if n in names then names else names + [n]
  }

  /** Row `k` holds the first present value of `field` among the rows of player `n`. */
  ghost predicate FirstPresentAt<T>(rows: seq<PricedRow>, n: string, field: PropRow -> Option<T>, k: int) {
    && 0 <= k < |rows|
    && rows[k].prop.playerName == Some(n)
    && field(rows[k].prop).Some?
    && forall j :: 0 <= j < k && rows[j].prop.playerName == Some(n) ==> field(rows[j].prop).None?
  }

  /** The first present value of `field` among the rows of player `n`. */
  function FirstOf<T>(rows: seq<PricedRow>, n: string, field: PropRow -> Option<T>): (r: Option<T>)
    ensures r.Some? ==> exists k :: FirstPresentAt(rows, n, field, k) && field(rows[k].prop) == r
    ensures r.None? ==> forall k :: 0 <= k < |rows| && rows[k].prop.playerName == Some(n) ==> field(rows[k].prop).None?
  {
    if rows == [] then None
    else if rows[0].prop.playerName == Some(n) && field(rows[0].prop).Some? then
      assert FirstPresentAt(rows, n, field, 0);
      field(rows[0].prop)
    else
      var r := FirstOf(rows[1..], n, field);
      assert forall k :: 1 <= k < |rows| ==> rows[k] == rows[1..][k - 1];
      assert r.Some? ==> exists k :: FirstPresentAt(rows, n, field, k) && field(rows[k].prop) == r by {
        if r.Some? {
          var k' :| FirstPresentAt(rows[1..], n, field, k') && field(rows[1..][k'].prop) == r;
          assert FirstPresentAt(rows, n, field, k' + 1);
        }
      }
      r
  }

  /** `threes_over_unders` before the simulation loop: one line per player, with no
      probabilities yet. */
  function GroupByPlayer(rows: seq<PricedRow>): (lines: seq<PlayerLine>)
    ensures UniqueNames(lines)
    ensures forall n :: (exists i :: 0 <= i < |lines| && lines[i].playerName == n)
                    <==> (exists k :: 0 <= k < |rows| && rows[k].prop.playerName == Some(n))
    ensures forall i :: 0 <= i < |lines| ==>
      && lines[i].defensiveMatchup == FirstOf(rows, lines[i].playerName, MatchupOf)
      && lines[i].points == FirstOf(rows, lines[i].playerName, PointsOf)
      && lines[i].pOver.None? && lines[i].pUnder.None?
  {
    var names := DistinctNames(rows);
    var lines := seq(|names|, i requires 0 <= i < |names| =>
      PlayerLine(names[i], FirstOf(rows, names[i], MatchupOf), FirstOf(rows, names[i], PointsOf), None, None));
    assert forall n :: (exists i :: 0 <= i < |lines| && lines[i].playerName == n) <==> n in names by {
      forall n ensures (exists i :: 0 <= i < |lines| && lines[i].playerName == n) <==> n in names {
        if n in names {
          var i :| 0 <= i < |names| && names[i] == n;
          assert lines[i].playerName == n;
        }
      }
    }
    lines
  }
}
