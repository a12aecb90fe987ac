/**
 `Model.run_model`: load (or fetch) the day's odds, attach implied odds, keep the
 three-pointer props, reduce them to one line per player, simulate each player,
 merge the probabilities back, drop incomplete rows, derive the betting columns
 and rank by expected value.
 */
module Pipeline {
  import opened Wrappers
  import opened Tables
  import opened Props
  import opened Simulation
  import opened Grouping
  import opened Join

  const DefaultBootstrapSamples: int := 100_000
  const DefaultSimulatedGames: int := 200_000

  /** The implied probability of each row's price, attached as one more cell per
      row: no row added, removed or moved. */
  function AddImpliedOdds(odds: seq<PropRow>, impliedProbability: int -> real): (r: seq<PricedRow>)
    ensures |r| == |odds|
    ensures forall i :: 0 <= i < |r| ==> r[i].prop == odds[i]
    ensures forall i :: 0 <= i < |r| ==>
      r[i].impliedOdds == if odds[i].price.Some? then Some(impliedProbability(odds[i].price.value)) else None
  {
    seq(|odds|, i requires 0 <= i < |odds| =>
      PricedRow(odds[i], if odds[i].price.Some? then Some(impliedProbability(odds[i].price.value)) else None))
  }

  /** The `edge`, `ev` and `suggested_kelly` columns, applied row by row: one bet per
      row, same rows, same order. */
  function AddBettingColumns(rows: seq<MergedRow>, math: BettingMath): (r: seq<RankedBet>)
    ensures |r| == |rows|
    ensures forall i :: 0 <= i < |r| ==>
      && r[i].merged == rows[i]
      && r[i].edge == math.edgeForOverUnder(rows[i])
      && r[i].ev == math.expectedValue(rows[i], r[i].edge)
      && r[i].suggestedKelly == math.suggestedKelly(rows[i], r[i].edge, r[i].ev)
  {
    seq(|rows|, i requires 0 <= i < |rows| =>
      var edge := math.edgeForOverUnder(rows[i]);
      var ev := math.expectedValue(rows[i], edge);
      RankedBet(rows[i], edge, ev, math.suggestedKelly(rows[i], edge, ev)))
  }

  /** `threes_props`: the priced feed rows whose prop type is `player_threes`. */
  function ThreesProps(odds: seq<PropRow>, math: BettingMath): (threes: seq<PricedRow>)
    ensures |threes| <= |odds|
    ensures forall x :: x in threes ==> IsThrees(x)
  {
    Select(AddImpliedOdds(odds, math.impliedProbability), IsThrees)
  }

  /** `threes_over_unders` after the simulation loop. */
  function SimulatedLines(threes: seq<PricedRow>, simulate: Simulator, bootstrapSamples: int, nSimulatedGames: int): (lines: seq<PlayerLine>)
    ensures UniqueNames(lines)
    ensures forall n :: (exists i :: 0 <= i < |lines| && lines[i].playerName == n)
                    <==> (exists k :: 0 <= k < |threes| && threes[k].prop.playerName == Some(n))
    ensures forall i :: 0 <= i < |lines| ==>
      && lines[i].defensiveMatchup == FirstOf(threes, lines[i].playerName, MatchupOf)
      && lines[i].points == FirstOf(threes, lines[i].playerName, PointsOf)
  {
    var groups := GroupByPlayer(threes);
    var lines := SimulateAll(groups, simulate, bootstrapSamples, nSimulatedGames);
    assert forall i :: 0 <= i < |lines| ==> lines[i].playerName == groups[i].playerName;
    lines
  }

  /** `threes_props` after the merge and `dropna`. */
  function Survivors(odds: seq<PropRow>, simulate: Simulator, bootstrapSamples: int, nSimulatedGames: int, math: BettingMath): (survivors: seq<MergedRow>)
    ensures forall m :: m in survivors ==> Complete(m) && m.priced in ThreesProps(odds, math)
  {
    var threes := ThreesProps(odds, math);
    DropNa(MergeLeft(threes, SimulatedLines(threes, simulate, bootstrapSamples, nSimulatedGames)))
  }

  /** `threes_props` with the betting columns, before the sort. */
  function Scored(odds: seq<PropRow>, simulate: Simulator, bootstrapSamples: int, nSimulatedGames: int, math: BettingMath): (scored: seq<RankedBet>)
    ensures |scored| == |Survivors(odds, simulate, bootstrapSamples, nSimulatedGames, math)|
    ensures forall b :: b in scored ==> Complete(b.merged) && IsThrees(b.merged.priced)
  {
    AddBettingColumns(Survivors(odds, simulate, bootstrapSamples, nSimulatedGames, math), math)
  }

  /** Only `player_threes` rows of the feed reach grouping, and every one of them does. */
  lemma ThreesPropsAreFeedThrees(odds: seq<PropRow>, math: BettingMath)
    ensures forall x :: x in ThreesProps(odds, math) <==> x in AddImpliedOdds(odds, math.impliedProbability) && IsThrees(x)
    ensures forall x :: x in ThreesProps(odds, math) ==> x.prop in odds && x.prop.propType == Some(PlayerThrees)
  {
    var priced := AddImpliedOdds(odds, math.impliedProbability);
    forall x | x in ThreesProps(odds, math) ensures x.prop in odds {
      var i :| 0 <= i < |priced| && priced[i] == x;
    }
  }

  /** The merge adds no rows and duplicates none: the merged table has exactly one
      row per filtered prop row, in the same order. */
  lemma MergeKeepsEveryPropRow(odds: seq<PropRow>, simulate: Simulator, bootstrapSamples: int, nSimulatedGames: int, math: BettingMath)
    ensures var threes := ThreesProps(odds, math);
      var merged := MergeLeft(threes, SimulatedLines(threes, simulate, bootstrapSamples, nSimulatedGames));
      |merged| == |threes| && forall i :: 0 <= i < |threes| ==> merged[i].priced == threes[i]
  {
    var threes := ThreesProps(odds, math);
    MergeLeftRowForRow(threes, SimulatedLines(threes, simulate, bootstrapSamples, nSimulatedGames));
  }

  /** Every row that survives `dropna` is a complete `player_threes` feed row whose
      matchup and line are the first ones of its player, and whose probabilities are
      the tallies of a successful simulation for exactly that key. */
  lemma {:induction false} SurvivorIsSimulated(odds: seq<PropRow>, simulate: Simulator, bootstrapSamples: int, nSimulatedGames: int, math: BettingMath, m: MergedRow)
    requires m in Survivors(odds, simulate, bootstrapSamples, nSimulatedGames, math)
    ensures m.priced.prop in odds && IsThrees(m.priced) && RowComplete(m.priced)
    ensures var threes := ThreesProps(odds, math);
      var name := m.priced.prop.playerName.value;
      var o := simulate(name, m.priced.prop.defensiveMatchup, bootstrapSamples, nSimulatedGames, SimpleFgaMethod);
      && m.priced.prop.defensiveMatchup == FirstOf(threes, name, MatchupOf)
      && m.priced.prop.points == FirstOf(threes, name, PointsOf)
      && Succeeds(o)
      && m.pOver == Some(POver(o.makes, m.priced.prop.points))
      && m.pUnder == Some(PUnder(o.makes, m.priced.prop.points))
  {
    var threes := ThreesProps(odds, math);
    var groups := GroupByPlayer(threes);
    var lines := SimulatedLines(threes, simulate, bootstrapSamples, nSimulatedGames);
    var merged := MergeLeft(threes, lines);
    assert m in merged && Complete(m);
    ThreesPropsAreFeedThrees(odds, math);
    MergeLeftSound(threes, lines, m);
    var g :| g in lines && KeyMatches(m.priced, g) && m.pOver == g.pOver && m.pUnder == g.pUnder;
    var i :| 0 <= i < |lines| && lines[i] == g;
    assert g == SimulateLine(groups[i], simulate, bootstrapSamples, nSimulatedGames);
    assert groups[i].pOver.None?;
  }

  /** Conversely, a complete `player_threes` row on its player's first matchup and
      line, whose simulation succeeds, survives `dropna` with those tallies. */
  lemma SimulatedRowSurvives(odds: seq<PropRow>, simulate: Simulator, bootstrapSamples: int, nSimulatedGames: int, math: BettingMath, x: PricedRow)
    requires x in ThreesProps(odds, math) && RowComplete(x)
    requires var name := x.prop.playerName.value;
      && x.prop.defensiveMatchup == FirstOf(ThreesProps(odds, math), name, MatchupOf)
      && x.prop.points == FirstOf(ThreesProps(odds, math), name, PointsOf)
      && Succeeds(simulate(name, x.prop.defensiveMatchup, bootstrapSamples, nSimulatedGames, SimpleFgaMethod))
    ensures var o := simulate(x.prop.playerName.value, x.prop.defensiveMatchup, bootstrapSamples, nSimulatedGames, SimpleFgaMethod);
      |o.makes| > 0 &&
      MergedRow(x, Some(POver(o.makes, x.prop.points)), Some(PUnder(o.makes, x.prop.points)))
        in Survivors(odds, simulate, bootstrapSamples, nSimulatedGames, math)
  {
    var threes := ThreesProps(odds, math);
    var name := x.prop.playerName.value;
    var groups := GroupByPlayer(threes);
    var lines := SimulatedLines(threes, simulate, bootstrapSamples, nSimulatedGames);
    var k :| 0 <= k < |threes| && threes[k] == x;
    assert exists i :: 0 <= i < |groups| && groups[i].playerName == name;
    var i :| 0 <= i < |groups| && groups[i].playerName == name;
    var g := lines[i];
    assert g == SimulateLine(groups[i], simulate, bootstrapSamples, nSimulatedGames);
    assert g in lines && KeyMatches(x, g);
    MatchedRowSurvives(threes, lines, x, g);
  }

  /** A player whose simulation raises or sums to zero has no row in the output. */
  lemma SkippedPlayerDropped(odds: seq<PropRow>, simulate: Simulator, bootstrapSamples: int, nSimulatedGames: int, math: BettingMath, name: string)
    requires !Succeeds(simulate(name, FirstOf(ThreesProps(odds, math), name, MatchupOf), bootstrapSamples, nSimulatedGames, SimpleFgaMethod))
    ensures forall m :: m in Survivors(odds, simulate, bootstrapSamples, nSimulatedGames, math) ==> m.priced.prop.playerName != Some(name)
  {
    forall m | m in Survivors(odds, simulate, bootstrapSamples, nSimulatedGames, math)
      ensures m.priced.prop.playerName != Some(name)
    {
      SurvivorIsSimulated(odds, simulate, bootstrapSamples, nSimulatedGames, math, m);
    }
  }

  /** Only a player's first line is priced: a row on any other line is dropped. */
  lemma NonFirstLineDropped(odds: seq<PropRow>, simulate: Simulator, bootstrapSamples: int, nSimulatedGames: int, math: BettingMath, x: PricedRow)
    requires x.prop.playerName.Some?
    requires x.prop.points != FirstOf(ThreesProps(odds, math), x.prop.playerName.value, PointsOf)
    ensures forall m :: m in Survivors(odds, simulate, bootstrapSamples, nSimulatedGames, math) ==> m.priced != x
  {
    forall m | m in Survivors(odds, simulate, bootstrapSamples, nSimulatedGames, math)
      ensures m.priced != x
    {
      SurvivorIsSimulated(odds, simulate, bootstrapSamples, nSimulatedGames, math, m);
    }
  }

  /** The filtered row behind a survivor, whose player succeeds on its first matchup. */
  lemma SurvivorRowSucceeds(odds: seq<PropRow>, simulate: Simulator, bootstrapSamples: int, nSimulatedGames: int, math: BettingMath, m: MergedRow)
    returns (k: int)
    requires m in Survivors(odds, simulate, bootstrapSamples, nSimulatedGames, math)
    ensures var threes := ThreesProps(odds, math);
      && 0 <= k < |threes| && threes[k] == m.priced && threes[k].prop.playerName.Some?
      && Succeeds(simulate(threes[k].prop.playerName.value, FirstOf(threes, threes[k].prop.playerName.value, MatchupOf),
                           bootstrapSamples, nSimulatedGames, SimpleFgaMethod))
  {
    var threes := ThreesProps(odds, math);
    k :| 0 <= k < |threes| && threes[k] == m.priced;
    SurvivorIsSimulated(odds, simulate, bootstrapSamples, nSimulatedGames, math, m);
  }

  /** A run in which none of its own players can be simulated (each fails on its
      first matchup) emits an empty table rather than failing. */
  lemma NoSimulationEmptyTable(odds: seq<PropRow>, simulate: Simulator, bootstrapSamples: int, nSimulatedGames: int, math: BettingMath)
    requires var threes := ThreesProps(odds, math);
      forall k :: 0 <= k < |threes| && threes[k].prop.playerName.Some? ==>
        !Succeeds(simulate(threes[k].prop.playerName.value, FirstOf(threes, threes[k].prop.playerName.value, MatchupOf),
                           bootstrapSamples, nSimulatedGames, SimpleFgaMethod))
    ensures Survivors(odds, simulate, bootstrapSamples, nSimulatedGames, math) == []
    ensures SortDesc(Scored(odds, simulate, bootstrapSamples, nSimulatedGames, math), EvOf) == []
  {
    var survivors := Survivors(odds, simulate, bootstrapSamples, nSimulatedGames, math);
    if survivors != [] {
      var k := SurvivorRowSucceeds(odds, simulate, bootstrapSamples, nSimulatedGames, math, survivors[0]);
    }
    assert |SortDesc(Scored(odds, simulate, bootstrapSamples, nSimulatedGames, math), EvOf)| == 0 by {
      var sorted := SortDesc(Scored(odds, simulate, bootstrapSamples, nSimulatedGames, math), EvOf);
      assert |multiset(sorted)| == |sorted|;
    }
  }

  /** Every emitted bet carries a surviving row, and its probabilities lie in [0, 1]
      with p(over) + p(under) <= 1. */
  lemma RankedBetIsSound(odds: seq<PropRow>, simulate: Simulator, bootstrapSamples: int, nSimulatedGames: int, math: BettingMath, b: RankedBet)
    requires b in SortDesc(Scored(odds, simulate, bootstrapSamples, nSimulatedGames, math), EvOf)
    ensures b.merged in Survivors(odds, simulate, bootstrapSamples, nSimulatedGames, math)
    ensures b.merged.pOver.Some? && b.merged.pUnder.Some?
    ensures 0.0 <= b.merged.pOver.value && 0.0 <= b.merged.pUnder.value
    ensures b.merged.pOver.value + b.merged.pUnder.value <= 1.0
    ensures b.ev == math.expectedValue(b.merged, b.edge)
  {
    var scored := Scored(odds, simulate, bootstrapSamples, nSimulatedGames, math);
    assert b in multiset(SortDesc(scored, EvOf));
    assert b in scored;
    var i :| 0 <= i < |scored| && scored[i] == b;
    var m := b.merged;
    SurvivorIsSimulated(odds, simulate, bootstrapSamples, nSimulatedGames, math, m);
    var o := simulate(m.priced.prop.playerName.value, m.priced.prop.defensiveMatchup, bootstrapSamples, nSimulatedGames, SimpleFgaMethod);
    OverUnderAtMostOne(o.makes, m.priced.prop.points);
  }

  /** `Model`: the odds table it holds, and the day-keyed `player_props` snapshots
      that `save_data` writes and `load_data` reads. */
  class Model {
    const save: bool
    var oddsDf: seq<PropRow>
    var playerPropsSnapshots: map<string, seq<PropRow>>

    constructor (save: bool, snapshots: map<string, seq<PropRow>>)
      ensures this.save == save && oddsDf == [] && playerPropsSnapshots == snapshots
    {
      this.save := save;
      oddsDf := [];
      playerPropsSnapshots := snapshots;
    }

    /** Cache-aside: the day's snapshot when one exists, the live feed otherwise. */
    method LoadData(today: string, feed: seq<PropRow>)
      modifies this`oddsDf
      ensures oddsDf == if today in playerPropsSnapshots then playerPropsSnapshots[today] else feed
    {
      if today !in playerPropsSnapshots {
        oddsDf := feed;
      } else {
        oddsDf := playerPropsSnapshots[today];
      }
    }

    /** Writes (or overwrites) the day's snapshot with the odds table. */
    method SaveData(today: string)
      modifies this`playerPropsSnapshots
      ensures playerPropsSnapshots == old(playerPropsSnapshots)[today := oddsDf]
    {
      playerPropsSnapshots := playerPropsSnapshots[today := oddsDf];
    }

    /** The whole run. The simulator is always asked for the "simple" attempts
        policy, so `fgaMethod` has no effect on the result. */
    method RunModel(today: string, feed: seq<PropRow>, simulate: Simulator, math: BettingMath,
                    bootstrapSamples: int := DefaultBootstrapSamples,
                    nSimulatedGames: int := DefaultSimulatedGames,
                    fgaMethod: string := SimpleFgaMethod)
      returns (ranked: seq<RankedBet>)
      modifies this
      ensures oddsDf == if today in old(playerPropsSnapshots) then old(playerPropsSnapshots)[today] else feed
      ensures playerPropsSnapshots == if save then old(playerPropsSnapshots)[today := oddsDf] else old(playerPropsSnapshots)
      ensures save ==> today in playerPropsSnapshots && playerPropsSnapshots[today] == oddsDf
      ensures multiset(ranked) == multiset(Scored(oddsDf, simulate, bootstrapSamples, nSimulatedGames, math))
      ensures SortedDesc(ranked, EvOf)
    {
      LoadData(today, feed);
      if save {
        SaveData(today);
      }
      var threes := ThreesProps(oddsDf, math);
      var groups := GroupByPlayer(threes);
      var table := new PlayerLine[|groups|](i requires 0 <= i < |groups| => groups[i]);
      assert table[..] == groups;
      SimulateEachPlayer(table, simulate, bootstrapSamples, nSimulatedGames);
      var merged := MergeLeft(threes, table[..]);
      var survivors := DropNa(merged);
      var scored := AddBettingColumns(survivors, math);
      ranked := SortDesc(scored, EvOf);
    }
  }
}
