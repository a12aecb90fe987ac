/**
 The per-player step of `Model.run_model`: call the outcome simulator for one
 row of `threes_over_unders`, skip the player when the simulator raises or returns
 an all-zero vector, and otherwise write the share of simulated games strictly
 above and strictly below the line.
 */
module Simulation {
  import opened Wrappers
  import opened Props

  /** What `ThreesModel.run_model` gives back: it raised, or a vector of simulated makes. */
  datatype SimOutcome = Raised | Simulated(makes: seq<nat>)

  /** `ThreesModel.run_model(player_name, defensive_matchup, bootstrap_samples,
      n_simulated_games, fga_method)`; its internals are not part of this model. */
  type Simulator = (string, Option<string>, int, int, string) -> SimOutcome

  /** The attempts policy the pipeline always asks for, whatever it was given. */
  const SimpleFgaMethod: string := "simple"

  function Sum(s: seq<nat>): nat {
    if s == [] then 0 else s[0] + Sum(s[1..])
  }

  /** A vector sums to zero exactly when every simulated game made no three. */
  lemma {:induction false} SumZeroIffAllZero(s: seq<nat>)
    ensures Sum(s) == 0 <==> forall i :: 0 <= i < |s| ==> s[i] == 0
  {
    if s != [] {
      SumZeroIffAllZero(s[1..]);
      assert forall i :: 1 <= i < |s| ==> s[i] == s[1..][i - 1];
    }
  }

  /** Where one simulated game lands against the line. */
  datatype Side = Over | Under | Push

  /** Strictly above the line is over, strictly below is under; a game on the line,
      or any game when the line is missing (a comparison with NaN is false), is
      neither. */
  function SideOf(v: nat, line: Option<real>): Side {
    if line.Some? && v as real > line.value then Over
    else if line.Some? && (v as real) < line.value then Under
    else Push
  }

  /** `sum(simulated_fgms > points)` for `Over`, `sum(simulated_fgms < points)` for `Under`. */
  function Count(s: seq<nat>, line: Option<real>, side: Side): (k: nat)
    ensures k <= |s|
    ensures k == 0 <==> forall i :: 0 <= i < |s| ==> SideOf(s[i], line) != side
  {
    if s == [] then 0
    else
      var init := s[..|s| - 1];
      assert forall i :: 0 <= i < |init| ==> init[i] == s[i];
      Count(init, line, side) + (if SideOf(s[|s| - 1], line) == side then 1 else 0)
  }

  /** The indices of the games that land on `side`. */
  ghost function IndicesOn(s: seq<nat>, line: Option<real>, side: Side): set<int> {
    set i | 0 <= i < |s| && SideOf(s[i], line) == side
  }

  /** The count is the number of simulated games landing on that side. */
  lemma {:induction false} CountIsNumberOfGames(s: seq<nat>, line: Option<real>, side: Side)
    ensures Count(s, line, side) == |IndicesOn(s, line, side)|
  {
    if s != [] {
      var init := s[..|s| - 1];
      var last := |s| - 1;
      CountIsNumberOfGames(init, line, side);
      var before, after := IndicesOn(init, line, side), IndicesOn(s, line, side);
      var lastOn := if SideOf(s[last], line) == side then {last} else {};
      forall i | i in after ensures i in before + lastOn {
        if i < last { assert init[i] == s[i]; }
      }
      forall i | i in before + lastOn ensures i in after {
        if i < last { assert init[i] == s[i]; }
      }
      assert after == before + lastOn;
      assert last !in before;
    }
  }

  /** Every simulated game counts toward exactly one of over, under, or neither. */
  lemma {:induction false} CountsPartition(s: seq<nat>, line: Option<real>)
    ensures Count(s, line, Over) + Count(s, line, Under) + Count(s, line, Push) == |s|
  {
    if s != [] {
      CountsPartition(s[..|s| - 1], line);
    }
  }

  /** A game exactly on the line counts toward neither side, whatever the other
      games are; so a vector with a tie has fewer over and under games than games. */
  lemma TiesCountNeither(s: seq<nat>, line: real, i: int)
    requires 0 <= i < |s| && s[i] as real == line
    ensures i !in IndicesOn(s, Some(line), Over) && i !in IndicesOn(s, Some(line), Under)
    ensures Count(s, Some(line), Over) + Count(s, Some(line), Under) < |s|
  {
    assert i in IndicesOn(s, Some(line), Push);
    CountIsNumberOfGames(s, Some(line), Push);
    CountsPartition(s, Some(line));
  }

  /** `p(over)`: the share of simulated games strictly above the line. */
  function POver(s: seq<nat>, line: Option<real>): (p: real)
    requires |s| > 0
    ensures 0.0 <= p <= 1.0
  {
    Count(s, line, Over) as real / |s| as real
  }

  /** `p(under)`: the share of simulated games strictly below the line. */
  function PUnder(s: seq<nat>, line: Option<real>): (p: real)
    requires |s| > 0
    ensures 0.0 <= p <= 1.0
  {
    Count(s, line, Under) as real / |s| as real
  }

  /** Ties are excluded from both sides, so the two probabilities never exceed one
      together; the shortfall is exactly the share of ties. */
  lemma OverUnderAtMostOne(s: seq<nat>, line: Option<real>)
    requires |s| > 0
    ensures POver(s, line) + PUnder(s, line) == 1.0 - Count(s, line, Push) as real / |s| as real
    ensures POver(s, line) + PUnder(s, line) <= 1.0
  {
    CountsPartition(s, line);
    SharesOfWhole(Count(s, line, Over) as real, Count(s, line, Under) as real, Count(s, line, Push) as real, |s| as real);
  }

  lemma SharesOfWhole(a: real, b: real, c: real, n: real)
    requires n > 0.0 && c >= 0.0 && a + b + c == n
    ensures a / n + b / n == 1.0 - c / n
    ensures a / n + b / n <= 1.0
  {
    assert a / n + b / n == (a + b) / n;
    assert (a + b) / n == (n - c) / n;
    assert (n - c) / n == n / n - c / n;
    assert n / n == 1.0;
    assert c / n >= 0.0;
  }

  /** The simulator produced a vector with at least one made three. */
  predicate Succeeds(o: SimOutcome) {
    o.Simulated? && exists i :: 0 <= i < |o.makes| && o.makes[i] > 0
  }

  /** The call the loop makes for one player line. */
  function Outcome(g: PlayerLine, simulate: Simulator, bootstrapSamples: int, nSimulatedGames: int): SimOutcome {
    simulate(g.playerName, g.defensiveMatchup, bootstrapSamples, nSimulatedGames, SimpleFgaMethod)
  }

  /** One turn of the per-player loop: the line after the loop has visited it. */
  function SimulateLine(g: PlayerLine, simulate: Simulator, bootstrapSamples: int, nSimulatedGames: int): (r: PlayerLine)
    ensures r.playerName == g.playerName && r.defensiveMatchup == g.defensiveMatchup && r.points == g.points
    ensures var o := Outcome(g, simulate, bootstrapSamples, nSimulatedGames);
      if Succeeds(o) then
        |o.makes| > 0 && r.pOver == Some(POver(o.makes, g.points)) && r.pUnder == Some(PUnder(o.makes, g.points))
      else
        r == g
  {
    match Outcome(g, simulate, bootstrapSamples, nSimulatedGames)
    case Raised => g
    case Simulated(makes) =>
      SumZeroIffAllZero(makes);
      if Sum(makes) == 0 then g
      else g.(pOver := Some(POver(makes, g.points)), pUnder := Some(PUnder(makes, g.points)))
  }

  /** The per-player table once the loop has visited every line: the same players
      with the same keys, in the same order; a player whose simulation succeeds gets
      both tallies of its vector against its own line, any other is left as it was. */
  function SimulateAll(lines: seq<PlayerLine>, simulate: Simulator, bootstrapSamples: int, nSimulatedGames: int): (r: seq<PlayerLine>)
    ensures |r| == |lines|
    ensures forall i :: 0 <= i < |r| ==>
      r[i].playerName == lines[i].playerName && r[i].defensiveMatchup == lines[i].defensiveMatchup && r[i].points == lines[i].points
    ensures forall i :: 0 <= i < |r| ==>
      var o := Outcome(lines[i], simulate, bootstrapSamples, nSimulatedGames);
      if Succeeds(o) then
        |o.makes| > 0 && r[i].pOver == Some(POver(o.makes, lines[i].points)) && r[i].pUnder == Some(PUnder(o.makes, lines[i].points))
      else
        r[i] == lines[i]
  {
    seq(|lines|, i requires 0 <= i < |lines| => SimulateLine(lines[i], simulate, bootstrapSamples, nSimulatedGames))
  }

  /** The `for idx, row in threes_over_unders.iterrows()` loop: probabilities are
      written into the table in place; a player whose simulation raises or sums to
      zero is left as it was and the loop goes on. */
  method SimulateEachPlayer(table: array<PlayerLine>, simulate: Simulator, bootstrapSamples: int, nSimulatedGames: int)
    modifies table
    ensures table[..] == SimulateAll(old(table[..]), simulate, bootstrapSamples, nSimulatedGames)
  {
    for idx := 0 to table.Length
      invariant forall i :: 0 <= i < idx ==> table[i] == SimulateLine(old(table[i]), simulate, bootstrapSamples, nSimulatedGames)
      invariant forall i :: idx <= i < table.Length ==> table[i] == old(table[i])
    {
      var row := table[idx];
      var simulated := simulate(row.playerName, row.defensiveMatchup, bootstrapSamples, nSimulatedGames, SimpleFgaMethod);
      if simulated.Raised? {
        continue;
      }
      var makes := simulated.makes;
      if Sum(makes) == 0 {
        continue;
      }
      table[idx] := row.(pOver := Some(POver(makes, row.points)), pUnder := Some(PUnder(makes, row.points)));
    }
  }
}
