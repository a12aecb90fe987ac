# Three-pointer prop model: the `run_model` pipeline

This project models the record-level logic of `Model.run_model` in `model/__init__.py` of a
sports-betting tool. The tool prices NBA "player threes" props: sportsbook offers on how many
three-pointers a player will make. For one day it:

1. loads the odds feed, from a cached snapshot when one exists;
2. attaches an implied probability to every price;
3. keeps only the `player_threes` rows;
4. reduces them to one line per player: the player's first matchup and first line;
5. runs a Monte Carlo simulator once per player and tallies `p(over)` and `p(under)`;
6. left-merges the probabilities back onto the prop rows and drops every row with a missing cell;
7. adds the `edge`, `ev` and `suggested_kelly` columns;
8. sorts the table by `ev`, largest first.

The simulator (`ThreesModel.run_model`), the odds client and the betting-math helpers are not
part of this model. They are parameters: a `Simulator` function that raises or returns a vector of
simulated makes, and a `BettingMath` record of four row functions whose formulas are not stated.

Modules, leaf first:

- `Wrappers` (wrappers.dfy): `Option`, standing for a cell that may be missing (NaN).
- `Tables` (tables.dfy): row selection and a descending sort.
- `Props` (props.dfy): the row records of each stage and the predicates on them.
- `Simulation` (simulation.dfy): tallying one simulated vector and the per-player loop.
- `Grouping` (grouping.dfy): the group-by-player-taking-first step.
- `Join` (join.dfy): the left merge and `dropna`.
- `Pipeline` (pipeline.dfy): the whole run, the `Model` class with its cache-aside loading, and
  the end-to-end lemmas.

In three places the code does something other than what its purpose suggests. The model
follows the code:

- **Grouping key.** Over and under offers share a (player, matchup, line) key, but the code groups
  by `player_name` alone and takes the first matchup and the first line. Only a player's first
  line is ever priced (`NonFirstLineDropped`).
- **Sort ties.** pandas `sort_values` with its default algorithm is not stable. The model promises
  sortedness and permutation only.
- **Dropping rows.** The comment on `dropna()` says it drops the players that were not simulated.
  It drops any row with any missing cell, and the model does the same.

Pandas details that the model keeps:

- `first` takes each column's first value that is not missing, column by column.
- Rows with a missing player name form no group.
- The merge matches a missing key with a missing key.
- A comparison with a missing line is false, so such a game counts toward neither side.

## Model

| member | source | states |
|---|---|---|
| `Tables.Select` | model/__init__.py:69 | The kept rows are exactly the input rows that satisfy the predicate, each with its original multiplicity. They stay in input order, as `SelectAppend` states. This is the boolean-mask filter, and `dropna` reuses it. |
| `Tables.SelectAppend` | model/__init__.py:69 | Filtering a concatenation is the concatenation of the filtered parts. Together with the one-row case, this keeps the kept rows in input order, which the group-by's "first" relies on. |
| `Pipeline.ThreesProps` | model/__init__.py:67-69 | The filtered table holds only `player_threes` rows and is no longer than the feed. Membership in both directions is stated by `ThreesPropsAreFeedThrees`. |
| `Pipeline.ThreesPropsAreFeedThrees` | model/__init__.py:69 | A row reaches grouping if and only if it is a priced feed row whose prop type is `player_threes`. |
| `Pipeline.AddImpliedOdds` | model/__init__.py:67 | Adds one `implied_odds` cell per feed row without adding, removing or reordering rows. The cell is missing exactly when the price is missing. |
| `Grouping.DistinctNames` | model/__init__.py:71 | Lists each player name present in the filtered rows exactly once, and no other name. |
| `Grouping.FirstOf` | model/__init__.py:71-74 | A present result is the value of the earliest row of that player whose cell is present. A missing result means every row of that player has the cell missing. |
| `Grouping.GroupByPlayer` | model/__init__.py:71-74 | One line per distinct present player name, with no player twice. Each line carries that player's first matchup and first line, and no probabilities yet. |
| `Simulation.SumZeroIffAllZero` | model/__init__.py:93-94 | A simulated vector sums to zero if and only if every simulated game has zero makes. |
| `Simulation.Count` | model/__init__.py:96-97 | The number of games on one side of the line is at most the vector length. It is zero exactly when no game lands on that side. Over means strictly above, under means strictly below, and a missing line puts every game on neither side. |
| `Simulation.CountIsNumberOfGames` | model/__init__.py:96-97 | The count for a side equals the size of the set of indices i with `s[i]` on that side. This matches `sum(simulated_fgms > points)` and `sum(simulated_fgms < points)`. |
| `Simulation.CountsPartition` | model/__init__.py:96-97 | Each simulated game is counted exactly once: above the line, below it, or neither. |
| `Simulation.TiesCountNeither` | model/__init__.py:96-97 | In any vector, a game exactly on the line is in neither the over set nor the under set. So when a tie exists, the over and under counts together fall short of the number of games. |
| `Simulation.POver` | model/__init__.py:96 | `p(over)`, the share of games strictly above the line, lies in [0, 1]. |
| `Simulation.PUnder` | model/__init__.py:97 | `p(under)`, the share of games strictly below the line, lies in [0, 1]. |
| `Simulation.OverUnderAtMostOne` | model/__init__.py:96-97 | `p(over) + p(under)` is one minus the share of ties, so it is at most 1. |
| `Simulation.SimulateLine` | model/__init__.py:77-97 | The loop body for one player. The simulator is called with the "simple" attempts policy. If it raises, or returns a vector with no made three, the line is unchanged. Otherwise the vector is non-empty and the line gets both tallies. The keys never change. |
| `Simulation.SimulateAll` | model/__init__.py:76-97 | After the loop the table has the same players, with the same matchup and line, in the same order. A player whose simulation succeeds has both tallies of its own vector against its own line. Every other player's line is exactly as it was. |
| `Simulation.SimulateEachPlayer` | model/__init__.py:76-97 | The in-place `iterrows` loop over an array. It leaves the array equal to `SimulateAll` of its old contents, and skipped players do not stop the loop. |
| `Join.Matches` | model/__init__.py:99 | The per-player lines that a prop row joins are exactly those whose three merge keys equal its own. |
| `Join.LineFor` | model/__init__.py:99 | Returns a line with the row's exact keys when one exists, and nothing only when no line matches. |
| `Join.MergeLeft` | model/__init__.py:99 | The left merge has at least one row per left row, and every merged row carries a left row. `MergeLeftRowForRow` states exactly one per left row, in order, when the player table has one line per player. `MergeLeftSound` and `MergeLeftHas` state which probabilities each row carries. |
| `Join.DropNa` | model/__init__.py:100 | A merged row is kept if and only if none of its cells is missing, including both probabilities. Multiplicities are those of `Tables.Select`. |
| `Join.MatchesAtMostOne` | model/__init__.py:99 | With one line per player, a prop row matches at most one line. |
| `Join.JoinRowSingle` | model/__init__.py:99 | With one line per player, each left row yields exactly one merged row. |
| `Join.MergeLeftRowForRow` | model/__init__.py:99 | With one line per player, the merge has exactly as many rows as the left table, in the same order. Row i is left row i with the probabilities of its matching line. |
| `Join.MergeLeftSound` | model/__init__.py:99 | Every merged row comes from a left row. If it carries probabilities, they are those of a line with exactly its keys. |
| `Join.MergeLeftHas` | model/__init__.py:99 | A left row and any line with its keys appear joined in the merge. |
| `Join.MatchedRowSurvives` | model/__init__.py:99-100 | A complete left row whose keys match a simulated line survives `dropna` with that line's probabilities. |
| `Pipeline.SimulatedLines` | model/__init__.py:71-97 | After simulation the table has exactly one line per player present in the filtered props, with no player twice. Each line keeps that player's first matchup and first line. |
| `Pipeline.Survivors` | model/__init__.py:99-100 | Every row left after the merge and `dropna` is complete and comes from the filtered props. Its exact characterisation is given by `SurvivorIsSimulated` and its converse `SimulatedRowSurvives`. |
| `Pipeline.Scored` | model/__init__.py:102-104 | The scored table has one bet per survivor, and each bet is a complete `player_threes` row. The column values are stated by `AddBettingColumns`. |
| `Pipeline.MergeKeepsEveryPropRow` | model/__init__.py:99 | The merged table has exactly one row per filtered prop row, in order. The join adds and duplicates nothing. |
| `Pipeline.SurvivorIsSimulated` | model/__init__.py:69-100 | Every row that survives `dropna` is a complete `player_threes` feed row on its player's first matchup and first line. That exact key was simulated successfully, and the row carries that simulation's `p(over)` and `p(under)`. |
| `Pipeline.SimulatedRowSurvives` | model/__init__.py:69-100 | The converse of `SurvivorIsSimulated`. A complete `player_threes` row on its player's first matchup and line, whose simulation succeeds, survives with those tallies. |
| `Pipeline.SkippedPlayerDropped` | model/__init__.py:80-100 | A player whose simulation raises or sums to zero has no row in the output. |
| `Pipeline.NonFirstLineDropped` | model/__init__.py:71-100 | A prop row on any line other than its player's first line is not in the output. |
| `Pipeline.AddBettingColumns` | model/__init__.py:102-104 | Adds one edge, EV and Kelly value per row, computed by the helpers in that order, with the same rows in the same order. |
| `Pipeline.NoSimulationEmptyTable` | model/__init__.py:76-105 | When every player of this run fails on its first matchup (the simulator raises or returns no made three), nothing survives `dropna` and the ranked table is empty. The run does not fail. |
| `Pipeline.RankedBetIsSound` | model/__init__.py:96-105 | Every emitted bet is a survivor. It has both probabilities, each at least 0 and together at most 1, and its `ev` is the helper's value for that row and edge. |
| `Tables.SortDesc` | model/__init__.py:105 | The result is a permutation of the input with the key non-increasing. |
| `Pipeline.Model.constructor` | model/__init__.py:18-23 | A new model holds an empty odds table and the `save` flag. |
| `Pipeline.Model.LoadData` | model/__init__.py:25-33 | The odds table becomes the day's snapshot when one exists, and the live feed otherwise. |
| `Pipeline.Model.SaveData` | model/__init__.py:35-47 | The day's snapshot is written, or overwritten, with the odds table. Other days are untouched. |
| `Pipeline.Model.RunModel` | model/__init__.py:52-107 | Loads the odds, and saves them when `save` is set, so the snapshot then equals the loaded table. The returned table is a permutation of the scored survivors, sorted by `ev` descending. It does not depend on `fgaMethod`. |

## Left out

- The file system. Directory creation, CSV reading and writing, and the date-stamped paths are
  not modelled. The `player_props` snapshots are a map from date to table held by the model
  object, and a CSV round trip is taken to return the table unchanged.
- The final `to_csv` of the ranked table. `RunModel` returns the table instead.
- The odds API client and its key. Its feed is a parameter of `LoadData` and `RunModel`.
- The internals of `ThreesModel.run_model`: bootstrap and binomial simulation, randomness, and the
  historical data source. It is the `Simulator` parameter. The model treats it as a pure function,
  so the order of the calls has no effect.
- The formulas of `calc_implied_probability`, `calc_edge_for_over_under`, `calc_expected_value` and
  `calc_suggested_kelly`. Their source is not part of this model, so they are opaque functions in
  `BettingMath`. For a missing price, the implied odds are taken to be missing rather than an error.
- Pipeline.AddImpliedOdds: the source writes `implied_odds` onto the `odds_df` field, and the
  filter then reads it from there. The model passes the priced table through a local instead, with
  the same rows. So `oddsDf` keeps the loaded rows, and the extra column that `odds_df` still holds
  after the run is not modelled.
- The row order of `threes_over_unders`. pandas sorts the groups by player name, while the model
  keeps them in order of first appearance. With a pure simulator this changes nothing in the output.
- Tables.SortDesc: promises only sortedness and permutation. pandas' default sort is not stable,
  so the order of equal `ev` values is unspecified.
- pandas column mechanics. If no player is simulated, the `p(over)` column is never created and
  the later row-wise helpers would see rows with no probabilities at all. The model instead treats an absent probability as
  missing, so such rows are dropped and the result is empty.
- `compress_lines`, which does nothing, and `game_logs_df`, which is never used.
- Logging.
- Floating point. Counts are naturals and probabilities are Dafny `real`.
