/**
 The left merge of the filtered props with the per-player table on player name,
 matchup and line, followed by dropping every row with a missing cell.
 */
module Join {
  import opened Wrappers
  import opened Tables
  import opened Props

  /** The lines of the per-player table whose merge keys agree with `x`, in table order. */
  function Matches(x: PricedRow, lines: seq<PlayerLine>): (ms: seq<PlayerLine>)
    ensures forall g :: g in ms <==> g in lines && KeyMatches(x, g)
    ensures ms != [] ==> ms[0] in lines && KeyMatches(x, ms[0])
  {
    if lines == [] then []
    else (if KeyMatches(x, lines[0]) then [lines[0]] else []) + Matches(x, lines[1..])
  }

  /** The merged rows that one left row produces: one per matching line, or a single
      row with missing probabilities when nothing matches. */
  function JoinRow(x: PricedRow, lines: seq<PlayerLine>): seq<MergedRow> {
    var ms := Matches(x, lines);
    if ms == [] then [MergedRow(x, None, None)]
    else seq(|ms|, i requires 0 <= i < |ms| => MergedRow(x, ms[i].pOver, ms[i].pUnder))
  }

  /** The left merge, in the order of the left table. */
  function MergeLeft(left: seq<PricedRow>, lines: seq<PlayerLine>): (r: seq<MergedRow>)
    ensures |r| >= |left|
    ensures forall m :: m in r ==> m.priced in left
  {
    if left == [] then [] else JoinRow(left[0], lines) + MergeLeft(left[1..], lines)
  }

  /** `dropna()`: the merged rows with no missing cell. */
  function DropNa(rows: seq<MergedRow>): (r: seq<MergedRow>)
    ensures forall m :: m in r <==> m in rows && Complete(m)
  {
    Select(rows, Complete)
  }

  /** The line a prop row joins, when the per-player table has one for its keys. */
  function LineFor(x: PricedRow, lines: seq<PlayerLine>): (r: Option<PlayerLine>)
    ensures r.Some? ==> r.value in lines && KeyMatches(x, r.value)
    ensures r.None? ==> forall g :: g in lines ==> !KeyMatches(x, g)
  {
    var ms := Matches(x, lines);
    if ms == [] then None else assert ms[0] in ms; Some(ms[0])
  }

  /** The row `x` becomes in the merge when its player has one line. */
  function Annotate(x: PricedRow, lines: seq<PlayerLine>): MergedRow {
    match LineFor(x, lines)
    case Some(g) => MergedRow(x, g.pOver, g.pUnder)
    case None => MergedRow(x, None, None)
  }

  /** With one line per player, a prop row matches at most one line. */
  lemma {:induction false} MatchesAtMostOne(x: PricedRow, lines: seq<PlayerLine>)
    requires UniqueNames(lines)
    ensures |Matches(x, lines)| <= 1
  {
    if lines != [] {
      var rest := lines[1..];
      assert UniqueNames(rest) by {
        forall i, j | 0 <= i < j < |rest| ensures rest[i].playerName != rest[j].playerName {
          assert rest[i] == lines[i + 1] && rest[j] == lines[j + 1];
        }
      }
      MatchesAtMostOne(x, rest);
      if KeyMatches(x, lines[0]) {
        forall g | g in rest ensures !KeyMatches(x, g) {
          var j :| 0 <= j < |rest| && rest[j] == g;
          assert lines[j + 1] == g;
        }
      }
    }
  }

  /** With one line per player, a prop row yields exactly one merged row. */
  lemma JoinRowSingle(x: PricedRow, lines: seq<PlayerLine>)
    requires UniqueNames(lines)
    ensures JoinRow(x, lines) == [Annotate(x, lines)]
  {
    MatchesAtMostOne(x, lines);
  }

  /** The merge adds no rows and duplicates none: with one line per player, the
      merged table is the left table row for row, each row carrying the
      probabilities of the line it joins. */
  lemma {:induction false} MergeLeftRowForRow(left: seq<PricedRow>, lines: seq<PlayerLine>)
    requires UniqueNames(lines)
    ensures |MergeLeft(left, lines)| == |left|
    ensures forall i :: 0 <= i < |left| ==> MergeLeft(left, lines)[i] == Annotate(left[i], lines)
  {
    if left != [] {
      JoinRowSingle(left[0], lines);
      var rest := MergeLeft(left[1..], lines);
      MergeLeftRowForRow(left[1..], lines);
      assert MergeLeft(left, lines) == [Annotate(left[0], lines)] + rest;
      forall i | 1 <= i < |left| ensures MergeLeft(left, lines)[i] == Annotate(left[i], lines) {
        assert left[i] == left[1..][i - 1];
        assert MergeLeft(left, lines)[i] == rest[i - 1];
      }
    }
  }

  /** Every merged row comes from a left row; when it carries a probability, it
      carries those of a line whose keys are exactly its own. */
  lemma {:induction false} MergeLeftSound(left: seq<PricedRow>, lines: seq<PlayerLine>, m: MergedRow)
    requires m in MergeLeft(left, lines)
    ensures m.priced in left
    ensures m.pOver.Some? || m.pUnder.Some? ==>
      exists g :: g in lines && KeyMatches(m.priced, g) && m.pOver == g.pOver && m.pUnder == g.pUnder
  {
    if m in JoinRow(left[0], lines) {
      var ms := Matches(left[0], lines);
      if ms != [] {
        var i :| 0 <= i < |ms| && JoinRow(left[0], lines)[i] == m;
        assert ms[i] in ms;
      }
    } else {
      MergeLeftSound(left[1..], lines, m);
    }
  }

  /** A complete left row whose keys match a simulated line reaches the output of
      `dropna`, carrying that line's probabilities. */
  lemma {:induction false} MatchedRowSurvives(left: seq<PricedRow>, lines: seq<PlayerLine>, x: PricedRow, g: PlayerLine)
    requires x in left && RowComplete(x)
    requires g in lines && KeyMatches(x, g) && g.pOver.Some? && g.pUnder.Some?
    ensures MergedRow(x, g.pOver, g.pUnder) in DropNa(MergeLeft(left, lines))
  {
    MergeLeftHas(left, lines, x, g);
  }

  lemma {:induction false} MergeLeftHas(left: seq<PricedRow>, lines: seq<PlayerLine>, x: PricedRow, g: PlayerLine)
    requires x in left && g in lines && KeyMatches(x, g)
    ensures MergedRow(x, g.pOver, g.pUnder) in MergeLeft(left, lines)
  {
    if x == left[0] {
      var ms := Matches(x, lines);
      assert g in ms;
      var i :| 0 <= i < |ms| && ms[i] == g;
      assert JoinRow(x, lines)[i] == MergedRow(x, g.pOver, g.pUnder);
    } else {
      MergeLeftHas(left[1..], lines, x, g);
    }
  }
}
