/**
 Whole-table operations that the pipeline uses more than once: keeping the rows
 that satisfy a predicate (a boolean-mask `loc`, or `dropna`), and sorting by a
 numeric column in descending order (`sort_values(..., ascending=False)`).
 */
module Tables {

  /** The rows of `s` for which `keep` holds, each as often as it occurs in `s`. */
  function Select<T(!new)>(s: seq<T>, keep: T -> bool): (r: seq<T>)
    ensures |r| <= |s|
    ensures forall x :: multiset(r)[x] == if keep(x) then multiset(s)[x] else 0
    ensures forall x :: x in r <==> x in s && keep(x)
  {
    if s == [] then []
    else
      assert s == [s[0]] + s[1..];
      (if keep(s[0]) then [s[0]] else []) + Select(s[1..], keep)
  }

  /** One step of `Select`: the first row, if kept, followed by the selection of the rest. */
  lemma SelectCons<T(!new)>(s: seq<T>, keep: T -> bool)
    requires s != []
    ensures Select(s, keep) == (if keep(s[0]) then [s[0]] else []) + Select(s[1..], keep)
  {
  }

  /** Selection distributes over concatenation; with the one-row case
      (`Select([x], keep)` is `[x]` or `[]`) this fixes the kept rows in input order. */
  lemma {:induction false} SelectAppend<T(!new)>(a: seq<T>, b: seq<T>, keep: T -> bool)
    ensures Select(a + b, keep) == Select(a, keep) + Select(b, keep)
  {
    if a == [] {
      assert a + b == b;
    } else {
      var head := if keep(a[0]) then [a[0]] else [];
      var rest := a[1..];
      assert a + b == [a[0]] + (rest + b);
      calc {
        Select(a + b, keep);
        { SelectCons(a + b, keep); }
        head + Select(rest + b, keep);
        { SelectAppend(rest, b, keep); }
        head + (Select(rest, keep) + Select(b, keep));
        (head + Select(rest, keep)) + Select(b, keep);
        { SelectCons(a, keep); }
        Select(a, keep) + Select(b, keep);
      }
    }
  }

  /** `s` is ordered by `key`, largest first. */
  ghost predicate SortedDesc<T>(s: seq<T>, key: T -> real) {
    forall i, j :: 0 <= i < j < |s| ==> key(s[i]) >= key(s[j])
  }

  /** A row that bounds every row of `t` and `x` bounds every row built from them. */
  lemma BoundsAll<T>(h: T, t: seq<T>, x: T, rest: seq<T>, key: T -> real)
    requires forall k :: 0 <= k < |t| ==> key(h) >= key(t[k])
    requires key(h) >= key(x)
    requires forall y :: y in rest ==> y == x || y in t
    ensures forall k :: 0 <= k < |rest| ==> key(h) >= key(rest[k])
  {
    forall k | 0 <= k < |rest| ensures key(h) >= key(rest[k]) {
      assert rest[k] in rest;
      if rest[k] != x {
        var j :| 0 <= j < |t| && t[j] == rest[k];
      }
    }
  }

  /** Prefixing a descending sequence with a row that bounds all of it keeps it descending. */
  lemma ConsSorted<T>(h: T, rest: seq<T>, key: T -> real)
    requires SortedDesc(rest, key)
    requires forall k :: 0 <= k < |rest| ==> key(h) >= key(rest[k])
    ensures SortedDesc([h] + rest, key)
  {
    var r := [h] + rest;
    forall i, j | 0 <= i < j < |r| ensures key(r[i]) >= key(r[j]) {
      assert r[j] == rest[j - 1];
      if i > 0 { assert r[i] == rest[i - 1]; }
    }
  }

  /** Places `x` into the descending sequence `s`. */
  function Insert<T(!new)>(x: T, s: seq<T>, key: T -> real): (r: seq<T>)
    requires SortedDesc(s, key)
    ensures SortedDesc(r, key)
    ensures multiset(r) == multiset(s) + multiset{x}
    ensures |r| == |s| + 1
    ensures forall y :: y in r ==> y == x || y in s
  {
    if s == [] || key(x) >= key(s[0]) then
      [x] + s
    else
      assert s == [s[0]] + s[1..];
      var t := s[1..];
      assert forall k :: 0 <= k < |t| ==> key(s[0]) >= key(t[k]) by {
        forall k | 0 <= k < |t| ensures key(s[0]) >= key(t[k]) {
          assert t[k] == s[k + 1];
        }
      }
      var rest := Insert(x, t, key);
      BoundsAll(s[0], t, x, rest, key);
      ConsSorted(s[0], rest, key);
      [s[0]] + rest
  }

  /** The rows of `s` reordered by `key`, largest first. Ties are in no promised order. */
  function SortDesc<T(!new)>(s: seq<T>, key: T -> real): (r: seq<T>)
    ensures SortedDesc(r, key)
    ensures multiset(r) == multiset(s)
  {
    if s == [] then []
    else
      assert s == [s[0]] + s[1..];
      Insert(s[0], SortDesc(s[1..], key), key)
  }
}
