/**
 * The pair scan of the background's frame: every unordered pair of
 * entities i < j is examined once, row by row, and the pairs that a
 * relation selects are collected in loop order.  Generic in the entity
 * type, so that the reasoning about the scan is free of real arithmetic.
 */
module Pairs {

  /** Row i of the nested loops up to (not including) column j: the selected pairs (i, k), i < k < j. */
  function Row<T>(ns: seq<T>, close: (T, T) -> bool, i: nat, j: nat): seq<(nat, nat)>
    requires j <= |ns|
    decreases j
  {
    if j <= i + 1 then []
    else Row(ns, close, i, j - 1) + (if close(ns[i], ns[j - 1]) then [(i, j - 1)] else [])
  }

  /** The first i rows of the nested loops. */
  function Rows<T>(ns: seq<T>, close: (T, T) -> bool, i: nat): seq<(nat, nat)>
    requires i <= |ns|
  {
    if i == 0 then [] else Rows(ns, close, i - 1) + Row(ns, close, i - 1, |ns|)
  }

  /** The order in which the nested loops visit pairs. */
  predicate Before(p: (nat, nat), q: (nat, nat)) {
    p.0 < q.0 || (p.0 == q.0 && p.1 < q.1)
  }

  predicate InLoopOrder(s: seq<(nat, nat)>) {
    forall a, b :: 0 <= a < b < |s| ==> Before(s[a], s[b])
  }

  lemma {:induction false} RowShape<T>(ns: seq<T>, close: (T, T) -> bool, i: nat, j: nat)
    requires j <= |ns|
    ensures forall p :: p in Row(ns, close, i, j) <==> p.0 == i && i < p.1 < j && close(ns[i], ns[p.1])
    ensures InLoopOrder(Row(ns, close, i, j))
    decreases j
  {
    if j > i + 1 {
      RowShape(ns, close, i, j - 1);
    }
  }

  /** The first i rows hold exactly the selected pairs whose first index is below i, each once, in loop order. */
  lemma {:induction false} RowsShape<T>(ns: seq<T>, close: (T, T) -> bool, i: nat)
    requires i <= |ns|
    ensures forall p :: p in Rows(ns, close, i) <==> p.0 < i && p.0 < p.1 < |ns| && close(ns[p.0], ns[p.1])
    ensures InLoopOrder(Rows(ns, close, i))
  {
    if i > 0 {
      RowsShape(ns, close, i - 1);
      RowShape(ns, close, i - 1, |ns|);
      var before, row := Rows(ns, close, i - 1), Row(ns, close, i - 1, |ns|);
      assert Rows(ns, close, i) == before + row;
      forall a, b | 0 <= a < b < |before + row|
        ensures Before((before + row)[a], (before + row)[b])
      {
        if b >= |before| && a < |before| {
          assert before[a] in before;
          assert row[b - |before|] in row;
        }
      }
    }
  }

  /** A sequence in loop order lists no pair twice. */
  lemma InLoopOrderDistinct(s: seq<(nat, nat)>)
    requires InLoopOrder(s)
    ensures forall a, b :: 0 <= a < b < |s| ==> s[a] != s[b]
  {
  }

  /** The nested loops over entity pairs: i over all entities, j over the later ones. */
  method ScanPairs<T>(ns: seq<T>, close: (T, T) -> bool) returns (lines: seq<(nat, nat)>)
    ensures lines == Rows(ns, close, |ns|)
  {
    lines := [];
    var i: nat := 0;
    while i < |ns|
      invariant i <= |ns|
      invariant lines == Rows(ns, close, i)
    {
      var j: nat := i + 1;
      while j < |ns|
        invariant i + 1 <= j <= |ns|
        invariant lines == Rows(ns, close, i) + Row(ns, close, i, j)
      {
        if close(ns[i], ns[j]) {
          lines := lines + [(i, j)];
        }
        j := j + 1;
      }
      i := i + 1;
    }
  }
}
