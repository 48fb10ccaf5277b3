/**
 * The static proximity graph of the node network: the index pairs that the
 * exhaustive `i < j` double loop of `createConnections` links, in the order
 * it finds them, and what is proved about that list (sound and complete,
 * strictly ordered, no pair twice, at most n(n-1)/2 entries).
 */
module Proximity {
  import opened Common

  /** An ordered pair of node indices (first index, second index). */
  type Pair = (nat, nat)

  /** Squared Euclidean distance between two points. */
  function SqDist(a: Vec3, b: Vec3): (d: real)
    ensures 0.0 <= d
  {
    var dx, dy, dz := a.x - b.x, a.y - b.y, a.z - b.z;
    assert 0.0 <= dx * dx && 0.0 <= dy * dy && 0.0 <= dz * dz by {
      SquareNonNegative(dx);
      SquareNonNegative(dy);
      SquareNonNegative(dz);
    }
    dx * dx + dy * dy + dz * dz
  }

  lemma SquareNonNegative(v: real)
    ensures 0.0 <= v * v
  {
    if v < 0.0 {
      assert v * v == (-v) * (-v);
    }
  }

  /**
   * Two points are linked when their distance is below 3; since a distance
   * is never negative this is the same as a squared distance below 9.
   */
  predicate Near(a: Vec3, b: Vec3)
  {
    SqDist(a, b) < 9.0
  }

  /**
   * The pairs the double loop over the points `p` still pushes when it
   * stands at outer index `i` and inner index `j`: first the rest of row
   * `i`, then every later row.
   */
  function PairsFrom(p: seq<Vec3>, i: nat, j: nat): seq<Pair>
    decreases |p| - i, |p| - j
  {
    if |p| <= i then []
    else if |p| <= j then PairsFrom(p, i + 1, i + 2)
    else (if Near(p[i], p[j]) then [(i, j)] else []) + PairsFrom(p, i, j + 1)
  }

  /**
   * One test of the loop: with `found` pushed so far, testing `(i, j)`
   * pushes the pair when it is linked, and what remains starts at `j + 1`.
   */
  lemma PairsFromStep(p: seq<Vec3>, i: nat, j: nat, found: seq<Pair>, pairs: seq<Pair>)
    requires i < j < |p|
    requires found + PairsFrom(p, i, j) == pairs
    ensures (if Near(p[i], p[j]) then found + [(i, j)] else found) + PairsFrom(p, i, j + 1) == pairs
  {
    var rest := PairsFrom(p, i, j + 1);
    if Near(p[i], p[j]) {
      assert PairsFrom(p, i, j) == [(i, j)] + rest;
      assert found + ([(i, j)] + rest) == (found + [(i, j)]) + rest;
    } else {
      assert PairsFrom(p, i, j) == rest;
    }
  }

  /** All pairs the double loop pushes, starting from `i = 0, j = 1`. */
  function ProximityPairs(p: seq<Vec3>): seq<Pair>
  {
    PairsFrom(p, 0, 1)
  }

  /** The number of distance tests the double loop still makes from `(i, j)`. */
  function Comparisons(n: nat, i: nat, j: nat): nat
    decreases n - i, n - j
  {
    if n <= i then 0
    else if n <= j then Comparisons(n, i + 1, i + 2)
    else 1 + Comparisons(n, i, j + 1)
  }

  predicate LexLess(u: Pair, v: Pair)
  {
    u.0 < v.0 || (u.0 == v.0 && u.1 < v.1)
  }

  /** Strictly increasing in lexicographic (first, second) order. */
  predicate StrictlyOrdered(s: seq<Pair>)
  {
    forall k, l :: 0 <= k < l < |s| ==> LexLess(s[k], s[l])
  }

  /**
   * The pair `(a, b)` is a near pair that the loop reaches at or after
   * position `(i, j)`.
   */
  predicate Upcoming(p: seq<Vec3>, i: nat, j: nat, a: nat, b: nat)
  {
    a < b < |p| && Near(p[a], p[b]) && (i < a || (a == i && j <= b))
  }

  /** Exactly the near pairs at or after position `(i, j)` of the loop are still to come. */
  lemma {:induction false} PairsFromMembers(p: seq<Vec3>, i: nat, j: nat, a: nat, b: nat)
    requires i < j
    ensures (a, b) in PairsFrom(p, i, j) <==> Upcoming(p, i, j, a, b)
    decreases |p| - i, |p| - j, 1
  {
    if |p| <= i {
      assert PairsFrom(p, i, j) == [];
    } else if |p| <= j {
      MembersNextRow(p, i, j, a, b);
    } else {
      MembersNextColumn(p, i, j, a, b);
    }
  }

  /** At the end of row `i`, what is still to come is what row `i + 1` onwards pushes. */
  lemma {:induction false} MembersNextRow(p: seq<Vec3>, i: nat, j: nat, a: nat, b: nat)
    requires i < |p| <= j
    ensures (a, b) in PairsFrom(p, i, j) <==> Upcoming(p, i, j, a, b)
    decreases |p| - i, |p| - j, 0
  {
    PairsFromMembers(p, i + 1, i + 2, a, b);
    RowStep(p, i, j, a, b);
  }

  /** Within row `i`, what is still to come is `(i, j)` when near, then what follows it. */
  lemma {:induction false} MembersNextColumn(p: seq<Vec3>, i: nat, j: nat, a: nat, b: nat)
    requires i < j < |p|
    ensures (a, b) in PairsFrom(p, i, j) <==> Upcoming(p, i, j, a, b)
    decreases |p| - i, |p| - j, 0
  {
    PairsFromMembers(p, i, j + 1, a, b);
    ColumnStep(p, i, j, a, b);
  }

  /** The membership claim carries over from the start of row `i + 1` to the end of row `i`. */
  lemma RowStep(p: seq<Vec3>, i: nat, j: nat, a: nat, b: nat)
    requires i < |p| <= j
    requires (a, b) in PairsFrom(p, i + 1, i + 2) <==> Upcoming(p, i + 1, i + 2, a, b)
    ensures (a, b) in PairsFrom(p, i, j) <==> Upcoming(p, i, j, a, b)
  {
    assert PairsFrom(p, i, j) == PairsFrom(p, i + 1, i + 2);
    UpcomingNextRow(p, i, j, a, b);
  }

  /** The membership claim carries over from `(i, j + 1)` to `(i, j)`. */
  lemma ColumnStep(p: seq<Vec3>, i: nat, j: nat, a: nat, b: nat)
    requires i < j < |p|
    requires (a, b) in PairsFrom(p, i, j + 1) <==> Upcoming(p, i, j + 1, a, b)
    ensures (a, b) in PairsFrom(p, i, j) <==> Upcoming(p, i, j, a, b)
  {
    PairsFromHead(p, i, j, a, b);
    UpcomingNextColumn(p, i, j, a, b);
  }

  /** At the end of row `i` what is still to come starts at row `i + 1`. */
  lemma UpcomingNextRow(p: seq<Vec3>, i: nat, j: nat, a: nat, b: nat)
    requires |p| <= j
    ensures Upcoming(p, i, j, a, b) <==> Upcoming(p, i + 1, i + 2, a, b)
  {
  }

  /** Within row `i`, what is still to come is `(i, j)` itself or what comes after it. */
  lemma UpcomingNextColumn(p: seq<Vec3>, i: nat, j: nat, a: nat, b: nat)
    requires i < j < |p|
    ensures Upcoming(p, i, j, a, b)
        <==> (a == i && b == j && Near(p[i], p[j])) || Upcoming(p, i, j + 1, a, b)
  {
  }

  /** Testing `(i, j)` pushes `(i, j)` itself when the two points are near, and nothing else. */
  lemma PairsFromHead(p: seq<Vec3>, i: nat, j: nat, a: nat, b: nat)
    requires i < j < |p|
    ensures (a, b) in PairsFrom(p, i, j)
        <==> (a == i && b == j && Near(p[i], p[j])) || (a, b) in PairsFrom(p, i, j + 1)
  {
    var head: seq<Pair> := if Near(p[i], p[j]) then [(i, j)] else [];
    assert PairsFrom(p, i, j) == head + PairsFrom(p, i, j + 1);
  }

  /**
   * Sound and complete: the loop links `(a, b)` exactly when `a < b` are
   * node indices whose points lie within distance 3.
   */
  lemma ProximityPairsMembers(p: seq<Vec3>, a: nat, b: nat)
    ensures (a, b) in ProximityPairs(p) <==> a < b < |p| && Near(p[a], p[b])
  {
    PairsFromMembers(p, 0, 1, a, b);
  }

  /** Every pair the loop pushes has two distinct, in-range endpoints, the smaller first. */
  lemma ProximityPairsInRange(p: seq<Vec3>, k: nat)
    requires k < |ProximityPairs(p)|
    ensures ProximityPairs(p)[k].0 < ProximityPairs(p)[k].1 < |p|
    ensures Near(p[ProximityPairs(p)[k].0], p[ProximityPairs(p)[k].1])
  {
    var e := ProximityPairs(p)[k];
    ProximityPairsMembers(p, e.0, e.1);
  }

  /** The loop pushes its pairs in strictly increasing lexicographic order. */
  lemma {:induction false} PairsFromOrdered(p: seq<Vec3>, i: nat, j: nat)
    requires i < j
    ensures StrictlyOrdered(PairsFrom(p, i, j))
    decreases |p| - i, |p| - j
  {
    if |p| <= i {
      assert PairsFrom(p, i, j) == [];
    } else if |p| <= j {
      assert PairsFrom(p, i, j) == PairsFrom(p, i + 1, i + 2);
      PairsFromOrdered(p, i + 1, i + 2);
    } else {
      var rest := PairsFrom(p, i, j + 1);
      PairsFromOrdered(p, i, j + 1);
      if Near(p[i], p[j]) {
        assert PairsFrom(p, i, j) == [(i, j)] + rest;
        forall l | 0 <= l < |rest| ensures LexLess((i, j), rest[l]) {
          LaterPair(p, i, j, rest, l);
        }
        OrderedCons((i, j), rest);
      } else {
        assert rest == PairsFrom(p, i, j);
      }
    }
  }

  /** Every pair still to come after `(i, j)` is lexicographically above it. */
  lemma LaterPair(p: seq<Vec3>, i: nat, j: nat, rest: seq<Pair>, l: nat)
    requires i < j && rest == PairsFrom(p, i, j + 1) && l < |rest|
    ensures LexLess((i, j), rest[l])
  {
    assert rest[l] in rest;
    PairsFromMembers(p, i, j + 1, rest[l].0, rest[l].1);
  }

  /** A pair below every element of an ordered list keeps it ordered when put in front. */
  lemma OrderedCons(e: Pair, rest: seq<Pair>)
    requires StrictlyOrdered(rest)
    requires forall l :: 0 <= l < |rest| ==> LexLess(e, rest[l])
    ensures StrictlyOrdered([e] + rest)
  {
    var s := [e] + rest;
    forall k, l | 0 <= k < l < |s| ensures LexLess(s[k], s[l]) {
      assert s[l] == rest[l - 1];
      if 0 < k {
        assert s[k] == rest[k - 1];
      }
    }
  }

  lemma ProximityPairsOrdered(p: seq<Vec3>)
    ensures StrictlyOrdered(ProximityPairs(p))
  {
    PairsFromOrdered(p, 0, 1);
  }

  /**
   * No unordered pair is linked twice: two different positions of the list
   * never hold the same two nodes, in either order.
   */
  lemma ProximityPairsUnique(p: seq<Vec3>, k: nat, l: nat)
    requires k < l < |ProximityPairs(p)|
    ensures ProximityPairs(p)[k] != ProximityPairs(p)[l]
    ensures ProximityPairs(p)[k] != (ProximityPairs(p)[l].1, ProximityPairs(p)[l].0)
  {
    ProximityPairsOrdered(p);
    ProximityPairsInRange(p, k);
    ProximityPairsInRange(p, l);
  }

  /** The loop pushes at most one pair per distance test. */
  lemma {:induction false} PairsFromCount(p: seq<Vec3>, i: nat, j: nat)
    ensures |PairsFrom(p, i, j)| <= Comparisons(|p|, i, j)
    decreases |p| - i, |p| - j
  {
    var n := |p|;
    if n <= i {
    } else if n <= j {
      assert PairsFrom(p, i, j) == PairsFrom(p, i + 1, i + 2);
      assert Comparisons(n, i, j) == Comparisons(n, i + 1, i + 2);
      PairsFromCount(p, i + 1, i + 2);
    } else {
      var rest := PairsFrom(p, i, j + 1);
      assert PairsFrom(p, i, j) == (if Near(p[i], p[j]) then [(i, j)] else []) + rest;
      assert Comparisons(n, i, j) == 1 + Comparisons(n, i, j + 1);
      PairsFromCount(p, i, j + 1);
    }
  }

  /** From `(i, j)` the rest of row `i` costs `n - j` tests before row `i + 1` starts. */
  lemma {:induction false} ComparisonsRow(n: nat, i: nat, j: nat)
    requires i < n && i < j <= n
    ensures Comparisons(n, i, j) == (n - j) + Comparisons(n, i + 1, i + 2)
    decreases n - j
  {
    if j < n {
      ComparisonsRow(n, i, j + 1);
    }
  }

  /** From the start of row `i` the loop makes (n-i)(n-i-1)/2 tests. */
  lemma {:induction false} ComparisonsFromRow(n: nat, i: nat)
    requires i < n
    ensures 2 * Comparisons(n, i, i + 1) == (n - i) * (n - i - 1)
    decreases n - i
  {
    ComparisonsRow(n, i, i + 1);
    var m := n - i - 1;
    if i + 1 < n {
      ComparisonsFromRow(n, i + 1);
      assert 2 * Comparisons(n, i + 1, i + 2) == m * (m - 1);
      assert 2 * m + m * (m - 1) == (m + 1) * m;
    } else {
      assert Comparisons(n, i + 1, i + 2) == 0;
    }
  }

  /** At most n(n-1)/2 connections: one per unordered pair of distinct nodes. */
  lemma ProximityPairsCount(p: seq<Vec3>)
    ensures 2 * |ProximityPairs(p)| <= |p| * (|p| - 1)
  {
    PairsFromCount(p, 0, 1);
    if 0 < |p| {
      ComparisonsFromRow(|p|, 0);
    }
  }

  /** Two nodes at distance 2 are linked once; two nodes at distance 5 are not linked. */
  lemma TwoNodeScenarios()
    ensures ProximityPairs([Zero, Vec3(2.0, 0.0, 0.0)]) == [(0, 1)]
    ensures ProximityPairs([Zero, Vec3(5.0, 0.0, 0.0)]) == []
  {
    var near, far := [Zero, Vec3(2.0, 0.0, 0.0)], [Zero, Vec3(5.0, 0.0, 0.0)];
    assert PairsFrom(near, 0, 2) == [] by {
      assert PairsFrom(near, 1, 2) == [];
    }
    assert PairsFrom(far, 0, 2) == [] by {
      assert PairsFrom(far, 1, 2) == [];
    }
  }
}
