/**
 * Dependency graphs between stacks: an edge (a, b) means stack a depends on stack b,
 * so b is deployed first. Reachability is counted in steps so that lemmas can induct on it.
 */
module Graph {

  type Edges = set<(nat, nat)>

  /** b can be reached from a in at most n steps (zero steps when a == b). */
  ghost predicate ReachesWithin(g: Edges, a: nat, b: nat, n: nat)
    decreases n
  {
    a == b || (n > 0 && exists c :: (a, c) in g && ReachesWithin(g, c, b, n - 1))
  }

  /** There is no path, of any length, from a to b. */
  ghost predicate Unreachable(g: Edges, a: nat, b: nat) {
    forall n: nat :: !ReachesWithin(g, a, b, n)
  }

  /** No edge (a, c) can be closed into a cycle by a path from c back to a. */
  ghost predicate Acyclic(g: Edges) {
    forall a, c, n: nat :: (a, c) in g ==> !ReachesWithin(g, c, a, n)
  }

  /** No edge leads into t: nothing depends on t. */
  ghost predicate NoEdgeInto(g: Edges, t: nat) {
    forall e :: e in g ==> e.1 != t
  }

  /** Paths compose: a path to b followed by a path from b is a path. */
  lemma {:induction false} ReachesTrans(g: Edges, a: nat, b: nat, c: nat, n: nat, m: nat)
    requires ReachesWithin(g, a, b, n) && ReachesWithin(g, b, c, m)
    ensures ReachesWithin(g, a, c, n + m)
    decreases n
  {
    if a != b {
      var d :| (a, d) in g && ReachesWithin(g, d, b, n - 1);
      ReachesTrans(g, d, b, c, n - 1, m);
    } else {
      ReachesMonotone(g, b, c, m, n + m);
    }
  }

  /** A path within m steps is a path within any larger bound. */
  lemma {:induction false} ReachesMonotone(g: Edges, a: nat, b: nat, m: nat, k: nat)
    requires ReachesWithin(g, a, b, m) && m <= k
    ensures ReachesWithin(g, a, b, k)
    decreases m
  {
    if a != b {
      var d :| (a, d) in g && ReachesWithin(g, d, b, m - 1);
      ReachesMonotone(g, d, b, m - 1, k - 1);
    }
  }

  /**
   * A path in g + {(x, y)} either avoids the new edge, or runs from u to x in g
   * and from y to v in g.
   */
  lemma {:induction false} SplitPath(g: Edges, x: nat, y: nat, u: nat, v: nat, n: nat)
    requires ReachesWithin(g + {(x, y)}, u, v, n)
    ensures ReachesWithin(g, u, v, n) ||
            exists n1: nat, n2: nat :: ReachesWithin(g, u, x, n1) && ReachesWithin(g, y, v, n2)
    decreases n
  {
    var g' := g + {(x, y)};
    if u != v {
      var d :| (u, d) in g' && ReachesWithin(g', d, v, n - 1);
      SplitPath(g, x, y, d, v, n - 1);
      if (u, d) == (x, y) {
        assert ReachesWithin(g, u, x, 0);
        if ReachesWithin(g, d, v, n - 1) {
          assert ReachesWithin(g, y, v, n - 1);
        } else {
          var n1: nat, n2: nat :| ReachesWithin(g, d, x, n1) && ReachesWithin(g, y, v, n2);
          assert ReachesWithin(g, y, v, n2);
        }
      } else {
        assert (u, d) in g;
        if ReachesWithin(g, d, v, n - 1) {
          assert ReachesWithin(g, u, v, n);
        } else {
          var n1: nat, n2: nat :| ReachesWithin(g, d, x, n1) && ReachesWithin(g, y, v, n2);
          assert ReachesWithin(g, u, x, n1 + 1);
        }
      }
    }
  }

  /** Adding the edge (x, y) keeps a graph acyclic exactly when x is not reachable from y. */
  lemma AddEdgeAcyclic(g: Edges, x: nat, y: nat)
    requires Acyclic(g) && Unreachable(g, y, x)
    ensures Acyclic(g + {(x, y)})
  {
    var g' := g + {(x, y)};
    forall a, c, n: nat | (a, c) in g' ensures !ReachesWithin(g', c, a, n) {
      if ReachesWithin(g', c, a, n) {
        SplitPath(g, x, y, c, a, n);
        if !ReachesWithin(g, c, a, n) {
          var n1: nat, n2: nat :| ReachesWithin(g, c, x, n1) && ReachesWithin(g, y, a, n2);
          if (a, c) != (x, y) {
            // y reaches a, the edge (a, c), then c reaches x: a path from y to x in g.
            assert ReachesWithin(g, a, x, n1 + 1);
            ReachesTrans(g, y, a, x, n2, n1 + 1);
          }
        }
      }
    }
  }

  /** Conversely, if y reaches x then adding (x, y) closes a cycle. */
  lemma AddEdgeCycle(g: Edges, x: nat, y: nat, n: nat)
    requires ReachesWithin(g, y, x, n)
    ensures !Acyclic(g + {(x, y)})
  {
    ReachesSubgraph(g, g + {(x, y)}, y, x, n);
  }

  /** Paths survive adding edges. */
  lemma {:induction false} ReachesSubgraph(g: Edges, h: Edges, a: nat, b: nat, n: nat)
    requires g <= h && ReachesWithin(g, a, b, n)
    ensures ReachesWithin(h, a, b, n)
    decreases n
  {
    if a != b {
      var d :| (a, d) in g && ReachesWithin(g, d, b, n - 1);
      ReachesSubgraph(g, h, d, b, n - 1);
    }
  }

  /** A node with no outgoing edge reaches nothing but itself. */
  lemma SinkReachesNothing(g: Edges, s: nat, t: nat)
    requires forall e :: e in g ==> e.0 != s
    requires s != t
    ensures Unreachable(g, s, t)
  {
    forall n: nat ensures !ReachesWithin(g, s, t, n) {
      if n > 0 {
        assert forall d :: (s, d) !in g;
      }
    }
  }

  /** A node that no edge enters cannot be reached from any other node. */
  lemma {:induction false} SourceUnreachable(g: Edges, s: nat, t: nat, n: nat)
    requires forall e :: e in g ==> e.1 != t
    requires s != t
    ensures !ReachesWithin(g, s, t, n)
    decreases n
  {
    if n > 0 {
      forall c | (s, c) in g ensures !ReachesWithin(g, c, t, n - 1) {
        SourceUnreachable(g, c, t, n - 1);
      }
    }
  }

  /** Adding (x, y) creates no path from u to v when u reached neither v nor x before. */
  lemma UnreachableAfterEdge(g: Edges, x: nat, y: nat, u: nat, v: nat)
    requires Unreachable(g, u, v) && Unreachable(g, u, x)
    ensures Unreachable(g + {(x, y)}, u, v)
  {
    forall n: nat ensures !ReachesWithin(g + {(x, y)}, u, v, n) {
      if ReachesWithin(g + {(x, y)}, u, v, n) {
        SplitPath(g, x, y, u, v, n);
      }
    }
  }

  /** A node that no edge enters cannot be reached from any other node, within any bound. */
  lemma SourceUnreachableAll(g: Edges, s: nat, t: nat)
    requires forall e :: e in g ==> e.1 != t
    requires s != t
    ensures Unreachable(g, s, t)
  {
    forall n: nat ensures !ReachesWithin(g, s, t, n) {
      SourceUnreachable(g, s, t, n);
    }
  }
}
