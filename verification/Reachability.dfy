/** Reachability in a finite directed graph, restricted to a set of "white" nodes.
    A path visits white nodes only, both ends included. The depth-first walks of the
    connector (readiness spread, cascading removal) are measured against ReachSet. */
module Reachability {

  type Node = nat
  type Graph = map<Node, set<Node>>

  ghost predicate IsPath(g: Graph, white: set<Node>, p: seq<Node>) {
    && |p| > 0
    && (forall i :: 0 <= i < |p| ==> p[i] in white)
    && (forall i :: 0 <= i < |p| - 1 ==> p[i] in g && p[i + 1] in g[p[i]])
  }

  ghost predicate Reaches(g: Graph, white: set<Node>, a: Node, b: Node) {
    exists p :: IsPath(g, white, p) && p[0] == a && p[|p| - 1] == b
  }

  ghost function ReachSet(g: Graph, white: set<Node>, a: Node): set<Node> {
    set x | x in white && Reaches(g, white, a, x)
  }

  /** s follows every edge of g that stays inside white. */
  ghost predicate Closed(g: Graph, white: set<Node>, s: set<Node>) {
    forall x, y :: x in s && x in g && y in g[x] && y in white ==> y in s
  }

  lemma ReachesSelf(g: Graph, white: set<Node>, a: Node)
    requires a in white
    ensures Reaches(g, white, a, a)
  {
    assert IsPath(g, white, [a]) && [a][0] == a && [a][|[a]| - 1] == a;
  }

  lemma ReachesStep(g: Graph, white: set<Node>, a: Node, x: Node, y: Node)
    requires Reaches(g, white, a, x)
    requires x in g && y in g[x] && y in white
    ensures Reaches(g, white, a, y)
  {
    var p :| IsPath(g, white, p) && p[0] == a && p[|p| - 1] == x;
    var q := p + [y];
    assert forall i :: 0 <= i < |q| - 1 ==> q[i] == p[i];
    assert IsPath(g, white, q) && q[0] == a && q[|q| - 1] == y;
  }

  /** A path in a smaller graph, prefixed by one edge, is a path in the larger graph. */
  lemma ReachesPrepend(g: Graph, white: set<Node>, a: Node, h: Graph, inner: set<Node>, b: Node, x: Node)
    requires a in white && a in g && b in g[a]
    requires inner <= white
    requires forall n, m :: n in inner && m in inner && n in h && m in h[n] ==> n in g && m in g[n]
    requires Reaches(h, inner, b, x)
    ensures Reaches(g, white, a, x)
  {
    var p :| IsPath(h, inner, p) && p[0] == b && p[|p| - 1] == x;
    var q := [a] + p;
    forall i | 0 <= i < |q| - 1 ensures q[i] in g && q[i + 1] in g[q[i]] {
      if i > 0 {
        assert q[i] == p[i - 1] && q[i + 1] == p[i];
        assert p[i - 1] in h && p[i - 1 + 1] in h[p[i - 1]];
      }
    }
    assert IsPath(g, white, q) && q[0] == a && q[|q| - 1] == x;
  }

  lemma ReachesEnds(g: Graph, white: set<Node>, a: Node, x: Node)
    requires Reaches(g, white, a, x)
    ensures a in white && x in white
    ensures x != a ==> exists y :: y in white && y in g && x in g[y]
  {
    var p :| IsPath(g, white, p) && p[0] == a && p[|p| - 1] == x;
    if x != a {
      assert p[|p| - 2] in g && p[|p| - 2 + 1] in g[p[|p| - 2]];
    }
  }

  /** Whatever is reached otherwise than as the start is reached over an edge from something reached. */
  lemma ReachesBack(g: Graph, white: set<Node>, a: Node, x: Node)
    requires Reaches(g, white, a, x) && x != a
    ensures exists y :: Reaches(g, white, a, y) && y in white && y in g && x in g[y]
  {
    var p :| IsPath(g, white, p) && p[0] == a && p[|p| - 1] == x;
    var q := p[..|p| - 1];
    var y := q[|q| - 1];
    assert p[|p| - 2] in g && p[|p| - 2 + 1] in g[p[|p| - 2]];
    forall i | 0 <= i < |q| - 1 ensures q[i] in g && q[i + 1] in g[q[i]] {
      assert p[i] in g && p[i + 1] in g[p[i]];
    }
    assert IsPath(g, white, q) && q[0] == a;
    assert Reaches(g, white, a, y);
  }

  /** Every node on a path lies in any closed set that holds the first node. */
  lemma {:induction false} PathInClosed(g: Graph, white: set<Node>, s: set<Node>, p: seq<Node>)
    requires IsPath(g, white, p) && p[0] in s && Closed(g, white, s)
    ensures p[|p| - 1] in s
    decreases |p|
  {
    if |p| > 1 {
      var q := p[1..];
      assert p[0] in g && p[0 + 1] in g[p[0]];
      forall i | 0 <= i < |q| - 1 ensures q[i] in g && q[i + 1] in g[q[i]] {
        assert p[i + 1] in g && p[i + 1 + 1] in g[p[i + 1]];
      }
      PathInClosed(g, white, s, q);
    }
  }

  /** ReachSet is the least closed set holding its root. */
  lemma LeastClosed(g: Graph, white: set<Node>, a: Node, s: set<Node>)
    requires a in s && s <= white && Closed(g, white, s)
    requires forall x :: x in s ==> Reaches(g, white, a, x)
    ensures s == ReachSet(g, white, a)
  {
    forall x | x in ReachSet(g, white, a) ensures x in s {
      var p :| IsPath(g, white, p) && p[0] == a && p[|p| - 1] == x;
      PathInClosed(g, white, s, p);
    }
  }

  lemma ReachSetIsClosed(g: Graph, white: set<Node>, a: Node)
    ensures Closed(g, white, ReachSet(g, white, a))
    ensures a in white ==> a in ReachSet(g, white, a)
  {
    forall x, y | x in ReachSet(g, white, a) && x in g && y in g[x] && y in white
      ensures y in ReachSet(g, white, a)
    {
      ReachesStep(g, white, a, x, y);
    }
    if a in white {
      ReachesSelf(g, white, a);
    }
  }

  /** What some root reaches. */
  ghost function ReachFrom(g: Graph, white: set<Node>, roots: set<Node>): set<Node> {
    set x | x in white && exists c :: c in roots && Reaches(g, white, c, x)
  }

  lemma ReachFromIsClosed(g: Graph, white: set<Node>, roots: set<Node>)
    ensures Closed(g, white, ReachFrom(g, white, roots))
    ensures roots * white <= ReachFrom(g, white, roots)
  {
    forall x, y | x in ReachFrom(g, white, roots) && x in g && y in g[x] && y in white
      ensures y in ReachFrom(g, white, roots)
    {
      var c :| c in roots && Reaches(g, white, c, x);
      ReachesStep(g, white, c, x, y);
    }
    forall c | c in roots * white ensures c in ReachFrom(g, white, roots) {
      ReachesSelf(g, white, c);
    }
  }

  /** ReachFrom lies in every closed set that holds its white roots. */
  lemma ReachFromWithin(g: Graph, white: set<Node>, roots: set<Node>, s: set<Node>)
    requires roots * white <= s && Closed(g, white, s)
    ensures ReachFrom(g, white, roots) <= s
  {
    forall x | x in ReachFrom(g, white, roots) ensures x in s {
      var c :| c in roots && Reaches(g, white, c, x);
      var p :| IsPath(g, white, p) && p[0] == c && p[|p| - 1] == x;
      PathInClosed(g, white, s, p);
    }
  }

  lemma ReachSetWithin(g: Graph, white: set<Node>, a: Node, s: set<Node>)
    requires Closed(g, white, s) && (a in white ==> a in s)
    ensures ReachSet(g, white, a) <= s
  {
    forall x | x in ReachSet(g, white, a) ensures x in s {
      var p :| IsPath(g, white, p) && p[0] == a && p[|p| - 1] == x;
      PathInClosed(g, white, s, p);
    }
  }

  /** Reaching in stages: first from roots, then from d among what is left, then from the rest of more
      among what is left after that. Outside the roots themselves nothing is missed or added when the
      graphs h of the later stages have the edges of g. */
  lemma ReachFromInStages(g: Graph, white: set<Node>, roots: set<Node>, h1: Graph, d: Node, h2: Graph, more: set<Node>)
    requires d in more && SameEdges(g, h1, white - roots) && SameEdges(g, h2, white - roots)
    ensures var first := ReachFrom(g, white, roots);
      var second := ReachSet(h1, white - first, d);
      var third := ReachFrom(h2, white - first - second, more - {d});
      ReachFrom(g, white, roots + more) == first + second + third
  {
    var first := ReachFrom(g, white, roots);
    var second := ReachSet(h1, white - first, d);
    var third := ReachFrom(h2, white - first - second, more - {d});
    ReachFromIsClosed(g, white, roots);
    ReachSetIsClosed(h1, white - first, d);
    ReachFromIsClosed(h2, white - first - second, more - {d});
    StagesReachAll(g, white, roots, h1, d, h2, more, first, second, third);

    var all := ReachFrom(g, white, roots + more);
    ReachFromIsClosed(g, white, roots + more);
    ReachFromWithin(g, white, roots, all);
    ClosedInside(g, white, h1, white - roots, all, white - first);
    ReachSetWithin(h1, white - first, d, all * (white - first));
    ClosedInside(g, white, h2, white - roots, all, white - first - second);
    ReachFromWithin(h2, white - first - second, more - {d}, all * (white - first - second));
  }

  ghost predicate SameEdges(g: Graph, h: Graph, inside: set<Node>) {
    forall n, m :: n in inside && m in inside ==> ((n in g && m in g[n]) <==> (n in h && m in h[n]))
  }

  lemma ClosedInside(g: Graph, white: set<Node>, h: Graph, inside: set<Node>, s: set<Node>, part: set<Node>)
    requires Closed(g, white, s) && part <= inside <= white && SameEdges(g, h, inside)
    ensures Closed(h, part, s * part)
  {
    forall x, y | x in s * part && x in h && y in h[x] && y in part ensures y in s * part {
      assert x in inside && y in inside;
    }
  }

  lemma StagesReachAll(g: Graph, white: set<Node>, roots: set<Node>, h1: Graph, d: Node, h2: Graph, more: set<Node>,
                       first: set<Node>, second: set<Node>, third: set<Node>)
    requires d in more && SameEdges(g, h1, white - roots) && SameEdges(g, h2, white - roots)
    requires Closed(g, white, first) && roots * white <= first
    requires Closed(h1, white - first, second) && (d in white - first ==> d in second)
    requires Closed(h2, white - first - second, third) && (more - {d}) * (white - first - second) <= third
    ensures ReachFrom(g, white, roots + more) <= first + second + third
  {
    var s := white * (first + second + third);
    forall x, y | x in s && x in g && y in g[x] && y in white ensures y in s {
      if y !in first {
        assert x !in first && x in white - roots && y in white - roots;
      }
    }
    ReachFromWithin(g, white, roots + more, s);
  }

  /** Two graphs with the same edges inside white reach the same nodes. */
  lemma SameInside(g: Graph, h: Graph, white: set<Node>, a: Node)
    requires SameEdges(g, h, white)
    ensures ReachSet(g, white, a) == ReachSet(h, white, a)
  {
    forall x | x in white ensures Reaches(g, white, a, x) <==> Reaches(h, white, a, x) {
      if Reaches(g, white, a, x) {
        var p :| IsPath(g, white, p) && p[0] == a && p[|p| - 1] == x;
        forall i | 0 <= i < |p| - 1 ensures p[i] in h && p[i + 1] in h[p[i]] {
          assert p[i] in white && p[i + 1] in white && p[i] in g && p[i + 1] in g[p[i]];
        }
        assert IsPath(h, white, p);
      }
      if Reaches(h, white, a, x) {
        var p :| IsPath(h, white, p) && p[0] == a && p[|p| - 1] == x;
        forall i | 0 <= i < |p| - 1 ensures p[i] in g && p[i + 1] in g[p[i]] {
          assert p[i] in white && p[i + 1] in white && p[i] in h && p[i + 1] in h[p[i]];
        }
        assert IsPath(g, white, p);
      }
    }
  }

  /** State of a depth-first walk from root: seen has been absorbed, and of root's
      successors those in todo are still to be looked at. */
  ghost predicate Walk(g: Graph, white: set<Node>, root: Node, seen: set<Node>, todo: set<Node>) {
    && root in white && root in g && root in seen && seen <= white
    && (forall x :: x in seen ==> Reaches(g, white, root, x))
    && (forall x, y :: x in seen && x != root && x in g && y in g[x] && y in white ==> y in seen)
    && (forall y :: y in g[root] && y in white && y !in todo ==> y in seen)
  }

  lemma WalkStart(g: Graph, white: set<Node>, root: Node)
    requires root in white && root in g
    ensures Walk(g, white, root, {root}, g[root])
  {
    ReachesSelf(g, white, root);
  }

  /** A successor that is white and unseen is absorbed with all it reaches among the unseen. */
  lemma WalkAbsorb(g: Graph, white: set<Node>, root: Node, seen: set<Node>, todo: set<Node>, d: Node)
    requires Walk(g, white, root, seen, todo) && d in todo && d in g[root] && d in white - seen
    ensures Walk(g, white, root, seen + ReachSet(g, white - seen, d), todo - {d})
  {
    var more := ReachSet(g, white - seen, d);
    ReachSetIsClosed(g, white - seen, d);
    forall x | x in more ensures Reaches(g, white, root, x) {
      ReachesPrepend(g, white, root, g, white - seen, d, x);
    }
  }

  lemma WalkSkip(g: Graph, white: set<Node>, root: Node, seen: set<Node>, todo: set<Node>, d: Node)
    requires Walk(g, white, root, seen, todo)
    requires d in seen || d !in white || d !in g[root]
    ensures Walk(g, white, root, seen, todo - {d})
  {
  }

  /** Looking at successor d, whether or not it is still white and unseen. */
  lemma WalkInto(g: Graph, white: set<Node>, root: Node, seen: set<Node>, todo: set<Node>, d: Node, more: set<Node>)
    requires Walk(g, white, root, seen, todo) && d in todo && d in g[root]
    requires more == ReachSet(g, white - seen, d)
    ensures Walk(g, white, root, seen + more, todo - {d})
  {
    if d in white - seen {
      WalkAbsorb(g, white, root, seen, todo, d);
    } else {
      forall x | x in more ensures false {
        ReachesEnds(g, white - seen, d, x);
      }
      assert seen + more == seen;
      WalkSkip(g, white, root, seen, todo, d);
    }
  }

  lemma WalkDone(g: Graph, white: set<Node>, root: Node, seen: set<Node>)
    requires Walk(g, white, root, seen, {})
    ensures seen == ReachSet(g, white, root)
  {
    LeastClosed(g, white, root, seen);
  }
}
