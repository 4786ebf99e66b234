/** The call chain: every root-to-leaf path of a delegation tree, and why nothing is lost
    or invented by drawing those (souk-directory/src/agent.ts). */
module CallChain {
  type Id = string
  type Route = seq<Id>

  datatype Tree = Node(id: Id, children: seq<Tree>)

  function Prepend(id: Id, routes: seq<Route>): seq<Route>
  {
    if routes == [] then [] else [[id] + routes[0]] + Prepend(id, routes[1..])
  }

  /** `routesToLeaves` */
  function Routes(t: Tree): seq<Route>
    decreases t
  {
    if t.children == [] then [[t.id]] else RoutesThrough(t.id, t.children)
  }

  function RoutesThrough(id: Id, children: seq<Tree>): seq<Route>
    decreases children
  {
    if children == [] then [] else Prepend(id, Routes(children[0])) + RoutesThrough(id, children[1..])
  }

  lemma {:induction false} PrependAt(id: Id, routes: seq<Route>)
    ensures |Prepend(id, routes)| == |routes|
    ensures forall i :: 0 <= i < |routes| ==> Prepend(id, routes)[i] == [id] + routes[i]
  {
    if routes != [] {
      PrependAt(id, routes[1..]);
    }
  }

  lemma {:induction false} PrependConcat(id: Id, a: seq<Route>, b: seq<Route>)
    ensures Prepend(id, a + b) == Prepend(id, a) + Prepend(id, b)
  {
    if a == [] {
      assert a + b == b;
    } else {
      PrependConcat(id, a[1..], b);
      assert (a + b)[1..] == a[1..] + b;
    }
  }

  // ---- The routes are the walks from the root to a leaf

  /** `route` goes from the root of `t` to a leaf, from parent to child. */
  ghost predicate IsWalk(t: Tree, route: Route)
    decreases route
  {
    && route != [] && route[0] == t.id
    && (if |route| == 1 then t.children == [] else exists c :: c in t.children && IsWalk(c, route[1..]))
  }

  ghost predicate IsWalkThrough(id: Id, children: seq<Tree>, route: Route)
  {
    |route| > 1 && route[0] == id && exists c :: c in children && IsWalk(c, route[1..])
  }

  lemma InPrepended(id: Id, routes: seq<Route>, route: Route)
    ensures route in Prepend(id, routes) <==> route != [] && route[0] == id && route[1..] in routes
  {
    PrependAt(id, routes);
    if route != [] && route[0] == id && route[1..] in routes {
      var i :| 0 <= i < |routes| && routes[i] == route[1..];
      assert Prepend(id, routes)[i] == route;
    }
  }

  /** Every route is such a walk, and every such walk is a route. */
  lemma {:induction false} RoutesAreExactlyTheWalks(t: Tree, route: Route)
    ensures route in Routes(t) <==> IsWalk(t, route)
    decreases t
  {
    if t.children == [] {
      assert |route| == 1 ==> route == [route[0]];
    } else {
      RoutesThroughAreWalks(t.id, t.children, route);
    }
  }

  lemma {:induction false} RoutesThroughAreWalks(id: Id, children: seq<Tree>, route: Route)
    ensures route in RoutesThrough(id, children) <==> IsWalkThrough(id, children, route)
    decreases children
  {
    if children != [] {
      InPrepended(id, Routes(children[0]), route);
      if route != [] {
        RoutesAreExactlyTheWalks(children[0], route[1..]);
      }
      RoutesThroughAreWalks(id, children[1..], route);
      assert children == [children[0]] + children[1..];
    }
  }

  // ---- Each leaf ends one route

  function Leaves(t: Tree): seq<Id>
    decreases t
  {
    if t.children == [] then [t.id] else LeavesOf(t.children)
  }

  function LeavesOf(ts: seq<Tree>): seq<Id>
    decreases ts
  {
    if ts == [] then [] else Leaves(ts[0]) + LeavesOf(ts[1..])
  }

  predicate NoneEmpty(routes: seq<Route>)
  {
    forall i :: 0 <= i < |routes| ==> routes[i] != []
  }

  function Ends(routes: seq<Route>): seq<Id>
    requires NoneEmpty(routes)
  {
    if routes == [] then [] else [routes[0][|routes[0]| - 1]] + Ends(routes[1..])
  }

  lemma {:induction false} EndsConcat(a: seq<Route>, b: seq<Route>)
    requires NoneEmpty(a) && NoneEmpty(b)
    ensures NoneEmpty(a + b) && Ends(a + b) == Ends(a) + Ends(b)
  {
    if a == [] {
      assert a + b == b;
    } else {
      EndsConcat(a[1..], b);
      assert (a + b)[0] == a[0] && (a + b)[1..] == a[1..] + b;
      assert forall i :: 0 <= i < |a + b| ==> (a + b)[i] == if i < |a| then a[i] else b[i - |a|];
      var e := [a[0][|a[0]| - 1]];
      assert e + (Ends(a[1..]) + Ends(b)) == (e + Ends(a[1..])) + Ends(b);
    }
  }

  lemma {:induction false} EndsOfPrepended(id: Id, routes: seq<Route>)
    requires NoneEmpty(routes)
    ensures NoneEmpty(Prepend(id, routes)) && Ends(Prepend(id, routes)) == Ends(routes)
  {
    if routes != [] {
      EndsOfPrepended(id, routes[1..]);
      PrependAt(id, routes);
    }
  }

  /** From left to right, the routes end at the leaves, each leaf ending one route. */
  lemma {:induction false} EachLeafEndsOneRoute(t: Tree)
    ensures NoneEmpty(Routes(t)) && Ends(Routes(t)) == Leaves(t)
    decreases t
  {
    if t.children != [] {
      LeavesEndRoutesThrough(t.id, t.children);
    }
  }

  lemma {:induction false} LeavesEndRoutesThrough(id: Id, children: seq<Tree>)
    ensures NoneEmpty(RoutesThrough(id, children)) && Ends(RoutesThrough(id, children)) == LeavesOf(children)
    decreases children
  {
    if children != [] {
      EachLeafEndsOneRoute(children[0]);
      EndsOfPrepended(id, Routes(children[0]));
      LeavesEndRoutesThrough(id, children[1..]);
      EndsConcat(Prepend(id, Routes(children[0])), RoutesThrough(id, children[1..]));
    }
  }

  // ---- The arrows drawn are the edges of the tree

  function Edges(t: Tree): set<(Id, Id)>
    decreases t
  {
    EdgesBelow(t.id, t.children)
  }

  function EdgesBelow(id: Id, children: seq<Tree>): set<(Id, Id)>
    decreases children
  {
    if children == [] then {} else {(id, children[0].id)} + Edges(children[0]) + EdgesBelow(id, children[1..])
  }

  function Arrows(route: Route): set<(Id, Id)>
  {
    if |route| < 2 then {} else {(route[0], route[1])} + Arrows(route[1..])
  }

  function Drawn(routes: seq<Route>): set<(Id, Id)>
  {
    if routes == [] then {} else Arrows(routes[0]) + Drawn(routes[1..])
  }

  lemma {:induction false} DrawnConcat(a: seq<Route>, b: seq<Route>)
    ensures Drawn(a + b) == Drawn(a) + Drawn(b)
  {
    if a == [] {
      assert a + b == b;
    } else {
      DrawnConcat(a[1..], b);
      assert (a + b)[1..] == a[1..] + b;
    }
  }

  predicate AllStartAt(routes: seq<Route>, id: Id)
  {
    forall i :: 0 <= i < |routes| ==> routes[i] != [] && routes[i][0] == id
  }

  lemma {:induction false} RoutesStartAtTheRoot(t: Tree)
    ensures Routes(t) != [] && AllStartAt(Routes(t), t.id)
    decreases t
  {
    if t.children != [] {
      RoutesStartAtTheRoot(t.children[0]);
      PrependAt(t.id, Routes(t.children[0]));
      RoutesThroughStart(t.id, t.children);
    }
  }

  lemma {:induction false} RoutesThroughStart(id: Id, children: seq<Tree>)
    ensures AllStartAt(RoutesThrough(id, children), id)
    decreases children
  {
    if children != [] {
      PrependAt(id, Routes(children[0]));
      RoutesThroughStart(id, children[1..]);
    }
  }

  lemma {:induction false} DrawnPrepended(id: Id, child: Id, routes: seq<Route>)
    requires routes != [] && AllStartAt(routes, child)
    ensures Drawn(Prepend(id, routes)) == {(id, child)} + Drawn(routes)
  {
    var r := [id] + routes[0];
    assert r[1..] == routes[0];
    assert Arrows(r) == {(id, child)} + Arrows(routes[0]);
    if |routes| > 1 {
      DrawnPrepended(id, child, routes[1..]);
    } else {
      assert Prepend(id, routes)[1..] == [] && routes[1..] == [];
    }
    assert Prepend(id, routes)[1..] == Prepend(id, routes[1..]);
  }

  /** Every edge of the tree is drawn, and no arrow is drawn that is not an edge. */
  lemma {:induction false} ArrowsAreEdges(t: Tree)
    ensures Drawn(Routes(t)) == Edges(t)
    decreases t
  {
    if t.children == [] {
      assert Routes(t)[1..] == [];
    } else {
      ArrowsBelow(t.id, t.children);
    }
  }

  lemma {:induction false} ArrowsBelow(id: Id, children: seq<Tree>)
    ensures Drawn(RoutesThrough(id, children)) == EdgesBelow(id, children)
    decreases children
  {
    if children != [] {
      var first := children[0];
      RoutesStartAtTheRoot(first);
      DrawnPrepended(id, first.id, Routes(first));
      ArrowsAreEdges(first);
      ArrowsBelow(id, children[1..]);
      DrawnConcat(Prepend(id, Routes(first)), RoutesThrough(id, children[1..]));
    }
  }

  // ---- The routes determine the tree

  function TotalLength(routes: seq<Route>): nat
  {
    if routes == [] then 0 else |routes[0]| + TotalLength(routes[1..])
  }

  /** How many routes at the front start at `id`. */
  function Span(routes: seq<Route>, id: Id): (n: nat)
    ensures n <= |routes|
    ensures n < |routes| ==> routes[n] == [] || routes[n][0] != id
  {
    if routes == [] || routes[0] == [] || routes[0][0] != id then 0 else 1 + Span(routes[1..], id)
  }

  /** The routes without their first stop; those that end there are dropped. */
  function Tails(routes: seq<Route>): (r: seq<Route>)
    requires NoneEmpty(routes)
    ensures NoneEmpty(r)
    ensures TotalLength(r) + |routes| == TotalLength(routes)
  {
    if routes == [] then []
    else if |routes[0]| == 1 then Tails(routes[1..])
    else [routes[0][1..]] + Tails(routes[1..])
  }

  lemma {:induction false} TotalLengthSplits(routes: seq<Route>, n: nat)
    requires n <= |routes|
    ensures TotalLength(routes) == TotalLength(routes[..n]) + TotalLength(routes[n..])
  {
    if n > 0 {
      TotalLengthSplits(routes[1..], n - 1);
      assert routes[..n][1..] == routes[1..][..n - 1];
      assert routes[n..] == routes[1..][n - 1..];
    } else {
      assert routes[0..] == routes;
    }
  }

  /** Routes that share a stop, next to each other, share the node: a reader's way back. */
  function Regroup(routes: seq<Route>): seq<Tree>
    requires NoneEmpty(routes)
    decreases TotalLength(routes)
  {
    if routes == [] then []
    else
      var id := routes[0][0];
      var n := Span(routes, id);
      TotalLengthSplits(routes, n);
      TotalLengthSplits(routes[..n], 1);
      [Node(id, Regroup(Tails(routes[..n])))] + Regroup(routes[n..])
  }

  /** No node is next to a sibling of the same id. */
  predicate NoTwins(ts: seq<Tree>)
    decreases ts
  {
    ts == [] || ((|ts| > 1 ==> ts[0].id != ts[1].id) && NoTwins(ts[0].children) && NoTwins(ts[1..]))
  }

  function RoutesOf(ts: seq<Tree>): seq<Route>
  {
    if ts == [] then [] else Routes(ts[0]) + RoutesOf(ts[1..])
  }

  lemma {:induction false} RoutesThroughIsPrepended(id: Id, ts: seq<Tree>)
    ensures RoutesThrough(id, ts) == Prepend(id, RoutesOf(ts))
  {
    if ts != [] {
      RoutesThroughIsPrepended(id, ts[1..]);
      PrependConcat(id, Routes(ts[0]), RoutesOf(ts[1..]));
    }
  }

  lemma {:induction false} RoutesOfNoneEmpty(ts: seq<Tree>)
    ensures NoneEmpty(RoutesOf(ts))
    ensures ts != [] ==> RoutesOf(ts) != [] && RoutesOf(ts)[0][0] == ts[0].id
  {
    if ts != [] {
      RoutesStartAtTheRoot(ts[0]);
      RoutesOfNoneEmpty(ts[1..]);
    }
  }

  lemma {:induction false} TailsOfPrepended(id: Id, routes: seq<Route>)
    requires NoneEmpty(routes)
    ensures NoneEmpty(Prepend(id, routes)) && Tails(Prepend(id, routes)) == routes
  {
    PrependAt(id, routes);
    if routes != [] {
      TailsOfPrepended(id, routes[1..]);
      assert ([id] + routes[0])[1..] == routes[0];
      assert Prepend(id, routes)[1..] == Prepend(id, routes[1..]);
    }
  }

  lemma {:induction false} SpanOfGroup(a: seq<Route>, b: seq<Route>, id: Id)
    requires AllStartAt(a, id) && (b == [] || b[0] == [] || b[0][0] != id)
    ensures Span(a + b, id) == |a|
  {
    if a == [] {
      assert a + b == b;
    } else {
      SpanOfGroup(a[1..], b, id);
      assert (a + b)[1..] == a[1..] + b;
    }
  }

  lemma {:induction false} TailsOfRoutes(t: Tree)
    ensures NoneEmpty(Routes(t)) && Tails(Routes(t)) == RoutesOf(t.children)
  {
    EachLeafEndsOneRoute(t);
    if t.children == [] {
      assert Routes(t)[1..] == [];
    } else {
      RoutesOfNoneEmpty(t.children);
      RoutesThroughIsPrepended(t.id, t.children);
      TailsOfPrepended(t.id, RoutesOf(t.children));
    }
  }

  lemma {:induction false} RegroupUndoesRoutes(ts: seq<Tree>)
    requires NoTwins(ts)
    ensures NoneEmpty(RoutesOf(ts)) && Regroup(RoutesOf(ts)) == ts
    decreases ts
  {
    RoutesOfNoneEmpty(ts);
    if ts != [] {
      var first, rest := Routes(ts[0]), RoutesOf(ts[1..]);
      RoutesStartAtTheRoot(ts[0]);
      RoutesOfNoneEmpty(ts[1..]);
      SpanOfGroup(first, rest, ts[0].id);
      assert (first + rest)[..|first|] == first && (first + rest)[|first|..] == rest;
      TailsOfRoutes(ts[0]);
      RegroupUndoesRoutes(ts[0].children);
      RegroupUndoesRoutes(ts[1..]);
    }
  }

  lemma {:induction false} RegroupedHasNoTwins(routes: seq<Route>)
    requires NoneEmpty(routes)
    ensures NoTwins(Regroup(routes))
    ensures routes != [] ==> Regroup(routes) != [] && Regroup(routes)[0].id == routes[0][0]
    decreases TotalLength(routes)
  {
    if routes != [] {
      var id := routes[0][0];
      var n := Span(routes, id);
      TotalLengthSplits(routes, n);
      TotalLengthSplits(routes[..n], 1);
      RegroupedHasNoTwins(Tails(routes[..n]));
      RegroupedHasNoTwins(routes[n..]);
      assert Regroup(routes)[1..] == Regroup(routes[n..]);
    }
  }

  /** Regrouping the routes by what they share rebuilds the tree, exactly when no node
      stands next to a sibling of the same id; so always when ids are distinct. */
  lemma RoutesDetermineTheTree(t: Tree)
    ensures NoneEmpty(Routes(t))
    ensures Regroup(Routes(t)) == [t] <==> NoTwins([t])
  {
    EachLeafEndsOneRoute(t);
    assert RoutesOf([t]) == Routes(t);
    RegroupedHasNoTwins(Routes(t));
    if NoTwins([t]) {
      RegroupUndoesRoutes([t]);
    }
  }

  /** Different trees are drawn differently. */
  lemma DifferentTreesDifferentRoutes(t: Tree, u: Tree)
    requires NoTwins([t]) && NoTwins([u]) && Routes(t) == Routes(u)
    ensures t == u
  {
    RoutesDetermineTheTree(t);
    RoutesDetermineTheTree(u);
  }

  function Ids(ts: seq<Tree>): seq<Id>
    decreases ts
  {
    if ts == [] then [] else [ts[0].id] + Ids(ts[0].children) + Ids(ts[1..])
  }

  predicate AllDistinct(ids: seq<Id>)
  {
    forall i, j :: 0 <= i < j < |ids| ==> ids[i] != ids[j]
  }

  lemma {:induction false} DistinctIdsHaveNoTwins(ts: seq<Tree>)
    requires AllDistinct(Ids(ts))
    ensures NoTwins(ts)
    decreases ts
  {
    if ts != [] {
      var below, after := Ids(ts[0].children), Ids(ts[1..]);
      DistinctParts([ts[0].id] + below, after);
      DistinctParts([ts[0].id], below);
      DistinctIdsHaveNoTwins(ts[0].children);
      DistinctIdsHaveNoTwins(ts[1..]);
      if |ts| > 1 {
        assert Ids(ts)[0] == ts[0].id;
        assert Ids(ts)[1 + |below|] == after[0] == ts[1].id;
      }
    }
  }

  lemma DistinctParts(a: seq<Id>, b: seq<Id>)
    requires AllDistinct(a + b)
    ensures AllDistinct(a) && AllDistinct(b)
  {
    forall i, j | 0 <= i < j < |a| ensures a[i] != a[j] {
      assert a[i] == (a + b)[i] && a[j] == (a + b)[j];
    }
    forall i, j | 0 <= i < j < |b| ensures b[i] != b[j] {
      assert b[i] == (a + b)[|a| + i] && b[j] == (a + b)[|a| + j];
    }
  }

  /** The round trip for every tree with distinct ids. */
  lemma DistinctTreesRoundTrip(t: Tree)
    requires AllDistinct(Ids([t]))
    ensures NoneEmpty(Routes(t)) && Regroup(Routes(t)) == [t]
  {
    DistinctIdsHaveNoTwins([t]);
    RoutesDetermineTheTree(t);
  }
}
