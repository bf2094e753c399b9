/** Bounded depth-first route search over the adjacency graph. */
module Routes {
  import opened Identity

  const MAX_ROUTE_DEPTH: nat := 16
  const MAX_ROUTE_EXPANSIONS: nat := 20000

  type Route = seq<ResourceId>
  type Adjacency = map<ResourceId, seq<ResourceId>>

  /** One query: the graph, the nodes that are in service and not excluded, the
      endpoints, and the two budgets. */
  datatype Query = Query(adjacency: Adjacency, usable: set<ResourceId>, origin: ResourceId,
                         terminus: ResourceId, routeBudget: nat, depthBudget: nat)

  /** The search state: the path being extended, one neighbour cursor per
      element, the routes found and the expansions spent. */
  datatype Search = Search(stack: Route, cursor: seq<nat>, routes: seq<Route>, expansions: nat)

  function Neighbors(adjacency: Adjacency, id: ResourceId): seq<ResourceId> {
    if id in adjacency then adjacency[id] else []
  }

  predicate Halted(q: Query, s: Search) {
    s.stack == [] || |s.routes| >= q.routeBudget || s.expansions >= MAX_ROUTE_EXPANSIONS
  }

  /** One turn of the loop. */
  function Step(q: Query, s: Search): (s': Search)
    requires |s.cursor| == |s.stack| > 0
    ensures |s'.cursor| == |s'.stack|
    ensures s'.expansions == s.expansions + 1 || (s'.expansions == s.expansions && |s'.stack| < |s.stack|)
  {
    var top := |s.stack| - 1;
    var peers := Neighbors(q.adjacency, s.stack[top]);
    if s.cursor[top] >= |peers| then s.(stack := s.stack[..top], cursor := s.cursor[..top])
    else
      var next := peers[s.cursor[top]];
      var moved := s.(cursor := s.cursor[top := s.cursor[top] + 1], expansions := s.expansions + 1);
      if next in s.stack || next !in q.usable || |s.stack| >= q.depthBudget then moved
      else if next == q.terminus then moved.(routes := s.routes + [s.stack + [next]])
      else moved.(stack := s.stack + [next], cursor := moved.cursor + [0])
  }

  function Run(q: Query, s: Search): Search
    requires |s.cursor| == |s.stack|
    decreases MAX_ROUTE_EXPANSIONS - s.expansions, |s.stack|
  {
    if Halted(q, s) then s else Run(q, Step(q, s))
  }

  function Start(q: Query): Search {
    Search([q.origin], [0], [], 0)
  }

  /** The search refuses to start from or towards an unusable endpoint. */
  predicate Startable(q: Query) {
    q.routeBudget > 0 && q.depthBudget > 0 && q.origin in q.usable && q.terminus in q.usable
  }

  function FoundRoutes(q: Query): seq<Route> {
    if Startable(q) then Run(q, Start(q)).routes else []
  }

  /** The search examined everything: it ended with an empty stack, not on a budget. */
  predicate Exhaustive(q: Query) {
    Startable(q) ==> Run(q, Start(q)).stack == []
  }

  // ---- What a route is ----------------------------------------------------------

  ghost predicate Distinct(p: Route) {
    forall i, j :: 0 <= i < j < |p| ==> p[i] != p[j]
  }

  ghost predicate Linked(q: Query, p: Route) {
    forall i :: 0 <= i < |p| - 1 ==> p[i + 1] in Neighbors(q.adjacency, p[i])
  }

  ghost predicate Walk(q: Query, p: Route) {
    && Distinct(p) && Linked(q, p)
    && (forall i :: 0 <= i < |p| ==> p[i] in q.usable)
    && |p| <= q.depthBudget
    && (p != [] ==> p[0] == q.origin)
  }

  /** A simple adjacency path from origin to terminus through usable nodes,
      within the depth budget. */
  ghost predicate IsRoute(q: Query, p: Route) {
    Walk(q, p) && |p| >= 2 && p[|p| - 1] == q.terminus
  }

  // ---- Soundness --------------------------------------------------------------------

  ghost predicate Sound(q: Query, s: Search) {
    && |s.cursor| == |s.stack|
    && Walk(q, s.stack)
    && (forall i :: 1 <= i < |s.stack| ==> s.stack[i] != q.terminus)
    && (forall r :: r in s.routes ==> IsRoute(q, r))
  }

  lemma ExtendWalk(q: Query, p: Route, next: ResourceId)
    requires Walk(q, p) && p != [] && |p| < q.depthBudget
    requires next !in p && next in q.usable && next in Neighbors(q.adjacency, p[|p| - 1])
    ensures Walk(q, p + [next])
  {
    var e := p + [next];
    forall i | 0 <= i < |e| - 1 ensures e[i + 1] in Neighbors(q.adjacency, e[i]) {
      if i < |p| - 1 {
        assert p[i + 1] in Neighbors(q.adjacency, p[i]);
      }
    }
  }

  lemma StepSound(q: Query, s: Search)
    requires Sound(q, s) && s.stack != []
    ensures Sound(q, Step(q, s))
  {
    var top := |s.stack| - 1;
    var peers := Neighbors(q.adjacency, s.stack[top]);
    if s.cursor[top] < |peers| {
      var next := peers[s.cursor[top]];
      if next !in s.stack && next in q.usable && |s.stack| < q.depthBudget {
        ExtendWalk(q, s.stack, next);
      }
    }
  }

  lemma {:induction false} RunSound(q: Query, s: Search)
    requires Sound(q, s)
    ensures Sound(q, Run(q, s))
    decreases MAX_ROUTE_EXPANSIONS - s.expansions, |s.stack|
  {
    if !Halted(q, s) {
      StepSound(q, s);
      RunSound(q, Step(q, s));
    }
  }

  // ---- Completeness --------------------------------------------------------------------

  /** A route still to be found: it leaves the current path at level k through a
      neighbour the cursor of that level has not passed. */
  ghost predicate PendingAt(q: Query, s: Search, p: Route, k: nat, j: nat)
    requires |s.cursor| == |s.stack|
  {
    && k < |s.stack| && k + 1 < |p|
    && p[..k + 1] == s.stack[..k + 1]
    && s.cursor[k] <= j < |Neighbors(q.adjacency, s.stack[k])|
    && Neighbors(q.adjacency, s.stack[k])[j] == p[k + 1]
  }

  ghost predicate Pending(q: Query, s: Search, p: Route)
    requires |s.cursor| == |s.stack|
  {
    exists k: nat, j: nat :: PendingAt(q, s, p, k, j)
  }

  ghost predicate Complete(q: Query, s: Search)
    requires |s.cursor| == |s.stack|
  {
    forall p :: IsRoute(q, p) ==> p in s.routes || Pending(q, s, p)
  }

  /** The neighbour a route takes at a level is one the search would follow. */
  lemma RouteContinues(q: Query, s: Search, p: Route, k: nat)
    requires IsRoute(q, p) && k + 1 < |p|
    requires |s.stack| == k + 1 && p[..k + 1] == s.stack
    ensures p[k + 1] !in s.stack && p[k + 1] in q.usable && |s.stack| < q.depthBudget
    ensures p[k + 1] == q.terminus ==> p == s.stack + [q.terminus]
  {
    forall i | 0 <= i < |s.stack| ensures s.stack[i] != p[k + 1] {
      assert s.stack[i] == p[..k + 1][i] == p[i];
    }
    if p[k + 1] == q.terminus {
      assert k + 1 == |p| - 1;
      assert p == p[..k + 1] + [p[k + 1]];
    }
  }

  lemma StepKeepsPending(q: Query, s: Search, p: Route, k: nat, j: nat)
    requires |s.cursor| == |s.stack| > 0
    requires IsRoute(q, p) && PendingAt(q, s, p, k, j)
    ensures p in Step(q, s).routes || Pending(q, Step(q, s), p)
  {
    var top := |s.stack| - 1;
    var s' := Step(q, s);
    var peers := Neighbors(q.adjacency, s.stack[top]);
    if k < top {
      assert s'.stack[..k + 1] == s.stack[..k + 1];
      assert PendingAt(q, s', p, k, j);
    } else {
      assert s.stack[..k + 1] == s.stack;
      RouteContinues(q, s, p, k);
      if j > s.cursor[top] {
        assert s'.stack[..k + 1] == s.stack;
        assert PendingAt(q, s', p, k, j);
      } else if p[k + 1] == q.terminus {
        assert s'.routes == s.routes + [p];
      } else {
        PushedStaysPending(q, s, p, k);
      }
    }
  }

  lemma PushedStaysPending(q: Query, s: Search, p: Route, k: nat)
    requires |s.cursor| == |s.stack| == k + 1
    requires IsRoute(q, p) && k + 1 < |p| && p[..k + 1] == s.stack
    requires s.cursor[k] < |Neighbors(q.adjacency, s.stack[k])|
    requires Neighbors(q.adjacency, s.stack[k])[s.cursor[k]] == p[k + 1]
    requires p[k + 1] != q.terminus
    ensures Pending(q, Step(q, s), p)
  {
    RouteContinues(q, s, p, k);
    var s' := Step(q, s);
    assert s'.stack == p[..k + 2];
    assert k + 2 < |p|;
    assert p[k + 1 + 1] in Neighbors(q.adjacency, p[k + 1]);
    var j: nat :| j < |Neighbors(q.adjacency, p[k + 1])| && Neighbors(q.adjacency, p[k + 1])[j] == p[k + 2];
    assert PendingAt(q, s', p, k + 1, j);
  }

  lemma StepComplete(q: Query, s: Search)
    requires |s.cursor| == |s.stack| > 0
    requires Complete(q, s)
    ensures Complete(q, Step(q, s))
  {
    forall p | IsRoute(q, p) ensures p in Step(q, s).routes || Pending(q, Step(q, s), p) {
      if p !in s.routes {
        var k: nat, j: nat :| PendingAt(q, s, p, k, j);
        StepKeepsPending(q, s, p, k, j);
      }
    }
  }

  lemma {:induction false} RunComplete(q: Query, s: Search)
    requires |s.cursor| == |s.stack|
    requires Complete(q, s)
    ensures |Run(q, s).cursor| == |Run(q, s).stack|
    ensures Complete(q, Run(q, s))
    ensures Halted(q, Run(q, s))
    decreases MAX_ROUTE_EXPANSIONS - s.expansions, |s.stack|
  {
    if !Halted(q, s) {
      StepComplete(q, s);
      RunComplete(q, Step(q, s));
    }
  }

  lemma StartComplete(q: Query)
    ensures Complete(q, Start(q))
  {
    forall p | IsRoute(q, p) ensures Pending(q, Start(q), p) {
      assert p[0 + 1] in Neighbors(q.adjacency, p[0]);
      var j: nat :| j < |Neighbors(q.adjacency, p[0])| && Neighbors(q.adjacency, p[0])[j] == p[1];
      assert p[..1] == Start(q).stack[..1];
      assert PendingAt(q, Start(q), p, 0, j);
    }
  }

  lemma RouteEndsUsable(q: Query, p: Route)
    requires IsRoute(q, p)
    ensures q.origin in q.usable && q.terminus in q.usable
  {
    assert p[0] in q.usable && p[|p| - 1] in q.usable;
  }

  /** Every route found is one. */
  lemma FoundAreRoutes(q: Query, r: Route)
    requires r in FoundRoutes(q)
    ensures IsRoute(q, r)
  {
    RunSound(q, Start(q));
  }

  /** A search that ends on an empty stack has found exactly the routes. */
  lemma ExhaustiveFindsAll(q: Query, p: Route)
    requires q.routeBudget > 0 && q.depthBudget > 0
    requires Exhaustive(q)
    ensures p in FoundRoutes(q) <==> IsRoute(q, p)
  {
    if Startable(q) {
      StartComplete(q);
      RunComplete(q, Start(q));
    }
    if p in FoundRoutes(q) {
      FoundAreRoutes(q, p);
    }
    if IsRoute(q, p) {
      RouteEndsUsable(q, p);
    }
  }

  /** The connectivity verdict is exact unless the expansion budget ran out: no
      route reported means none exists, and a reported one is real. */
  lemma SeveredIsExact(q: Query)
    requires q.routeBudget > 0 && q.depthBudget > 0
    ensures FoundRoutes(q) != [] ==> exists p :: IsRoute(q, p)
    ensures FoundRoutes(q) == [] && Run(q, Start(q)).expansions < MAX_ROUTE_EXPANSIONS
            ==> !exists p :: IsRoute(q, p)
  {
    if FoundRoutes(q) != [] {
      FoundAreRoutes(q, FoundRoutes(q)[0]);
    } else if Run(q, Start(q)).expansions < MAX_ROUTE_EXPANSIONS {
      StartComplete(q);
      RunComplete(q, Start(q));
      assert Exhaustive(q);
      forall p ensures !IsRoute(q, p) {
        ExhaustiveFindsAll(q, p);
      }
    }
  }

  // ---- The loop -------------------------------------------------------------------------

  /** `Topology::enumerate_routes`: an explicit stack, a cursor per level and an
      on-path set. The sorted, duplicate-free result is the set of routes. */
  method EnumerateRoutes(q: Query) returns (result: set<Route>)
    ensures result == set r | r in FoundRoutes(q)
    ensures result == {} <==> FoundRoutes(q) == []
    ensures forall r :: r in result ==> IsRoute(q, r)
    ensures Exhaustive(q) && q.routeBudget > 0 && q.depthBudget > 0 ==>
              forall p :: p in result <==> IsRoute(q, p)
  {
    if q.routeBudget == 0 || q.depthBudget == 0 || q.origin !in q.usable || q.terminus !in q.usable {
      result := {};
    } else {
      var routes := SearchLoop(q);
      result := set r | r in routes;
      assert routes != [] ==> routes[0] in result;
    }
    forall r | r in result ensures IsRoute(q, r) {
      FoundAreRoutes(q, r);
    }
    if Exhaustive(q) && q.routeBudget > 0 && q.depthBudget > 0 {
      forall p ensures p in result <==> IsRoute(q, p) {
        ExhaustiveFindsAll(q, p);
      }
    }
  }

  /** Backing out of an exhausted top of the stack. */
  method Pop(stack: Route, onPath: set<ResourceId>) returns (stack': Route, onPath': set<ResourceId>)
    requires stack != [] && Distinct(stack) && (forall x :: x in onPath <==> x in stack)
    ensures stack' == stack[..|stack| - 1]
    ensures Distinct(stack') && (forall x :: x in onPath' <==> x in stack')
  {
    var top := |stack| - 1;
    assert stack == stack[..top] + [stack[top]];
    onPath' := onPath - {stack[top]};
    stack' := stack[..top];
  }

  /** Stepping onto a fresh resource: a route is recorded and backed out of at
      once, anything else stays on the stack. */
  method Descend(q: Query, stack: Route, onPath: set<ResourceId>, cursor: seq<nat>, routes: seq<Route>,
                 next: ResourceId)
    returns (stack': Route, onPath': set<ResourceId>, cursor': seq<nat>, routes': seq<Route>)
    requires stack != [] && Distinct(stack) && (forall x :: x in onPath <==> x in stack) && next !in stack
    ensures next == q.terminus ==> stack' == stack && cursor' == cursor && routes' == routes + [stack + [next]]
    ensures next != q.terminus ==> stack' == stack + [next] && cursor' == cursor + [0] && routes' == routes
    ensures Distinct(stack') && (forall x :: x in onPath' <==> x in stack')
  {
    stack', onPath', cursor', routes' := stack + [next], onPath + {next}, cursor, routes;
    if next == q.terminus {
      routes' := routes + [stack'];
      stack', onPath' := Pop(stack', onPath');
      assert stack' == stack;
    } else {
      cursor' := cursor + [0];
    }
  }

  /** One turn of the loop over the explicit stack. */
  method Turn(q: Query, stack: Route, onPath: set<ResourceId>, cursor: seq<nat>, routes: seq<Route>, expansions: nat)
    returns (stack': Route, onPath': set<ResourceId>, cursor': seq<nat>, routes': seq<Route>, expansions': nat)
    requires |cursor| == |stack| > 0 && Distinct(stack) && (forall x :: x in onPath <==> x in stack)
    ensures Search(stack', cursor', routes', expansions') == Step(q, Search(stack, cursor, routes, expansions))
    ensures Distinct(stack') && (forall x :: x in onPath' <==> x in stack')
  {
    stack', onPath', cursor', routes', expansions' := stack, onPath, cursor, routes, expansions;
    var top := |stack| - 1;
    var peers := Neighbors(q.adjacency, stack[top]);
    if cursor[top] >= |peers| {
      stack', onPath' := Pop(stack, onPath);
      cursor' := cursor[..top];
      return;
    }
    var next := peers[cursor[top]];
    cursor' := cursor[top := cursor[top] + 1];
    expansions' := expansions + 1;
    if next !in onPath && next in q.usable && |stack| < q.depthBudget {
      stack', onPath', cursor', routes' := Descend(q, stack, onPath, cursor', routes, next);
    }
  }

  method SearchLoop(q: Query) returns (routes: seq<Route>)
    requires Startable(q)
    ensures routes == Run(q, Start(q)).routes
  {
    var stack: seq<ResourceId> := [q.origin];
    var onPath := {q.origin};
    var cursor: seq<nat> := [0];
    var expansions := 0;
    routes := [];
    while stack != [] && |routes| < q.routeBudget && expansions < MAX_ROUTE_EXPANSIONS
      invariant |cursor| == |stack| && Distinct(stack)
      invariant forall x :: x in onPath <==> x in stack
      invariant Run(q, Search(stack, cursor, routes, expansions)) == Run(q, Start(q))
      decreases MAX_ROUTE_EXPANSIONS - expansions, |stack|
    {
      stack, onPath, cursor, routes, expansions := Turn(q, stack, onPath, cursor, routes, expansions);
    }
  }
}
