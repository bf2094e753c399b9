/** The declared fabric and the removal validator: capacity, diversity and
    connectivity commitments checked before a resource leaves service. */
module Topology {
  import opened Identity
  import Ordering
  import Capacity
  import Routes

  datatype ResourceStatus = InService | Unavailable | OutOfOrder

  datatype ResourceNode = ResourceNode(target: Target, capacity: U64, reserved: U64, status: ResourceStatus)

  datatype CapacityPool = CapacityPool(required: U64, members: seq<ResourceId>)

  datatype DiversityGroup = DiversityGroup(required: nat, paths: seq<ResourceId>)

  datatype ProtectedRoute = ProtectedRoute(id: GroupId, origin: ResourceId, terminus: ResourceId)

  datatype Fabric = Fabric(
    resources: map<ResourceId, ResourceNode>, paths: map<ResourceId, seq<ResourceId>>,
    groups: map<GroupId, DiversityGroup>, pools: map<GroupId, CapacityPool>,
    routes: seq<ProtectedRoute>, adjacency: Routes.Adjacency)

  const EMPTY: Fabric := Fabric(map[], map[], map[], map[], [], map[])

  /** The commitment a removal would break, in the order the validator looks. */
  datatype Verdict =
    Fine | UnknownResource | ReservationOverCapacity | PoolExhausted | DiversityLost | RouteSevered

  /** Headroom ratio of the policy. */
  datatype Headroom = Headroom(numerator: U64, denominator: U64)

  predicate Serves(f: Fabric, id: ResourceId) {
    id in f.resources && f.resources[id].status == InService
  }

  function OutOfService(f: Fabric): set<ResourceId> {
    set id | id in f.resources && f.resources[id].status != InService
  }

  function Available(n: ResourceNode): U64 {
    if n.reserved < n.capacity then n.capacity - n.reserved else 0
  }

  /** What one pool member contributes when `excluded` is gone. */
  function Contribution(f: Fabric, excluded: set<ResourceId>, id: ResourceId): U64 {
    if id !in excluded && Serves(f, id) then Available(f.resources[id]) else 0
  }

  function Contributions(f: Fabric, excluded: set<ResourceId>, members: seq<ResourceId>): seq<U64> {
    seq(|members|, i requires 0 <= i < |members| => Contribution(f, excluded, members[i]))
  }

  predicate PoolHolds(f: Fabric, excluded: set<ResourceId>, pool: CapacityPool, h: Headroom) {
    Capacity.SaturatingSum(Contributions(f, excluded, pool.members))
    >= Capacity.ApplyHeadroom(pool.required, h.numerator, h.denominator)
  }

  /** A declared path survives when none of its hops is excluded. A hop the
      fabric does not know counts as present. */
  predicate PathSurvives(f: Fabric, excluded: set<ResourceId>, path: ResourceId) {
    path in f.paths && forall i :: 0 <= i < |f.paths[path]| ==> f.paths[path][i] !in excluded
  }

  function SurvivingPaths(f: Fabric, excluded: set<ResourceId>, paths: seq<ResourceId>): nat {
    if paths == [] then 0
    else
      SurvivingPaths(f, excluded, paths[..|paths| - 1])
      + (if PathSurvives(f, excluded, paths[|paths| - 1]) then 1 else 0)
  }

  predicate GroupHolds(f: Fabric, excluded: set<ResourceId>, g: DiversityGroup) {
    SurvivingPaths(f, excluded, g.paths) >= g.required
  }

  function Usable(f: Fabric, excluded: set<ResourceId>): set<ResourceId> {
    set id | id in f.resources && f.resources[id].status == InService && id !in excluded
  }

  function RouteQuery(f: Fabric, excluded: set<ResourceId>, r: ProtectedRoute): Routes.Query {
    Routes.Query(f.adjacency, Usable(f, excluded), r.origin, r.terminus, 1, Routes.MAX_ROUTE_DEPTH)
  }

  predicate RouteHolds(f: Fabric, excluded: set<ResourceId>, r: ProtectedRoute) {
    Routes.FoundRoutes(RouteQuery(f, excluded, r)) != []
  }

  predicate PoolsHold(f: Fabric, excluded: set<ResourceId>, h: Headroom) {
    forall p | p in f.pools :: PoolHolds(f, excluded, f.pools[p], h)
  }

  predicate GroupsHold(f: Fabric, excluded: set<ResourceId>) {
    forall g | g in f.groups :: GroupHolds(f, excluded, f.groups[g])
  }

  predicate RoutesHold(f: Fabric, excluded: set<ResourceId>) {
    forall i | 0 <= i < |f.routes| :: RouteHolds(f, excluded, f.routes[i])
  }

  /** Every commitment holds with `excluded` gone. */
  predicate Commitments(f: Fabric, excluded: set<ResourceId>, h: Headroom) {
    PoolsHold(f, excluded, h) && GroupsHold(f, excluded) && RoutesHold(f, excluded)
  }

  /** Every commitment holds as the fabric stands. */
  predicate CommitmentsHold(f: Fabric, h: Headroom) {
    Commitments(f, OutOfService(f), h)
  }

  predicate Objectionable(f: Fabric, id: ResourceId) {
    id !in f.resources || f.resources[id].reserved > f.resources[id].capacity
  }

  /** `Topology::validate_removal_many`. */
  function Validate(f: Fabric, removing: set<ResourceId>, h: Headroom): Verdict {
    var bad := set id | id in removing && Objectionable(f, id);
    var excluded := OutOfService(f) + removing;
    if removing == {} then UnknownResource
    else if bad != {} then
      (if Ordering.First(bad) !in f.resources then UnknownResource else ReservationOverCapacity)
    else if !PoolsHold(f, excluded, h) then PoolExhausted
    else if !GroupsHold(f, excluded) then DiversityLost
    else if !RoutesHold(f, excluded) then RouteSevered
    else Fine
  }

  /** The validator accepts exactly the non-empty sets of known, not
      over-reserved resources whose removal leaves every commitment standing. */
  lemma ValidateIff(f: Fabric, removing: set<ResourceId>, h: Headroom)
    ensures Validate(f, removing, h) == Fine <==>
              && removing != {}
              && (forall id :: id in removing ==> !Objectionable(f, id))
              && Commitments(f, OutOfService(f) + removing, h)
  {
    var bad := set id | id in removing && Objectionable(f, id);
    if removing != {} && forall id :: id in removing ==> !Objectionable(f, id) {
      assert bad == {};
    }
    forall id | id in removing && Objectionable(f, id) ensures id in bad {
    }
  }

  // ---- What the commitments ask, in the declared numbers --------------------------

  /** In service, not going, and not promised beyond what it has. */
  predicate Gives(f: Fabric, going: set<ResourceId>, id: ResourceId) {
    && id in f.resources && id !in going && f.resources[id].status == InService
    && f.resources[id].reserved <= f.resources[id].capacity
  }

  /** A member contributes exactly its unreserved capacity, or nothing. */
  lemma MemberContributes(f: Fabric, excluded: set<ResourceId>, id: ResourceId)
    ensures Gives(f, excluded, id) ==>
              Contribution(f, excluded, id) + f.resources[id].reserved == f.resources[id].capacity
    ensures !Gives(f, excluded, id) ==> Contribution(f, excluded, id) == 0
  {
  }

  /** What the members still offer, added up without a bound. */
  ghost function Offered(f: Fabric, going: set<ResourceId>, members: seq<ResourceId>): nat {
    if members == [] then 0
    else
      var id := members[|members| - 1];
      Offered(f, going, members[..|members| - 1])
      + if Gives(f, going, id) then f.resources[id].capacity - f.resources[id].reserved else 0
  }

  /** The requirement at the headroom ratio, in unbounded numbers; the two overflow
      cases are those of the 64-bit computation. */
  ghost predicate Covers(offered: nat, required: U64, h: Headroom) {
    if h.denominator == 0 then offered >= required
    else if required * h.numerator > U64_MAX then offered >= U64_MAX
    else required * h.numerator + h.denominator - 1 > U64_MAX || offered * h.denominator >= required * h.numerator
  }

  lemma {:induction false} OfferedIsSum(f: Fabric, excluded: set<ResourceId>, going: set<ResourceId>,
                                        members: seq<ResourceId>)
    requires going <= excluded <= OutOfService(f) + going
    ensures Capacity.Sum(Contributions(f, excluded, members)) == Offered(f, going, members)
  {
    if members != [] {
      var all, id := Contributions(f, excluded, members), members[|members| - 1];
      OfferedIsSum(f, excluded, going, members[..|members| - 1]);
      assert all[..|all| - 1] == Contributions(f, excluded, members[..|members| - 1]);
      MemberContributes(f, excluded, id);
      assert Gives(f, excluded, id) <==> Gives(f, going, id);
    }
  }

  lemma CoversExactly(values: seq<U64>, required: U64, h: Headroom)
    ensures Capacity.SaturatingSum(values) >= Capacity.ApplyHeadroom(required, h.numerator, h.denominator)
       <==> Covers(Capacity.Sum(values), required, h)
  {
    Capacity.SaturatingSumIsCappedSum(values);
    if h.denominator == 0 {
    } else if required * h.numerator > U64_MAX {
      Capacity.HeadroomSaturates(required, h.numerator, h.denominator);
    } else if required * h.numerator + h.denominator - 1 > U64_MAX {
      Capacity.HeadroomExact(required, h.numerator, h.denominator);
    } else {
      Capacity.PoolComparisonExact(values, required, h.numerator, h.denominator);
    }
  }

  /** A pool holds exactly when the unreserved capacity that stays covers it. */
  lemma PoolHoldsIff(f: Fabric, going: set<ResourceId>, pool: CapacityPool, h: Headroom)
    ensures PoolHolds(f, OutOfService(f) + going, pool, h) <==>
              Covers(Offered(f, going, pool.members), pool.required, h)
  {
    var excluded := OutOfService(f) + going;
    OfferedIsSum(f, excluded, going, pool.members);
    CoversExactly(Contributions(f, excluded, pool.members), pool.required, h);
  }

  /** The hop neither goes nor is known to be out of service. */
  predicate Stays(f: Fabric, going: set<ResourceId>, hop: ResourceId) {
    hop !in going && (hop in f.resources ==> f.resources[hop].status == InService)
  }

  /** Which of the group's paths have every hop left. */
  ghost function PathsLeft(f: Fabric, going: set<ResourceId>, paths: seq<ResourceId>): set<nat> {
    set i: nat | i < |paths| && paths[i] in f.paths
                 && forall k :: 0 <= k < |f.paths[paths[i]]| ==> Stays(f, going, f.paths[paths[i]][k])
  }

  lemma StaysIff(f: Fabric, going: set<ResourceId>, path: ResourceId)
    requires path in f.paths
    ensures PathSurvives(f, OutOfService(f) + going, path) <==>
              forall k :: 0 <= k < |f.paths[path]| ==> Stays(f, going, f.paths[path][k])
  {
    var hops := f.paths[path];
    assert forall hop :: hop !in OutOfService(f) + going <==> Stays(f, going, hop);
    assert forall k :: 0 <= k < |hops| ==> (hops[k] !in OutOfService(f) + going <==> Stays(f, going, hops[k]));
  }

  lemma {:induction false} PathsLeftCounted(f: Fabric, going: set<ResourceId>, paths: seq<ResourceId>)
    ensures SurvivingPaths(f, OutOfService(f) + going, paths) == |PathsLeft(f, going, paths)|
  {
    if paths != [] {
      var n := |paths| - 1;
      var shorter := paths[..n];
      PathsLeftCounted(f, going, shorter);
      if paths[n] in f.paths {
        StaysIff(f, going, paths[n]);
      }
      if PathSurvives(f, OutOfService(f) + going, paths[n]) {
        assert PathsLeft(f, going, paths) == PathsLeft(f, going, shorter) + {n};
      } else {
        assert PathsLeft(f, going, paths) == PathsLeft(f, going, shorter);
      }
    }
  }

  /** A path through the fabric that stays, from end to end of a protected route. */
  ghost predicate Connects(f: Fabric, going: set<ResourceId>, r: ProtectedRoute, p: Routes.Route) {
    && 2 <= |p| <= Routes.MAX_ROUTE_DEPTH && p[0] == r.origin && p[|p| - 1] == r.terminus
    && (forall i :: 0 <= i < |p| ==> p[i] in f.resources && Stays(f, going, p[i]))
    && (forall i, j :: 0 <= i < j < |p| ==> p[i] != p[j])
    && (forall i :: 0 <= i < |p| - 1 ==> p[i + 1] in Routes.Neighbors(f.adjacency, p[i]))
  }

  ghost predicate Connected(f: Fabric, going: set<ResourceId>, r: ProtectedRoute) {
    exists p :: Connects(f, going, r, p)
  }

  lemma ConnectsIff(f: Fabric, going: set<ResourceId>, r: ProtectedRoute, p: Routes.Route)
    ensures Routes.IsRoute(RouteQuery(f, OutOfService(f) + going, r), p) <==> Connects(f, going, r, p)
  {
    var usable := Usable(f, OutOfService(f) + going);
    assert forall id :: id in usable <==> id in f.resources && Stays(f, going, id);
    assert forall i :: 0 <= i < |p| ==> (p[i] in usable <==> p[i] in f.resources && Stays(f, going, p[i]));
  }

  /** The search for the route stopped on its expansion budget. */
  predicate CutShort(f: Fabric, going: set<ResourceId>, r: ProtectedRoute) {
    var q := RouteQuery(f, OutOfService(f) + going, r);
    Routes.Run(q, Routes.Start(q)).expansions >= Routes.MAX_ROUTE_EXPANSIONS
  }

  /** A route that is found connects its ends; one that is not found does not exist,
      unless the search was cut short. */
  lemma RouteHoldsIff(f: Fabric, going: set<ResourceId>, r: ProtectedRoute)
    ensures RouteHolds(f, OutOfService(f) + going, r) ==> Connected(f, going, r)
    ensures !RouteHolds(f, OutOfService(f) + going, r) && !CutShort(f, going, r) ==> !Connected(f, going, r)
  {
    var q := RouteQuery(f, OutOfService(f) + going, r);
    Routes.SeveredIsExact(q);
    if RouteHolds(f, OutOfService(f) + going, r) {
      var p :| Routes.IsRoute(q, p);
      ConnectsIff(f, going, r, p);
    } else if !CutShort(f, going, r) {
      forall p ensures !Connects(f, going, r, p) {
        ConnectsIff(f, going, r, p);
      }
    }
  }

  /** Known resources, none promised beyond its capacity, and at least one. */
  ghost predicate Named(f: Fabric, removing: set<ResourceId>) {
    && removing != {}
    && forall id :: id in removing ==> id in f.resources && f.resources[id].reserved <= f.resources[id].capacity
  }

  ghost predicate AllCovered(f: Fabric, removing: set<ResourceId>, h: Headroom) {
    forall p :: p in f.pools ==> Covers(Offered(f, removing, f.pools[p].members), f.pools[p].required, h)
  }

  ghost predicate AllDiverse(f: Fabric, removing: set<ResourceId>) {
    forall g :: g in f.groups ==> |PathsLeft(f, removing, f.groups[g].paths)| >= f.groups[g].required
  }

  ghost predicate AllConnected(f: Fabric, removing: set<ResourceId>) {
    forall i :: 0 <= i < |f.routes| ==> Connected(f, removing, f.routes[i])
  }

  lemma PoolsHoldIff(f: Fabric, removing: set<ResourceId>, h: Headroom)
    ensures PoolsHold(f, OutOfService(f) + removing, h) <==> AllCovered(f, removing, h)
  {
    forall p | p in f.pools
      ensures PoolHolds(f, OutOfService(f) + removing, f.pools[p], h) <==>
              Covers(Offered(f, removing, f.pools[p].members), f.pools[p].required, h)
    {
      PoolHoldsIff(f, removing, f.pools[p], h);
    }
  }

  lemma GroupsHoldIff(f: Fabric, removing: set<ResourceId>)
    ensures GroupsHold(f, OutOfService(f) + removing) <==> AllDiverse(f, removing)
  {
    forall g | g in f.groups
      ensures GroupHolds(f, OutOfService(f) + removing, f.groups[g]) <==>
              |PathsLeft(f, removing, f.groups[g].paths)| >= f.groups[g].required
    {
      PathsLeftCounted(f, removing, f.groups[g].paths);
    }
  }

  lemma RoutesHoldIff(f: Fabric, removing: set<ResourceId>)
    ensures RoutesHold(f, OutOfService(f) + removing) ==> AllConnected(f, removing)
    ensures !RoutesHold(f, OutOfService(f) + removing) ==>
              exists i :: 0 <= i < |f.routes| &&
                (CutShort(f, removing, f.routes[i]) || !Connected(f, removing, f.routes[i]))
  {
    forall i | 0 <= i < |f.routes|
      ensures RouteHolds(f, OutOfService(f) + removing, f.routes[i]) ==> Connected(f, removing, f.routes[i])
      ensures !RouteHolds(f, OutOfService(f) + removing, f.routes[i]) ==>
                CutShort(f, removing, f.routes[i]) || !Connected(f, removing, f.routes[i])
    {
      RouteHoldsIff(f, removing, f.routes[i]);
    }
  }

  /** The verdict is about declared numbers: unreserved capacity, paths with every
      hop left, and paths through the graph. */
  ghost predicate Judges(f: Fabric, removing: set<ResourceId>, h: Headroom, verdict: Verdict) {
    && (verdict == UnknownResource || verdict == ReservationOverCapacity <==> !Named(f, removing))
    && (verdict == PoolExhausted <==> Named(f, removing) && !AllCovered(f, removing, h))
    && (verdict == DiversityLost <==>
          Named(f, removing) && AllCovered(f, removing, h) && !AllDiverse(f, removing))
    && (verdict == Fine ==> AllConnected(f, removing))
    && (verdict == RouteSevered ==>
          exists i :: 0 <= i < |f.routes| &&
            (CutShort(f, removing, f.routes[i]) || !Connected(f, removing, f.routes[i])))
  }

  lemma ValidateJudges(f: Fabric, removing: set<ResourceId>, h: Headroom)
    ensures Judges(f, removing, h, Validate(f, removing, h))
  {
    var bad := set id | id in removing && Objectionable(f, id);
    forall id | id in removing && Objectionable(f, id) ensures id in bad {
    }
    assert Named(f, removing) <==> removing != {} && bad == {};
    PoolsHoldIff(f, removing, h);
    GroupsHoldIff(f, removing);
    RoutesHoldIff(f, removing);
  }

  /** Which of the two objections is reported: that of the first bad id. */
  lemma FirstObjectionDecides(f: Fabric, removing: set<ResourceId>, h: Headroom, id: ResourceId)
    requires id in removing && (id in f.resources ==> f.resources[id].reserved > f.resources[id].capacity)
    requires forall x :: x in removing && Ordering.StringLess(x, id) ==>
               x in f.resources && f.resources[x].reserved <= f.resources[x].capacity
    ensures Validate(f, removing, h) == if id in f.resources then ReservationOverCapacity else UnknownResource
  {
    var bad := set x | x in removing && Objectionable(f, x);
    assert id in bad;
    forall y | y in bad ensures y == id || Ordering.StringLess(id, y) {
      Ordering.StringLessTotal(id, y);
    }
    assert Ordering.IsFirst(bad, id);
    Ordering.FirstUnique(bad, Ordering.First(bad), id);
  }

  // ---- Removal in sequence and together ------------------------------------------

  function SetStatus(f: Fabric, id: ResourceId, status: ResourceStatus): Fabric {
    if id in f.resources then f.(resources := f.resources[id := f.resources[id].(status := status)]) else f
  }

  function TakeOut(f: Fabric, s: set<ResourceId>): Fabric {
    f.(resources := map id | id in f.resources ::
         if id in s then f.resources[id].(status := Unavailable) else f.resources[id])
  }

  /** Two fabrics that differ at most in the status of excluded resources. */
  ghost predicate SameOutside(f: Fabric, g: Fabric, excluded: set<ResourceId>) {
    && g.paths == f.paths && g.groups == f.groups && g.pools == f.pools
    && g.routes == f.routes && g.adjacency == f.adjacency
    && g.resources.Keys == f.resources.Keys
    && (forall id :: id in f.resources && id !in excluded ==> g.resources[id] == f.resources[id])
  }

  /** The commitments only look at what is not excluded. */
  lemma CommitmentsLookOutside(f: Fabric, g: Fabric, excluded: set<ResourceId>, h: Headroom)
    requires SameOutside(f, g, excluded)
    ensures Commitments(f, excluded, h) <==> Commitments(g, excluded, h)
  {
    forall p | p in f.pools ensures PoolHolds(f, excluded, f.pools[p], h) <==> PoolHolds(g, excluded, g.pools[p], h) {
      assert Contributions(f, excluded, f.pools[p].members) == Contributions(g, excluded, g.pools[p].members);
    }
    forall x | x in f.groups ensures GroupHolds(f, excluded, f.groups[x]) <==> GroupHolds(g, excluded, g.groups[x]) {
      SurvivorsLookOutside(f, g, excluded, f.groups[x].paths);
    }
    assert Usable(f, excluded) == Usable(g, excluded);
    forall i | 0 <= i < |f.routes|
      ensures RouteHolds(f, excluded, f.routes[i]) <==> RouteHolds(g, excluded, g.routes[i])
    {
      assert RouteQuery(f, excluded, f.routes[i]) == RouteQuery(g, excluded, g.routes[i]);
    }
  }

  lemma {:induction false} SurvivorsLookOutside(f: Fabric, g: Fabric, excluded: set<ResourceId>, paths: seq<ResourceId>)
    requires f.paths == g.paths
    ensures SurvivingPaths(f, excluded, paths) == SurvivingPaths(g, excluded, paths)
  {
    if paths != [] {
      SurvivorsLookOutside(f, g, excluded, paths[..|paths| - 1]);
    }
  }

  /** Validating {x} with S already taken out asks the same question about the
      commitments as validating S and x together. */
  lemma SequentialIsJoint(f: Fabric, s: set<ResourceId>, x: ResourceId, h: Headroom)
    requires s <= f.resources.Keys
    ensures Commitments(TakeOut(f, s), OutOfService(TakeOut(f, s)) + {x}, h)
            <==> Commitments(f, OutOfService(f) + (s + {x}), h)
  {
    var g := TakeOut(f, s);
    assert OutOfService(g) + {x} == OutOfService(f) + (s + {x});
    CommitmentsLookOutside(f, g, OutOfService(g) + {x}, h);
  }

  /** A passing set leaves a fabric in which every commitment holds. */
  lemma TakenOutHolds(f: Fabric, s: set<ResourceId>, h: Headroom)
    requires Validate(f, s, h) == Fine
    ensures CommitmentsHold(TakeOut(f, s), h)
  {
    ValidateIff(f, s, h);
    var g := TakeOut(f, s);
    assert s <= f.resources.Keys by {
      forall id | id in s ensures id in f.resources {
        assert !Objectionable(f, id);
      }
    }
    assert OutOfService(g) == OutOfService(f) + s;
    CommitmentsLookOutside(f, g, OutOfService(g), h);
  }

  /** Taking one validated resource out keeps every commitment. */
  lemma OneOutHolds(f: Fabric, id: ResourceId, h: Headroom)
    requires Validate(f, {id}, h) == Fine
    ensures CommitmentsHold(SetStatus(f, id, Unavailable), h)
  {
    ValidateIff(f, {id}, h);
    assert !Objectionable(f, id);
    assert TakeOut(f, {id}).resources == SetStatus(f, id, Unavailable).resources;
    TakenOutHolds(f, {id}, h);
  }

  lemma {:induction false} SumMonotone(a: seq<U64>, b: seq<U64>)
    requires |a| == |b| && forall i :: 0 <= i < |a| ==> a[i] <= b[i]
    ensures Capacity.Sum(a) <= Capacity.Sum(b)
  {
    if a != [] {
      SumMonotone(a[..|a| - 1], b[..|b| - 1]);
    }
  }

  lemma PoolMonotone(f: Fabric, fewer: set<ResourceId>, more: set<ResourceId>, pool: CapacityPool, h: Headroom)
    requires fewer <= more && PoolHolds(f, more, pool, h)
    ensures PoolHolds(f, fewer, pool, h)
  {
    var a := Contributions(f, more, pool.members);
    var b := Contributions(f, fewer, pool.members);
    SumMonotone(a, b);
    Capacity.SaturatingSumIsCappedSum(a);
    Capacity.SaturatingSumIsCappedSum(b);
  }

  lemma {:induction false} SurvivorsMonotone(f: Fabric, fewer: set<ResourceId>, more: set<ResourceId>,
                                             paths: seq<ResourceId>)
    requires fewer <= more
    ensures SurvivingPaths(f, more, paths) <= SurvivingPaths(f, fewer, paths)
  {
    if paths != [] {
      SurvivorsMonotone(f, fewer, more, paths[..|paths| - 1]);
    }
  }

  /** For capacity and diversity a passing set implies every smaller set passes. */
  lemma SmallerSetPasses(f: Fabric, fewer: set<ResourceId>, more: set<ResourceId>, h: Headroom)
    requires fewer <= more
    requires PoolsHold(f, OutOfService(f) + more, h) && GroupsHold(f, OutOfService(f) + more)
    ensures PoolsHold(f, OutOfService(f) + fewer, h) && GroupsHold(f, OutOfService(f) + fewer)
  {
    forall p | p in f.pools ensures PoolHolds(f, OutOfService(f) + fewer, f.pools[p], h) {
      PoolMonotone(f, OutOfService(f) + fewer, OutOfService(f) + more, f.pools[p], h);
    }
    forall g | g in f.groups ensures GroupHolds(f, OutOfService(f) + fewer, f.groups[g]) {
      SurvivorsMonotone(f, OutOfService(f) + fewer, OutOfService(f) + more, f.groups[g].paths);
    }
  }

  // ---- Building the fabric --------------------------------------------------------

  const MAX_RESOURCES: nat := 4096
  const MAX_PATHS: nat := 16384
  const MAX_PATH_HOPS: nat := 64
  const MAX_GROUPS: nat := 1024
  const MAX_PROTECTED_ROUTES: nat := 1024

  datatype FabricOp =
    | AddResource(node: ResourceNode)
    | AddEdge(a: ResourceId, b: ResourceId)
    | AddPath(path: ResourceId, hops: seq<ResourceId>)
    | AddGroup(group: GroupId, commitment: DiversityGroup)
    | AddPool(pool: GroupId, capacity: CapacityPool)
    | AddRoute(route: ProtectedRoute)
    | ReportStatus(resource: ResourceId, status: ResourceStatus)

  predicate NoRepeat(hops: seq<ResourceId>) {
    forall i, j :: 0 <= i < j < |hops| ==> hops[i] != hops[j]
  }

  /** The conditions under which the fabric takes an operation. */
  predicate Accepts(f: Fabric, op: FabricOp) {
    match op
    case AddResource(n) => n.target.id != "" && |f.resources| < MAX_RESOURCES && n.target.id !in f.resources
    case AddEdge(a, b) => a != b && a in f.resources && b in f.resources
    case AddPath(p, hops) =>
      p != "" && 0 < |hops| <= MAX_PATH_HOPS && |f.paths| < MAX_PATHS && NoRepeat(hops) && p !in f.paths
    case AddGroup(g, c) =>
      g != "" && 0 < c.required <= |c.paths| && |f.groups| < MAX_GROUPS && g !in f.groups
    case AddPool(p, c) => p != "" && c.members != [] && |f.pools| < MAX_GROUPS && p !in f.pools
    case AddRoute(r) =>
      && r.id != "" && r.origin != r.terminus && |f.routes| < MAX_PROTECTED_ROUTES
      && forall i :: 0 <= i < |f.routes| ==> f.routes[i].id != r.id
    case ReportStatus(id, _) => id in f.resources
  }

  /** Sorted insertion without duplicates, at the lower bound. */
  function InsertSorted(peers: seq<ResourceId>, peer: ResourceId): seq<ResourceId> {
    if peers == [] then [peer]
    else if peers[0] == peer then peers
    else if Ordering.StringLess(peer, peers[0]) then [peer] + peers
    else [peers[0]] + InsertSorted(peers[1..], peer)
  }

  function Link(adjacency: Routes.Adjacency, a: ResourceId, b: ResourceId): Routes.Adjacency {
    adjacency[a := InsertSorted(Routes.Neighbors(adjacency, a), b)]
  }

  /** The fabric with the declaration in it. */
  function Declare(f: Fabric, op: FabricOp): Fabric {
    match op
    case AddResource(n) => f.(resources := f.resources[n.target.id := n])
    case AddEdge(a, b) => f.(adjacency := Link(Link(f.adjacency, a, b), b, a))
    case AddPath(p, hops) => f.(paths := f.paths[p := hops])
    case AddGroup(g, c) => f.(groups := f.groups[g := c])
    case AddPool(p, c) => f.(pools := f.pools[p := c])
    case AddRoute(r) => f.(routes := f.routes + [r])
    case ReportStatus(id, status) => SetStatus(f, id, status)
  }

  /** One topology operation; a refused one changes nothing. */
  function Apply(f: Fabric, op: FabricOp): Fabric {
    if Accepts(f, op) then Declare(f, op) else f
  }

  ghost predicate StrictlySorted(peers: seq<ResourceId>) {
    forall i, j :: 0 <= i < j < |peers| ==> Ordering.StringLess(peers[i], peers[j])
  }

  /** The adjacency graph: known nodes, sorted neighbour lists without
      duplicates or self edges, and every edge recorded at both ends. */
  ghost predicate WellFormedGraph(f: Fabric) {
    && (forall a :: a in f.adjacency ==> a in f.resources && GoodPeers(f, a))
    && (forall a, b :: b in Routes.Neighbors(f.adjacency, a) ==> a in Routes.Neighbors(f.adjacency, b))
  }

  ghost predicate GoodPeers(f: Fabric, a: ResourceId) {
    && StrictlySorted(Routes.Neighbors(f.adjacency, a))
    && a !in Routes.Neighbors(f.adjacency, a)
  }

  lemma {:induction false} InsertSortedFacts(peers: seq<ResourceId>, peer: ResourceId)
    requires StrictlySorted(peers)
    ensures forall x :: x in InsertSorted(peers, peer) <==> x in peers || x == peer
    ensures StrictlySorted(InsertSorted(peers, peer))
  {
    if peers != [] && peers[0] != peer {
      Ordering.StringLessTotal(peer, peers[0]);
      assert forall x :: x in peers <==> x == peers[0] || x in peers[1..];
      if Ordering.StringLess(peer, peers[0]) {
        forall j | 0 < j < |peers| ensures Ordering.StringLess(peer, peers[j]) {
          Ordering.StringLessTransitive(peer, peers[0], peers[j]);
        }
      } else {
        var rest := InsertSorted(peers[1..], peer);
        InsertSortedFacts(peers[1..], peer);
        forall j | 0 <= j < |rest| ensures Ordering.StringLess(peers[0], rest[j]) {
          assert rest[j] in rest;
          if rest[j] != peer {
            var i :| 0 <= i < |peers[1..]| && peers[1..][i] == rest[j];
            assert peers[i + 1] == rest[j];
          }
        }
      }
    }
  }

  /** Adding an edge changes two neighbour lists, by one element each. */
  lemma EdgeNeighbors(f: Fabric, a: ResourceId, b: ResourceId, x: ResourceId)
    requires WellFormedGraph(f) && Accepts(f, AddEdge(a, b))
    ensures var g := Apply(f, AddEdge(a, b));
            && StrictlySorted(Routes.Neighbors(g.adjacency, x))
            && forall y :: y in Routes.Neighbors(g.adjacency, x) <==>
                 y in Routes.Neighbors(f.adjacency, x) || (x == a && y == b) || (x == b && y == a)
  {
    var g := Apply(f, AddEdge(a, b));
    var peers := Routes.Neighbors(f.adjacency, x);
    assert x in f.adjacency ==> GoodPeers(f, x);
    if x == a {
      InsertSortedFacts(peers, b);
      assert Routes.Neighbors(g.adjacency, x) == InsertSorted(peers, b);
    } else if x == b {
      InsertSortedFacts(peers, a);
      assert Routes.Neighbors(g.adjacency, x) == InsertSorted(peers, a);
    } else {
      assert Routes.Neighbors(g.adjacency, x) == peers;
    }
  }

  /** Every topology operation keeps the graph well formed. */
  lemma ApplyKeepsGraph(f: Fabric, op: FabricOp)
    requires WellFormedGraph(f)
    ensures WellFormedGraph(Apply(f, op))
  {
    var g := Apply(f, op);
    forall x | x in g.adjacency ensures x in g.resources && GoodPeers(g, x) {
      if Accepts(f, op) && op.AddEdge? {
        EdgeNeighbors(f, op.a, op.b, x);
      }
      assert x in f.adjacency ==> GoodPeers(f, x);
    }
    forall x, y | y in Routes.Neighbors(g.adjacency, x) ensures x in Routes.Neighbors(g.adjacency, y) {
      if Accepts(f, op) && op.AddEdge? {
        EdgeNeighbors(f, op.a, op.b, x);
        EdgeNeighbors(f, op.a, op.b, y);
      }
    }
  }

  // ---- What a fabric is, however it was built ----------------------------------------

  ghost predicate ResourcesOk(resources: map<ResourceId, ResourceNode>) {
    |resources| <= MAX_RESOURCES && forall id :: id in resources ==> id != "" && resources[id].target.id == id
  }

  ghost predicate PathsOk(paths: map<ResourceId, seq<ResourceId>>) {
    && |paths| <= MAX_PATHS
    && forall p :: p in paths ==> p != "" && 0 < |paths[p]| <= MAX_PATH_HOPS && NoRepeat(paths[p])
  }

  ghost predicate GroupsOk(groups: map<GroupId, DiversityGroup>) {
    && |groups| <= MAX_GROUPS
    && forall g :: g in groups ==> g != "" && 0 < groups[g].required <= |groups[g].paths|
  }

  ghost predicate PoolsOk(pools: map<GroupId, CapacityPool>) {
    |pools| <= MAX_GROUPS && forall p :: p in pools ==> p != "" && pools[p].members != []
  }

  ghost predicate RoutesOk(routes: seq<ProtectedRoute>) {
    && |routes| <= MAX_PROTECTED_ROUTES
    && (forall i :: 0 <= i < |routes| ==> routes[i].id != "" && routes[i].origin != routes[i].terminus)
    && (forall i, j :: 0 <= i < j < |routes| ==> routes[i].id != routes[j].id)
  }

  /** Every declaration is within its bounds, under its own name, and satisfiable. */
  ghost predicate WellDeclared(f: Fabric) {
    && ResourcesOk(f.resources) && PathsOk(f.paths) && GroupsOk(f.groups) && PoolsOk(f.pools)
    && RoutesOk(f.routes) && WellFormedGraph(f)
  }

  /** The name is not taken; an edge may be declared again. */
  ghost predicate IsNew(f: Fabric, op: FabricOp) {
    match op
    case AddResource(n) => n.target.id !in f.resources
    case AddEdge(_, _) => true
    case AddPath(p, _) => p !in f.paths
    case AddGroup(g, _) => g !in f.groups
    case AddPool(p, _) => p !in f.pools
    case AddRoute(r) => forall i :: 0 <= i < |f.routes| ==> f.routes[i].id != r.id
    case ReportStatus(id, _) => id in f.resources
  }

  lemma OneMore<K, V>(m: map<K, V>, k: K, v: V)
    requires k !in m
    ensures |m[k := v]| == |m| + 1
  {
    assert m[k := v].Keys == m.Keys + {k};
  }

  lemma OneChanged<K, V>(m: map<K, V>, k: K, v: V)
    requires k in m
    ensures |m[k := v]| == |m|
  {
    assert m[k := v].Keys == m.Keys;
  }

  /** A self edge or an edge to an unknown resource spoils the graph. */
  lemma BadEdge(f: Fabric, a: ResourceId, b: ResourceId)
    requires WellFormedGraph(f) && !Accepts(f, AddEdge(a, b))
    ensures !WellFormedGraph(Declare(f, AddEdge(a, b)))
  {
    var g := Declare(f, AddEdge(a, b));
    assert a in g.adjacency && b in g.adjacency;
    if a == b {
      var peers := Routes.Neighbors(f.adjacency, a);
      assert a in f.adjacency ==> GoodPeers(f, a);
      InsertSortedFacts(peers, a);
      InsertSortedFacts(InsertSorted(peers, a), a);
      assert !GoodPeers(g, a);
    }
  }

  /** A declaration is taken exactly when its name is new and the fabric with it is
      well declared. */
  lemma AcceptsIff(f: Fabric, op: FabricOp)
    requires WellDeclared(f)
    ensures Accepts(f, op) <==> IsNew(f, op) && WellDeclared(Declare(f, op))
  {
    if Accepts(f, op) {
      ApplyKeepsGraph(f, op);
      DeclaredOk(f, op);
    } else if IsNew(f, op) {
      RefusedIsBad(f, op);
    }
  }

  lemma DeclaredOk(f: Fabric, op: FabricOp)
    requires WellDeclared(f) && Accepts(f, op)
    ensures var g := Declare(f, op);
            ResourcesOk(g.resources) && PathsOk(g.paths) && GroupsOk(g.groups) && PoolsOk(g.pools) && RoutesOk(g.routes)
  {
    match op
    case AddResource(n) => ResourceAdded(f, n);
    case AddEdge(_, _) =>
    case AddPath(p, hops) => PathAdded(f, p, hops);
    case AddGroup(g, c) => GroupAdded(f, g, c);
    case AddPool(p, c) => PoolAdded(f, p, c);
    case AddRoute(r) =>
    case ReportStatus(id, status) => OneChanged(f.resources, id, f.resources[id].(status := status));
  }

  lemma ResourceAdded(f: Fabric, n: ResourceNode)
    requires ResourcesOk(f.resources) && Accepts(f, AddResource(n))
    ensures ResourcesOk(Declare(f, AddResource(n)).resources)
  {
    OneMore(f.resources, n.target.id, n);
  }

  lemma PathAdded(f: Fabric, p: ResourceId, hops: seq<ResourceId>)
    requires PathsOk(f.paths) && Accepts(f, AddPath(p, hops))
    ensures PathsOk(Declare(f, AddPath(p, hops)).paths)
  {
    OneMore(f.paths, p, hops);
  }

  lemma GroupAdded(f: Fabric, g: GroupId, c: DiversityGroup)
    requires GroupsOk(f.groups) && Accepts(f, AddGroup(g, c))
    ensures GroupsOk(Declare(f, AddGroup(g, c)).groups)
  {
    OneMore(f.groups, g, c);
  }

  lemma PoolAdded(f: Fabric, p: GroupId, c: CapacityPool)
    requires PoolsOk(f.pools) && Accepts(f, AddPool(p, c))
    ensures PoolsOk(Declare(f, AddPool(p, c)).pools)
  {
    OneMore(f.pools, p, c);
  }

  lemma RefusedIsBad(f: Fabric, op: FabricOp)
    requires WellDeclared(f) && !Accepts(f, op) && IsNew(f, op)
    ensures !WellDeclared(Declare(f, op))
  {
    var g := Declare(f, op);
    match op
    case AddResource(n) =>
      OneMore(f.resources, n.target.id, n);
      assert n.target.id in g.resources;
    case AddEdge(a, b) => BadEdge(f, a, b);
    case AddPath(p, hops) =>
      OneMore(f.paths, p, hops);
      assert p in g.paths;
    case AddGroup(x, c) =>
      OneMore(f.groups, x, c);
      assert x in g.groups;
    case AddPool(p, c) =>
      OneMore(f.pools, p, c);
      assert p in g.pools;
    case AddRoute(r) => assert g.routes[|f.routes|] == r;
  }

  function Built(ops: seq<FabricOp>): Fabric {
    if ops == [] then EMPTY else Apply(Built(ops[..|ops| - 1]), ops[|ops| - 1])
  }

  /** Whatever is declared and reported, in whatever order, the fabric is well declared. */
  lemma {:induction false} BuiltIsWellDeclared(ops: seq<FabricOp>)
    ensures WellDeclared(Built(ops))
  {
    if ops != [] {
      BuiltIsWellDeclared(ops[..|ops| - 1]);
      AcceptsIff(Built(ops[..|ops| - 1]), ops[|ops| - 1]);
    }
  }

  // ---- The loops --------------------------------------------------------------------

  /** `Topology::available_pool_capacity`. */
  method AvailablePoolCapacity(f: Fabric, pool: CapacityPool, excluded: set<ResourceId>) returns (total: U64)
    ensures total == Capacity.SaturatingSum(Contributions(f, excluded, pool.members))
    ensures total == Capacity.Min(Offered(f, excluded, pool.members), U64_MAX)
  {
    ghost var all := Contributions(f, excluded, pool.members);
    total := 0;
    var i := 0;
    while i < |pool.members|
      invariant 0 <= i <= |pool.members|
      invariant total == Capacity.SaturatingSum(all[..i])
    {
      var member := pool.members[i];
      assert all[..i + 1][..i] == all[..i];
      if member !in excluded && member in f.resources && f.resources[member].status == InService {
        var sum := Capacity.AddChecked(total, Available(f.resources[member]));
        total := if sum.Some? then sum.value else U64_MAX;
      }
      i := i + 1;
    }
    assert all[..|all|] == all;
    Capacity.SaturatingSumIsCappedSum(all);
    OfferedIsSum(f, excluded, excluded, pool.members);
  }

  /** The redundancy count of one group. */
  method CountSurvivingPaths(f: Fabric, excluded: set<ResourceId>, paths: seq<ResourceId>) returns (available: nat)
    ensures available == SurvivingPaths(f, excluded, paths)
  {
    available := 0;
    var i := 0;
    while i < |paths|
      invariant 0 <= i <= |paths|
      invariant available == SurvivingPaths(f, excluded, paths[..i])
    {
      assert paths[..i + 1][..i] == paths[..i];
      if paths[i] in f.paths {
        var hops := f.paths[paths[i]];
        var usable := true;
        var k := 0;
        while k < |hops| && usable
          invariant 0 <= k <= |hops|
          invariant usable <==> forall j :: 0 <= j < k ==> hops[j] !in excluded
        {
          usable := hops[k] !in excluded;
          k := k + 1;
        }
        if usable {
          available := available + 1;
        }
      }
      i := i + 1;
    }
    assert paths[..|paths|] == paths;
  }

  method CheckPools(f: Fabric, excluded: set<ResourceId>, h: Headroom) returns (ok: bool)
    ensures ok <==> PoolsHold(f, excluded, h)
  {
    var pending := f.pools.Keys;
    ok := true;
    while pending != {}
      invariant pending <= f.pools.Keys
      invariant forall p :: p in f.pools && p !in pending ==> PoolHolds(f, excluded, f.pools[p], h)
      decreases |pending|
    {
      var p := Ordering.First(pending);
      var remaining := AvailablePoolCapacity(f, f.pools[p], excluded);
      if remaining < Capacity.ApplyHeadroom(f.pools[p].required, h.numerator, h.denominator) {
        return false;
      }
      pending := pending - {p};
    }
  }

  method CheckGroups(f: Fabric, excluded: set<ResourceId>) returns (ok: bool)
    ensures ok <==> GroupsHold(f, excluded)
  {
    var pending := f.groups.Keys;
    ok := true;
    while pending != {}
      invariant pending <= f.groups.Keys
      invariant forall g :: g in f.groups && g !in pending ==> GroupHolds(f, excluded, f.groups[g])
      decreases |pending|
    {
      var g := Ordering.First(pending);
      var available := CountSurvivingPaths(f, excluded, f.groups[g].paths);
      if available < f.groups[g].required {
        return false;
      }
      pending := pending - {g};
    }
  }

  method CheckRoutes(f: Fabric, excluded: set<ResourceId>) returns (ok: bool)
    ensures ok <==> RoutesHold(f, excluded)
  {
    var i := 0;
    ok := true;
    while i < |f.routes|
      invariant 0 <= i <= |f.routes|
      invariant forall k :: 0 <= k < i ==> RouteHolds(f, excluded, f.routes[k])
    {
      var candidates := Routes.EnumerateRoutes(RouteQuery(f, excluded, f.routes[i]));
      if candidates == {} {
        return false;
      }
      i := i + 1;
    }
  }

  /** The screening loop: the first objectionable resource in id order decides. */
  method Screen(f: Fabric, removing: set<ResourceId>) returns (verdict: Verdict)
    ensures var bad := set id | id in removing && Objectionable(f, id);
            verdict == if bad == {} then Fine
                       else if Ordering.First(bad) !in f.resources then UnknownResource
                       else ReservationOverCapacity
  {
    var pending := removing;
    while pending != {}
      invariant pending <= removing
      invariant forall id :: id in removing && id !in pending ==> !Objectionable(f, id)
      decreases |pending|
    {
      var id := Ordering.First(pending);
      if Objectionable(f, id) {
        ghost var bad := set x | x in removing && Objectionable(f, x);
        assert Ordering.IsFirst(pending, id);
        assert Ordering.IsFirst(bad, id);
        Ordering.FirstUnique(bad, Ordering.First(bad), id);
        return if id !in f.resources then UnknownResource else ReservationOverCapacity;
      }
      pending := pending - {id};
    }
    return Fine;
  }

  /** `Topology::validate_removal_many`, as the source runs it. */
  method ValidateRemovalMany(f: Fabric, removing: set<ResourceId>, h: Headroom) returns (verdict: Verdict)
    ensures verdict == Validate(f, removing, h)
    ensures Judges(f, removing, h, verdict)
  {
    ValidateJudges(f, removing, h);
    if removing == {} {
      return UnknownResource;
    }
    verdict := Screen(f, removing);
    if verdict != Fine {
      return;
    }
    var excluded := OutOfService(f) + removing;
    var pools := CheckPools(f, excluded, h);
    if !pools {
      return PoolExhausted;
    }
    var groups := CheckGroups(f, excluded);
    if !groups {
      return DiversityLost;
    }
    var routes := CheckRoutes(f, excluded);
    if !routes {
      return RouteSevered;
    }
    return Fine;
  }
}
