/**
 * Installation order by depth-first search: the plan of an install batch, the
 * order of the core apps, and the search that asks whether one app needs another.
 */
module AppOrder {
  import opened Wrappers
  import opened Graph

  datatype Stage = Optional | Core | Foundation | Unsupported

  datatype Service = Service(stage: Stage, dependencies: seq<string>)

  type Registry = map<string, Service>

  ghost predicate NoDuplicates(order: seq<string>) {
    forall i, j :: 0 <= i < j < |order| ==> order[i] != order[j]
  }

  function Items(order: seq<string>): set<string> { set x <- order }

  /** Each item comes after every item it leads to. */
  ghost predicate AfterWhatItNeeds(g: Graph, order: seq<string>, kept: set<string>) {
    forall i, y :: 0 <= i < |order| && y in kept && Proper(g, order[i], y) ==> y in order[..i]
  }

  /** Nothing `a` reaches is faulty or lies on a cycle. */
  ghost predicate Fine(g: Graph, faulty: set<string>, a: string) {
    forall x :: Reach(g, a, x) ==> x in g && x !in faulty && !Proper(g, x, x)
  }

  /**
   * The search both orders use. `graph` gives the dependencies it follows, `faulty` the apps it
   * refuses to visit, and `kept` the ones that take a place in the order once visited; those
   * already placed are not visited again.
   */
  class Search {
    const graph: Graph
    const faulty: set<string>
    const kept: set<string>
    var placed: set<string>
    var visiting: set<string>
    var order: seq<string>

    constructor (graph: Graph, faulty: set<string>, kept: set<string>)
      ensures this.graph == graph && this.faulty == faulty && this.kept == kept
      ensures order == [] && visiting == {} && Valid()
    {
      this.graph, this.faulty, this.kept := graph, faulty, kept;
      placed, visiting, order := {}, {}, [];
    }

    ghost predicate Valid()
      reads this
    {
      && placed == Items(order) && placed <= kept && NoDuplicates(order)
      && AfterWhatItNeeds(graph, order, kept)
      && (forall x <- order :: Fine(graph, faulty, x))
    }

    /** What a successful visit of `id` adds to an order. */
    ghost predicate Extended(before: seq<string>, id: string)
      reads this
    {
      && before <= order
      && (forall x <- order[|before|..] :: Reach(graph, id, x))
      && (forall x <- kept :: Reach(graph, id, x) ==> x in order)
    }

    /** With these dependencies visited, all they lead to is placed, and nothing else was since `start`. */
    ghost predicate Below(id: string, visited: seq<string>, start: nat)
      reads this
    {
      && start <= |order|
      && (forall x <- order[start..] :: Proper(graph, id, x))
      && (forall c <- visited :: Fine(graph, faulty, c) && PlacesAll(c))
    }

    ghost predicate PlacesAll(c: string)
      reads this
    {
      forall x <- kept :: Reach(graph, c, x) ==> x in order
    }

    lemma MoreBelow(id: string, visited: seq<string>, c: string, start: nat, before: seq<string>)
      requires before <= order && c in Succ(graph, id) && Extended(before, c) && Fine(graph, faulty, c)
      requires start <= |before| && (forall x <- before[start..] :: Proper(graph, id, x))
      requires forall d <- visited :: Fine(graph, faulty, d) && forall x <- kept :: Reach(graph, d, x) ==> x in before
      ensures Below(id, visited + [c], start)
    {
    }

    method Visit(id: string) returns (ok: bool)
      requires Valid() && visiting <= graph.Keys
      requires forall v <- visiting :: Proper(graph, v, id)
      modifies this
      ensures ok ==> Valid() && visiting == old(visiting) && Extended(old(order), id) && Fine(graph, faulty, id)
      ensures !ok ==> !Fine(graph, faulty, id)
      decreases graph.Keys - visiting
    {
      ReachSelf(graph, id);
      if id in placed {
        PlacedReach(id);
        return true;
      }
      if id in visiting || id !in graph || id in faulty { return false; }
      visiting := visiting + {id};
      var dependencies := graph[id];
      var i := 0;
      while i < |dependencies|
        invariant 0 <= i <= |dependencies| && Valid() && visiting == old(visiting) + {id}
        invariant old(order) <= order && Below(id, dependencies[..i], |old(order)|)
      {
        var c := dependencies[i];
        forall v | v in visiting ensures Proper(graph, v, c) {
          ReachSelf(graph, c);
          if v != id {
            ReachSplit(graph, v, id);
            ReachEdge(graph, id, c);
            ProperJoin(graph, v, id, c);
          }
        }
        ghost var before := order;
        ok := Visit(c);
        if !ok {
          FaultBelow(id, c);
          return false;
        }
        MoreBelow(id, dependencies[..i], c, |old(order)|, before);
        assert dependencies[..i + 1] == dependencies[..i] + [c];
        i := i + 1;
      }
      assert dependencies[..i] == dependencies;
      FineAbove(id);
      visiting := visiting - {id};
      NewlyReached(id, old(order));
      forall x | x in kept && Reach(graph, id, x) && x != id ensures x in order {
        ReachSplit(graph, id, x);
        var c :| c in Succ(graph, id) && Reach(graph, c, x);
        assert PlacesAll(c);
      }
      if id in kept {
        PlaceLast(id);
        placed := placed + {id};
        order := order + [id];
      }
      return true;
    }

    lemma PlacedReach(id: string)
      requires Valid() && id in placed
      ensures Extended(order, id) && Fine(graph, faulty, id)
    {
      var i :| 0 <= i < |order| && order[i] == id;
      forall x | x in kept && Reach(graph, id, x) ensures x in order {
        ReachSplit(graph, id, x);
      }
    }

    lemma FaultBelow(id: string, c: string)
      requires c in Succ(graph, id) && !Fine(graph, faulty, c)
      ensures !Fine(graph, faulty, id)
    {
      var x :| Reach(graph, c, x) && !(x in graph && x !in faulty && !Proper(graph, x, x));
      ReachEdge(graph, id, c);
      ReachJoin(graph, id, c, x);
    }

    lemma FineAbove(id: string)
      requires id in graph && id !in faulty && forall c <- graph[id] :: Fine(graph, faulty, c)
      ensures Fine(graph, faulty, id)
    {
      forall x | Reach(graph, id, x) ensures x in graph && x !in faulty && !Proper(graph, x, x) {
        ReachSplit(graph, id, x);
        if Proper(graph, id, x) {
          var c :| c in graph[id] && Reach(graph, c, x);
          assert Fine(graph, faulty, c);
        }
      }
    }

    lemma NewlyReached(id: string, before: seq<string>)
      requires before <= order && id !in before && Fine(graph, faulty, id)
      requires forall x <- order[|before|..] :: Proper(graph, id, x)
      ensures id !in order && forall x <- order[|before|..] :: Reach(graph, id, x)
    {
      ReachSelf(graph, id);
      assert order == before + order[|before|..];
      forall x | x in order[|before|..] ensures Reach(graph, id, x) { ReachSplit(graph, id, x); }
    }

    lemma PlaceLast(id: string)
      requires Valid() && id !in order && id in graph && forall c <- graph[id] :: PlacesAll(c)
      ensures NoDuplicates(order + [id]) && AfterWhatItNeeds(graph, order + [id], kept)
    {
      var all := order + [id];
      forall i, y | 0 <= i < |all| && y in kept && Proper(graph, all[i], y) ensures y in all[..i] {
        if i < |order| {
          assert all[i] == order[i] && all[..i] == order[..i];
        } else {
          assert all[..i] == order;
          var c :| c in Succ(graph, id) && Reach(graph, c, y);
          assert PlacesAll(c);
        }
      }
    }
  }

  /** Visits each of these in turn. */
  method Order(graph: Graph, faulty: set<string>, kept: set<string>, roots: seq<string>) returns (r: Option<seq<string>>)
    ensures r.Some? <==> forall a <- roots :: Fine(graph, faulty, a)
    ensures r.Some? ==>
      && NoDuplicates(r.value) && AfterWhatItNeeds(graph, r.value, kept)
      && (forall x :: x in r.value <==> x in kept && exists a <- roots :: Reach(graph, a, x))
  {
    var search := new Search(graph, faulty, kept);
    var i := 0;
    while i < |roots|
      invariant 0 <= i <= |roots| && fresh(search)
      invariant search.graph == graph && search.faulty == faulty && search.kept == kept
      invariant search.Valid() && search.visiting == {}
      invariant forall a <- roots[..i] :: Fine(graph, faulty, a) && search.PlacesAll(a)
      invariant forall x <- search.order :: exists a <- roots[..i] :: Reach(graph, a, x)
    {
      ghost var before := search.order;
      var ok := search.Visit(roots[i]);
      if !ok { return None; }
      assert roots[..i + 1] == roots[..i] + [roots[i]];
      assert search.order == before + search.order[|before|..];
      i := i + 1;
    }
    assert roots[..i] == roots;
    return Some(search.order);
  }

  // ---- The plan of an install batch --------------------------------------------------------

  /** What a plan is made against: the catalog, and which apps are there already. */
  datatype Host = Host(registry: Registry, installed: set<string>, coreReady: set<string>)

  predicate Platform(stage: Stage) { stage in {Core, Foundation} }

  /** A dependency that is an app to install in turn, rather than part of the platform. */
  predicate Followed(registry: Registry, id: string) {
    id in registry && !Platform(registry[id].stage)
  }

  function Followeds(registry: Registry, ids: seq<string>): (r: seq<string>)
    ensures forall x :: x in r <==> x in ids && Followed(registry, x)
  {
    if ids == [] then []
    else (if Followed(registry, ids[0]) then [ids[0]] else []) + Followeds(registry, ids[1..])
  }

  function PlanGraph(registry: Registry): Graph {
    map id <- registry :: Followeds(registry, registry[id].dependencies)
  }

  /** Unsupported, part of the platform though asked for, or missing something the plan cannot install. */
  predicate Refused(host: Host, requested: seq<string>, id: string) {
    id in host.registry &&
    var service := host.registry[id];
    || service.stage == Unsupported
    || (id in requested && service.stage != Optional)
    || exists d <- service.dependencies :: Missing(host, d)
  }

  predicate Missing(host: Host, d: string) {
    d !in host.registry || (host.registry[d].stage == Core && d !in host.coreReady)
  }

  function Refusals(host: Host, requested: seq<string>): set<string> {
    set id <- host.registry | Refused(host, requested, id)
  }

  function ToInstall(host: Host): set<string> { set id <- host.registry | id !in host.installed }

  /** The apps to install for these, in order, and whether each was asked for; None when there is no such plan. */
  method Plan(host: Host, requested: seq<string>) returns (r: Option<seq<(string, bool)>>)
    ensures r.Some? <==> requested != [] && NoDuplicates(requested) && Plannable(host, requested)
    ensures r.Some? ==> IsPlan(host, requested, r.value)
  {
    if requested == [] || |requested| != |Items(requested)| {
      DuplicatesShrink(requested);
      return None;
    }
    DuplicatesShrink(requested);
    var order := Order(PlanGraph(host.registry), Refusals(host, requested), ToInstall(host), requested);
    if order.None? { return None; }
    var o := order.value;
    r := Some(seq(|o|, k requires 0 <= k < |o| => (o[k], o[k] in requested)));
    assert Names(r.value) == o;
  }

  ghost predicate Plannable(host: Host, requested: seq<string>) {
    forall a <- requested :: Fine(PlanGraph(host.registry), Refusals(host, requested), a)
  }

  function Names(plan: seq<(string, bool)>): (r: seq<string>)
    ensures |r| == |plan| && forall k :: 0 <= k < |plan| ==> r[k] == plan[k].0
  {
    seq(|plan|, k requires 0 <= k < |plan| => plan[k].0)
  }

  /** Exactly the apps still to install that the request reaches, once each, after whatever they need. */
  ghost predicate IsPlan(host: Host, requested: seq<string>, plan: seq<(string, bool)>) {
    var g := PlanGraph(host.registry);
    && NoDuplicates(Names(plan)) && AfterWhatItNeeds(g, Names(plan), ToInstall(host))
    && (forall x :: x in Names(plan) <==> x in ToInstall(host) && exists a <- requested :: Reach(g, a, x))
    && (forall k :: 0 <= k < |plan| ==> (plan[k].1 <==> plan[k].0 in requested))
  }

  /** An app a plan can place: known, installable, not part of the platform if asked for, and all it names is there. */
  predicate Placeable(host: Host, requested: seq<string>, id: string) {
    && id in host.registry
    && var service := host.registry[id];
    && (service.stage.Optional? || service.stage.Core? || service.stage.Foundation?)
    && (id in requested ==> service.stage.Optional?)
    && forall d <- service.dependencies ::
         d in host.registry && (host.registry[d].stage.Core? ==> d in host.coreReady)
  }

  /** There is a plan exactly when all the request reaches can be placed and nothing of it needs itself. */
  lemma PlannableExactly(host: Host, requested: seq<string>)
    ensures var g := PlanGraph(host.registry);
      Plannable(host, requested) <==>
        forall a <- requested :: forall x :: Reach(g, a, x) ==> Placeable(host, requested, x) && !Proper(g, x, x)
    ensures forall id <- host.registry, x :: x in PlanGraph(host.registry)[id] <==>
      x in host.registry[id].dependencies && x in host.registry
      && !host.registry[x].stage.Core? && !host.registry[x].stage.Foundation?
  {
    var g := PlanGraph(host.registry);
    forall x ensures Placeable(host, requested, x) <==> x in g && x !in Refusals(host, requested) {
    }
    hide Placeable, Refusals, PlanGraph, Proper, Reach;
  }

  /** What is planned is always an optional app. */
  lemma PlannedAppsAreOptional(host: Host, requested: seq<string>, plan: seq<(string, bool)>, x: string)
    requires Plannable(host, requested) && IsPlan(host, requested, plan) && x in Names(plan)
    ensures host.registry[x].stage == Optional
  {
    var g := PlanGraph(host.registry);
    var a :| a in requested && Reach(g, a, x);
    assert Fine(g, Refusals(host, requested), a);
    ReachSplit(g, a, x);
    if a != x { var c := LastStep(g, a, x); }
  }

  lemma {:induction false} DuplicatesShrink(order: seq<string>)
    ensures |Items(order)| <= |order|
    ensures |order| == |Items(order)| <==> NoDuplicates(order)
    decreases |order|
  {
    if order != [] {
      var n := |order| - 1;
      DuplicatesShrink(order[..n]);
      assert order == order[..n] + [order[n]];
      assert Items(order) == Items(order[..n]) + {order[n]};
    }
  }

  // ---- The core apps -----------------------------------------------------------------------

  predicate IsCore(registry: Registry, id: string) { id in registry && registry[id].stage == Core }

  function Cores(registry: Registry, ids: seq<string>): (r: seq<string>)
    ensures forall x :: x in r <==> x in ids && IsCore(registry, x)
  {
    if ids == [] then []
    else (if IsCore(registry, ids[0]) then [ids[0]] else []) + Cores(registry, ids[1..])
  }

  function CoreGraph(registry: Registry): Graph {
    map id <- registry :: Cores(registry, registry[id].dependencies)
  }

  /** It needs an app that does not exist or that is only optional. */
  function Unmet(registry: Registry): set<string> {
    set id <- registry | exists d <- registry[id].dependencies :: d !in registry || registry[d].stage == Optional
  }

  /** A known app that names only known apps, none of them optional. */
  predicate Orderable(registry: Registry, id: string) {
    id in registry && forall d <- registry[id].dependencies :: d in registry && !registry[d].stage.Optional?
  }

  /** A core app can be ordered exactly when all it reaches can and none of that needs itself. */
  lemma OrderedExactly(registry: Registry, a: string)
    ensures var g := CoreGraph(registry);
      && (IsCore(registry, a) <==> a in registry && registry[a].stage.Core?)
      && (Fine(g, Unmet(registry), a) <==> forall x :: Reach(g, a, x) ==> Orderable(registry, x) && !Proper(g, x, x))
    ensures forall id <- registry, x :: x in CoreGraph(registry)[id] <==>
      x in registry[id].dependencies && x in registry && registry[x].stage.Core?
  {
    var g := CoreGraph(registry);
    forall x ensures Orderable(registry, x) <==> x in g && x !in Unmet(registry) {
    }
    hide Orderable, Unmet, CoreGraph, Proper, Reach;
  }

  /** `listing` is the catalog in its own order. Fails exactly on a cycle, an unknown or an optional dependency. */
  method CoreServices(registry: Registry, listing: seq<string>) returns (r: Option<seq<string>>)
    requires Items(listing) == registry.Keys
    ensures r.Some? <==> forall a :: IsCore(registry, a) ==> Fine(CoreGraph(registry), Unmet(registry), a)
    ensures r.Some? ==>
      && NoDuplicates(r.value) && (forall x :: x in r.value <==> IsCore(registry, x))
      && AfterWhatItNeeds(CoreGraph(registry), r.value, registry.Keys)
  {
    r := Order(CoreGraph(registry), Unmet(registry), registry.Keys, Cores(registry, listing));
    forall a, x | IsCore(registry, a) && Reach(CoreGraph(registry), a, x) ensures IsCore(registry, x) {
      var cores := set c <- registry | IsCore(registry, c);
      ClosedReach(CoreGraph(registry), cores, a, x);
    }
    forall a | IsCore(registry, a) ensures a in Cores(registry, listing) && Reach(CoreGraph(registry), a, a) {
      assert a in Items(listing);
      ReachSelf(CoreGraph(registry), a);
    }
  }

  // ---- Whether one app needs another --------------------------------------------------------

  function NeedsGraph(registry: Registry): Graph { map id <- registry :: registry[id].dependencies }

  /** The search of `_depends_on`: `seen` apps are not asked again. */
  class NeedSearch {
    const registry: Registry
    const wanted: string
    var seen: set<string>

    constructor (registry: Registry, wanted: string)
      ensures this.registry == registry && this.wanted == wanted && seen == {}
    {
      this.registry, this.wanted, seen := registry, wanted, {};
    }

    /** Asked with answer no: it does not name the wanted app, and whatever it names was asked too. */
    predicate Settled(id: string, asked: set<string>) {
      id in registry && wanted !in registry[id].dependencies && forall d <- registry[id].dependencies :: d in asked
    }

    method Visit(id: string) returns (found: bool, raised: bool)
      modifies this
      ensures old(seen) <= seen
      ensures found ==> Proper(NeedsGraph(registry), id, wanted)
      ensures raised ==> exists x :: Reach(NeedsGraph(registry), id, x) && x !in registry
      ensures !found && !raised ==> id in seen && forall x <- seen - old(seen) :: Settled(x, seen)
      decreases registry.Keys - seen
    {
      if id in seen { return false, false; }
      ghost var g := NeedsGraph(registry);
      ReachSelf(g, id);
      seen := seen + {id};
      if id !in registry { return false, true; }
      var dependencies := registry[id].dependencies;
      if wanted in dependencies {
        ReachSelf(g, wanted);
        return true, false;
      }
      var i := 0;
      while i < |dependencies|
        invariant 0 <= i <= |dependencies| && old(seen) + {id} <= seen
        invariant forall x <- seen - old(seen) - {id} :: Settled(x, seen)
        invariant forall d <- dependencies[..i] :: d in seen
      {
        var d := dependencies[i];
        assert d in Succ(g, id);
        ReachEdge(g, id, d);
        ghost var before := seen;
        found, raised := Visit(d);
        if found {
          ReachSplit(g, d, wanted);
          return true, false;
        }
        if raised {
          ghost var x :| Reach(g, d, x) && x !in registry;
          ReachJoin(g, id, d, x);
          return false, true;
        }
        forall x | x in seen - old(seen) - {id} ensures Settled(x, seen) {
          assert x in before ==> Settled(x, before);
        }
        i := i + 1;
      }
      return false, false;
    }
  }

  /** True only if `id` transitively needs `other`; and always then, when every app on the way is known. */
  method DependsOn(registry: Registry, id: string, other: string) returns (r: bool)
    ensures r ==> Proper(NeedsGraph(registry), id, other)
    ensures (forall x :: Reach(NeedsGraph(registry), id, x) ==> x in registry) ==>
      (r <==> Proper(NeedsGraph(registry), id, other))
  {
    var search := new NeedSearch(registry, other);
    var found, raised := search.Visit(id);
    if !found && !raised && Proper(NeedsGraph(registry), id, other) {
      ghost var x := LastStep(NeedsGraph(registry), id, other);
      assert forall a <- search.seen :: search.Settled(a, search.seen);
      ClosedReach(NeedsGraph(registry), search.seen, id, x);
      assert search.Settled(x, search.seen);
    }
    return found;
  }
}
